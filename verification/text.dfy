/** String helpers shared by the frontend and the backend configuration:
    whitespace trimming, substring search, joining and splitting, and the
    decimal rendering of a count. */
module Text {

  /** The whitespace that both `String.prototype.trim` and Go's
      `strings.TrimSpace` remove, restricted to the ASCII controls, the space
      and the no-break space. */
  predicate IsSpace(c: char) {
    c == ' ' || c == '\t' || c == '\n' || c == '\r'
    || c == '\U{000B}' || c == '\U{000C}' || c == '\U{00A0}'
  }

  predicate AllSpace(s: string) {
    forall i :: 0 <= i < |s| ==> IsSpace(s[i])
  }

  /** The index of the first character at or after `i` that is not
      whitespace, or `|s|` when there is none. */
  function SkipSpace(s: string, i: nat): (n: nat)
    requires i <= |s|
    ensures i <= n <= |s|
    ensures forall k :: i <= k < n ==> IsSpace(s[k])
    ensures n < |s| ==> !IsSpace(s[n])
    decreases |s| - i
  {
    if i < |s| && IsSpace(s[i]) then SkipSpace(s, i + 1) else i
  }

  /** The index just past the last character before `j` that is not
      whitespace, or 0 when there is none. */
  function BackSpace(s: string, j: nat): (n: nat)
    requires j <= |s|
    ensures n <= j
    ensures forall k :: n <= k < j ==> IsSpace(s[k])
    ensures n > 0 ==> !IsSpace(s[n - 1])
  {
    if j > 0 && IsSpace(s[j - 1]) then BackSpace(s, j - 1) else j
  }

  /** `s.trim()` in JavaScript, `strings.TrimSpace(s)` in Go: the slice of
      `s` after its leading whitespace, with only whitespace after it, and
      neither starting nor ending with whitespace. */
  function Trim(s: string): (r: string)
    ensures |r| <= |s|
    ensures SkipSpace(s, 0) + |r| <= |s| && r == s[SkipSpace(s, 0)..SkipSpace(s, 0) + |r|]
    ensures forall k :: 0 <= k < SkipSpace(s, 0) ==> IsSpace(s[k])
    ensures forall k :: SkipSpace(s, 0) + |r| <= k < |s| ==> IsSpace(s[k])
    ensures r != [] ==> !IsSpace(r[0]) && !IsSpace(r[|r| - 1])
  {
    var i := SkipSpace(s, 0);
    var j := BackSpace(s, |s|);
    if j <= i then
      assert i == |s|;
      []
    else s[i..j]
  }

  /** A string trims to the empty string exactly when it is all whitespace. */
  lemma TrimEmptyIffAllSpace(s: string)
    ensures Trim(s) == [] <==> AllSpace(s)
  {
    var i := SkipSpace(s, 0);
    if i < |s| {
      assert !IsSpace(s[i]) && BackSpace(s, |s|) > i;
    }
  }

  /** Trimming twice is trimming once. */
  lemma TrimIdempotent(s: string)
    ensures Trim(Trim(s)) == Trim(s)
  {
    var r := Trim(s);
    if r != [] {
      TrimmedAlready(r);
    }
  }

  predicate StartsAt(s: string, part: string, i: nat) {
    i + |part| <= |s| && s[i..i + |part|] == part
  }

  /** `s.includes(part)` / `strings.Contains(s, part)`. */
  predicate Contains(s: string, part: string) {
    exists i: nat | i <= |s| :: StartsAt(s, part, i)
  }

  /** `parts.join(sep)` / `strings.Join(parts, sep)`. */
  function Join(parts: seq<string>, sep: string): string
  {
    if |parts| == 0 then ""
    else if |parts| == 1 then parts[0]
    else parts[0] + sep + Join(parts[1..], sep)
  }

  /** `strings.Split(s, string(sep))` for a one-character separator: never
      empty (`Split("", ",")` is `[""]`), and no piece holds the separator. */
  function Split(s: string, sep: char): (r: seq<string>)
    ensures |r| >= 1
    ensures forall k :: 0 <= k < |r| ==> sep !in r[k]
  {
    if s == [] then [""]
    else
      var rest := Split(s[1..], sep);
      if s[0] == sep then [""] + rest
      else [[s[0]] + rest[0]] + rest[1..]
  }

  lemma JoinCons(head: string, tail: seq<string>, sep: string)
    requires |tail| >= 1
    ensures Join([head] + tail, sep) == head + sep + Join(tail, sep)
  {
    assert ([head] + tail)[1..] == tail;
  }

  lemma JoinPrepend(c: char, first: string, tail: seq<string>, sep: string)
    ensures Join([[c] + first] + tail, sep) == [c] + Join([first] + tail, sep)
  {
    if |tail| == 0 {
    } else {
      JoinCons([c] + first, tail, sep);
      JoinCons(first, tail, sep);
    }
  }

  /** Joining the pieces of a split with the separator gives the string back. */
  lemma {:induction false} SplitThenJoin(s: string, sep: char)
    ensures Join(Split(s, sep), [sep]) == s
  {
    if s != [] {
      var rest := Split(s[1..], sep);
      SplitThenJoin(s[1..], sep);
      if s[0] == sep {
        JoinCons("", rest, [sep]);
      } else {
        JoinPrepend(s[0], rest[0], rest[1..], [sep]);
        assert [rest[0]] + rest[1..] == rest;
      }
    }
  }

  /** Splitting a join of separator-free pieces gives the pieces back. */
  lemma {:induction false} JoinThenSplit(parts: seq<string>, sep: char)
    requires |parts| >= 1
    requires forall k :: 0 <= k < |parts| ==> sep !in parts[k]
    ensures Split(Join(parts, [sep]), sep) == parts
    decreases |parts|, |parts[0]|
  {
    var head := parts[0];
    if head == [] {
      if |parts| > 1 {
        JoinCons(head, parts[1..], [sep]);
        JoinThenSplit(parts[1..], sep);
        assert Join(parts, [sep])[1..] == Join(parts[1..], [sep]);
      }
    } else {
      var shorter := [head[1..]] + parts[1..];
      JoinPrepend(head[0], head[1..], parts[1..], [sep]);
      assert [head[0]] + head[1..] == head;
      assert [[head[0]] + head[1..]] + parts[1..] == parts;
      assert forall k :: 0 <= k < |shorter| ==> sep !in shorter[k] by {
        forall k | 0 <= k < |shorter|
          ensures sep !in shorter[k]
        {
          if k > 0 {
            assert shorter[k] == parts[k];
          }
        }
      }
      JoinThenSplit(shorter, sep);
      assert Join(parts, [sep])[1..] == Join(shorter, [sep]);
      assert shorter[1..] == parts[1..];
    }
  }

  /** The character of a decimal digit. */
  function DigitChar(d: nat): (c: char)
    requires d < 10
    ensures '0' <= c <= '9'
  {
    (48 + d) as char
  }

  predicate IsDigits(s: string) {
    forall i :: 0 <= i < |s| ==> '0' <= s[i] <= '9'
  }

  /** The decimal text of a count, as `${n}` renders it. */
  function NatText(n: nat): (r: string)
    ensures r != [] && IsDigits(r)
  {
    if n < 10 then [DigitChar(n)] else NatText(n / 10) + [DigitChar(n % 10)]
  }

  /** Reads a string of decimal digits back as a number. */
  function ParseDigits(s: string): nat
    requires IsDigits(s)
  {
    if s == [] then 0 else 10 * ParseDigits(s[..|s| - 1]) + (s[|s| - 1] as int - 48)
  }

  /** The decimal rendering of a count reads back as that count. */
  lemma {:induction false} ParseNatText(n: nat)
    ensures ParseDigits(NatText(n)) == n
  {
    if n >= 10 {
      var t := NatText(n);
      assert t[..|t| - 1] == NatText(n / 10);
      ParseNatText(n / 10);
    }
  }

  /** A string occurs in any string built around it. */
  lemma Occurs(pre: string, x: string, post: string)
    ensures Contains(pre + x + post, x)
  {
    assert StartsAt(pre + x + post, x, |pre|) by {
      assert (pre + x + post)[|pre|..|pre| + |x|] == x;
    }
  }

  /** Every piece of a join sits somewhere inside it. */
  lemma {:induction false} JoinHasPiece(parts: seq<string>, sep: string, k: nat) returns (pre: string, post: string)
    requires k < |parts|
    ensures Join(parts, sep) == pre + parts[k] + post
  {
    if |parts| == 1 {
      pre, post := "", "";
    } else if k == 0 {
      pre, post := "", sep + Join(parts[1..], sep);
    } else {
      var p, q := JoinHasPiece(parts[1..], sep, k - 1);
      pre, post := parts[0] + sep + p, q;
    }
  }

  /** A head followed by the start of the middle part is a prefix of the
      whole. */
  lemma PrefixThrough(head: string, mid: string, rest: string, tail: string)
    ensures head + mid <= head + (mid + rest) + tail
  {
    var s := head + (mid + rest) + tail;
    assert s[..|head + mid|] == head + mid;
  }

  /** Every piece of a join occurs in it. */
  lemma JoinHas(parts: seq<string>, sep: string, k: nat)
    requires k < |parts|
    ensures Contains(Join(parts, sep), parts[k])
  {
    var pre, post := JoinHasPiece(parts, sep, k);
    Occurs(pre, parts[k], post);
  }

  /** In a string built from a head, a middle and a tail, the middle starts
      at a position before which the head's contents lie and after which
      the tail's do. */
  lemma AroundMiddle(head: string, mid: string, tail: string, x: string, y: string)
    requires Contains(head, x) && Contains(tail, y)
    ensures var s := head + mid + tail;
            exists h: nat | h + |mid| <= |s| ::
              StartsAt(s, mid, h) && Contains(s[..h], x) && Contains(s[h + |mid|..], y)
  {
    var s := head + mid + tail;
    var h := |head|;
    assert s[..h] == head;
    assert s[h..h + |mid|] == mid;
    assert s[h + |mid|..] == tail;
    assert StartsAt(s, mid, h);
  }

  /** A join of pieces whose first one is non-empty starts with its first
      character. */
  lemma JoinStart(parts: seq<string>, sep: string)
    requires |parts| >= 1 && parts[0] != ""
    ensures Join(parts, sep) != "" && Join(parts, sep)[0] == parts[0][0]
  {
  }

  /** Whatever occurs in a part occurs in any string built around it. */
  lemma ContainsWithin(pre: string, mid: string, post: string, x: string)
    requires Contains(mid, x)
    ensures Contains(pre + mid + post, x)
  {
    var i: nat :| i <= |mid| && StartsAt(mid, x, i);
    assert (pre + mid + post)[|pre| + i..|pre| + i + |x|] == mid[i..i + |x|];
    assert StartsAt(pre + mid + post, x, |pre| + i);
  }

  /** Whatever occurs in a string occurs in any extension of it. */
  lemma ContainsBefore(mid: string, post: string, x: string)
    requires Contains(mid, x)
    ensures Contains(mid + post, x)
  {
    var i: nat :| i <= |mid| && StartsAt(mid, x, i);
    assert (mid + post)[i..i + |x|] == mid[i..i + |x|];
    assert StartsAt(mid + post, x, i);
  }

  /** The separator between the two sections of a report: a blank line when both are
      present. */
  function Gap(ok: seq<string>, failed: seq<string>): string {
    if ok != [] && failed != [] then "\n\n" else ""
  }

  /** The concatenation of all pieces, `parts.join('')`. */
  function Concat(parts: seq<string>): string {
    if parts == [] then "" else parts[0] + Concat(parts[1..])
  }

  /** Every piece of a concatenation sits somewhere inside it. */
  lemma {:induction false} ConcatHasPiece(parts: seq<string>, k: nat) returns (pre: string, post: string)
    requires k < |parts|
    ensures Concat(parts) == pre + parts[k] + post
  {
    if k == 0 {
      pre, post := "", Concat(parts[1..]);
    } else {
      var p, q := ConcatHasPiece(parts[1..], k - 1);
      pre, post := parts[0] + p, q;
    }
  }

  /** Every part of a join whose separator ends with `mark`, itself preceded
      by `mark`, appears with its mark. */
  lemma {:induction false} MarkedJoinHas(mark: string, parts: seq<string>, k: nat)
    requires k < |parts|
    ensures Contains(mark + Join(parts, "\n" + mark), mark + parts[k])
  {
    var sep := "\n" + mark;
    if |parts| == 1 {
      Occurs("", mark + parts[0], "");
      assert "" + (mark + parts[0]) + "" == mark + Join(parts, sep);
    } else if k == 0 {
      Occurs("", mark + parts[0], sep + Join(parts[1..], sep));
      assert "" + (mark + parts[0]) + (sep + Join(parts[1..], sep)) == mark + Join(parts, sep);
    } else {
      MarkedJoinHas(mark, parts[1..], k - 1);
      ContainsWithin(mark + parts[0] + "\n", mark + Join(parts[1..], sep), "", mark + parts[k]);
      assert mark + parts[0] + "\n" + (mark + Join(parts[1..], sep)) + "" == mark + Join(parts, sep);
    }
  }

  /** A string that neither starts nor ends with whitespace trims to
      itself. */
  lemma TrimmedAlready(s: string)
    requires s != [] && !IsSpace(s[0]) && !IsSpace(s[|s| - 1])
    ensures Trim(s) == s
  {
    assert SkipSpace(s, 0) == 0 && BackSpace(s, |s|) == |s|;
    assert s[0..|s|] == s;
  }
}
