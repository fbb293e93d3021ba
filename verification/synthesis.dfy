/** `generateResponseFromResults`: the reply text the service builds after a
    batch of calls. Each successful call contributes a line naming what it
    did (a fetch of the project contributes none), each failed call a
    bulleted line under a failure heading, and a batch that yields neither
    gets a fixed fallback text. */
module Synthesis {
  import opened Values
  import opened Store
  import opened Dispatcher
  import opened Text

  /** `calls[index]?.name || 'unknown'`: results beyond the calls, and calls
      with an empty name, are reported as `unknown`. */
  function CallName(calls: seq<FunctionCall>, i: nat): (name: string)
    ensures name != ""
    ensures i < |calls| && calls[i].name != "" ==> name == calls[i].name
    ensures !(i < |calls| && calls[i].name != "") ==> name == "unknown"
  {
    if i < |calls| && calls[i].name != "" then calls[i].name else "unknown"
  }

  /** A result paired with the name it is reported under. */
  datatype Outcome = Outcome(name: string, result: CallResult)

  function Labelled(results: seq<CallResult>, calls: seq<FunctionCall>): (os: seq<Outcome>)
    ensures |os| == |results|
    ensures forall i :: 0 <= i < |os| ==> os[i] == Outcome(CallName(calls, i), results[i])
  {
    seq(|results|, i requires 0 <= i < |results| => Outcome(CallName(calls, i), results[i]))
  }

  /** `${data.name}` and `${data.title}`: a payload without the field
      renders as `undefined`. */
  function NameOf(d: Data): string {
    if d.ListData? then d.list.name else "undefined"
  }

  function TitleOf(d: Data): string {
    if d.TaskData? then d.task.title else "undefined"
  }

  /** Whether a successful call is reported by a line of its own. */
  predicate Reported(o: Outcome) {
    o.result.success && o.name != "get_project_data"
  }

  /** The line of a reported success; every one starts with a check mark. */
  function SuccessLine(o: Outcome): (line: string)
    ensures line != "" && line[0] == '✅'
  {
    var name := o.name;
    var data := o.result.data;
    if name == "create_list" && data.Some? then "✅ Created list \"" + NameOf(data.value) + "\""
    else if name == "create_task" && data.Some? then "✅ Created task \"" + TitleOf(data.value) + "\""
    else if name == "update_list" then "✅ Updated list"
    else if name == "update_task" then "✅ Updated task"
    else if name == "delete_list" then "✅ Deleted list"
    else if name == "delete_task" then "✅ Deleted task"
    else if name == "move_task" then "✅ Moved task"
    else "✅ " + name + " completed"
  }

  /** `${name}: ${error || 'Unknown error'}` */
  function FailureLine(o: Outcome): string {
    o.name + ": " + (if o.result.error.Some? && o.result.error.value != "" then o.result.error.value else "Unknown error")
  }

  /** The values of the `Some` entries, in order: what pushing into an
      array from inside a `forEach` collects. */
  function Somes(xs: seq<Option<string>>): seq<string> {
    if xs == [] then []
    else (if xs[0].Some? then [xs[0].value] else []) + Somes(xs[1..])
  }

  /** What each outcome would push into `successOps`. */
  function SuccessEntries(os: seq<Outcome>): (xs: seq<Option<string>>)
    ensures |xs| == |os|
    ensures forall i :: 0 <= i < |os| ==> xs[i] == if Reported(os[i]) then Some(SuccessLine(os[i])) else None
  {
    seq(|os|, i requires 0 <= i < |os| => if Reported(os[i]) then Some(SuccessLine(os[i])) else None)
  }

  /** What each outcome would push into `failedOps`. */
  function FailureEntries(os: seq<Outcome>): (xs: seq<Option<string>>)
    ensures |xs| == |os|
    ensures forall i :: 0 <= i < |os| ==> xs[i] == if !os[i].result.success then Some(FailureLine(os[i])) else None
  {
    seq(|os|, i requires 0 <= i < |os| => if !os[i].result.success then Some(FailureLine(os[i])) else None)
  }

  /** `successOps` */
  function SuccessOps(os: seq<Outcome>): seq<string> {
    Somes(SuccessEntries(os))
  }

  /** `failedOps` */
  function FailedOps(os: seq<Outcome>): seq<string> {
    Somes(FailureEntries(os))
  }

  /** `failedOps.map(op => `• ${op}`)` */
  function Bullets(ops: seq<string>): (bs: seq<string>)
    ensures |bs| == |ops|
    ensures forall k :: 0 <= k < |ops| ==> bs[k] == "• " + ops[k]
  {
    seq(|ops|, k requires 0 <= k < |ops| => "• " + ops[k])
  }

  const FailureHeading := "❌ Failed operations:\n"

  const Fallback := "I processed your request" + " but couldn't generate a detailed response. Please check if the changes were applied."

  /** The failure section: the heading and one bullet per failure, or
      nothing when nothing failed. */
  function FailureSection(failed: seq<string>): string {
    if failed == [] then "" else FailureHeading + Join(Bullets(failed), "\n")
  }

  /** The text built from the success and failure lines: the successes
      one per line, then, if anything failed, a blank line (when there were
      successes), the heading and one bullet per failure; the fallback when
      both are empty. */
  function Compose(ok: seq<string>, failed: seq<string>): (text: string)
    ensures text != ""
  {
    var text := if ok != [] then Join(ok, "\n") else "";
    var text := if failed != [] then text + (if text != "" then "\n\n" else "") + FailureSection(failed) else text;
    if text == "" then Fallback else text
  }

  function Summarize(os: seq<Outcome>): (text: string)
    ensures text != ""
  {
    Compose(SuccessOps(os), FailedOps(os))
  }

  /** `generateResponseFromResults(results, calls)` */
  function Summary(results: seq<CallResult>, calls: seq<FunctionCall>): (text: string)
    ensures text != ""
  {
    Summarize(Labelled(results, calls))
  }

  /** The collected values are exactly those of the `Some` entries. */
  lemma {:induction false} SomesMembership(xs: seq<Option<string>>)
    ensures forall i :: 0 <= i < |xs| && xs[i].Some? ==> xs[i].value in Somes(xs)
    ensures forall v :: v in Somes(xs) ==> exists i :: 0 <= i < |xs| && xs[i] == Some(v)
  {
    if xs != [] {
      SomesMembership(xs[1..]);
      forall i | 1 <= i < |xs|
        ensures xs[i] == xs[1..][i - 1]
      {
      }
    }
  }

  /** Nothing is collected from entries that are all `None`. */
  lemma {:induction false} SomesOfNone(xs: seq<Option<string>>)
    requires forall i :: 0 <= i < |xs| ==> xs[i].None?
    ensures Somes(xs) == []
  {
    if xs != [] {
      assert forall i :: 0 <= i < |xs[1..]| ==> xs[1..][i] == xs[i + 1];
      SomesOfNone(xs[1..]);
    }
  }

  /** Collecting from two runs of entries collects from each in turn. */
  lemma {:induction false} SomesAppend(a: seq<Option<string>>, b: seq<Option<string>>)
    ensures Somes(a + b) == Somes(a) + Somes(b)
  {
    if a == [] {
      assert a + b == b;
    } else {
      assert (a + b)[0] == a[0];
      assert (a + b)[1..] == a[1..] + b;
      SomesAppend(a[1..], b);
    }
  }

  /** The success lines are those of the reported successes and no others;
      likewise the failure lines and the failed results. */
  lemma OpsMembership(os: seq<Outcome>)
    ensures forall i :: 0 <= i < |os| && Reported(os[i]) ==> SuccessLine(os[i]) in SuccessOps(os)
    ensures forall line :: line in SuccessOps(os) ==> exists i :: 0 <= i < |os| && Reported(os[i]) && SuccessLine(os[i]) == line
    ensures forall i :: 0 <= i < |os| && !os[i].result.success ==> FailureLine(os[i]) in FailedOps(os)
    ensures forall line :: line in FailedOps(os) ==> exists i :: 0 <= i < |os| && !os[i].result.success && FailureLine(os[i]) == line
  {
    SomesMembership(SuccessEntries(os));
    SomesMembership(FailureEntries(os));
  }

  /** Every success line starts with a check mark. */
  lemma SuccessOpsMarked(os: seq<Outcome>)
    ensures forall k :: 0 <= k < |SuccessOps(os)| ==> SuccessOps(os)[k] != "" && SuccessOps(os)[k][0] == '✅'
  {
    OpsMembership(os);
    forall k | 0 <= k < |SuccessOps(os)|
      ensures SuccessOps(os)[k] != "" && SuccessOps(os)[k][0] == '✅'
    {
      assert SuccessOps(os)[k] in SuccessOps(os);
    }
  }

  /** Splitting a batch splits its success and failure lines the same way. */
  lemma OpsAppend(a: seq<Outcome>, b: seq<Outcome>)
    ensures SuccessOps(a + b) == SuccessOps(a) + SuccessOps(b)
    ensures FailedOps(a + b) == FailedOps(a) + FailedOps(b)
  {
    assert SuccessEntries(a + b) == SuccessEntries(a) + SuccessEntries(b);
    SomesAppend(SuccessEntries(a), SuccessEntries(b));
    assert FailureEntries(a + b) == FailureEntries(a) + FailureEntries(b);
    SomesAppend(FailureEntries(a), FailureEntries(b));
  }

  /** A single outcome contributes its own line to exactly one of the two
      lists, or to neither when it is a successful fetch. Together with
      `OpsAppend` this fixes both lists for every batch. */
  lemma OpsOfOne(o: Outcome)
    ensures SuccessOps([o]) == (if Reported(o) then [SuccessLine(o)] else [])
    ensures FailedOps([o]) == (if !o.result.success then [FailureLine(o)] else [])
  {
    var xs := SuccessEntries([o]);
    assert xs[1..] == [];
    assert Somes(xs) == (if xs[0].Some? then [xs[0].value] else []) + Somes(xs[1..]);
    var fs := FailureEntries([o]);
    assert fs[1..] == [];
    assert Somes(fs) == (if fs[0].Some? then [fs[0].value] else []) + Somes(fs[1..]);
  }

  /** When there is a line to report, the text is the success lines in
      their order, the gap, and the failure section, with no fallback. */
  lemma ComposeShape(ok: seq<string>, failed: seq<string>)
    requires forall k :: 0 <= k < |ok| ==> ok[k] != ""
    requires ok != [] || failed != []
    ensures Compose(ok, failed) == Join(ok, "\n") + Gap(ok, failed) + FailureSection(failed)
  {
    assert failed != [] ==> FailureSection(failed)[0] == '❌';
    if ok != [] {
      JoinStart(ok, "\n");
    }
  }

  /** The whole layout of a batch's report in terms of the lines its
      outcomes collect; with `OpsAppend` this puts the lines in call
      order. */
  lemma SummarizeShape(os: seq<Outcome>)
    ensures var ok, failed := SuccessOps(os), FailedOps(os);
            Summarize(os) == if ok == [] && failed == [] then Fallback
                             else Join(ok, "\n") + Gap(ok, failed) + FailureSection(failed)
  {
    SuccessOpsMarked(os);
    if SuccessOps(os) != [] || FailedOps(os) != [] {
      ComposeShape(SuccessOps(os), FailedOps(os));
    }
  }

  /** Every success line lies before the failure heading and every
      failure's bullet after it. */
  lemma SuccessesBeforeFailures(ok: seq<string>, failed: seq<string>, i: nat, j: nat)
    requires forall k :: 0 <= k < |ok| ==> ok[k] != ""
    requires i < |ok| && j < |failed|
    ensures var text := Compose(ok, failed);
            exists h: nat | h + |FailureHeading| <= |text| ::
              && StartsAt(text, FailureHeading, h)
              && Contains(text[..h], ok[i])
              && Contains(text[h + |FailureHeading|..], "• " + failed[j])
  {
    ComposeShape(ok, failed);
    var head := Join(ok, "\n") + "\n\n";
    var bullets := Join(Bullets(failed), "\n");
    assert Compose(ok, failed) == head + FailureHeading + bullets;
    JoinHas(ok, "\n", i);
    ContainsBefore(Join(ok, "\n"), "\n\n", ok[i]);
    JoinHas(Bullets(failed), "\n", j);
    AroundMiddle(head, FailureHeading, bullets, ok[i], "• " + failed[j]);
  }

  /** The composed text is the fallback exactly when there are neither
      success nor failure lines. */
  lemma ComposeFallback(ok: seq<string>, failed: seq<string>)
    requires forall k :: 0 <= k < |ok| ==> ok[k] != "" && ok[k][0] == '✅'
    ensures Compose(ok, failed) == Fallback <==> ok == [] && failed == []
  {
    assert Fallback[0] == 'I';
    if ok != [] {
      JoinStart(ok, "\n");
      assert Compose(ok, failed)[0] == '✅';
    } else if failed != [] {
      assert Compose(ok, failed) == FailureSection(failed);
      assert Compose(ok, failed)[0] == '❌';
    }
  }

  /** Once the success lines join to something, the text starts with
      them and the failure section, if any, follows a blank line. */
  lemma SuccessesLead(ok: seq<string>, failed: seq<string>)
    requires Join(ok, "\n") != ""
    ensures Compose(ok, failed) == Join(ok, "\n") + (if failed != [] then "\n\n" + FailureSection(failed) else "")
  {
  }

  /** Every success line appears in the composed text. */
  lemma ComposeHasSuccess(ok: seq<string>, failed: seq<string>, k: nat)
    requires k < |ok|
    ensures Contains(Compose(ok, failed), ok[k])
  {
    if ok[k] == "" {
      assert StartsAt(Compose(ok, failed), ok[k], 0);
    } else {
      var head := Join(ok, "\n");
      var tail := if failed != [] then "\n\n" + FailureSection(failed) else "";
      JoinHas(ok, "\n", k);
      ContainsBefore(head, tail, ok[k]);
      SuccessesLead(ok, failed);
    }
  }

  /** The bullet of every failure line appears in the composed text. */
  lemma ComposeHasFailure(ok: seq<string>, failed: seq<string>, k: nat)
    requires k < |failed|
    ensures Contains(Compose(ok, failed), "• " + failed[k])
  {
    var bullet := "• " + failed[k];
    var pre, post := JoinHasPiece(Bullets(failed), "\n", k);
    var bullets := Join(Bullets(failed), "\n");
    var head := if ok != [] then Join(ok, "\n") else "";
    var lead := head + (if head != "" then "\n\n" else "") + FailureHeading;
    assert FailureSection(failed) == FailureHeading + bullets;
    assert Compose(ok, failed) == lead + bullets;
    assert lead + bullets == (lead + pre) + bullet + post;
    Occurs(lead + pre, bullet, post);
  }

  /** The fallback text is used exactly when every result is a successful
      project fetch (including when there are none). */
  lemma FallbackExactly(os: seq<Outcome>)
    ensures Summarize(os) == Fallback <==>
      forall i :: 0 <= i < |os| ==> os[i].result.success && os[i].name == "get_project_data"
  {
    OpsMembership(os);
    SuccessOpsMarked(os);
    var ok, failed := SuccessOps(os), FailedOps(os);
    ComposeFallback(ok, failed);
    if ok != [] {
      assert ok[0] in ok;
    }
    if failed != [] {
      assert failed[0] in failed;
    }
  }

  /** Every failed call is reported with its error (or `Unknown error`)
      under the failure heading, and every reported success with its line. */
  lemma Mentions(os: seq<Outcome>, i: nat)
    requires i < |os|
    ensures !os[i].result.success ==> Contains(Summarize(os), "• " + FailureLine(os[i]))
    ensures Reported(os[i]) ==> Contains(Summarize(os), SuccessLine(os[i]))
  {
    OpsMembership(os);
    var ok, failed := SuccessOps(os), FailedOps(os);
    if !os[i].result.success {
      var k :| 0 <= k < |failed| && failed[k] == FailureLine(os[i]);
      ComposeHasFailure(ok, failed, k);
    } else if Reported(os[i]) {
      var k :| 0 <= k < |ok| && ok[k] == SuccessLine(os[i]);
      ComposeHasSuccess(ok, failed, k);
    }
  }

  /** Creating a list named `Testing` is reported as exactly that. */
  lemma CreatedListReport(l: List)
    requires l.name == "Testing"
    ensures Summary([Succeeded(Some(ListData(l)))], [FunctionCall("create_list", Fields(map["name" := Str("Testing")]))])
            == "✅ Created list \"Testing\""
  {
    var o := Outcome("create_list", Succeeded(Some(ListData(l))));
    assert Labelled([Succeeded(Some(ListData(l)))], [FunctionCall("create_list", Fields(map["name" := Str("Testing")]))]) == [o];
    OpsOfOne(o);
    assert SuccessLine(o) == "✅ Created list \"Testing\"";
  }

  lemma ComposeOneEach(ok: string, line: string)
    requires ok != ""
    ensures Compose([ok], [line]) == ok + "\n\n" + FailureHeading + "• " + line
  {
    assert Bullets([line]) == ["• " + line];
  }

  lemma MixedOps(r: CallResult)
    requires !r.success && r.error == None
    ensures var os := [Outcome("update_task", Succeeded(None)), Outcome("create_task", r)];
            SuccessOps(os) == ["✅ Updated task"] && FailedOps(os) == ["create_task" + ": " + "Unknown error"]
  {
    var updated := Outcome("update_task", Succeeded(None));
    var failed := Outcome("create_task", r);
    assert [updated, failed] == [updated] + [failed];
    OpsAppend([updated], [failed]);
    OpsOfOne(updated);
    OpsOfOne(failed);
    assert "update_task"[7] != "update_list"[7];
  }

  /** A successful task update followed by a failed creation without error
      text. */
  lemma MixedReport(r: CallResult)
    requires !r.success && r.error == None
    ensures Summary([Succeeded(None), r], [FunctionCall("update_task", Missing(false)), FunctionCall("create_task", Missing(false))])
            == "✅ Updated task" + "\n\n" + FailureHeading + "• " + "create_task" + ": " + "Unknown error"
  {
    assert Labelled([Succeeded(None), r], [FunctionCall("update_task", Missing(false)), FunctionCall("create_task", Missing(false))])
           == [Outcome("update_task", Succeeded(None)), Outcome("create_task", r)];
    MixedOps(r);
    ComposeOneEach("✅ Updated task", "create_task" + ": " + "Unknown error");
  }
}
