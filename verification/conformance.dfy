/** How the dispatcher agrees with the action catalog it advertises to the
    model: the same eight names, the same required parameters for six of
    the actions, and two places where the two disagree (`move_task`'s
    parameters and `create_list`'s default position). */
module Conformance {
  import opened Values
  import opened Catalog
  import opened Dispatcher

  /** The dispatcher's `switch` knows exactly the catalog's names. */
  lemma SwitchMatchesCatalog(name: string)
    ensures Route(name).Some? <==> Declares(name)
  {
    CatalogNames(name);
  }

  /** Every required parameter of a schema is one of its declared
      properties. */
  lemma RequiredAreDeclared(k: nat, key: string)
    requires k < |Schemas| && key in Schemas[k].required
    ensures key in PropertyNames(Schemas[k])
  {
    var s := Schemas[k];
    var i :| 0 <= i < |s.required| && s.required[i] == key;
    assert s.properties[i].name == key;
  }

  /** Whether the arguments give every parameter the schema requires. */
  predicate GivesRequired(s: Schema, a: Args) {
    forall key :: key in s.required ==> Given(a, key)
  }

  /** For the list and task actions other than `move_task`, the arguments
      pass the dispatcher's checks exactly when they give every parameter
      the catalog marks required. */
  lemma RequiredChecksMatch(k: nat, a: Args)
    requires k < 6
    ensures Route(Schemas[k].name).Some?
    ensures ValidFor(Route(Schemas[k].name).value, a) <==> GivesRequired(Schemas[k], a)
  {
    var s := Schemas[k];
    if k == 0 {
      assert s.required == ["name"];
      assert Given(a, "name") ==> a.Fields?;
    } else if k == 1 || k == 2 {
      assert s.required == ["list_uid"];
    } else if k == 3 {
      assert s.required == ["list_uid", "title"];
    } else {
      assert s.required == ["task_uid"];
    }
  }

  /** `from_list_uid`, which the dispatcher wants, is not a declared
      parameter of `move_task`. */
  lemma FromListUndeclared()
    ensures Schemas[6].name == "move_task"
    ensures "from_list_uid" !in PropertyNames(Schemas[6])
  {
    var props := Schemas[6].properties;
    assert props == [Param("task_uid", StringParam), Param("target_list_uid", StringParam), Param("position", NumberParam)];
    assert "from_list_uid"[0] != "task_uid"[0] && "from_list_uid"[0] != "target_list_uid"[0] && "from_list_uid"[0] != "position"[0];
  }

  /** Arguments that follow the catalog's `move_task` schema — no keys
      beyond its declared ones — never pass the dispatcher's checks, which
      want `from_list_uid` and `to_list_uid` instead of `target_list_uid`. */
  lemma MoveTaskSchemaRejected(a: Args)
    requires a.Fields? && forall key :: key in a.m ==> key in PropertyNames(Schemas[6])
    ensures Schemas[6].name == "move_task"
    ensures !Validates(FunctionCall("move_task", a))
  {
    FromListUndeclared();
    assert !MoveTaskValid(a);
    assert Route("move_task") == Some(MoveTaskAction);
  }

  /** A list created without a position is put first, not after the
      existing lists as the catalog describes: the request carries 0 for
      every project. */
  lemma CreateListDefaultsToFront(b: Store.Backend, st: State, a: Args)
    requires CreateListValid(a) && !Given(a, "position")
    ensures CreateList(b, st, a).state.log[|st.log|] == Store.ApiCreateList(NewListRequest(st.projectUid, a))
    ensures NewListRequest(st.projectUid, a).position == Num(0)
  {
  }
}
