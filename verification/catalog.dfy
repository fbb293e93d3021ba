/** The closed catalog of actions the language model may propose, with the
    parameter names and types each declares and the ones it marks required.
    The natural-language descriptions are not part of the model. */
module Catalog {
  import opened Values

  datatype ParamType = StringParam | NumberParam | BooleanParam

  datatype Param = Param(name: string, kind: ParamType)

  datatype Schema = Schema(name: string, properties: seq<Param>, required: seq<string>)

  /** `FUNCTION_SCHEMAS`, in declaration order. */
  const Schemas: seq<Schema> := [
    Schema("create_list",
      [Param("name", StringParam), Param("color", StringParam), Param("position", NumberParam)],
      ["name"]),
    Schema("update_list",
      [Param("list_uid", StringParam), Param("name", StringParam), Param("color", StringParam),
       Param("position", NumberParam)],
      ["list_uid"]),
    Schema("delete_list",
      [Param("list_uid", StringParam)],
      ["list_uid"]),
    Schema("create_task",
      [Param("list_uid", StringParam), Param("title", StringParam), Param("description", StringParam),
       Param("priority", StringParam), Param("status", StringParam), Param("color", StringParam),
       Param("due_date", StringParam)],
      ["list_uid", "title"]),
    Schema("update_task",
      [Param("task_uid", StringParam), Param("title", StringParam), Param("description", StringParam),
       Param("priority", StringParam), Param("status", StringParam), Param("color", StringParam),
       Param("due_date", StringParam), Param("is_completed", BooleanParam)],
      ["task_uid"]),
    Schema("delete_task",
      [Param("task_uid", StringParam)],
      ["task_uid"]),
    Schema("move_task",
      [Param("task_uid", StringParam), Param("target_list_uid", StringParam),
       Param("position", NumberParam)],
      ["task_uid", "target_list_uid"]),
    Schema("get_project_data", [], [])
  ]

  function PropertyNames(s: Schema): set<string> {
    set p | p in s.properties :: p.name
  }

  function RequiredSet(s: Schema): set<string> {
    set k | k in s.required
  }

  /** Whether the catalog declares an action of this name. */
  predicate Declares(name: string) {
    exists k :: 0 <= k < |Schemas| && Schemas[k].name == name
  }

  /** The catalog has eight entries and no two share a name. */
  lemma EightDistinctActions()
    ensures |Schemas| == 8
    ensures forall i, j :: 0 <= i < j < |Schemas| ==> Schemas[i].name != Schemas[j].name
  {
    var names := seq(8, i requires 0 <= i < 8 => Schemas[i].name);
    assert names == ["create_list", "update_list", "delete_list", "create_task",
                     "update_task", "delete_task", "move_task", "get_project_data"];
  }

  /** The declared action names are exactly these eight. */
  lemma CatalogNames(name: string)
    ensures Declares(name) <==>
      name == "create_list" || name == "update_list" || name == "delete_list"
      || name == "create_task" || name == "update_task" || name == "delete_task"
      || name == "move_task" || name == "get_project_data"
  {
    EightDistinctActions();
    assert Schemas[0].name == "create_list" && Schemas[1].name == "update_list";
    assert Schemas[2].name == "delete_list" && Schemas[3].name == "create_task";
    assert Schemas[4].name == "update_task" && Schemas[5].name == "delete_task";
    assert Schemas[6].name == "move_task" && Schemas[7].name == "get_project_data";
  }

  /** The required sets, action by action. */
  lemma RequiredSets()
    ensures Schemas[0].name == "create_list" && RequiredSet(Schemas[0]) == {"name"}
    ensures Schemas[1].name == "update_list" && RequiredSet(Schemas[1]) == {"list_uid"}
    ensures Schemas[2].name == "delete_list" && RequiredSet(Schemas[2]) == {"list_uid"}
    ensures Schemas[3].name == "create_task" && RequiredSet(Schemas[3]) == {"list_uid", "title"}
    ensures Schemas[4].name == "update_task" && RequiredSet(Schemas[4]) == {"task_uid"}
    ensures Schemas[5].name == "delete_task" && RequiredSet(Schemas[5]) == {"task_uid"}
    ensures Schemas[6].name == "move_task" && RequiredSet(Schemas[6]) == {"task_uid", "target_list_uid"}
    ensures Schemas[7].name == "get_project_data" && RequiredSet(Schemas[7]) == {}
  {
  }
}
