/** The pure parts of `InspectorListCard`, src/components/inspection/list-card/index.tsx:
    the status colour of a task and the join of inspectors with their tasks. */
module ListCard {
  import opened Wrappers
  import opened Inspection
  import JsObject

  const StatusColors: map<string, string> := map[
    "completed" := "green",
    "ongoing" := "blue",
    "pending" := "gold",
    "cancel" := "red"]

  /** `getStatusColor(status)`: `colorMap[status || ""] || "gray"`, read from
      an object literal; a status named like an `Object.prototype` member
      finds that member. */
  function GetStatusColor(status: Option<string>): (c: JsObject.Value)
    ensures c == JsObject.Str("green") <==> status == Some("completed")
    ensures c == JsObject.Str("blue") <==> status == Some("ongoing")
    ensures c == JsObject.Str("gold") <==> status == Some("pending")
    ensures c == JsObject.Str("red") <==> status == Some("cancel")
    ensures c == JsObject.Str("gray") <==>
              status.None? || (status.value !in StatusColors && status.value !in JsObject.PrototypeMembers)
    ensures status.Some? && status.value in JsObject.PrototypeMembers ==> c == JsObject.Inherited(status.value)
  {
    var key := if status.Some? then status.value else "";
    JsObject.Or(JsObject.Get(StatusColors, key), "gray")
  }

  /** `tasks.find(t => t.inspectorID === id)`. */
  function FindTask(tasks: seq<InspectingTask>, id: int): (r: Option<InspectingTask>)
    ensures r.None? <==> forall i :: 0 <= i < |tasks| ==> tasks[i].inspectorID != id
    ensures r.Some? ==> exists i :: 0 <= i < |tasks| && tasks[i] == r.value
                                    && (forall j :: 0 <= j < i ==> tasks[j].inspectorID != id)
    ensures r.Some? ==> r.value.inspectorID == id
  {
    if tasks == [] then None
    else if tasks[0].inspectorID == id then Some(tasks[0])
    else
      var r := FindTask(tasks[1..], id);
      if r.Some? then
        ghost var i :| 0 <= i < |tasks[1..]| && tasks[1..][i] == r.value
                        && (forall j :: 0 <= j < i ==> tasks[1..][j].inspectorID != id);
        assert tasks[i + 1] == r.value;
        r
      else r
  }

  /** `IInspectorWithTask`: the inspector's fields and its `task`. */
  datatype InspectorWithTask = InspectorWithTask(inspector: Inspector, task: Option<InspectingTask>)

  /** `combinedData`: the inspector list, unloaded as `undefined`, joined with
      the list of tasks, unloaded as `undefined`. */
  function CombinedData(inspectorData: Option<seq<Inspector>>, taskData: Option<seq<InspectingTask>>)
    : (r: seq<InspectorWithTask>)
    ensures inspectorData.None? ==> r == []
    ensures inspectorData.Some? ==> |r| == |inspectorData.value|
    ensures inspectorData.Some? ==> forall i :: 0 <= i < |r| ==>
              && r[i].inspector == inspectorData.value[i]
              && (taskData.None? ==> r[i].task.None?)
              && (taskData.Some? ==> r[i].task == FindTask(taskData.value, inspectorData.value[i].id))
  {
    match inspectorData
    case None => []
    case Some(inspectors) =>
      seq(|inspectors|, i requires 0 <= i < |inspectors| =>
        var task := if taskData.Some? then FindTask(taskData.value, inspectors[i].id) else None;
        InspectorWithTask(inspectors[i], task))
  }

  /** Each entry's task, when there is one, is assigned to that inspector,
      and every other task list position before it is not. */
  lemma CombinedTaskBelongs(inspectors: seq<Inspector>, tasks: seq<InspectingTask>, i: nat)
    requires i < |inspectors|
    ensures var e := CombinedData(Some(inspectors), Some(tasks))[i];
            && (e.task.Some? ==> e.task.value.inspectorID == e.inspector.id && e.task.value in tasks)
            && (e.task.None? <==> forall t :: t in tasks ==> t.inspectorID != inspectors[i].id)
  {
    var e := CombinedData(Some(inspectors), Some(tasks))[i];
    if e.task.Some? {
      var k :| 0 <= k < |tasks| && tasks[k] == e.task.value;
    }
  }
}
