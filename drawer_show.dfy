/** The pure parts of `InspectorDrawerShow`,
    src/components/inspection/drawer-show/index.tsx: the inspector's own tasks
    and the three tag lookups. */
module DrawerShow {
  import opened Wrappers
  import opened JsText
  import opened Inspection
  import JsObject

  /** `tasks.filter(task => task.inspectorID === id)`. */
  function TasksOf(tasks: seq<InspectingTask>, id: int): (r: seq<InspectingTask>)
    ensures |r| <= |tasks|
    ensures forall t :: t in r ==> t in tasks && t.inspectorID == id
    ensures forall t :: t in tasks && t.inspectorID == id ==> t in r
  {
    if tasks == [] then []
    else (if tasks[0].inspectorID == id then [tasks[0]] else []) + TasksOf(tasks[1..], id)
  }

  /** Filtering keeps the original order: it distributes over concatenation. */
  lemma {:induction false} TasksOfAppend(a: seq<InspectingTask>, b: seq<InspectingTask>, id: int)
    ensures TasksOf(a + b, id) == TasksOf(a, id) + TasksOf(b, id)
  {
    if a == [] {
      assert a + b == b;
    } else {
      assert (a + b)[0] == a[0];
      assert (a + b)[1..] == a[1..] + b;
      TasksOfAppend(a[1..], b, id);
    }
  }

  /** Each matching task is kept as often as it occurs; others are dropped. */
  lemma {:induction false} TasksOfCounts(tasks: seq<InspectingTask>, id: int, t: InspectingTask)
    ensures multiset(TasksOf(tasks, id))[t] == if t.inspectorID == id then multiset(tasks)[t] else 0
  {
    if tasks != [] {
      TasksOfCounts(tasks[1..], id, t);
      assert tasks == [tasks[0]] + tasks[1..];
    }
  }

  /** `inspectorTasks`: missing task data, or no inspector, gives no tasks. */
  function InspectorTasks(taskData: Option<seq<InspectingTask>>, inspector: Option<Inspector>): (r: seq<InspectingTask>)
    ensures taskData.None? || inspector.None? ==> r == []
    ensures taskData.Some? && inspector.Some? ==> r == TasksOf(taskData.value, inspector.value.id)
  {
    match (taskData, inspector)
    case (Some(tasks), Some(i)) => TasksOf(tasks, i.id)
    case _ => []
  }

  /** The tasks panel: the list of tasks, or the "no tasks" text. */
  datatype TaskSection = TaskList(tasks: seq<InspectingTask>) | NoTasks(text: string)

  const NoTasksText := "No tasks assigned to this inspector."

  function Section(taskData: Option<seq<InspectingTask>>, inspector: Option<Inspector>): (s: TaskSection)
    ensures s.NoTasks? <==> InspectorTasks(taskData, inspector) == []
    ensures s.NoTasks? ==> s.text == NoTasksText
    ensures s.TaskList? ==> s.tasks == InspectorTasks(taskData, inspector)
    ensures taskData.None? ==> s == NoTasks(NoTasksText)
  {
    var inspectorTasks := InspectorTasks(taskData, inspector);
    if |inspectorTasks| > 0 then TaskList(inspectorTasks) else NoTasks(NoTasksText)
  }

  const StatusColors: map<string, string> := map[
    "completed" := "green",
    "ongoing" := "blue",
    "pending" := "gold",
    "cancel" := "red"]

  /** `TaskStatusTag`: `colorMap[status] || "gray"`, read from an object
      literal, labelled with the status in upper case. */
  function TaskStatusTag(status: string): (t: RenderedTag)
    ensures t.color == JsObject.Str("green") <==> status == "completed"
    ensures t.color == JsObject.Str("blue") <==> status == "ongoing"
    ensures t.color == JsObject.Str("gold") <==> status == "pending"
    ensures t.color == JsObject.Str("red") <==> status == "cancel"
    ensures t.color == JsObject.Str("gray") <==> status !in StatusColors && status !in JsObject.PrototypeMembers
    ensures status in JsObject.PrototypeMembers ==> t.color == JsObject.Inherited(status)
    ensures t.text == ToUpperCase(status)
  {
    RenderedTag(JsObject.Or(JsObject.Get(StatusColors, status), "gray"), ToUpperCase(status))
  }

  /** `AvailabilityTag`. */
  function AvailabilityTag(availability: string): (t: Tag)
    ensures availability == "Available" ==> t == Tag("green", "Available")
    ensures availability != "Available" ==> t == Tag("red", "Not Available")
  {
    var isAvailable := availability == "Available";
    Tag(if isAvailable then "green" else "red", if isAvailable then "Available" else "Not Available")
  }

  const KitColors: map<string, string> := map[
    "Blue" := "blue",
    "Yellow" := "gold",
    "Red" := "red",
    "Orange" := "orange"]

  /** This file's own `GTTestKitColorTag`: `colorMap[color] || "gray"`, read
      from an object literal with no case conversion. */
  function KitColorTag(color: Option<string>): (t: RenderedTag)
    ensures color.None? || color == Some("") ==> t == RenderedTag(JsObject.Str("default"), "N/A")
    ensures color == Some("Yellow") ==> t == RenderedTag(JsObject.Str("gold"), "Yellow")
    ensures color.Some? && color.value != "" ==>
              && t.text == color.value
              && (color.value in KitColors ==> t.color == JsObject.Str(KitColors[color.value]))
              && (t.color == JsObject.Str("gray") <==>
                    color.value !in KitColors && color.value !in JsObject.PrototypeMembers)
              && (color.value in JsObject.PrototypeMembers ==> t.color == JsObject.Inherited(color.value))
  {
    if color.None? || color.value == "" then RenderedTag(JsObject.Str("default"), "N/A")
    else RenderedTag(JsObject.Or(JsObject.Get(KitColors, color.value), "gray"), color.value)
  }

  /** Unlike the stand-alone component, a lower-case name is unknown here. */
  lemma KitColorCaseSensitive()
    ensures KitColorTag(Some("yellow")).color == JsObject.Str("gray")
    ensures KitColorTag(Some("blue")).color == JsObject.Str("gray")
  {
  }

  /** A name that `Object.prototype` defines finds the inherited member. */
  lemma KitColorPrototypeMember()
    ensures KitColorTag(Some("toString")).color == JsObject.Inherited("toString")
    ensures KitColorTag(Some("toString")).text == "toString"
  {
  }
}
