/** The inspection entities of src/interfaces/index.d.ts, with the fields the
    inspection components read. */
module Inspection {
  import opened Wrappers
  import JsObject

  datatype Inspector = Inspector(
    id: int,
    accountID: string,
    address: string,
    name: string,
    imageUrl: string,
    description: string,
    isAvailable: string)

  datatype InspectingTask = InspectingTask(
    taskID: int,
    taskName: string,
    taskType: string,
    inspectorID: int,
    status: string,
    testGTKitColor: Option<string>)

  /** An antd `Tag`: its `color` prop and its text. */
  datatype Tag = Tag(color: string, text: string)

  /** A `Tag` whose `color` prop was read from an object literal such as
      `colorMap[key] || fallback`: a string, or a member inherited from
      `Object.prototype` when the key names one. */
  datatype RenderedTag = RenderedTag(color: JsObject.Value, text: string)
}
