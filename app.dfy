/** `customTitleHandler` of src/App.tsx: the document title for a resource. */
module App {
  import opened Wrappers
  import opened JsText
  import opened Storage

  datatype Meta = Meta(labelText: Option<string>)
  datatype Resource = Resource(meta: Option<Meta>)

  const BaseTitle := "BFarm"

  /** `resource?.meta?.label`. */
  function TitleSegment(resource: Option<Resource>): Option<string> {
    if resource.Some? && resource.value.meta.Some? then resource.value.meta.value.labelText else None
  }

  function CustomTitleHandler(resource: Option<Resource>): (title: string)
    ensures title != [] && EndsWith(title, BaseTitle)
    ensures !Truthy(TitleSegment(resource)) ==> title == BaseTitle
    ensures Truthy(TitleSegment(resource)) ==> title == TitleSegment(resource).value + " | " + BaseTitle
  {
    var titleSegment := TitleSegment(resource);
    if Truthy(titleSegment) then titleSegment.value + " | " + BaseTitle else BaseTitle
  }

  /** The label, with none and "" alike. */
  function LabelText(resource: Option<Resource>): string {
    TitleSegment(resource).GetOr("")
  }

  /** Titles tell labels apart: equal titles come from equal labels (counting
      a missing label as ""). */
  lemma {:induction false} TitleDeterminesLabel(r1: Option<Resource>, r2: Option<Resource>)
    requires CustomTitleHandler(r1) == CustomTitleHandler(r2)
    ensures LabelText(r1) == LabelText(r2)
  {
    var t := CustomTitleHandler(r1);
    var suffix := " | " + BaseTitle;
    if Truthy(TitleSegment(r1)) && Truthy(TitleSegment(r2)) {
      var l1, l2 := TitleSegment(r1).value, TitleSegment(r2).value;
      assert t == l1 + suffix == l2 + suffix;
      assert |l1| == |l2|;
      assert l1 == t[..|l1|] == l2;
    }
  }
}
