/** `GTTestKitColorTag` of src/components/inspection/testkit/index.tsx: the tag
    colour for a test-kit colour name, looked up case-insensitively. */
module TestKit {
  import opened Wrappers
  import opened JsText
  import opened Inspection
  import JsObject

  const ColorMap: map<string, string> := map[
    "blue" := "blue",
    "yellow" := "gold",
    "red" := "red",
    "orange" := "orange"]

  /** The tag as written: `colorMap[colorLower] || colorLower` reads a
      property of an object literal, so a name such as "constructor" finds the
      member inherited from `Object.prototype`. */
  function ColorTagAsWritten(color: Option<string>): (t: RenderedTag)
    ensures color.None? || color == Some("") ==> t == RenderedTag(JsObject.Str("default"), "N/A")
    ensures color.Some? && color.value != "" ==> t.text == color.value
  {
    if color.None? || color.value == "" then RenderedTag(JsObject.Str("default"), "N/A")
    else
      var colorLower := ToLowerCase(color.value);
      RenderedTag(JsObject.Or(JsObject.Get(ColorMap, colorLower), colorLower), color.value)
  }

  /** "Constructor" gets a function, not a colour string, as its tag colour. */
  lemma ConstructorHitsPrototype()
    ensures ColorTagAsWritten(Some("Constructor")).color == JsObject.Inherited("constructor")
  {
    var lower := ToLowerCase("Constructor");
    assert lower == "constructor";
  }

  /** The tag as intended: only the map's own keys are looked up. */
  function ColorTag(color: Option<string>): (t: Tag)
    ensures color.None? || color == Some("") ==> t == Tag("default", "N/A")
    ensures color.Some? && color.value != "" ==> t.text == color.value
    ensures IsLowerCase(t.color)
  {
    if color.None? || color.value == "" then Tag("default", "N/A")
    else
      var colorLower := ToLowerCase(color.value);
      Tag(if colorLower in ColorMap then ColorMap[colorLower] else colorLower, color.value)
  }

  /** Two spellings that differ only in case get the same tag colour. */
  lemma CaseInsensitive(a: string, b: string)
    requires a != "" && b != "" && ToLowerCase(a) == ToLowerCase(b)
    ensures ColorTag(Some(a)).color == ColorTag(Some(b)).color
  {
  }

  /** Blue, red and orange in any casing give their lower-case name; yellow gives "gold". */
  lemma KnownColors(c: string)
    requires c != ""
    ensures ToLowerCase(c) in {"blue", "red", "orange"} ==> ColorTag(Some(c)).color == ToLowerCase(c)
    ensures ToLowerCase(c) == "yellow" ==> ColorTag(Some(c)).color == "gold"
  {
  }

  /** Any other name falls back to itself in lower case. */
  lemma UnknownFallsBack(c: string)
    requires c != "" && ToLowerCase(c) !in ColorMap
    ensures ColorTag(Some(c)).color == ToLowerCase(c)
  {
  }

  /** The component as written agrees with the intended one on every name
      that is not an `Object.prototype` member. */
  lemma AsWrittenAgrees(color: Option<string>)
    requires color.Some? ==> ToLowerCase(color.value) !in JsObject.PrototypeMembers
    ensures ColorTagAsWritten(color) == RenderedTag(JsObject.Str(ColorTag(color).color), ColorTag(color).text)
  {
  }
}
