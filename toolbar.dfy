/**
 * The generated `toolbar` operation. Its cases are numbered as the
 * overloads that survived deduplication, so there is no case 2. Only the
 * case removing a default item is gated: compiled for iOS, macOS, watchOS
 * and tvOS, and applied from iOS 17, macOS 14, watchOS 10 and tvOS 17 on.
 */
module Toolbar {
  import opened Wrappers
  import opened Platforms
  import opened ModifierValues

  const Name: string := "toolbar"

  /** `#if os(iOS) || os(macOS) || os(watchOS) || os(tvOS)` around case 1. */
  const CompiledOn: set<OS> := {IOS, MacOS, WatchOS, TvOS}

  /** `#available(iOS 17.0, macOS 14.0, watchOS 10.0, tvOS 17.0, *)` in case 1. */
  const Minimums: map<OS, Version> :=
    map[IOS := Version(17, 0), MacOS := Version(14, 0), WatchOS := Version(10, 0), TvOS := Version(17, 0)]

  datatype Value =
    | Never
    | Case0(visibility: Visibility, bars: ToolbarPlacement)
    | Case1(defaultItemKind: Option<ToolbarDefaultItemKind>)
    | Case3(content: ToolbarContentReference)
    | Case4(id: AttributeReference<string>, customizable: CustomizableToolbarContentReference)

  predicate Declared(value: Value, os: OS) {
    value.Case1? ==> os in CompiledOn
  }

  function Body(value: Value, content: View, p: Platform): Body
    requires Declared(value, p.os)
  {
    match value
    case Never => Fatal(Unreachable)
    case Case0(visibility, bars) =>
      Applied(Apply(content, Name, [Argument("_", VisibilityValue(visibility)), Argument("for", PlacementValue(bars))]))
    case Case1(defaultItemKind) =>
      if Available(Minimums, p) then Applied(Apply(content, Name, [Argument("removing", ItemKindValue(defaultItemKind))]))
      else Applied(content)
    case Case3(toolbar) =>
      Applied(Apply(content, Name, [Argument("content", ToolbarContentValue(toolbar))]))
    case Case4(id, customizable) =>
      Applied(Apply(content, Name, [Argument("id", StringValue(id)), Argument("content", CustomizableToolbarContentValue(customizable))]))
  }

  /** `init(_ visibility:, for bars:)`. */
  function Init0(visibility: Visibility, bars: ToolbarPlacement): (r: Value)
    ensures forall os :: Declared(r, os)
    ensures forall view, p: Platform :: Body(r, view, p) == Applied(Apply(view, Name, [Argument("_", VisibilityValue(visibility)), Argument("for", PlacementValue(bars))]))
  {
    Case0(visibility, bars)
  }

  /** `init(removing defaultItemKind:)`. */
  function Init1(defaultItemKind: Option<ToolbarDefaultItemKind>): (r: Value)
    ensures forall os :: os in CompiledOn ==> Declared(r, os)
    ensures forall view, p: Platform :: p.os in CompiledOn && Available(Minimums, p) ==>
      Body(r, view, p) == Applied(Apply(view, Name, [Argument("removing", ItemKindValue(defaultItemKind))]))
    ensures forall view, p: Platform :: p.os in CompiledOn && !Available(Minimums, p) ==> Body(r, view, p) == Applied(view)
  {
    Case1(defaultItemKind)
  }

  /** `init(content: = [])`. */
  function Init3(content: ToolbarContentReference := ToolbarContentReference([])): (r: Value)
    ensures forall os :: Declared(r, os)
    ensures forall view, p: Platform :: Body(r, view, p) == Applied(Apply(view, Name, [Argument("content", ToolbarContentValue(content))]))
  {
    Case3(content)
  }

  /** `init(id:, content: = [])`. */
  function Init4(id: AttributeReference<string>, content: CustomizableToolbarContentReference := CustomizableToolbarContentReference([])): (r: Value)
    ensures forall os :: Declared(r, os)
    ensures forall view, p: Platform :: Body(r, view, p) == Applied(Apply(view, Name, [Argument("id", StringValue(id)), Argument("content", CustomizableToolbarContentValue(content))]))
  {
    Case4(id, content)
  }

  /** The content comes back unchanged exactly for case 1 on a version below its minimum. */
  lemma FallbackIffUnavailable(value: Value, content: View, p: Platform)
    requires Declared(value, p.os)
    ensures Body(value, content, p) == Applied(content) <==> value.Case1? && !Available(Minimums, p)
  {
    if !value.Never? && !(value.Case1? && !Available(Minimums, p)) {
      ApplyChanges(content, Name, Body(value, content, p).view.call.arguments);
    }
  }

  /** The ungated cases do not depend on the platform at all. */
  lemma UngatedIgnorePlatform(value: Value, content: View, p: Platform, q: Platform)
    requires !value.Case1?
    ensures Body(value, content, p) == Body(value, content, q)
  {
  }

  lemma BodyInjective(value: Value, other: Value, content: View, p: Platform)
    requires Declared(value, p.os) && Declared(other, p.os) && Available(Minimums, p)
    requires Body(value, content, p) == Body(other, content, p)
    ensures value == other
  {
  }
}
