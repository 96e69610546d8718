/**
 * The generated `contextMenu` operation. Both cases are compiled only for
 * iOS, tvOS and macOS, and each has its own availability check; on a
 * version below it `body` returns the content as it is.
 */
module ContextMenu {
  import opened Platforms
  import opened ModifierValues

  const Name: string := "contextMenu"

  /** `#if os(iOS) || os(tvOS) || os(macOS)` around both cases. */
  const CompiledOn: set<OS> := {IOS, TvOS, MacOS}

  /** `#available(iOS 13.0, tvOS 14.0, macOS 10.15, *)`: the menu alone. */
  const Minimums0: map<OS, Version> := map[IOS := Version(13, 0), TvOS := Version(14, 0), MacOS := Version(10, 15)]

  /** `#available(iOS 16.0, macOS 13.0, tvOS 16.0, *)`: the menu with a preview. */
  const Minimums1: map<OS, Version> := map[IOS := Version(16, 0), MacOS := Version(13, 0), TvOS := Version(16, 0)]

  datatype Value =
    | Never
    | Case0(menuItems: ViewReference)
    | Case1(menuItems: ViewReference, preview: ViewReference)

  predicate Declared(value: Value, os: OS) {
    !value.Never? ==> os in CompiledOn
  }

  /** The availability check in the case's branch of `body`. */
  function Minimums(value: Value): map<OS, Version>
    requires !value.Never?
  {
    if value.Case0? then Minimums0 else Minimums1
  }

  function CaseCall(value: Value, content: View): View
    requires !value.Never?
  {
    match value
    case Case0(menuItems) => Apply(content, Name, [Argument("menuItems", ViewsValue(menuItems))])
    case Case1(menuItems, preview) =>
      Apply(content, Name, [Argument("menuItems", ViewsValue(menuItems)), Argument("preview", ViewsValue(preview))])
  }

  function Body(value: Value, content: View, p: Platform): Body
    requires Declared(value, p.os)
  {
    if value.Never? then Fatal(Unreachable)
    else if Available(Minimums(value), p) then Applied(CaseCall(value, content))
    else Applied(content)
  }

  /** `init(menuItems: = [])`. */
  function Init0(menuItems: ViewReference := NoViews): (r: Value)
    ensures forall os :: os in CompiledOn ==> Declared(r, os)
    ensures forall view, p: Platform :: p.os in CompiledOn && Available(Minimums0, p) ==>
      Body(r, view, p) == Applied(Apply(view, Name, [Argument("menuItems", ViewsValue(menuItems))]))
    ensures forall view, p: Platform :: p.os in CompiledOn && !Available(Minimums0, p) ==> Body(r, view, p) == Applied(view)
  {
    Case0(menuItems)
  }

  /** `init(menuItems: = [], preview: = [])`. */
  function Init1(menuItems: ViewReference := NoViews, preview: ViewReference := NoViews): (r: Value)
    ensures forall os :: os in CompiledOn ==> Declared(r, os)
    ensures forall view, p: Platform :: p.os in CompiledOn && Available(Minimums1, p) ==>
      Body(r, view, p) == Applied(Apply(view, Name, [Argument("menuItems", ViewsValue(menuItems)), Argument("preview", ViewsValue(preview))]))
    ensures forall view, p: Platform :: p.os in CompiledOn && !Available(Minimums1, p) ==> Body(r, view, p) == Applied(view)
  {
    Case1(menuItems, preview)
  }

  lemma FallbackIffUnavailable(value: Value, content: View, p: Platform)
    requires Declared(value, p.os)
    ensures Body(value, content, p) == Applied(content) <==> !value.Never? && !Available(Minimums(value), p)
  {
    if !value.Never? && Available(Minimums(value), p) {
      ApplyChanges(content, Name, CaseCall(value, content).call.arguments);
    }
  }

  /** On watchOS and xrOS no case but `_never` exists. */
  lemma NotOnWatchOSOrXrOS(value: Value)
    ensures Declared(value, WatchOS) <==> value.Never?
    ensures Declared(value, XrOS) <==> value.Never?
  {
  }

  /** From iOS 13 to iOS 15 the menu applies but the menu with a preview falls back to the content. */
  lemma PreviewNeedsIOS16(menuItems: ViewReference, preview: ViewReference, content: View, minor: nat)
    ensures Body(Init0(menuItems), content, Platform(IOS, Version(15, minor))) == Applied(CaseCall(Init0(menuItems), content))
    ensures Body(Init1(menuItems, preview), content, Platform(IOS, Version(15, minor))) == Applied(content)
    ensures Body(Init1(menuItems, preview), content, Platform(IOS, Version(16, 0))) == Applied(CaseCall(Init1(menuItems, preview), content))
  {
  }

  /** Every version that has the preview form also has the plain menu. */
  lemma PreviewImpliesMenu(p: Platform)
    requires p.os in CompiledOn && Available(Minimums1, p)
    ensures Available(Minimums0, p)
  {
  }

  lemma BodyInjective(value: Value, other: Value, content: View, p: Platform)
    requires Declared(value, p.os) && Declared(other, p.os)
    requires !value.Never? ==> Available(Minimums(value), p)
    requires !other.Never? ==> Available(Minimums(other), p)
    requires Body(value, content, p) == Body(other, content, p)
    ensures value == other
  {
  }
}
