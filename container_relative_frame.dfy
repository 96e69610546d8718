/**
 * The generated `containerRelativeFrame` operation. Both cases are compiled
 * only for iOS, macOS, watchOS and tvOS, and `body` applies them only from
 * iOS 17, macOS 14, watchOS 10 and tvOS 17 on; on an older version it
 * returns the content as it is.
 */
module ContainerRelativeFrame {
  import opened Platforms
  import opened ModifierValues

  const Name: string := "containerRelativeFrame"

  /** `#if os(iOS) || os(macOS) || os(watchOS) || os(tvOS)` around both cases. */
  const CompiledOn: set<OS> := {IOS, MacOS, WatchOS, TvOS}

  /** `#available(iOS 17.0, macOS 14.0, watchOS 10.0, tvOS 17.0, *)` in both cases. */
  const Minimums: map<OS, Version> :=
    map[IOS := Version(17, 0), MacOS := Version(14, 0), WatchOS := Version(10, 0), TvOS := Version(17, 0)]

  datatype Value =
    | Never
    | Case0(axes: set<Axis>, alignment: Alignment)
    | Case1(axes: set<Axis>, count: AttributeReference<int>, span: AttributeReference<int>,
            spacing: AttributeReference<real>, alignment: Alignment)

  /** The value's case exists in the build for `os`. */
  predicate Declared(value: Value, os: OS) {
    !value.Never? ==> os in CompiledOn
  }

  /** The SwiftUI call of a case, once its availability check has passed. */
  function CaseCall(value: Value, content: View): View
    requires !value.Never?
  {
    match value
    case Case0(axes, alignment) =>
      Apply(content, Name, [Argument("_", AxesValue(axes)), Argument("alignment", AlignmentValue(alignment))])
    case Case1(axes, count, span, spacing, alignment) =>
      Apply(content, Name, [Argument("_", AxesValue(axes)), Argument("count", IntValue(count)), Argument("span", IntValue(span)),
                            Argument("spacing", FloatValue(spacing)), Argument("alignment", AlignmentValue(alignment))])
  }

  /** `body(content:)` on the platform `p`. */
  function Body(value: Value, content: View, p: Platform): Body
    requires Declared(value, p.os)
  {
    if value.Never? then Fatal(Unreachable)
    else if Available(Minimums, p) then Applied(CaseCall(value, content))
    else Applied(content)
  }

  /** `init(_ axes:, alignment: = .center)`. */
  function Init0(axes: set<Axis>, alignment: Alignment := Center): (r: Value)
    ensures forall os :: os in CompiledOn ==> Declared(r, os)
    ensures forall view, p: Platform :: p.os in CompiledOn && Available(Minimums, p) ==>
      Body(r, view, p) == Applied(Apply(view, Name, [Argument("_", AxesValue(axes)), Argument("alignment", AlignmentValue(alignment))]))
    ensures forall view, p: Platform :: p.os in CompiledOn && !Available(Minimums, p) ==> Body(r, view, p) == Applied(view)
  {
    Case0(axes, alignment)
  }

  /** `init(_ axes:, count:, span:, spacing:, alignment: = .center)`. */
  function Init1(axes: set<Axis>, count: AttributeReference<int>, span: AttributeReference<int>,
                 spacing: AttributeReference<real>, alignment: Alignment := Center): (r: Value)
    ensures forall os :: os in CompiledOn ==> Declared(r, os)
    ensures forall view, p: Platform :: p.os in CompiledOn && Available(Minimums, p) ==>
      Body(r, view, p) == Applied(Apply(view, Name, [Argument("_", AxesValue(axes)), Argument("count", IntValue(count)), Argument("span", IntValue(span)),
                                                     Argument("spacing", FloatValue(spacing)), Argument("alignment", AlignmentValue(alignment))]))
    ensures forall view, p: Platform :: p.os in CompiledOn && !Available(Minimums, p) ==> Body(r, view, p) == Applied(view)
  {
    Case1(axes, count, span, spacing, alignment)
  }

  /** The content comes back unchanged exactly when a real case fails its availability check. */
  lemma FallbackIffUnavailable(value: Value, content: View, p: Platform)
    requires Declared(value, p.os)
    ensures Body(value, content, p) == Applied(content) <==> !value.Never? && !Available(Minimums, p)
  {
    if !value.Never? && Available(Minimums, p) {
      ApplyChanges(content, Name, CaseCall(value, content).call.arguments);
    }
  }

  /** On xrOS no case but `_never` exists. */
  lemma NotOnXrOS(value: Value)
    ensures Declared(value, XrOS) <==> value.Never?
  {
  }

  /** iOS 16.4 falls back to the content; iOS 17.0 applies the call. */
  lemma IOSVersions(value: Value, content: View)
    requires !value.Never?
    ensures Body(value, content, Platform(IOS, Version(16, 4))) == Applied(content)
    ensures Body(value, content, Platform(IOS, Version(17, 0))) == Applied(CaseCall(value, content))
  {
  }

  /** Where the check passes, cases map one-to-one onto SwiftUI calls. */
  lemma BodyInjective(value: Value, other: Value, content: View, p: Platform)
    requires Declared(value, p.os) && Declared(other, p.os) && Available(Minimums, p)
    requires Body(value, content, p) == Body(other, content, p)
    ensures value == other
  {
  }
}
