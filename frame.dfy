/**
 * The generated `frame` operation: a fixed-size frame, the argument-less
 * `frame()`, and a flexible frame, each optional length forwarded as given.
 */
module Frame {
  import opened Wrappers
  import opened ModifierValues

  const Name: string := "frame"

  /** An optional reference to an optional length, as `AttributeReference<CGFloat?>?`. */
  type Length = Option<AttributeReference<Option<real>>>

  /** `_frameModifier.Value`. */
  datatype Value =
    | Never
    | Case0(width: Length, height: Length, alignment: Alignment)
    | Case1
    | Case2(minWidth: Length, idealWidth: Length, maxWidth: Length,
            minHeight: Length, idealHeight: Length, maxHeight: Length, alignment: Alignment)

  function Body(value: Value, content: View): Body {
    match value
    case Never => Fatal(Unreachable)
    case Case0(width, height, alignment) =>
      Applied(Apply(content, Name, [Argument("width", LengthValue(width)), Argument("height", LengthValue(height)), Argument("alignment", AlignmentValue(alignment))]))
    case Case1 =>
      Applied(Apply(content, Name, []))
    case Case2(minWidth, idealWidth, maxWidth, minHeight, idealHeight, maxHeight, alignment) =>
      Applied(Apply(content, Name, FlexibleArguments(minWidth, idealWidth, maxWidth, minHeight, idealHeight, maxHeight, alignment)))
  }

  /** The arguments of `frame(minWidth:idealWidth:maxWidth:minHeight:idealHeight:maxHeight:alignment:)`. */
  function FlexibleArguments(minWidth: Length, idealWidth: Length, maxWidth: Length,
                             minHeight: Length, idealHeight: Length, maxHeight: Length, alignment: Alignment): seq<Argument> {
    [Argument("minWidth", LengthValue(minWidth)), Argument("idealWidth", LengthValue(idealWidth)), Argument("maxWidth", LengthValue(maxWidth)),
     Argument("minHeight", LengthValue(minHeight)), Argument("idealHeight", LengthValue(idealHeight)), Argument("maxHeight", LengthValue(maxHeight)),
     Argument("alignment", AlignmentValue(alignment))]
  }

  /** `init(width:height:alignment: = .center)`; the lengths have no default. */
  function Init0(width: Length, height: Length, alignment: Alignment := Center): (r: Value)
    ensures forall view :: Body(r, view) == Applied(Apply(view, Name, [Argument("width", LengthValue(width)), Argument("height", LengthValue(height)), Argument("alignment", AlignmentValue(alignment))]))
  {
    Case0(width, height, alignment)
  }

  /** `init()`: the call `frame()` with no argument at all. */
  function Init1(): (r: Value)
    ensures forall view :: Body(r, view) == Applied(Apply(view, Name, []))
  {
    Case1
  }

  /** `init(minWidth:idealWidth:maxWidth:minHeight:idealHeight:maxHeight:alignment: = .center)`. */
  function Init2(minWidth: Length, idealWidth: Length, maxWidth: Length,
                 minHeight: Length, idealHeight: Length, maxHeight: Length, alignment: Alignment := Center): (r: Value)
    ensures forall view :: Body(r, view) == Applied(Apply(view, Name, FlexibleArguments(minWidth, idealWidth, maxWidth, minHeight, idealHeight, maxHeight, alignment)))
  {
    Case2(minWidth, idealWidth, maxWidth, minHeight, idealHeight, maxHeight, alignment)
  }

  lemma BodyFailsOnlyOnNever(value: Value, content: View)
    ensures Body(value, content).Fatal? <==> value.Never?
    ensures Body(value, content).Fatal? ==> Body(value, content).message == Unreachable
    ensures Body(value, content).Applied? ==> Body(value, content).view.base == content && Body(value, content).view.call.modifier == Name
  {
  }

  lemma BodyInjective(value: Value, other: Value, content: View)
    requires Body(value, content) == Body(other, content)
    ensures value == other
  {
  }
}
