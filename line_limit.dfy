/**
 * The generated `lineLimit` operation: five overloads told apart by the
 * type of their unlabelled first argument.
 */
module LineLimit {
  import opened Wrappers
  import opened ModifierValues

  const Name: string := "lineLimit"

  /** `_lineLimitModifier.Value`; the ranges are `a...`, `...b` and `a...b`. */
  datatype Value =
    | Never
    | Case0(number: Option<AttributeReference<Option<int>>>)
    | Case1(from: int)
    | Case2(through: int)
    | Case3(lower: int, upper: int)
    | Case4(limit: AttributeReference<int>, reservesSpace: AttributeReference<bool>)

  function Body(value: Value, content: View): Body {
    match value
    case Never => Fatal(Unreachable)
    case Case0(number) => Applied(Apply(content, Name, [Argument("_", OptionalIntValue(number))]))
    case Case1(from) => Applied(Apply(content, Name, [Argument("_", RangeFromValue(from))]))
    case Case2(through) => Applied(Apply(content, Name, [Argument("_", RangeThroughValue(through))]))
    case Case3(lower, upper) => Applied(Apply(content, Name, [Argument("_", ClosedRangeValue(lower, upper))]))
    case Case4(limit, reservesSpace) =>
      Applied(Apply(content, Name, [Argument("_", IntValue(limit)), Argument("reservesSpace", BoolValue(reservesSpace))]))
  }

  /** `init(_ number: AttributeReference<Int?>?)`. */
  function Init0(number: Option<AttributeReference<Option<int>>>): (r: Value)
    ensures forall view :: Body(r, view) == Applied(Apply(view, Name, [Argument("_", OptionalIntValue(number))]))
  {
    Case0(number)
  }

  /** `init(_ limit: PartialRangeFrom<Int>)`. */
  function Init1(from: int): (r: Value)
    ensures forall view :: Body(r, view) == Applied(Apply(view, Name, [Argument("_", RangeFromValue(from))]))
  {
    Case1(from)
  }

  /** `init(_ limit: PartialRangeThrough<Int>)`. */
  function Init2(through: int): (r: Value)
    ensures forall view :: Body(r, view) == Applied(Apply(view, Name, [Argument("_", RangeThroughValue(through))]))
  {
    Case2(through)
  }

  /** `init(_ limit: ClosedRange<Int>)`; a closed range never has its bounds reversed. */
  function Init3(lower: int, upper: int): (r: Value)
    requires lower <= upper
    ensures forall view :: Body(r, view) == Applied(Apply(view, Name, [Argument("_", ClosedRangeValue(lower, upper))]))
  {
    Case3(lower, upper)
  }

  /** `init(_ limit: AttributeReference<Int>, reservesSpace: AttributeReference<Bool>)`. */
  function Init4(limit: AttributeReference<int>, reservesSpace: AttributeReference<bool>): (r: Value)
    ensures forall view :: Body(r, view) == Applied(Apply(view, Name, [Argument("_", IntValue(limit)), Argument("reservesSpace", BoolValue(reservesSpace))]))
  {
    Case4(limit, reservesSpace)
  }

  lemma BodyFailsOnlyOnNever(value: Value, content: View)
    ensures Body(value, content).Fatal? <==> value.Never?
    ensures Body(value, content).Fatal? ==> Body(value, content).message == Unreachable
    ensures Body(value, content).Applied? ==> Body(value, content).view.base == content && Body(value, content).view.call.modifier == Name
  {
  }

  lemma BodyInjective(value: Value, other: Value, content: View)
    requires Body(value, content) == Body(other, content)
    ensures value == other
  {
  }
}
