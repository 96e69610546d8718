/**
 * The generated `background` operation: one case per SwiftUI overload,
 * one initialiser per case, and `body` applying the overload of the case.
 */
module Background {
  import opened ModifierValues

  const Name: string := "background"

  /** `_backgroundModifier.Value`; `Never` is `_never`, which no initialiser produces. */
  datatype Value =
    | Never
    | Case0(alignment: Alignment, content: ViewReference)
    | Case1(edges: set<Edge>)
    | Case2(style: ShapeStyle, edges: set<Edge>)
    | Case3(shape: Shape, fillStyle: FillStyle)
    | Case4(style: ShapeStyle, shape: Shape, fillStyle: FillStyle)
    | Case5(insettable: InsettableShape, fillStyle: FillStyle)
    | Case6(style: ShapeStyle, insettable: InsettableShape, fillStyle: FillStyle)

  /** `body(content:)`: the SwiftUI call of the case, with the case's values as its arguments. */
  function Body(value: Value, content: View): Body {
    match value
    case Never => Fatal(Unreachable)
    case Case0(alignment, views) =>
      Applied(Apply(content, Name, [Argument("alignment", AlignmentValue(alignment)), Argument("content", ViewsValue(views))]))
    case Case1(edges) =>
      Applied(Apply(content, Name, [Argument("ignoresSafeAreaEdges", EdgesValue(edges))]))
    case Case2(style, edges) =>
      Applied(Apply(content, Name, [Argument("_", StyleValue(style)), Argument("ignoresSafeAreaEdges", EdgesValue(edges))]))
    case Case3(shape, fillStyle) =>
      Applied(Apply(content, Name, [Argument("in", ShapeValue(shape)), Argument("fillStyle", FillStyleValue(fillStyle))]))
    case Case4(style, shape, fillStyle) =>
      Applied(Apply(content, Name, [Argument("_", StyleValue(style)), Argument("in", ShapeValue(shape)), Argument("fillStyle", FillStyleValue(fillStyle))]))
    case Case5(insettable, fillStyle) =>
      Applied(Apply(content, Name, [Argument("in", InsettableShapeValue(insettable)), Argument("fillStyle", FillStyleValue(fillStyle))]))
    case Case6(style, insettable, fillStyle) =>
      Applied(Apply(content, Name, [Argument("_", StyleValue(style)), Argument("in", InsettableShapeValue(insettable)), Argument("fillStyle", FillStyleValue(fillStyle))]))
  }

  // ---------------------------------------------------------------------
  // Initialisers: each forwards its arguments, defaults included, to the
  // SwiftUI overload with the same labels.

  /** `init(alignment: = .center, content: = [])`. */
  function Init0(alignment: Alignment := Center, content: ViewReference := NoViews): (r: Value)
    ensures forall view :: Body(r, view) == Applied(Apply(view, Name, [Argument("alignment", AlignmentValue(alignment)), Argument("content", ViewsValue(content))]))
  {
    Case0(alignment, content)
  }

  /** `init(ignoresSafeAreaEdges: = .all)`. */
  function Init1(edges: set<Edge> := AllEdges): (r: Value)
    ensures forall view :: Body(r, view) == Applied(Apply(view, Name, [Argument("ignoresSafeAreaEdges", EdgesValue(edges))]))
  {
    Case1(edges)
  }

  /** `init(_ style:, ignoresSafeAreaEdges: = .all)`. */
  function Init2(style: ShapeStyle, edges: set<Edge> := AllEdges): (r: Value)
    ensures forall view :: Body(r, view) == Applied(Apply(view, Name, [Argument("_", StyleValue(style)), Argument("ignoresSafeAreaEdges", EdgesValue(edges))]))
  {
    Case2(style, edges)
  }

  /** `init(in: AnyShape, fillStyle: = FillStyle())`. */
  function Init3(shape: Shape, fillStyle: FillStyle := DefaultFillStyle): (r: Value)
    ensures forall view :: Body(r, view) == Applied(Apply(view, Name, [Argument("in", ShapeValue(shape)), Argument("fillStyle", FillStyleValue(fillStyle))]))
  {
    Case3(shape, fillStyle)
  }

  /** `init(_ style:, in: AnyShape, fillStyle: = FillStyle())`. */
  function Init4(style: ShapeStyle, shape: Shape, fillStyle: FillStyle := DefaultFillStyle): (r: Value)
    ensures forall view :: Body(r, view) == Applied(Apply(view, Name, [Argument("_", StyleValue(style)), Argument("in", ShapeValue(shape)), Argument("fillStyle", FillStyleValue(fillStyle))]))
  {
    Case4(style, shape, fillStyle)
  }

  /** `init(in: AnyInsettableShape, fillStyle: = FillStyle())`. */
  function Init5(insettable: InsettableShape, fillStyle: FillStyle := DefaultFillStyle): (r: Value)
    ensures forall view :: Body(r, view) == Applied(Apply(view, Name, [Argument("in", InsettableShapeValue(insettable)), Argument("fillStyle", FillStyleValue(fillStyle))]))
  {
    Case5(insettable, fillStyle)
  }

  /** `init(_ style:, in: AnyInsettableShape, fillStyle: = FillStyle())`. */
  function Init6(style: ShapeStyle, insettable: InsettableShape, fillStyle: FillStyle := DefaultFillStyle): (r: Value)
    ensures forall view :: Body(r, view) == Applied(Apply(view, Name, [Argument("_", StyleValue(style)), Argument("in", InsettableShapeValue(insettable)), Argument("fillStyle", FillStyleValue(fillStyle))]))
  {
    Case6(style, insettable, fillStyle)
  }

  // ---------------------------------------------------------------------
  // Properties of the dispatch on the case

  /** `body` stops with "unreachable" exactly on `_never`; every other case applies `background` to the content. */
  lemma BodyFailsOnlyOnNever(value: Value, content: View)
    ensures Body(value, content).Fatal? <==> value.Never?
    ensures Body(value, content).Fatal? ==> Body(value, content).message == Unreachable
    ensures Body(value, content).Applied? ==> Body(value, content).view.base == content && Body(value, content).view.call.modifier == Name
  {
  }

  /** Cases map one-to-one onto SwiftUI calls: two values giving the same view are the same value. */
  lemma BodyInjective(value: Value, other: Value, content: View)
    requires Body(value, content) == Body(other, content)
    ensures value == other
  {
  }
}
