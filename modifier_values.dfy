/**
 * The values the generated operations carry and the view they produce.
 *
 * SwiftUI itself is not modelled: a view is a term recording which
 * modifier call was applied to which content, with the labelled
 * arguments of the call. Values that only SwiftUI interprets (shape
 * styles, shapes, toolbar placements, ...) are opaque identifiers.
 */
module ModifierValues {
  import opened Wrappers

  // ---------------------------------------------------------------------
  // SwiftUI values

  datatype Alignment =
    | Center | Leading | Trailing | Top | Bottom
    | TopLeading | TopTrailing | BottomLeading | BottomTrailing

  datatype Edge = TopEdge | LeadingEdge | BottomEdge | TrailingEdge

  /** `Edge.Set.all`. */
  const AllEdges: set<Edge> := {TopEdge, LeadingEdge, BottomEdge, TrailingEdge}

  datatype Axis = Horizontal | Vertical

  datatype ShapeStyle = ShapeStyle(id: nat)

  datatype Shape = Shape(id: nat)

  datatype InsettableShape = InsettableShape(id: nat)

  datatype FillStyle = FillStyle(eoFill: bool, antialiased: bool)

  /** `FillStyle()`: non-zero winding rule, antialiased. */
  const DefaultFillStyle: FillStyle := FillStyle(false, true)

  datatype Visibility = Automatic | Visible | Hidden

  datatype ToolbarPlacement = ToolbarPlacement(id: nat)

  datatype ToolbarDefaultItemKind = ToolbarDefaultItemKind(id: nat)

  datatype LocalizedStringKey = LocalizedStringKey(key: string)

  datatype LocalizedError = LocalizedError(id: nat)

  // ---------------------------------------------------------------------
  // Values resolved against the element when `body` runs

  /** A constant, or the name of an attribute of the element read on every update. */
  datatype AttributeReference<T> = Constant(value: T) | Attribute(name: string)

  /** Templates of the element, named by their template attribute; empty by default. */
  datatype ViewReference = ViewReference(value: seq<string>)

  datatype TextReference = TextReference(value: seq<string>)

  datatype ToolbarContentReference = ToolbarContentReference(value: seq<string>)

  datatype CustomizableToolbarContentReference = CustomizableToolbarContentReference(value: seq<string>)

  /** `ViewReference(value: [])`, the default of every view-builder argument. */
  const NoViews: ViewReference := ViewReference([])

  /** A two-way binding cell: never bound, or bound to an attribute of the element. */
  datatype ChangeTracked = Unbound | Tracked(attribute: string)

  // ---------------------------------------------------------------------
  // The view a modifier produces

  /** One argument of a SwiftUI modifier call, as typed in the call. */
  datatype ArgValue =
    | AlignmentValue(alignment: Alignment)
    | EdgesValue(edges: set<Edge>)
    | AxesValue(axes: set<Axis>)
    | StyleValue(style: ShapeStyle)
    | ShapeValue(shape: Shape)
    | InsettableShapeValue(insettable: InsettableShape)
    | FillStyleValue(fillStyle: FillStyle)
    | ViewsValue(views: ViewReference)
    | TextValue(text: TextReference)
    | ToolbarContentValue(toolbar: ToolbarContentReference)
    | CustomizableToolbarContentValue(customizable: CustomizableToolbarContentReference)
    | LengthValue(length: Option<AttributeReference<Option<real>>>)
    | IntValue(integer: AttributeReference<int>)
    | OptionalIntValue(optionalInteger: Option<AttributeReference<Option<int>>>)
    | RangeFromValue(lower: int)
    | RangeThroughValue(upper: int)
    | ClosedRangeValue(from: int, through: int)
    | BoolValue(flag: AttributeReference<bool>)
    | FloatValue(float: AttributeReference<real>)
    | StringValue(str: AttributeReference<string>)
    | KeyValue(titleKey: LocalizedStringKey)
    | ErrorValue(error: LocalizedError)
    | VisibilityValue(visibility: Visibility)
    | PlacementValue(bars: ToolbarPlacement)
    | ItemKindValue(itemKind: Option<ToolbarDefaultItemKind>)
    | BindingValue(binding: ChangeTracked)

  /** A labelled argument; an unlabelled one has the label `_`. */
  datatype Argument = Argument(name: string, value: ArgValue)

  datatype Call = Call(modifier: string, arguments: seq<Argument>)

  /** A view: the content the modifier is applied to, or a modifier call on a view. */
  datatype View = Content(id: nat) | Modified(base: View, call: Call)

  /** What `body` produces: a view, or the message of the `fatalError` it reaches. */
  datatype Body = Applied(view: View) | Fatal(message: string)

  /** The message of `_never`, the case no initialiser produces. */
  const Unreachable: string := "unreachable"

  function Apply(content: View, modifier: string, arguments: seq<Argument>): (r: View)
    ensures r.Modified? && r.base == content && r.call.modifier == modifier && r.call.arguments == arguments
  {
    Modified(content, Call(modifier, arguments))
  }

  /** An applied modifier never gives back the content it was applied to. */
  lemma {:induction false} ApplyChanges(content: View, modifier: string, arguments: seq<Argument>)
    ensures Apply(content, modifier, arguments) != content
  {
    assert content < Apply(content, modifier, arguments);
  }
}
