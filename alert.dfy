/**
 * The generated `alert` operation. Besides its case, the operation holds
 * one `isPresented` binding cell per overload; each initialiser binds only
 * the cell of its own overload, and `body` reads only that cell.
 */
module Alert {
  import opened ModifierValues

  const Name: string := "alert"

  datatype Value =
    | Never
    | Case0(titleKey: LocalizedStringKey, actions: ViewReference)
    | Case1(title: AttributeReference<string>, actions: ViewReference)
    | Case2(text: TextReference, actions: ViewReference)
    | Case3(titleKey: LocalizedStringKey, actions: ViewReference, message: ViewReference)
    | Case4(title: AttributeReference<string>, actions: ViewReference, message: ViewReference)
    | Case5(text: TextReference, actions: ViewReference, message: ViewReference)
    | Case6(error: LocalizedError, actions: ViewReference)

  /** `_alertModifier`: the case and the cells `_0_isPresented` ... `_6_isPresented`. */
  datatype Alert = Alert(
    value: Value,
    presented0: ChangeTracked, presented1: ChangeTracked, presented2: ChangeTracked, presented3: ChangeTracked,
    presented4: ChangeTracked, presented5: ChangeTracked, presented6: ChangeTracked)

  /** The cell of overload `k`. */
  function Presented(alert: Alert, k: nat): ChangeTracked
    requires k < 7
  {
    match k
    case 0 => alert.presented0
    case 1 => alert.presented1
    case 2 => alert.presented2
    case 3 => alert.presented3
    case 4 => alert.presented4
    case 5 => alert.presented5
    case 6 => alert.presented6
  }

  /** The overload a case belongs to. */
  function Overload(value: Value): (k: nat)
    requires !value.Never?
    ensures k < 7
  {
    match value
    case Case0(_, _) => 0
    case Case1(_, _) => 1
    case Case2(_, _) => 2
    case Case3(_, _, _) => 3
    case Case4(_, _, _) => 4
    case Case5(_, _, _) => 5
    case Case6(_, _) => 6
  }

  /** An alert with case `value` whose cell `k` holds `isPresented` and whose other cells are unbound. */
  function Bound(value: Value, k: nat, isPresented: ChangeTracked): (r: Alert)
    requires k < 7
    ensures r.value == value
    ensures Presented(r, k) == isPresented
    ensures forall j :: 0 <= j < 7 && j != k ==> Presented(r, j) == Unbound
  {
    var u := Unbound;
    match k
    case 0 => Alert(value, isPresented, u, u, u, u, u, u)
    case 1 => Alert(value, u, isPresented, u, u, u, u, u)
    case 2 => Alert(value, u, u, isPresented, u, u, u, u)
    case 3 => Alert(value, u, u, u, isPresented, u, u, u)
    case 4 => Alert(value, u, u, u, u, isPresented, u, u)
    case 5 => Alert(value, u, u, u, u, u, isPresented, u)
    case 6 => Alert(value, u, u, u, u, u, u, isPresented)
  }

  function Body(alert: Alert, content: View): Body {
    match alert.value
    case Never => Fatal(Unreachable)
    case Case0(titleKey, actions) =>
      Applied(Apply(content, Name, [Argument("_", KeyValue(titleKey)), Argument("isPresented", BindingValue(alert.presented0)), Argument("actions", ViewsValue(actions))]))
    case Case1(title, actions) =>
      Applied(Apply(content, Name, [Argument("_", StringValue(title)), Argument("isPresented", BindingValue(alert.presented1)), Argument("actions", ViewsValue(actions))]))
    case Case2(text, actions) =>
      Applied(Apply(content, Name, [Argument("_", TextValue(text)), Argument("isPresented", BindingValue(alert.presented2)), Argument("actions", ViewsValue(actions))]))
    case Case3(titleKey, actions, message) =>
      Applied(Apply(content, Name, [Argument("_", KeyValue(titleKey)), Argument("isPresented", BindingValue(alert.presented3)), Argument("actions", ViewsValue(actions)), Argument("message", ViewsValue(message))]))
    case Case4(title, actions, message) =>
      Applied(Apply(content, Name, [Argument("_", StringValue(title)), Argument("isPresented", BindingValue(alert.presented4)), Argument("actions", ViewsValue(actions)), Argument("message", ViewsValue(message))]))
    case Case5(text, actions, message) =>
      Applied(Apply(content, Name, [Argument("_", TextValue(text)), Argument("isPresented", BindingValue(alert.presented5)), Argument("actions", ViewsValue(actions)), Argument("message", ViewsValue(message))]))
    case Case6(error, actions) =>
      Applied(Apply(content, Name, [Argument("isPresented", BindingValue(alert.presented6)), Argument("error", ErrorValue(error)), Argument("actions", ViewsValue(actions))]))
  }

  /** `init(_ titleKey:, isPresented:, actions: = [])`. */
  function Init0(titleKey: LocalizedStringKey, isPresented: ChangeTracked, actions: ViewReference := NoViews): (r: Alert)
    ensures forall j :: 0 <= j < 7 ==> Presented(r, j) == if j == 0 then isPresented else Unbound
    ensures forall view :: Body(r, view) == Applied(Apply(view, Name, [Argument("_", KeyValue(titleKey)), Argument("isPresented", BindingValue(isPresented)), Argument("actions", ViewsValue(actions))]))
  {
    Bound(Case0(titleKey, actions), 0, isPresented)
  }

  /** `init(_ title: AttributeReference<String>, isPresented:, actions: = [])`. */
  function Init1(title: AttributeReference<string>, isPresented: ChangeTracked, actions: ViewReference := NoViews): (r: Alert)
    ensures forall j :: 0 <= j < 7 ==> Presented(r, j) == if j == 1 then isPresented else Unbound
    ensures forall view :: Body(r, view) == Applied(Apply(view, Name, [Argument("_", StringValue(title)), Argument("isPresented", BindingValue(isPresented)), Argument("actions", ViewsValue(actions))]))
  {
    Bound(Case1(title, actions), 1, isPresented)
  }

  /** `init(_ title: TextReference, isPresented:, actions: = [])`. */
  function Init2(text: TextReference, isPresented: ChangeTracked, actions: ViewReference := NoViews): (r: Alert)
    ensures forall j :: 0 <= j < 7 ==> Presented(r, j) == if j == 2 then isPresented else Unbound
    ensures forall view :: Body(r, view) == Applied(Apply(view, Name, [Argument("_", TextValue(text)), Argument("isPresented", BindingValue(isPresented)), Argument("actions", ViewsValue(actions))]))
  {
    Bound(Case2(text, actions), 2, isPresented)
  }

  /** `init(_ titleKey:, isPresented:, actions: = [], message: = [])`. */
  function Init3(titleKey: LocalizedStringKey, isPresented: ChangeTracked, actions: ViewReference := NoViews, message: ViewReference := NoViews): (r: Alert)
    ensures forall j :: 0 <= j < 7 ==> Presented(r, j) == if j == 3 then isPresented else Unbound
    ensures forall view :: Body(r, view) == Applied(Apply(view, Name, [Argument("_", KeyValue(titleKey)), Argument("isPresented", BindingValue(isPresented)), Argument("actions", ViewsValue(actions)), Argument("message", ViewsValue(message))]))
  {
    Bound(Case3(titleKey, actions, message), 3, isPresented)
  }

  /** `init(_ title: AttributeReference<String>, isPresented:, actions: = [], message: = [])`. */
  function Init4(title: AttributeReference<string>, isPresented: ChangeTracked, actions: ViewReference := NoViews, message: ViewReference := NoViews): (r: Alert)
    ensures forall j :: 0 <= j < 7 ==> Presented(r, j) == if j == 4 then isPresented else Unbound
    ensures forall view :: Body(r, view) == Applied(Apply(view, Name, [Argument("_", StringValue(title)), Argument("isPresented", BindingValue(isPresented)), Argument("actions", ViewsValue(actions)), Argument("message", ViewsValue(message))]))
  {
    Bound(Case4(title, actions, message), 4, isPresented)
  }

  /** `init(_ title: TextReference, isPresented:, actions: = [], message: = [])`. */
  function Init5(text: TextReference, isPresented: ChangeTracked, actions: ViewReference := NoViews, message: ViewReference := NoViews): (r: Alert)
    ensures forall j :: 0 <= j < 7 ==> Presented(r, j) == if j == 5 then isPresented else Unbound
    ensures forall view :: Body(r, view) == Applied(Apply(view, Name, [Argument("_", TextValue(text)), Argument("isPresented", BindingValue(isPresented)), Argument("actions", ViewsValue(actions)), Argument("message", ViewsValue(message))]))
  {
    Bound(Case5(text, actions, message), 5, isPresented)
  }

  /** `init(isPresented:, error:, actions: = [])`. */
  function Init6(isPresented: ChangeTracked, error: LocalizedError, actions: ViewReference := NoViews): (r: Alert)
    ensures forall j :: 0 <= j < 7 ==> Presented(r, j) == if j == 6 then isPresented else Unbound
    ensures forall view :: Body(r, view) == Applied(Apply(view, Name, [Argument("isPresented", BindingValue(isPresented)), Argument("error", ErrorValue(error)), Argument("actions", ViewsValue(actions))]))
  {
    Bound(Case6(error, actions), 6, isPresented)
  }

  /** `body` reads the cell of its own overload and no other: cells of other overloads may hold anything. */
  lemma BodyReadsOwnCell(alert: Alert, other: Alert, content: View)
    requires alert.value == other.value && !alert.value.Never?
    requires Presented(alert, Overload(alert.value)) == Presented(other, Overload(other.value))
    ensures Body(alert, content) == Body(other, content)
  {
  }

  /** The binding `body` passes as `isPresented` is the cell of the case's overload. */
  lemma BodyPassesOwnCell(alert: Alert, content: View)
    requires !alert.value.Never?
    ensures Body(alert, content).Applied?
    ensures Argument("isPresented", BindingValue(Presented(alert, Overload(alert.value)))) in Body(alert, content).view.call.arguments
  {
  }

  lemma BodyFailsOnlyOnNever(alert: Alert, content: View)
    ensures Body(alert, content).Fatal? <==> alert.value.Never?
    ensures Body(alert, content).Fatal? ==> Body(alert, content).message == Unreachable
  {
  }

  /** With the cell of the case's overload fixed, cases map one-to-one onto SwiftUI calls. */
  lemma BodyInjective(alert: Alert, other: Alert, content: View)
    requires !alert.value.Never? && !other.value.Never?
    requires Body(alert, content) == Body(other, content)
    ensures alert.value == other.value
    ensures Presented(alert, Overload(alert.value)) == Presented(other, Overload(other.value))
  {
  }
}
