/**
 * The view-building context: its functional update with a form model, and
 * the selections of an element's children that container views build
 * separately (by predicate, by tag name and namespace, and the default
 * slot).
 */
module LiveContext {
  import opened Wrappers

  /** What a node of the document holds: an element with its namespace and tag, or anything else. */
  datatype NodeData = Element(namespace: Option<string>, tag: string) | Leaf(text: string)

  datatype Node = Node(id: nat, data: NodeData, children: seq<Node>)

  /** The live view coordinator and the form model are identified only, not modelled. */
  datatype Coordinator = Coordinator(id: nat)

  datatype FormModel = FormModel(formID: nat)

  datatype Context = Context(coordinator: Coordinator, url: string, formModel: Option<FormModel>)

  /** `with(formModel:)`: a copy of the context with the form model set. */
  function With(context: Context, formModel: FormModel): (r: Context)
    ensures r.formModel == Some(formModel)
    ensures r.coordinator == context.coordinator && r.url == context.url
  {
    context.(formModel := Some(formModel))
  }

  /** Setting the form model twice keeps the second, and setting the one it has changes nothing. */
  lemma WithOverrides(context: Context, first: FormModel, second: FormModel)
    ensures With(With(context, first), second) == With(context, second)
    ensures context.formModel == Some(first) ==> With(context, first) == context
  {
  }

  // ---------------------------------------------------------------------
  // Child selection

  /** `children().filter(condition)`. */
  function Filter(children: seq<Node>, condition: Node -> bool): (r: seq<Node>)
    ensures forall c :: c in r <==> c in children && condition(c)
    ensures |r| <= |children|
    decreases |children|
  {
    if children == [] then []
    else
      assert children == [children[0]] + children[1..];
      (if condition(children[0]) then [children[0]] else []) + Filter(children[1..], condition)
  }

  /** The filter keeps the original order: it works on each part of a sequence separately. */
  lemma {:induction false} FilterAppend(a: seq<Node>, b: seq<Node>, condition: Node -> bool)
    ensures Filter(a + b, condition) == Filter(a, condition) + Filter(b, condition)
    decreases |a|
  {
    if a == [] {
      assert a + b == b;
    } else {
      assert (a + b)[1..] == a[1..] + b;
      FilterAppend(a[1..], b, condition);
    }
  }

  /** The filter keeps everything when every child satisfies the condition. */
  lemma {:induction false} FilterAll(children: seq<Node>, condition: Node -> bool)
    requires forall c :: c in children ==> condition(c)
    ensures Filter(children, condition) == children
    decreases |children|
  {
    if children != [] {
      FilterAll(children[1..], condition);
    }
  }

  /** `buildChildren(of:where:)`: one `(id, children)` pair per selected child, in order. */
  function BuildChildren(element: Node, condition: Node -> bool): (r: seq<(nat, seq<Node>)>)
    ensures |r| == |Filter(element.children, condition)|
    ensures forall i :: 0 <= i < |r| ==> r[i] == (Filter(element.children, condition)[i].id, Filter(element.children, condition)[i].children)
  {
    var selected := Filter(element.children, condition);
    seq(|selected|, i requires 0 <= i < |selected| => (selected[i].id, selected[i].children))
  }

  /** The pairs built are exactly those of the children satisfying the condition. */
  lemma BuildChildrenSelects(element: Node, condition: Node -> bool)
    ensures forall c :: c in element.children && condition(c) ==> (c.id, c.children) in BuildChildren(element, condition)
    ensures forall x :: x in BuildChildren(element, condition) ==> exists c :: c in element.children && condition(c) && x == (c.id, c.children)
  {
    var selected := Filter(element.children, condition);
    var r := BuildChildren(element, condition);
    forall c | c in element.children && condition(c)
      ensures (c.id, c.children) in r
    {
      var i :| 0 <= i < |selected| && selected[i] == c;
      assert r[i] == (c.id, c.children);
    }
    forall x | x in r
      ensures exists c :: c in element.children && condition(c) && x == (c.id, c.children)
    {
      var i :| 0 <= i < |r| && r[i] == x;
      assert selected[i] in selected;
    }
  }

  /** The condition of `buildChildren(of:withTagName:namespace:)`. */
  predicate HasTag(child: Node, tagName: string, namespace: Option<string>) {
    child.data.Element? && child.data.namespace == namespace && child.data.tag == tagName
  }

  /** `buildChildren(of:withTagName:namespace:)`; the namespace defaults to none. */
  function BuildChildrenWithTagName(element: Node, tagName: string, namespace: Option<string> := None): seq<(nat, seq<Node>)> {
    BuildChildren(element, c => HasTag(c, tagName, namespace))
  }

  /**
   * The children built for a tag name are the elements with that tag in
   * that namespace (no namespace matching only no namespace); a child
   * that is not an element is never selected.
   */
  lemma WithTagNameSelects(element: Node, tagName: string, namespace: Option<string>)
    ensures forall x :: x in BuildChildrenWithTagName(element, tagName, namespace) <==>
      exists c :: c in element.children && c.data.Element? && c.data.namespace == namespace && c.data.tag == tagName && x == (c.id, c.children)
    ensures forall c :: c in element.children && !c.data.Element? ==> c !in Filter(element.children, c => HasTag(c, tagName, namespace))
  {
    BuildChildrenSelects(element, c => HasTag(c, tagName, namespace));
  }

  /** The condition of `buildChildren(of:defaultSlotFor:)`. */
  predicate InDefaultSlot(child: Node) {
    child.data.Element? ==> child.data.namespace != Some("menu")
  }

  /** `buildChildren(of:defaultSlotFor:)`; the tag name is not consulted. */
  function BuildDefaultSlot(element: Node, tagName: string): seq<(nat, seq<Node>)> {
    BuildChildren(element, InDefaultSlot)
  }

  /**
   * The default slot keeps every child that is not an element and every
   * element outside the `menu` namespace, with or without a namespace of
   * its own; what it keeps does not depend on the tag name.
   */
  lemma DefaultSlotSelects(element: Node, tagName: string, otherTagName: string)
    ensures forall x :: x in BuildDefaultSlot(element, tagName) <==>
      exists c :: c in element.children && (!c.data.Element? || c.data.namespace != Some("menu")) && x == (c.id, c.children)
    ensures BuildDefaultSlot(element, tagName) == BuildDefaultSlot(element, otherTagName)
  {
    BuildChildrenSelects(element, InDefaultSlot);
  }

  /** Without any `menu` element among the children, the default slot holds them all. */
  lemma DefaultSlotWithoutMenu(element: Node, tagName: string)
    requires forall c :: c in element.children ==> !(c.data.Element? && c.data.namespace == Some("menu"))
    ensures |BuildDefaultSlot(element, tagName)| == |element.children|
    ensures forall i :: 0 <= i < |element.children| ==> BuildDefaultSlot(element, tagName)[i] == (element.children[i].id, element.children[i].children)
  {
    FilterAll(element.children, InDefaultSlot);
  }
}
