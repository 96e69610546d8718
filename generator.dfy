/**
 * The build-time signature normaliser of the modifier generator: for every
 * operation name found in the SwiftUI interface it decides whether the
 * operation is emitted, which overloads survive (valid ones, structurally
 * identical ones collapsed with the first seen winning), how the surviving
 * cases are numbered, whether the emitted type needs the element/context
 * properties, and in which order operations and enum cases are emitted.
 */
module Generator {
  import opened StringOrder
  import opened Wrappers

  /** The parts of a SwiftSyntax type node the generator looks at. */
  datatype TypeSyntax =
    | IdentifierType(name: string, arguments: seq<TypeSyntax>)  // `Bool`, `AttributeReference<Int>`
    | MemberType(base: TypeSyntax, name: string)                 // `SwiftUI.Alignment`
    | OptionalType(wrapped: TypeSyntax)                          // `T?`
    | FunctionType(parameters: seq<TypeSyntax>, result: TypeSyntax)  // `(A, B) -> C`
    | AttributedType(attribute: string, base: TypeSyntax)        // `@escaping () -> V`
    | OtherType(text: string)                                    // any other form, by its text

  /**
   * One parameter of a declaration: its first (argument) name, its type as
   * declared in the interface, whether it is `@ViewBuilder`, and the type
   * `Signature.init` gives it in the emitted code (a view builder becomes
   * `ViewReference`, for instance). That rewrite is not part of this model,
   * so the rewritten type is given with the parameter.
   */
  datatype Parameter = Parameter(firstName: string, paramType: TypeSyntax, isViewBuilder: bool, signatureType: TypeSyntax)

  /** A `func` declaration of a modifier, reduced to its parameter clause. */
  datatype FunctionDecl = FunctionDecl(parameters: seq<Parameter>)

  /** A surviving overload: its position after the validity filter and its declaration. */
  datatype Signature = Signature(offset: nat, decl: FunctionDecl)

  /** What the generator emits for one operation. */
  datatype ModifierDecl = ModifierDecl(name: string, cases: seq<Signature>, requiresContext: bool)

  /** A case of the emitted `BuiltinModifier` enum. */
  datatype BuiltinCase = GeneratedCase(name: string) | ExtraCase(typeName: string)

  // ---------------------------------------------------------------------
  // Type text

  /** The source text of a type (`description`); trivia (whitespace, comments) is not modelled. */
  function Description(t: TypeSyntax): string
    decreases t, 1
  {
    match t
    case IdentifierType(n, args) => if args == [] then n else n + "<" + JoinChildren(t, 0) + ">"
    case MemberType(b, n) => Description(b) + "." + n
    case OptionalType(w) => Description(w) + "?"
    case FunctionType(ps, r) => "(" + JoinChildren(t, 0) + ") -> " + Description(r)
    case AttributedType(a, b) => a + " " + Description(b)
    case OtherType(text) => text
  }

  /** The type arguments or function parameters of `t` from position `i` on, joined by ", ". */
  function JoinChildren(t: TypeSyntax, i: nat): string
    requires t.IdentifierType? || t.FunctionType?
    decreases t, 0, |Children(t)| - i
  {
    var children := Children(t);
    if i >= |children| then ""
    else (if i == 0 then "" else ", ") + Description(children[i]) + JoinChildren(t, i + 1)
  }

  function Children(t: TypeSyntax): seq<TypeSyntax>
    requires t.IdentifierType? || t.FunctionType?
  {
    if t.IdentifierType? then t.arguments else t.parameters
  }

  /** The key two parameter types are compared by: a member type's last name, else the whole text. */
  function TypeKey(t: TypeSyntax): string {
    if t.MemberType? then t.name else Description(t)
  }

  // ---------------------------------------------------------------------
  // Validity

  /**
   * The parameter count of the closure a parameter takes: of a function
   * type, bare or under one attribute; `None` for any other type.
   */
  function ClosureArity(t: TypeSyntax): (r: Option<nat>)
    ensures r.Some? <==> t.FunctionType? || (t.AttributedType? && t.base.FunctionType?)
  {
    match t
    case FunctionType(ps, _) => Some(|ps|)
    case AttributedType(_, FunctionType(ps, _)) => Some(|ps|)
    case _ => None
  }

  /** A `@ViewBuilder` parameter whose type is not a closure without arguments. */
  predicate Rejects(p: Parameter) {
    p.isViewBuilder && ClosureArity(p.paramType) != Some(0)
  }

  /** The resolver cannot synthesise closure arguments for view builders. */
  predicate Valid(d: FunctionDecl) {
    forall i :: 0 <= i < |d.parameters| ==> !Rejects(d.parameters[i])
  }

  /** `isValid`: scans the parameters and answers false at the first rejected one. */
  method IsValid(d: FunctionDecl) returns (valid: bool)
    ensures valid <==> forall i :: 0 <= i < |d.parameters| ==>
      !(d.parameters[i].isViewBuilder && ClosureArity(d.parameters[i].paramType) != Some(0))
  {
    for i := 0 to |d.parameters|
      invariant forall k :: 0 <= k < i ==> !Rejects(d.parameters[k])
    {
      var p := d.parameters[i];
      var arity := ClosureArity(p.paramType);
      if p.isViewBuilder && arity != Some(0) {
        return false;
      }
    }
    return true;
  }

  /** A `@ViewBuilder` parameter of a non-function type makes its declaration invalid. */
  lemma ViewBuilderOfNonFunctionInvalid(d: FunctionDecl, i: nat)
    requires i < |d.parameters| && d.parameters[i].isViewBuilder
    requires !d.parameters[i].paramType.FunctionType? && !d.parameters[i].paramType.AttributedType?
    ensures !Valid(d)
  {
    assert Rejects(d.parameters[i]);
  }

  // ---------------------------------------------------------------------
  // Filtering and enumeration

  /** The valid declarations, in their original order. */
  function ValidDecls(ds: seq<FunctionDecl>): seq<FunctionDecl>
  {
    if ds == [] then []
    else ValidDecls(ds[..|ds| - 1]) + (if Valid(ds[|ds| - 1]) then [ds[|ds| - 1]] else [])
  }

  /** `enumerated().map(Signature.init)`: each declaration with its position. */
  function Enumerate(ds: seq<FunctionDecl>): (r: seq<Signature>)
    ensures |r| == |ds|
    ensures forall i :: 0 <= i < |ds| ==> r[i] == Signature(i, ds[i])
  {
    seq(|ds|, i requires 0 <= i < |ds| => Signature(i, ds[i]))
  }

  /** The candidates that deduplication sees. */
  function Candidates(ds: seq<FunctionDecl>): seq<Signature> {
    Enumerate(ValidDecls(ds))
  }

  lemma {:induction false} ValidDeclsEmpty(ds: seq<FunctionDecl>)
    ensures ValidDecls(ds) == [] <==> forall i :: 0 <= i < |ds| ==> !Valid(ds[i])
  {
    if ds != [] {
      var init := ds[..|ds| - 1];
      ValidDeclsEmpty(init);
      assert forall i :: 0 <= i < |init| ==> init[i] == ds[i];
    }
  }

  /** Every valid declaration is kept, every invalid one dropped, in order. */
  lemma {:induction false} ValidDeclsKeepsValid(ds: seq<FunctionDecl>)
    ensures forall d :: d in ValidDecls(ds) <==> d in ds && Valid(d)
  {
    if ds != [] {
      ValidDeclsKeepsValid(ds[..|ds| - 1]);
      assert ds == ds[..|ds| - 1] + [ds[|ds| - 1]];
    }
  }

  /** The `.filter(isValid).enumerated()` step, calling `isValid` on each declaration. */
  method FilterValid(ds: seq<FunctionDecl>) returns (cases: seq<Signature>)
    ensures cases == Candidates(ds)
  {
    var kept: seq<FunctionDecl> := [];
    cases := [];
    for i := 0 to |ds|
      invariant kept == ValidDecls(ds[..i])
      invariant cases == Enumerate(kept)
    {
      assert ds[..i + 1][..i] == ds[..i];
      var valid := IsValid(ds[i]);
      if valid {
        cases := cases + [Signature(|kept|, ds[i])];
        kept := kept + [ds[i]];
      }
    }
    assert ds[..|ds|] == ds;
  }

  // ---------------------------------------------------------------------
  // Deduplication

  /** Same parameter count, and pairwise the same first name and the same key of the rewritten type. */
  predicate IsDuplicate(lhs: Signature, rhs: Signature) {
    var a := lhs.decl.parameters;
    var b := rhs.decl.parameters;
    |a| == |b| &&
    forall i :: 0 <= i < |a| ==> TypeKey(a[i].signatureType) == TypeKey(b[i].signatureType) && a[i].firstName == b[i].firstName
  }

  predicate HasDuplicate(kept: seq<Signature>, next: Signature) {
    exists k :: 0 <= k < |kept| && IsDuplicate(kept[k], next)
  }

  /** The `reduce(into:)` fold: a signature is appended unless an already kept one duplicates it. */
  function Dedup(cases: seq<Signature>): seq<Signature>
  {
    if cases == [] then []
    else
      var kept := Dedup(cases[..|cases| - 1]);
      var next := cases[|cases| - 1];
      if HasDuplicate(kept, next) then kept else kept + [next]
  }

  /** The deduplicating fold, with the early return out of the scan over the kept signatures. */
  method DedupSignatures(cases: seq<Signature>) returns (result: seq<Signature>)
    ensures result == Dedup(cases)
  {
    result := [];
    for i := 0 to |cases|
      invariant result == Dedup(cases[..i])
    {
      assert cases[..i + 1][..i] == cases[..i];
      var next := cases[i];
      var j := 0;
      while j < |result| && !IsDuplicate(result[j], next)
        invariant 0 <= j <= |result|
        invariant forall k :: 0 <= k < j ==> !IsDuplicate(result[k], next)
      {
        j := j + 1;
      }
      if j == |result| {
        result := result + [next];
      }
    }
    assert cases[..|cases|] == cases;
  }

  /** Every signature's offset is its position. */
  predicate Enumerated(cases: seq<Signature>) {
    forall i :: 0 <= i < |cases| ==> cases[i].offset == i
  }

  lemma EnumerateIsEnumerated(ds: seq<FunctionDecl>)
    ensures Enumerated(Enumerate(ds))
  {
  }

  /**
   * `r` is a subsequence of `cases` read through the offsets: each element is
   * the candidate at its own offset, and the offsets strictly increase.
   */
  predicate SubsequenceByOffset(r: seq<Signature>, cases: seq<Signature>) {
    (forall j :: 0 <= j < |r| ==> r[j].offset < |cases| && cases[r[j].offset] == r[j]) &&
    (forall j, k :: 0 <= j < k < |r| ==> r[j].offset < r[k].offset)
  }

  /** No element of `r` duplicates a later one. */
  predicate NoDuplicates(r: seq<Signature>) {
    forall j, k :: 0 <= j < k < |r| ==> !IsDuplicate(r[j], r[k])
  }

  /** Every candidate is in `r`, or duplicates an element of `r` with a smaller offset. */
  predicate DropsOnlyDuplicates(r: seq<Signature>, cases: seq<Signature>) {
    forall i :: 0 <= i < |cases| ==>
      cases[i] in r || exists j :: 0 <= j < |r| && r[j].offset < i && IsDuplicate(r[j], cases[i])
  }

  /** The kept signatures are a subsequence of the candidates; gaps in the offsets mark dropped duplicates. */
  lemma {:induction false} DedupIsSubsequence(cases: seq<Signature>)
    requires Enumerated(cases)
    ensures SubsequenceByOffset(Dedup(cases), cases)
  {
    if cases != [] {
      var n := |cases| - 1;
      var init := cases[..n];
      assert Enumerated(init);
      DedupIsSubsequence(init);
      var kept := Dedup(init);
      assert forall j :: 0 <= j < |kept| ==> kept[j].offset < n && cases[kept[j].offset] == kept[j];
      assert cases[n].offset == n;
    }
  }

  /** No two kept signatures duplicate each other. */
  lemma {:induction false} DedupHasNoDuplicates(cases: seq<Signature>)
    ensures NoDuplicates(Dedup(cases))
  {
    if cases != [] {
      var init := cases[..|cases| - 1];
      var next := cases[|cases| - 1];
      DedupHasNoDuplicates(init);
      var kept := Dedup(init);
      if !HasDuplicate(kept, next) {
        var r := kept + [next];
        forall j, k | 0 <= j < k < |r|
          ensures !IsDuplicate(r[j], r[k])
        {
          if k == |kept| {
            assert r[k] == next && r[j] == kept[j];
          } else {
            assert r[k] == kept[k] && r[j] == kept[j];
          }
        }
      }
    }
  }

  /** Every candidate is kept, or it duplicates a kept signature that comes before it. */
  lemma {:induction false} DedupDropsOnlyDuplicates(cases: seq<Signature>)
    requires Enumerated(cases)
    ensures DropsOnlyDuplicates(Dedup(cases), cases)
  {
    if cases != [] {
      var n := |cases| - 1;
      var init := cases[..n];
      assert Enumerated(init);
      DedupDropsOnlyDuplicates(init);
      DedupIsSubsequence(init);
      var kept := Dedup(init);
      var r := Dedup(cases);
      assert r == kept || r == kept + [cases[n]];
      forall i | 0 <= i < |cases|
        ensures cases[i] in r || exists j :: 0 <= j < |r| && r[j].offset < i && IsDuplicate(r[j], cases[i])
      {
        if i < n {
          assert cases[i] == init[i];
          if cases[i] !in kept {
            var j :| 0 <= j < |kept| && kept[j].offset < i && IsDuplicate(kept[j], init[i]);
            assert r[j] == kept[j];
          }
        } else if HasDuplicate(kept, cases[n]) {
          var j :| 0 <= j < |kept| && IsDuplicate(kept[j], cases[n]);
          assert kept[j].offset < n;
          assert r[j] == kept[j];
        }
      }
    }
  }

  /** A list without duplicates is left as it is: deduplication is idempotent. */
  lemma {:induction false} DedupOfDistinct(cases: seq<Signature>)
    requires NoDuplicates(cases)
    ensures Dedup(cases) == cases
  {
    if cases != [] {
      var init := cases[..|cases| - 1];
      DedupOfDistinct(init);
      assert !HasDuplicate(init, cases[|cases| - 1]);
    }
  }

  lemma DedupIdempotent(cases: seq<Signature>)
    ensures Dedup(Dedup(cases)) == Dedup(cases)
  {
    DedupHasNoDuplicates(cases);
    DedupOfDistinct(Dedup(cases));
  }

  /** The first candidate always survives, so a non-empty candidate list keeps at least one case. */
  lemma {:induction false} DedupKeepsFirst(cases: seq<Signature>)
    requires cases != []
    ensures Dedup(cases) != [] && Dedup(cases)[0] == cases[0]
  {
    if |cases| > 1 {
      var init := cases[..|cases| - 1];
      DedupKeepsFirst(init);
      assert init[0] == cases[0];
    }
  }

  // ---------------------------------------------------------------------
  // Context requirement

  /** The identifier of a type, bare or under one `Optional`. */
  function ContextTypeName(t: TypeSyntax): Option<string> {
    match t
    case IdentifierType(n, _) => Some(n)
    case OptionalType(IdentifierType(n, _)) => Some(n)
    case _ => None
  }

  /** A parameter type whose resolution needs the live element and context. */
  predicate IsContextType(t: TypeSyntax) {
    ContextTypeName(t) == Some("ViewReference")
    || ContextTypeName(t) == Some("TextReference")
    || ContextTypeName(t) == Some("AttributeReference")
  }

  predicate DeclNeedsContext(d: FunctionDecl) {
    exists j :: 0 <= j < |d.parameters| && IsContextType(d.parameters[j].signatureType)
  }

  /** `requiresContext`: some kept signature has some parameter of a context type. */
  function RequiresContext(cases: seq<Signature>): (r: bool)
    ensures r <==> exists i, j ::
      0 <= i < |cases| && 0 <= j < |cases[i].decl.parameters| && IsContextType(cases[i].decl.parameters[j].signatureType)
  {
    if cases == [] then false
    else
      var rest := RequiresContext(cases[1..]);
      assert forall i :: 1 <= i < |cases| ==> cases[i] == cases[1..][i - 1];
      DeclNeedsContext(cases[0].decl) || rest
  }

  /** The `@ObservedElement`/`@LiveContext` property lines, blank when no context is needed. */
  function ContextProperties(m: ModifierDecl): (r: seq<string>)
    ensures |r| == 2
    ensures (r[0] != "" && r[1] != "") <==> m.requiresContext
  {
    if m.requiresContext
    then ["@ObservedElement private var element", "@LiveContext<R> private var context"]
    else ["", ""]
  }

  // ---------------------------------------------------------------------
  // Skip rules and the pipeline

  const Denylist: set<string> := {
    "environment", "environmentObject", "transformEnvironment", "preference", "onPreferenceChange",
    "transformPreference", "anchorPreference", "transformAnchorPreference", "onChange",
    "onReceive", "alignmentGuide", "layoutValue", "focusedObject", "focusedSceneObject",
    "focusedSceneValue", "focusedValue", "navigationDocument", "previewContext", "previewDevice",
    "previewInterfaceOrientation", "previewLayout", "accessibilityRotor", "toolbar",
    "accessibilityChartDescriptor", "accessibilityFocused", "accessibilityQuickAction", "alert",
    "containerRelativeFrame", "contextMenu", "controlGroupStyle", "copyable", "cuttable",
    "datePickerStyle", "defaultFocus", "digitalCrownRotation", "disclosureGroupStyle", "draggable",
    "dropDestination", "exportableToServices", "exportsItemProviders", "fileExporter",
    "fileImporter", "fileMover", "focused", "formStyle", "gaugeStyle", "gesture", "groupBoxStyle",
    "highPriorityGesture", "importableFromServices", "importsItemProviders", "indexViewStyle",
    "itemProvider", "labelStyle", "labeledContentStyle", "listStyle", "menuButtonStyle",
    "menuStyle", "navigationSplitViewStyle", "onCommand", "onContinuousHover",
    "onContinueUserActivity", "onCopyCommand", "onDrag", "onDrop", "onHover", "onKeyPress",
    "onOpenURL", "onPasteCommand", "onSubmit", "onTapGesture", "pageCommand", "pasteDestination",
    "pickerStyle", "presentationDetents", "presentedWindowStyle", "presentedWindowToolbarStyle",
    "progressViewStyle", "scrollPosition", "scrollTargetBehavior", "searchCompletion",
    "searchScopes", "sensoryFeedback", "simultaneousGesture", "symbolEffect", "tabViewStyle",
    "tableStyle", "textEditorStyle", "textSelection", "toggleStyle", "transaction", "userActivity",
    "allowedDynamicRange", "alternatingRowBackgrounds", "badgeProminence", "buttonRepeatBehavior",
    "colorEffect", "containerBackground", "contentMargins", "coordinateSpace", "dialogSeverity",
    "distortionEffect", "fileDialogBrowserOptions", "focusable", "layerEffect",
    "layoutDirectionBehavior", "listSectionSpacing", "menuActionDismissBehavior", "onMoveCommand",
    "ornament", "paletteSelectionEffect", "presentationBackgroundInteraction",
    "presentationCompactAdaptation", "presentationContentInteraction", "scrollBounceBehavior",
    "searchDictationBehavior", "springLoadingBehavior", "textScale", "toolbarTitleDisplayMode",
    "touchBar", "touchBarItemPresence", "typesettingLanguage", "listRowBackground", "tag",
    "fileDialogMessage", "typeSelectEquivalent", "fileExporterFilenameLabel", "dialogIcon",
    "hueRotation", "rotationEffect", "rotation3DEffect", "fileDialogDefaultDirectory",
    "gridCellUnsizedAxes", "redacted", "onCutCommand", "confirmationDialog", "onLongPressGesture",
    "onLongTouchGesture", "prefersDefaultFocus", "accessibilityElementModifier",
    "listRowSeparatorTint", "listSectionSeparator", "id", "blendMode", "menuOrder", "fontWidth",
    "listRowInsets", "menuIndicator", "safeAreaPadding", "headerProminence", "listRowSeparator",
    "tableColumnHeaders", "listSectionSeparator", "digitalCrownAccessory",
    "scrollContentBackground", "persistentSystemOverlays", "presentationDragIndicator",
    "fontDesign", "controlSize", "submitLabel", "toolbarRole", "defaultHoverEffect",
    "listRowHoverEffect", "preferredColorScheme", "focusScope", "hoverEffect", "listItemTint",
    "keyboardShortcut", "symbolVariant", "textContentType", "defaultAppStorage", "ignoresSafeArea",
    "buttonBorderShape", "contentTransition", "truncationMode", "projectionEffect",
    "gridColumnAlignment", "transformEffect", "scrollIndicators", "scrollDismissesKeyboard",
    "renameAction", "matchedGeometryEffect", "accessibilityRotorEntry", "accessibilityLinkedGroup",
    "handlesExternalEvents", "safeAreaInset", "swipeActions", "accessibilityLabeledPair", "badge",
    "fileDialogConfirmationLabel", "searchSuggestions", "scenePadding", "drawingGroup",
    "searchable", "underline", "strikethrough", "contentShape", "onCopyCommand",
    "accessibilityElement", "listSectionSeparatorTint", "popover", "toolbarBackground",
    "toolbarColorScheme", "mask"
  }

  const ExtraModifierTypes: set<string> := {
    "_StrokeModifier", "_ResizableModifier", "_RenderingModeModifier", "_SymbolRenderingModeModifier"
  }

  predicate StartsWithUnderscore(name: string) {
    |name| > 0 && name[0] == '_'
  }

  /** The guard of `run`: not `_`-prefixed, not denylisted, and some declaration valid. */
  predicate Emittable(name: string, ds: seq<FunctionDecl>) {
    !StartsWithUnderscore(name) && name !in Denylist && exists i :: 0 <= i < |ds| && Valid(ds[i])
  }

  /** What is emitted for one operation: its valid, deduplicated overloads and the context flag. */
  function Normalise(name: string, ds: seq<FunctionDecl>): ModifierDecl {
    var kept := Dedup(Candidates(ds));
    ModifierDecl(name, kept, RequiresContext(kept))
  }

  /** An emitted operation has at least one case, numbered in increasing order. */
  lemma NormaliseNonEmpty(name: string, ds: seq<FunctionDecl>)
    requires Emittable(name, ds)
    ensures var m := Normalise(name, ds);
      m.cases != [] && forall j, k :: 0 <= j < k < |m.cases| ==> m.cases[j].offset < m.cases[k].offset
  {
    ValidDeclsEmpty(ds);
    DedupKeepsFirst(Candidates(ds));
    DedupIsSubsequence(Candidates(ds));
  }

  /** A valid first declaration is the first one the filter keeps. */
  lemma {:induction false} ValidDeclsFirst(ds: seq<FunctionDecl>)
    requires ds != [] && Valid(ds[0])
    ensures ValidDecls(ds) != [] && ValidDecls(ds)[0] == ds[0]
    decreases |ds|
  {
    if |ds| > 1 {
      var init := ds[..|ds| - 1];
      ValidDeclsFirst(init);
    } else {
      assert ds[..0] == [];
    }
  }

  /**
   * An operation whose first declaration is valid and has a parameter that
   * `Signature.init` types as a context type is emitted with the element
   * and context properties, whatever the later overloads are.
   */
  lemma FirstValidContextRequiresContext(name: string, ds: seq<FunctionDecl>, j: nat)
    requires ds != [] && Valid(ds[0])
    requires j < |ds[0].parameters| && IsContextType(ds[0].parameters[j].signatureType)
    ensures Normalise(name, ds).requiresContext
  {
    ValidDeclsFirst(ds);
    DedupKeepsFirst(Candidates(ds));
    assert Dedup(Candidates(ds))[0].decl == ds[0];
  }

  /**
   * `contextMenu(@ViewBuilder menuItems: () -> MenuItems)`: the declaration
   * is valid, and with the view builder rewritten to `ViewReference` the
   * emitted type needs the element and context.
   */
  lemma ContextMenuNeedsContext()
    ensures var d := FunctionDecl([Parameter("menuItems", FunctionType([], IdentifierType("MenuItems", [])), true,
                                             IdentifierType("ViewReference", []))]);
      Valid(d) && Normalise("contextMenu", [d]).requiresContext
  {
    var d := FunctionDecl([Parameter("menuItems", FunctionType([], IdentifierType("MenuItems", [])), true,
                                     IdentifierType("ViewReference", []))]);
    assert !Rejects(d.parameters[0]);
    FirstValidContextRequiresContext("contextMenu", [d], 0);
  }

  /**
   * `run`: visits the operation names in ascending order; skips `_`-prefixed,
   * denylisted and wholly invalid ones; for every other records its name in
   * `modifierList` and emits its normalised declaration.
   */
  method Run(modifiers: map<string, seq<FunctionDecl>>)
    returns (emitted: seq<ModifierDecl>, modifierList: seq<string>, skipped: seq<string>)
    ensures StrictlySorted(modifierList) && StrictlySorted(skipped)
    ensures forall n :: n in modifierList <==> n in modifiers && Emittable(n, modifiers[n])
    ensures forall n :: n in skipped <==> n in modifiers && !Emittable(n, modifiers[n])
    ensures |emitted| == |modifierList|
    ensures forall i :: 0 <= i < |modifierList| ==>
      modifierList[i] in modifiers && emitted[i] == Normalise(modifierList[i], modifiers[modifierList[i]])
  {
    emitted, modifierList, skipped := [], [], [];
    var remaining := modifiers.Keys;
    while remaining != {}
      invariant remaining <= modifiers.Keys
      invariant StrictlySorted(modifierList) && StrictlySorted(skipped)
      invariant forall n :: n in modifierList <==> n in modifiers && n !in remaining && Emittable(n, modifiers[n])
      invariant forall n :: n in skipped <==> n in modifiers && n !in remaining && !Emittable(n, modifiers[n])
      invariant forall i, b :: 0 <= i < |modifierList| && b in remaining ==> Less(modifierList[i], b)
      invariant forall i, b :: 0 <= i < |skipped| && b in remaining ==> Less(skipped[i], b)
      invariant |emitted| == |modifierList|
      invariant forall i :: 0 <= i < |modifierList| ==>
        modifierList[i] in modifiers && emitted[i] == Normalise(modifierList[i], modifiers[modifierList[i]])
      decreases |remaining|
    {
      LeastExists(remaining);
      var name :| IsLeast(name, remaining);
      var decl := ProcessOperation(name, modifiers[name]);
      if decl.None? {
        AppendLeast(skipped, remaining, name);
        skipped := skipped + [name];
      } else {
        AppendLeast(modifierList, remaining, name);
        modifierList := modifierList + [name];
        emitted := emitted + [decl.value];
      }
      remaining := remaining - {name};
    }
  }

  /**
   * Appending the least remaining name keeps a list that sorts below every
   * remaining name sorted, and below every name still remaining after it.
   */
  lemma AppendLeast(list: seq<string>, remaining: set<string>, name: string)
    requires StrictlySorted(list)
    requires forall i, b :: 0 <= i < |list| && b in remaining ==> Less(list[i], b)
    requires IsLeast(name, remaining)
    ensures StrictlySorted(list + [name])
    ensures forall i, b :: 0 <= i < |list + [name]| && b in remaining - {name} ==> Less((list + [name])[i], b)
  {
    var longer := list + [name];
    forall i, j | 0 <= i < j < |longer|
      ensures Less(longer[i], longer[j])
    {
      if j == |list| {
        assert longer[i] == list[i];
      }
    }
    forall i, b | 0 <= i < |longer| && b in remaining - {name}
      ensures Less(longer[i], b)
    {
      if i == |list| {
        assert longer[i] == name;
      } else {
        assert longer[i] == list[i];
      }
    }
  }

  /** The body of `run`'s loop for one operation: the guard, then filter, enumerate and dedup. */
  method ProcessOperation(name: string, ds: seq<FunctionDecl>) returns (decl: Option<ModifierDecl>)
    ensures decl.Some? <==> Emittable(name, ds)
    ensures decl.Some? ==> decl.value == Normalise(name, ds)
  {
    var candidates: seq<Signature> := [];
    if !StartsWithUnderscore(name) && name !in Denylist {
      candidates := FilterValid(ds);
    }
    ValidDeclsEmpty(ds);
    if candidates == [] {
      return None;
    }
    var kept := DedupSignatures(candidates);
    return Some(ModifierDecl(name, kept, RequiresContext(kept)));
  }

  // ---------------------------------------------------------------------
  // The `BuiltinModifier` enum

  /** `s` lists the elements of `xs`, each once, in some order (Swift's `Set` order is unspecified). */
  predicate IsListingOf(s: seq<string>, xs: set<string>) {
    (forall i, j :: 0 <= i < j < |s| ==> s[i] != s[j]) && (set x | x in s) == xs
  }

  /** One case per `modifierList` entry, then one per extra modifier type, in the set's iteration order. */
  function BuiltinCases(modifierList: seq<string>, extrasOrder: seq<string>): (r: seq<BuiltinCase>)
    requires IsListingOf(extrasOrder, ExtraModifierTypes)
    ensures |r| == |modifierList| + |extrasOrder|
    ensures forall i :: 0 <= i < |modifierList| ==> r[i] == GeneratedCase(modifierList[i])
    ensures forall i :: 0 <= i < |extrasOrder| ==> r[|modifierList| + i] == ExtraCase(extrasOrder[i])
  {
    var generated := seq(|modifierList|, i requires 0 <= i < |modifierList| => GeneratedCase(modifierList[i]));
    var extras := seq(|extrasOrder|, i requires 0 <= i < |extrasOrder| => ExtraCase(extrasOrder[i]));
    generated + extras
  }

  function CaseName(c: BuiltinCase): string {
    match c
    case GeneratedCase(n) => n
    case ExtraCase(t) => t
  }

  /** The enum's case names are pairwise distinct, so the emitted enum is well formed. */
  lemma BuiltinCaseNamesDistinct(modifierList: seq<string>, extrasOrder: seq<string>)
    requires StrictlySorted(modifierList)
    requires forall i :: 0 <= i < |modifierList| ==> !StartsWithUnderscore(modifierList[i])
    requires IsListingOf(extrasOrder, ExtraModifierTypes)
    ensures var r := BuiltinCases(modifierList, extrasOrder);
      forall i, j :: 0 <= i < j < |r| ==> CaseName(r[i]) != CaseName(r[j])
  {
    var r := BuiltinCases(modifierList, extrasOrder);
    var n := |modifierList|;
    forall i, j | 0 <= i < j < |r|
      ensures CaseName(r[i]) != CaseName(r[j])
    {
      if j < n {
        LessIrreflexive(modifierList[i]);
      } else if i >= n {
        assert r[i] == ExtraCase(extrasOrder[i - n]) && r[j] == ExtraCase(extrasOrder[j - n]);
      } else {
        assert r[j] == ExtraCase(extrasOrder[j - n]);
        ExtrasStartWithUnderscore(extrasOrder[j - n]);
      }
    }
  }

  lemma ExtrasStartWithUnderscore(x: string)
    requires x in ExtraModifierTypes
    ensures StartsWithUnderscore(x)
  {
  }
}
