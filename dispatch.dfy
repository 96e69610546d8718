/**
 * The dispatcher of the generated operations (`BuiltinModifier`'s
 * parser): it reads the header `{:name, metadata, ...` of a modifier
 * tuple on a copy of the input, looks the name up in the table of
 * operation parsers, and runs the parser found on the original input, so
 * that the operation's own parser reads the whole tuple again. A name
 * without an entry fails with `unknownModifier` and the name's metadata.
 */
module Dispatch {
  import opened Wrappers
  import opened StringOrder
  import Alert
  import Background
  import ContainerRelativeFrame
  import ContextMenu
  import Frame
  import LineLimit
  import Toolbar

  /**
   * The `static var name` of every generated operation, the keys of the
   * table, grouped by initial letter.
   */
  const GeneratedNames: seq<string> :=
    NamesA + NamesB + NamesC + NamesD + NamesF + NamesG + NamesH + NamesI + NamesK + NamesL + NamesM + NamesN + NamesO + NamesP + NamesR + NamesS + NamesT + NamesU + NamesZ

  const NamesA: seq<string> := [
    "accessibilityAction", "accessibilityActions", "accessibilityChildren",
    "accessibilityIgnoresInvertColors", "accessibilityRepresentation",
    "accessibilityShowsLargeContentViewer", "alert", "allowsHitTesting", "allowsTightening",
    "animation", "aspectRatio", "autocorrectionDisabled"
  ]

  const NamesB: seq<string> := [
    "background", "backgroundStyle", "baselineOffset", "blendMode", "blur", "bold", "border",
    "brightness", "buttonStyle"
  ]

  const NamesC: seq<string> := [
    "clipShape", "clipped", "colorInvert", "colorMultiply", "compositingGroup",
    "containerRelativeFrame", "containerShape", "contextMenu", "contrast", "controlGroupStyle",
    "controlSize"
  ]

  const NamesD: seq<string> := [
    "datePickerStyle", "defaultScrollAnchor", "defaultWheelPickerItemHeight", "defersSystemGestures",
    "deleteDisabled", "dialogSuppressionToggle", "disabled", "dynamicTypeSize"
  ]

  const NamesF: seq<string> := [
    "fileDialogCustomizationID", "fileDialogImportsUnresolvedAliases", "findDisabled", "findNavigator",
    "fixedSize", "flipsForRightToLeftLayoutDirection", "focusEffectDisabled", "focusSection", "font",
    "fontWeight", "foregroundStyle", "formStyle", "frame", "fullScreenCover"
  ]

  const NamesG: seq<string> := [
    "gaugeStyle", "geometryGroup", "grayscale", "gridCellAnchor", "gridCellColumns", "groupBoxStyle"
  ]

  const NamesH: seq<string> := [
    "help", "hidden", "horizontalRadioGroupLayout", "hoverEffectDisabled"
  ]

  const NamesI: seq<string> := [
    "imageScale", "indexViewStyle", "inspector", "inspectorColumnWidth",
    "interactionActivityTrackingTag", "interactiveDismissDisabled", "invalidatableContent", "italic"
  ]

  const NamesK: seq<string> := [
    "kerning", "keyboardType"
  ]

  const NamesL: seq<string> := [
    "labelStyle", "labeledContentStyle", "labelsHidden", "layoutPriority", "lineLimit", "lineSpacing",
    "listRowHoverEffectDisabled", "listRowSpacing", "listStyle", "luminanceToAlpha"
  ]

  const NamesM: seq<string> := [
    "menuStyle", "minimumScaleFactor", "monospaced", "monospacedDigit", "moveDisabled",
    "multilineTextAlignment"
  ]

  const NamesN: seq<string> := [
    "navigationBarBackButtonHidden", "navigationBarTitleDisplayMode", "navigationDestination",
    "navigationSplitViewColumnWidth", "navigationSplitViewStyle", "navigationSubtitle",
    "navigationTitle"
  ]

  const NamesO: seq<string> := [
    "offset", "onAppear", "onDeleteCommand", "onDisappear", "onExitCommand", "onHover",
    "onPlayPauseCommand", "opacity", "overlay"
  ]

  const NamesP: seq<string> := [
    "padding", "pickerStyle", "position", "preferredColorScheme", "presentationBackground",
    "presentationCornerRadius", "previewDisplayName", "privacySensitive", "progressViewStyle"
  ]

  const NamesR: seq<string> := [
    "replaceDisabled"
  ]

  const NamesS: seq<string> := [
    "saturation", "scaleEffect", "scaledToFill", "scaledToFit", "scrollClipDisabled", "scrollDisabled",
    "scrollIndicatorsFlash", "scrollTargetLayout", "selectionDisabled", "shadow", "sheet",
    "speechAdjustedPitch", "speechAlwaysIncludesPunctuation", "speechAnnouncementsQueued",
    "speechSpellsOutCharacters", "statusBarHidden", "submitLabel", "submitScope",
    "symbolEffectsRemoved", "symbolRenderingMode"
  ]

  const NamesT: seq<string> := [
    "tabItem", "tabViewStyle", "tableStyle", "textCase", "textEditorStyle", "textFieldStyle",
    "textInputAutocapitalization", "tint", "toggleStyle", "toolbar", "toolbarBackground",
    "toolbarColorScheme", "toolbarRole", "toolbarTitleMenu", "touchBarCustomizationLabel",
    "touchBarItemPrincipal", "tracking", "transition"
  ]

  const NamesU: seq<string> := [
    "unredacted"
  ]

  const NamesZ: seq<string> := [
    "zIndex"
  ]

  /**
   * The keys of the table are in strictly ascending order, so no two are
   * equal: the dictionary literal has no duplicate key to trap on.
   */
  lemma GeneratedNamesSorted()
    ensures StrictlySorted(GeneratedNames)
  {
    assert [] + NamesA == NamesA;
    NamesAGroup();
    JoinGroup([], NamesA, 'a', 'b');
    NamesBGroup();
    JoinGroup(NamesA, NamesB, 'b', 'c');
    NamesCGroup();
    JoinGroup(NamesA + NamesB, NamesC, 'c', 'd');
    NamesDGroup();
    JoinGroup(NamesA + NamesB + NamesC, NamesD, 'd', 'f');
    NamesFGroup();
    JoinGroup(NamesA + NamesB + NamesC + NamesD, NamesF, 'f', 'g');
    NamesGGroup();
    JoinGroup(NamesA + NamesB + NamesC + NamesD + NamesF, NamesG, 'g', 'h');
    NamesHGroup();
    JoinGroup(NamesA + NamesB + NamesC + NamesD + NamesF + NamesG, NamesH, 'h', 'i');
    NamesIGroup();
    JoinGroup(NamesA + NamesB + NamesC + NamesD + NamesF + NamesG + NamesH, NamesI, 'i', 'k');
    NamesKGroup();
    JoinGroup(NamesA + NamesB + NamesC + NamesD + NamesF + NamesG + NamesH + NamesI, NamesK, 'k', 'l');
    NamesLGroup();
    JoinGroup(NamesA + NamesB + NamesC + NamesD + NamesF + NamesG + NamesH + NamesI + NamesK, NamesL, 'l', 'm');
    NamesMGroup();
    JoinGroup(NamesA + NamesB + NamesC + NamesD + NamesF + NamesG + NamesH + NamesI + NamesK + NamesL, NamesM, 'm', 'n');
    NamesNGroup();
    JoinGroup(NamesA + NamesB + NamesC + NamesD + NamesF + NamesG + NamesH + NamesI + NamesK + NamesL + NamesM, NamesN, 'n', 'o');
    NamesOGroup();
    JoinGroup(NamesA + NamesB + NamesC + NamesD + NamesF + NamesG + NamesH + NamesI + NamesK + NamesL + NamesM + NamesN, NamesO, 'o', 'p');
    NamesPGroup();
    JoinGroup(NamesA + NamesB + NamesC + NamesD + NamesF + NamesG + NamesH + NamesI + NamesK + NamesL + NamesM + NamesN + NamesO, NamesP, 'p', 'r');
    NamesRGroup();
    JoinGroup(NamesA + NamesB + NamesC + NamesD + NamesF + NamesG + NamesH + NamesI + NamesK + NamesL + NamesM + NamesN + NamesO + NamesP, NamesR, 'r', 's');
    NamesSGroup();
    JoinGroup(NamesA + NamesB + NamesC + NamesD + NamesF + NamesG + NamesH + NamesI + NamesK + NamesL + NamesM + NamesN + NamesO + NamesP + NamesR, NamesS, 's', 't');
    NamesTGroup();
    JoinGroup(NamesA + NamesB + NamesC + NamesD + NamesF + NamesG + NamesH + NamesI + NamesK + NamesL + NamesM + NamesN + NamesO + NamesP + NamesR + NamesS, NamesT, 't', 'u');
    NamesUGroup();
    JoinGroup(NamesA + NamesB + NamesC + NamesD + NamesF + NamesG + NamesH + NamesI + NamesK + NamesL + NamesM + NamesN + NamesO + NamesP + NamesR + NamesS + NamesT, NamesU, 'u', 'z');
    NamesZGroup();
    JoinGroup(NamesA + NamesB + NamesC + NamesD + NamesF + NamesG + NamesH + NamesI + NamesK + NamesL + NamesM + NamesN + NamesO + NamesP + NamesR + NamesS + NamesT + NamesU, NamesZ, 'z', '{');
  }

  /** No two entries of the table have the same key. */
  lemma TableKeysDistinct()
    ensures forall i, j :: 0 <= i < j < |GeneratedNames| ==> GeneratedNames[i] != GeneratedNames[j]
  {
    GeneratedNamesSorted();
    SortedDistinct(GeneratedNames);
  }

  // Each group is sorted: a name agrees with the next one on the number of
  // leading characters its `Shared` entry gives, and is then smaller or ends.

  const NamesAShared: seq<nat> := [19, 13, 13, 13, 13, 1, 2, 6, 1, 1, 1]

  lemma NamesALower()
    ensures forall i :: 0 <= i < 6 ==> PrecedesAt(NamesA[i], NamesA[i + 1], NamesAShared[i])
  {
  }

  lemma NamesAUpper()
    ensures forall i :: 6 <= i < 11 ==> PrecedesAt(NamesA[i], NamesA[i + 1], NamesAShared[i])
  {
  }

  lemma NamesAInitial()
    ensures AllStartWith(NamesA, 'a')
  {
  }

  lemma NamesAGroup()
    ensures StrictlySorted(NamesA) && AllStartWith(NamesA, 'a')
  {
    NamesALower();
    NamesAUpper();
    SortedByPrefixes(NamesA, NamesAShared);
    NamesAInitial();
  }

  const NamesBShared: seq<nat> := [10, 2, 1, 2, 1, 2, 1, 1]

  lemma NamesBPrecede()
    ensures forall i :: 0 <= i < 8 ==> PrecedesAt(NamesB[i], NamesB[i + 1], NamesBShared[i])
  {
  }

  lemma NamesBInitial()
    ensures AllStartWith(NamesB, 'b')
  {
  }

  lemma NamesBGroup()
    ensures StrictlySorted(NamesB) && AllStartWith(NamesB, 'b')
  {
    NamesBPrecede();
    SortedByPrefixes(NamesB, NamesBShared);
    NamesBInitial();
  }

  const NamesCShared: seq<nat> := [4, 1, 5, 2, 2, 9, 4, 4, 5, 7]

  lemma NamesCPrecede()
    ensures forall i :: 0 <= i < 10 ==> PrecedesAt(NamesC[i], NamesC[i + 1], NamesCShared[i])
  {
  }

  lemma NamesCInitial()
    ensures AllStartWith(NamesC, 'c')
  {
  }

  lemma NamesCGroup()
    ensures StrictlySorted(NamesC) && AllStartWith(NamesC, 'c')
  {
    NamesCPrecede();
    SortedByPrefixes(NamesC, NamesCShared);
    NamesCInitial();
  }

  const NamesDShared: seq<nat> := [1, 7, 3, 2, 1, 2, 1]

  lemma NamesDPrecede()
    ensures forall i :: 0 <= i < 7 ==> PrecedesAt(NamesD[i], NamesD[i + 1], NamesDShared[i])
  {
  }

  lemma NamesDInitial()
    ensures AllStartWith(NamesD, 'd')
  {
  }

  lemma NamesDGroup()
    ensures StrictlySorted(NamesD) && AllStartWith(NamesD, 'd')
  {
    NamesDPrecede();
    SortedByPrefixes(NamesD, NamesDShared);
    NamesDInitial();
  }

  const NamesFShared: seq<nat> := [10, 2, 4, 2, 1, 1, 5, 2, 4, 2, 3, 1, 1]

  lemma NamesFLower()
    ensures forall i :: 0 <= i < 7 ==> PrecedesAt(NamesF[i], NamesF[i + 1], NamesFShared[i])
  {
  }

  lemma NamesFUpper()
    ensures forall i :: 7 <= i < 13 ==> PrecedesAt(NamesF[i], NamesF[i + 1], NamesFShared[i])
  {
  }

  lemma NamesFInitial()
    ensures AllStartWith(NamesF, 'f')
  {
  }

  lemma NamesFGroup()
    ensures StrictlySorted(NamesF) && AllStartWith(NamesF, 'f')
  {
    NamesFLower();
    NamesFUpper();
    SortedByPrefixes(NamesF, NamesFShared);
    NamesFInitial();
  }

  const NamesGShared: seq<nat> := [1, 1, 2, 8, 2]

  lemma NamesGPrecede()
    ensures forall i :: 0 <= i < 5 ==> PrecedesAt(NamesG[i], NamesG[i + 1], NamesGShared[i])
  {
  }

  lemma NamesGInitial()
    ensures AllStartWith(NamesG, 'g')
  {
  }

  lemma NamesGGroup()
    ensures StrictlySorted(NamesG) && AllStartWith(NamesG, 'g')
  {
    NamesGPrecede();
    SortedByPrefixes(NamesG, NamesGShared);
    NamesGInitial();
  }

  const NamesHShared: seq<nat> := [1, 1, 2]

  lemma NamesHPrecede()
    ensures forall i :: 0 <= i < 3 ==> PrecedesAt(NamesH[i], NamesH[i + 1], NamesHShared[i])
  {
  }

  lemma NamesHInitial()
    ensures AllStartWith(NamesH, 'h')
  {
  }

  lemma NamesHGroup()
    ensures StrictlySorted(NamesH) && AllStartWith(NamesH, 'h')
  {
    NamesHPrecede();
    SortedByPrefixes(NamesH, NamesHShared);
    NamesHInitial();
  }

  const NamesIShared: seq<nat> := [1, 2, 9, 2, 9, 2, 1]

  lemma NamesIPrecede()
    ensures forall i :: 0 <= i < 7 ==> PrecedesAt(NamesI[i], NamesI[i + 1], NamesIShared[i])
  {
  }

  lemma NamesIInitial()
    ensures AllStartWith(NamesI, 'i')
  {
  }

  lemma NamesIGroup()
    ensures StrictlySorted(NamesI) && AllStartWith(NamesI, 'i')
  {
    NamesIPrecede();
    SortedByPrefixes(NamesI, NamesIShared);
    NamesIInitial();
  }

  const NamesKShared: seq<nat> := [2]

  lemma NamesKPrecede()
    ensures forall i :: 0 <= i < 1 ==> PrecedesAt(NamesK[i], NamesK[i + 1], NamesKShared[i])
  {
  }

  lemma NamesKInitial()
    ensures AllStartWith(NamesK, 'k')
  {
  }

  lemma NamesKGroup()
    ensures StrictlySorted(NamesK) && AllStartWith(NamesK, 'k')
  {
    NamesKPrecede();
    SortedByPrefixes(NamesK, NamesKShared);
    NamesKInitial();
  }

  const NamesLShared: seq<nat> := [5, 5, 2, 1, 4, 2, 7, 4, 1]

  lemma NamesLPrecede()
    ensures forall i :: 0 <= i < 9 ==> PrecedesAt(NamesL[i], NamesL[i + 1], NamesLShared[i])
  {
  }

  lemma NamesLInitial()
    ensures AllStartWith(NamesL, 'l')
  {
  }

  lemma NamesLGroup()
    ensures StrictlySorted(NamesL) && AllStartWith(NamesL, 'l')
  {
    NamesLPrecede();
    SortedByPrefixes(NamesL, NamesLShared);
    NamesLInitial();
  }

  const NamesMShared: seq<nat> := [1, 1, 10, 2, 1]

  lemma NamesMPrecede()
    ensures forall i :: 0 <= i < 5 ==> PrecedesAt(NamesM[i], NamesM[i + 1], NamesMShared[i])
  {
  }

  lemma NamesMInitial()
    ensures AllStartWith(NamesM, 'm')
  {
  }

  lemma NamesMGroup()
    ensures StrictlySorted(NamesM) && AllStartWith(NamesM, 'm')
  {
    NamesMPrecede();
    SortedByPrefixes(NamesM, NamesMShared);
    NamesMInitial();
  }

  const NamesNShared: seq<nat> := [13, 10, 10, 19, 11, 10]

  lemma NamesNPrecede()
    ensures forall i :: 0 <= i < 6 ==> PrecedesAt(NamesN[i], NamesN[i + 1], NamesNShared[i])
  {
  }

  lemma NamesNInitial()
    ensures AllStartWith(NamesN, 'n')
  {
  }

  lemma NamesNGroup()
    ensures StrictlySorted(NamesN) && AllStartWith(NamesN, 'n')
  {
    NamesNPrecede();
    SortedByPrefixes(NamesN, NamesNShared);
    NamesNInitial();
  }

  const NamesOShared: seq<nat> := [1, 2, 3, 2, 2, 2, 1, 1]

  lemma NamesOPrecede()
    ensures forall i :: 0 <= i < 8 ==> PrecedesAt(NamesO[i], NamesO[i + 1], NamesOShared[i])
  {
  }

  lemma NamesOInitial()
    ensures AllStartWith(NamesO, 'o')
  {
  }

  lemma NamesOGroup()
    ensures StrictlySorted(NamesO) && AllStartWith(NamesO, 'o')
  {
    NamesOPrecede();
    SortedByPrefixes(NamesO, NamesOShared);
    NamesOInitial();
  }

  const NamesPShared: seq<nat> := [1, 1, 1, 3, 12, 3, 2, 2]

  lemma NamesPPrecede()
    ensures forall i :: 0 <= i < 8 ==> PrecedesAt(NamesP[i], NamesP[i + 1], NamesPShared[i])
  {
  }

  lemma NamesPInitial()
    ensures AllStartWith(NamesP, 'p')
  {
  }

  lemma NamesPGroup()
    ensures StrictlySorted(NamesP) && AllStartWith(NamesP, 'p')
  {
    NamesPPrecede();
    SortedByPrefixes(NamesP, NamesPShared);
    NamesPInitial();
  }

  lemma NamesRInitial()
    ensures AllStartWith(NamesR, 'r')
  {
  }

  lemma NamesRGroup()
    ensures StrictlySorted(NamesR) && AllStartWith(NamesR, 'r')
  {
    NamesRInitial();
  }

  const NamesSShared: seq<nat> := [1, 5, 10, 2, 6, 6, 6, 1, 1, 2, 1, 7, 7, 6, 1, 1, 6, 1, 6]

  lemma NamesSLower()
    ensures forall i :: 0 <= i < 10 ==> PrecedesAt(NamesS[i], NamesS[i + 1], NamesSShared[i])
  {
  }

  lemma NamesSUpper()
    ensures forall i :: 10 <= i < 19 ==> PrecedesAt(NamesS[i], NamesS[i + 1], NamesSShared[i])
  {
  }

  lemma NamesSInitial()
    ensures AllStartWith(NamesS, 's')
  {
  }

  lemma NamesSGroup()
    ensures StrictlySorted(NamesS) && AllStartWith(NamesS, 's')
  {
    NamesSLower();
    NamesSUpper();
    SortedByPrefixes(NamesS, NamesSShared);
    NamesSInitial();
  }

  const NamesTShared: seq<nat> := [3, 3, 1, 4, 4, 4, 1, 1, 2, 7, 7, 7, 7, 2, 8, 1, 3]

  lemma NamesTLower()
    ensures forall i :: 0 <= i < 9 ==> PrecedesAt(NamesT[i], NamesT[i + 1], NamesTShared[i])
  {
  }

  lemma NamesTUpper()
    ensures forall i :: 9 <= i < 17 ==> PrecedesAt(NamesT[i], NamesT[i + 1], NamesTShared[i])
  {
  }

  lemma NamesTInitial()
    ensures AllStartWith(NamesT, 't')
  {
  }

  lemma NamesTGroup()
    ensures StrictlySorted(NamesT) && AllStartWith(NamesT, 't')
  {
    NamesTLower();
    NamesTUpper();
    SortedByPrefixes(NamesT, NamesTShared);
    NamesTInitial();
  }

  lemma NamesUInitial()
    ensures AllStartWith(NamesU, 'u')
  {
  }

  lemma NamesUGroup()
    ensures StrictlySorted(NamesU) && AllStartWith(NamesU, 'u')
  {
    NamesUInitial();
  }

  lemma NamesZInitial()
    ensures AllStartWith(NamesZ, 'z')
  {
  }

  lemma NamesZGroup()
    ensures StrictlySorted(NamesZ) && AllStartWith(NamesZ, 'z')
  {
    NamesZInitial();
  }

  /** `ModifierParseError`'s kinds as the dispatcher sees them; an operation parser's errors are kept abstract. */
  datatype ParseError =
    | UnknownModifier(name: string, metadata: Metadata)
    | Expected(what: string)
    | ArgumentError(operation: string, reason: nat)

  /**
   * `BuiltinModifier`: one case per operation. The modelled operations
   * carry their value; every other generated operation is named by its
   * `name` and its value is an opaque identifier.
   */
  datatype BuiltinModifier =
    | AlertModifier(alert: Alert.Alert)
    | BackgroundModifier(background: Background.Value)
    | ContainerRelativeFrameModifier(containerRelativeFrame: ContainerRelativeFrame.Value)
    | ContextMenuModifier(contextMenu: ContextMenu.Value)
    | FrameModifier(frame: Frame.Value)
    | LineLimitModifier(lineLimit: LineLimit.Value)
    | ToolbarModifier(toolbar: Toolbar.Value)
    | OtherModifier(name: string, payload: nat)
    | ExtraModifier(typeName: string, payload: nat)   // `_StrokeModifier`, `_ResizableModifier`, `_RenderingModeModifier`

  /** The operation a case of `BuiltinModifier` belongs to. */
  function CaseName(m: BuiltinModifier): string {
    match m
    case AlertModifier(_) => Alert.Name
    case BackgroundModifier(_) => Background.Name
    case ContainerRelativeFrameModifier(_) => ContainerRelativeFrame.Name
    case ContextMenuModifier(_) => ContextMenu.Name
    case FrameModifier(_) => Frame.Name
    case LineLimitModifier(_) => LineLimit.Name
    case ToolbarModifier(_) => Toolbar.Name
    case OtherModifier(name, _) => name
    case ExtraModifier(typeName, _) => typeName
  }

  /** A parser over the token stream: what it produced and the input it left. */
  type Parser<T> = seq<Token> -> Parsed<T, ParseError>

  /**
   * A hand-written entry of the table: the type it parses (the case it
   * produces is named after the type) and that type's parser.
   */
  datatype ExtraEntry = ExtraEntry(typeName: string, parser: Parser<nat>)

  /**
   * The operations' own parsers (`_XModifier.parser(in:)`). They are
   * generated by a macro and are not modelled: any parsers may be given.
   * `extras` holds the hand-written entries, keyed by their types' `name`,
   * whose values are defined outside this model.
   */
  datatype OperationParsers = OperationParsers(
    alert: Parser<Alert.Alert>,
    background: Parser<Background.Value>,
    containerRelativeFrame: Parser<ContainerRelativeFrame.Value>,
    contextMenu: Parser<ContextMenu.Value>,
    frame: Parser<Frame.Value>,
    lineLimit: Parser<LineLimit.Value>,
    toolbar: Parser<Toolbar.Value>,
    other: string -> Parser<nat>,
    extras: map<string, ExtraEntry>)

  /** `.map(Output.x)`: wraps what a parser produced and keeps what it left. */
  function MapParsed<T, U>(p: Parsed<T, ParseError>, f: T -> U): (r: Parsed<U, ParseError>)
    ensures r.rest == p.rest
    ensures r.outcome.Success? <==> p.outcome.Success?
    ensures r.outcome.Success? ==> r.outcome.value == f(p.outcome.value)
    ensures r.outcome.Failure? ==> r.outcome.error == p.outcome.error
  {
    match p.outcome
    case Success(v) => Parsed(Success(f(v)), p.rest)
    case Failure(e) => Parsed(Failure(e), p.rest)
  }

  /** The value of a table entry: the operation's parser with its output wrapped in the operation's own case. */
  function EntryParser(parsers: OperationParsers, name: string): Parser<BuiltinModifier> {
    if name == Alert.Name then (ts: seq<Token>) => MapParsed(parsers.alert(ts), (v: Alert.Alert) => AlertModifier(v))
    else if name == Background.Name then (ts: seq<Token>) => MapParsed(parsers.background(ts), (v: Background.Value) => BackgroundModifier(v))
    else if name == ContainerRelativeFrame.Name then
      (ts: seq<Token>) => MapParsed(parsers.containerRelativeFrame(ts), (v: ContainerRelativeFrame.Value) => ContainerRelativeFrameModifier(v))
    else if name == ContextMenu.Name then (ts: seq<Token>) => MapParsed(parsers.contextMenu(ts), (v: ContextMenu.Value) => ContextMenuModifier(v))
    else if name == Frame.Name then (ts: seq<Token>) => MapParsed(parsers.frame(ts), (v: Frame.Value) => FrameModifier(v))
    else if name == LineLimit.Name then (ts: seq<Token>) => MapParsed(parsers.lineLimit(ts), (v: LineLimit.Value) => LineLimitModifier(v))
    else if name == Toolbar.Name then (ts: seq<Token>) => MapParsed(parsers.toolbar(ts), (v: Toolbar.Value) => ToolbarModifier(v))
    else (ts: seq<Token>) => MapParsed(parsers.other(name)(ts), (v: nat) => OtherModifier(name, v))
  }

  /** The value of a hand-written entry: its type's parser with the output wrapped in the type's case. */
  function ExtraParser(e: ExtraEntry): Parser<BuiltinModifier> {
    (ts: seq<Token>) => MapParsed(e.parser(ts), (v: nat) => ExtraModifier(e.typeName, v))
  }

  /**
   * `parsers[name]`: the entry of the table for a name, if it has one. The
   * hand-written keys are taken to differ from the generated ones, as the
   * dictionary literal would trap otherwise.
   */
  function Entry(parsers: OperationParsers, name: string): (r: Option<Parser<BuiltinModifier>>)
    ensures r.Some? <==> name in GeneratedNames || name in parsers.extras
    ensures r.Some? && name in GeneratedNames ==> r.value == EntryParser(parsers, name)
    ensures r.Some? && name !in GeneratedNames ==> r.value == ExtraParser(parsers.extras[name])
  {
    if name in GeneratedNames then Some(EntryParser(parsers, name))
    else if name in parsers.extras then Some(ExtraParser(parsers.extras[name]))
    else None
  }

  // ---------------------------------------------------------------------
  // The header `{`, whitespace, `:name`, whitespace, `,`, whitespace, metadata

  /** The number of whitespace tokens at the front. */
  function LeadingSpaces(ts: seq<Token>): (n: nat)
    ensures n <= |ts|
    ensures n == |ts| || ts[n] != Space
    decreases |ts|
  {
    if ts == [] || ts[0] != Space then 0 else 1 + LeadingSpaces(ts[1..])
  }

  /** `Whitespace()`: what follows the leading whitespace. */
  function SkipSpaces(ts: seq<Token>): (r: seq<Token>)
    ensures r == [] || r[0] != Space
  {
    ts[LeadingSpaces(ts)..]
  }

  /**
   * The header parser, one stage per element: `{`, then (after
   * whitespace) the atom, the comma and the metadata. On success it gives
   * the atom's name and the metadata, and the input after them; on
   * failure, what it expected and where.
   */
  function ParseHeader(ts: seq<Token>): Parsed<(string, Metadata), ParseError> {
    if ts == [] || ts[0] != OpenBrace then Parsed(Failure(Expected("{")), ts)
    else ParseAtom(SkipSpaces(ts[1..]))
  }

  function ParseAtom(ts: seq<Token>): Parsed<(string, Metadata), ParseError> {
    if ts == [] || !ts[0].AtomToken? then Parsed(Failure(Expected("atom")), ts)
    else ParseComma(ts[0].name, SkipSpaces(ts[1..]))
  }

  function ParseComma(name: string, ts: seq<Token>): Parsed<(string, Metadata), ParseError> {
    if ts == [] || ts[0] != Comma then Parsed(Failure(Expected(",")), ts)
    else ParseMetadata(name, SkipSpaces(ts[1..]))
  }

  function ParseMetadata(name: string, ts: seq<Token>): Parsed<(string, Metadata), ParseError> {
    if ts == [] || !ts[0].MetadataToken? then Parsed(Failure(Expected("metadata")), ts)
    else Parsed(Success((name, ts[0].metadata)), ts[1..])
  }

  function Spaces(n: nat): (r: seq<Token>)
    ensures |r| == n
  {
    if n == 0 then [] else [Space] + Spaces(n - 1)
  }

  /** A header with `s1`, `s2` and `s3` whitespace tokens in its three gaps, followed by `rest`. */
  function HeaderTokens(name: string, metadata: Metadata, s1: nat, s2: nat, s3: nat, rest: seq<Token>): seq<Token> {
    [OpenBrace] + (Spaces(s1) + ([AtomToken(name)] + (Spaces(s2) + ([Comma] + (Spaces(s3) + ([MetadataToken(metadata)] + rest))))))
  }

  // ---------------------------------------------------------------------
  // Properties of the header parser

  lemma {:induction false} LeadingSpacesOf(n: nat, t: seq<Token>)
    requires t == [] || t[0] != Space
    ensures LeadingSpaces(Spaces(n) + t) == n
    decreases n
  {
    if n > 0 {
      assert Spaces(n) + t == [Space] + (Spaces(n - 1) + t);
      LeadingSpacesOf(n - 1, t);
    }
  }

  /** Whitespace after a token is skipped up to the next token that is not whitespace. */
  lemma SkipAfter(head: Token, n: nat, t: seq<Token>)
    requires t == [] || t[0] != Space
    ensures SkipSpaces(([head] + (Spaces(n) + t))[1..]) == t
  {
    assert ([head] + (Spaces(n) + t))[1..] == Spaces(n) + t;
    LeadingSpacesOf(n, t);
    assert (Spaces(n) + t)[n..] == t;
  }

  lemma MetadataStep(name: string, metadata: Metadata, rest: seq<Token>)
    ensures ParseMetadata(name, [MetadataToken(metadata)] + rest) == Parsed(Success((name, metadata)), rest)
  {
    assert ([MetadataToken(metadata)] + rest)[1..] == rest;
  }

  lemma CommaStep(name: string, n: nat, t: seq<Token>)
    requires t == [] || t[0] != Space
    ensures ParseComma(name, [Comma] + (Spaces(n) + t)) == ParseMetadata(name, t)
  {
    SkipAfter(Comma, n, t);
  }

  lemma AtomStep(name: string, n: nat, t: seq<Token>)
    requires t == [] || t[0] != Space
    ensures ParseAtom([AtomToken(name)] + (Spaces(n) + t)) == ParseComma(name, t)
  {
    SkipAfter(AtomToken(name), n, t);
  }

  lemma BraceStep(n: nat, t: seq<Token>)
    requires t == [] || t[0] != Space
    ensures ParseHeader([OpenBrace] + (Spaces(n) + t)) == ParseAtom(t)
  {
    SkipAfter(OpenBrace, n, t);
  }

  /** A header written with any whitespace parses back to its name and metadata, leaving what follows it. */
  lemma {:induction false} HeaderRoundTrip(name: string, metadata: Metadata, s1: nat, s2: nat, s3: nat, rest: seq<Token>)
    ensures ParseHeader(HeaderTokens(name, metadata, s1, s2, s3, rest)) == Parsed(Success((name, metadata)), rest)
  {
    var t3 := [MetadataToken(metadata)] + rest;
    var t2 := [Comma] + (Spaces(s3) + t3);
    var t1 := [AtomToken(name)] + (Spaces(s2) + t2);
    BraceStep(s1, t1);
    AtomStep(name, s2, t2);
    CommaStep(name, s3, t3);
    MetadataStep(name, metadata, rest);
  }

  /** A sequence is its leading whitespace followed by what `SkipSpaces` leaves. */
  lemma {:induction false} SplitSpaces(ts: seq<Token>)
    ensures ts == Spaces(LeadingSpaces(ts)) + SkipSpaces(ts)
    decreases |ts|
  {
    if ts != [] && ts[0] == Space {
      SplitSpaces(ts[1..]);
      assert SkipSpaces(ts) == SkipSpaces(ts[1..]);
      assert ts == [Space] + ts[1..];
    }
  }

  /** After a token, the input is the token, its whitespace and what follows. */
  lemma SplitAfter(ts: seq<Token>)
    requires ts != []
    ensures ts == [ts[0]] + (Spaces(LeadingSpaces(ts[1..])) + SkipSpaces(ts[1..]))
  {
    SplitSpaces(ts[1..]);
    assert ts == [ts[0]] + ts[1..];
  }

  lemma BraceSound(ts: seq<Token>)
    requires ParseHeader(ts).outcome.Success?
    ensures ts == [OpenBrace] + (Spaces(LeadingSpaces(ts[1..])) + SkipSpaces(ts[1..]))
    ensures ParseHeader(ts) == ParseAtom(SkipSpaces(ts[1..]))
  {
    SplitAfter(ts);
  }

  lemma AtomSound(ts: seq<Token>)
    requires ParseAtom(ts).outcome.Success?
    ensures ts != [] && ts[0].AtomToken?
    ensures ts == [AtomToken(ts[0].name)] + (Spaces(LeadingSpaces(ts[1..])) + SkipSpaces(ts[1..]))
    ensures ParseAtom(ts) == ParseComma(ts[0].name, SkipSpaces(ts[1..]))
  {
    SplitAfter(ts);
  }

  lemma CommaSound(name: string, ts: seq<Token>)
    requires ParseComma(name, ts).outcome.Success?
    ensures ts == [Comma] + (Spaces(LeadingSpaces(ts[1..])) + SkipSpaces(ts[1..]))
    ensures ParseComma(name, ts) == ParseMetadata(name, SkipSpaces(ts[1..]))
  {
    SplitAfter(ts);
  }

  lemma MetadataSound(name: string, ts: seq<Token>)
    requires ParseMetadata(name, ts).outcome.Success?
    ensures ParseMetadata(name, ts).outcome.value.0 == name
    ensures ts == [MetadataToken(ParseMetadata(name, ts).outcome.value.1)] + ParseMetadata(name, ts).rest
  {
    assert ts == [ts[0]] + ts[1..];
  }

  /** Whatever the header parser accepts is a header followed by the input it leaves. */
  lemma {:induction false} HeaderSound(ts: seq<Token>)
    requires ParseHeader(ts).outcome.Success?
    ensures exists s1: nat, s2: nat, s3: nat ::
      ts == HeaderTokens(ParseHeader(ts).outcome.value.0, ParseHeader(ts).outcome.value.1, s1, s2, s3, ParseHeader(ts).rest)
  {
    BraceSound(ts);
    var a := SkipSpaces(ts[1..]);
    AtomSound(a);
    var name := a[0].name;
    var b := SkipSpaces(a[1..]);
    CommaSound(name, b);
    var c := SkipSpaces(b[1..]);
    MetadataSound(name, c);
    var metadata, rest := ParseMetadata(name, c).outcome.value.1, ParseMetadata(name, c).rest;
    var s1, s2, s3 := LeadingSpaces(ts[1..]), LeadingSpaces(a[1..]), LeadingSpaces(b[1..]);
    assert ParseHeader(ts) == ParseMetadata(name, c);
    assert ts == HeaderTokens(name, metadata, s1, s2, s3, rest);
  }

  // ---------------------------------------------------------------------
  // The dispatcher

  /** `_ParserType.parse(&input)` as a function of the input: the outcome and the input it leaves. */
  function Dispatch(parsers: OperationParsers, input: seq<Token>): Parsed<BuiltinModifier, ParseError> {
    var header := ParseHeader(input);
    match header.outcome
    case Failure(e) => Parsed(Failure(e), input)
    case Success((name, metadata)) =>
      match Entry(parsers, name)
      case None => Parsed(Failure(UnknownModifier(name, metadata)), input)
      case Some(parser) => parser(input)
  }

  // ---------------------------------------------------------------------
  // Properties of the dispatcher

  /** The entries of the modelled operations are in the table. */
  lemma ModelledNamesInTable()
    ensures Alert.Name in GeneratedNames && Background.Name in GeneratedNames
    ensures ContainerRelativeFrame.Name in GeneratedNames && ContextMenu.Name in GeneratedNames
    ensures Frame.Name in GeneratedNames && LineLimit.Name in GeneratedNames && Toolbar.Name in GeneratedNames
  {
    assert NamesA[6] == Alert.Name;
    assert NamesB[0] == Background.Name;
    assert NamesC[5] == ContainerRelativeFrame.Name;
    assert NamesC[7] == ContextMenu.Name;
    assert NamesF[12] == Frame.Name;
    assert NamesL[4] == LineLimit.Name;
    assert NamesT[9] == Toolbar.Name;
  }

  /** A malformed header fails with the header parser's error and advances nothing. */
  lemma BadHeaderFails(parsers: OperationParsers, input: seq<Token>)
    requires ParseHeader(input).outcome.Failure?
    ensures Dispatch(parsers, input) == Parsed(Failure(ParseHeader(input).outcome.error), input)
  {
  }

  /**
   * A name with no entry fails with `unknownModifier`, the name and its
   * metadata; the input is not advanced and no operation parser runs, so
   * the result is the same whatever the parsers.
   */
  lemma UnknownNameFails(parsers: OperationParsers, others: OperationParsers, input: seq<Token>)
    requires ParseHeader(input).outcome.Success? && ParseHeader(input).outcome.value.0 !in GeneratedNames
    requires ParseHeader(input).outcome.value.0 !in parsers.extras && ParseHeader(input).outcome.value.0 !in others.extras
    ensures Dispatch(parsers, input) == Parsed(Failure(UnknownModifier(ParseHeader(input).outcome.value.0, ParseHeader(input).outcome.value.1)), input)
    ensures Dispatch(parsers, input) == Dispatch(others, input)
  {
  }

  /**
   * For a name in the table, the outcome is that of the name's parser run
   * on the original input, header included; what it produces is the case
   * of the operation with that name.
   */
  lemma KnownNameRunsOnOriginalInput(parsers: OperationParsers, input: seq<Token>)
    requires ParseHeader(input).outcome.Success? && ParseHeader(input).outcome.value.0 in GeneratedNames
    ensures Entry(parsers, ParseHeader(input).outcome.value.0).Some?
    ensures Dispatch(parsers, input) == Entry(parsers, ParseHeader(input).outcome.value.0).value(input)
    ensures Dispatch(parsers, input).outcome.Success? ==> CaseName(Dispatch(parsers, input).outcome.value) == ParseHeader(input).outcome.value.0
  {
    EntrySameCase(parsers, ParseHeader(input).outcome.value.0, input);
  }

  /**
   * A hand-written entry's name runs that type's parser on the original
   * input; what it produces is the case of that type.
   */
  lemma ExtraNameRunsOnOriginalInput(parsers: OperationParsers, input: seq<Token>)
    requires ParseHeader(input).outcome.Success?
    requires ParseHeader(input).outcome.value.0 !in GeneratedNames && ParseHeader(input).outcome.value.0 in parsers.extras
    ensures Dispatch(parsers, input) ==
      MapParsed(parsers.extras[ParseHeader(input).outcome.value.0].parser(input),
                (v: nat) => ExtraModifier(parsers.extras[ParseHeader(input).outcome.value.0].typeName, v))
  {
  }

  /** What a table entry produces is always the case of the operation named by its key. */
  lemma EntrySameCase(parsers: OperationParsers, name: string, ts: seq<Token>)
    requires name in GeneratedNames
    ensures Entry(parsers, name).Some?
    ensures Entry(parsers, name).value(ts).outcome.Success? ==> CaseName(Entry(parsers, name).value(ts).outcome.value) == name
  {
    EntryParserSameCase(parsers, name, ts);
  }

  lemma EntryParserSameCase(parsers: OperationParsers, name: string, ts: seq<Token>)
    ensures EntryParser(parsers, name)(ts).outcome.Success? ==> CaseName(EntryParser(parsers, name)(ts).outcome.value) == name
  {
    var p := EntryParser(parsers, name)(ts);
    if name == Alert.Name {
      assert p == MapParsed(parsers.alert(ts), (v: Alert.Alert) => AlertModifier(v));
    } else if name == Background.Name {
      assert p == MapParsed(parsers.background(ts), (v: Background.Value) => BackgroundModifier(v));
    } else if name == ContainerRelativeFrame.Name {
      assert p == MapParsed(parsers.containerRelativeFrame(ts), (v: ContainerRelativeFrame.Value) => ContainerRelativeFrameModifier(v));
    } else if name == ContextMenu.Name {
      assert p == MapParsed(parsers.contextMenu(ts), (v: ContextMenu.Value) => ContextMenuModifier(v));
    } else if name == Frame.Name {
      assert p == MapParsed(parsers.frame(ts), (v: Frame.Value) => FrameModifier(v));
    } else if name == LineLimit.Name {
      assert p == MapParsed(parsers.lineLimit(ts), (v: LineLimit.Value) => LineLimitModifier(v));
    } else if name == Toolbar.Name {
      assert p == MapParsed(parsers.toolbar(ts), (v: Toolbar.Value) => ToolbarModifier(v));
    } else {
      assert p == MapParsed(parsers.other(name)(ts), (v: nat) => OtherModifier(name, v));
    }
  }

  /** The modelled operations' names select their own parsers, run on the whole tuple. */
  lemma ModelledDispatch(parsers: OperationParsers, metadata: Metadata, s1: nat, s2: nat, s3: nat, args: seq<Token>)
    ensures Dispatch(parsers, HeaderTokens(Background.Name, metadata, s1, s2, s3, args)) ==
      MapParsed(parsers.background(HeaderTokens(Background.Name, metadata, s1, s2, s3, args)), (v: Background.Value) => BackgroundModifier(v))
    ensures Dispatch(parsers, HeaderTokens(Frame.Name, metadata, s1, s2, s3, args)) ==
      MapParsed(parsers.frame(HeaderTokens(Frame.Name, metadata, s1, s2, s3, args)), (v: Frame.Value) => FrameModifier(v))
    ensures Dispatch(parsers, HeaderTokens(Toolbar.Name, metadata, s1, s2, s3, args)) ==
      MapParsed(parsers.toolbar(HeaderTokens(Toolbar.Name, metadata, s1, s2, s3, args)), (v: Toolbar.Value) => ToolbarModifier(v))
  {
    ModelledNamesInTable();
    HeaderRoundTrip(Background.Name, metadata, s1, s2, s3, args);
    HeaderRoundTrip(Frame.Name, metadata, s1, s2, s3, args);
    HeaderRoundTrip(Toolbar.Name, metadata, s1, s2, s3, args);
  }

  /** A tuple whose name is not in the table fails with that name and the tuple's metadata. */
  lemma UnknownTupleFails(parsers: OperationParsers, name: string, metadata: Metadata, s1: nat, s2: nat, s3: nat, args: seq<Token>)
    requires name !in GeneratedNames && name !in parsers.extras
    ensures Dispatch(parsers, HeaderTokens(name, metadata, s1, s2, s3, args)) ==
      Parsed(Failure(UnknownModifier(name, metadata)), HeaderTokens(name, metadata, s1, s2, s3, args))
  {
    HeaderRoundTrip(name, metadata, s1, s2, s3, args);
  }

  /** The input cursor the parser advances (`inout Substring.UTF8View`). */
  class ModifierInput {
    var remaining: seq<Token>

    constructor (tokens: seq<Token>)
      ensures remaining == tokens
    {
      remaining := tokens;
    }

    /** Parses one modifier: the header on a copy, then the operation's parser on the input itself. */
    method ParseBuiltinModifier(parsers: OperationParsers) returns (r: Outcome<BuiltinModifier, ParseError>)
      modifies this
      ensures Parsed(r, remaining) == Dispatch(parsers, old(remaining))
    {
      var copy := remaining;
      var header := ParseHeader(copy);
      if header.outcome.Failure? {
        return Failure(header.outcome.error);
      }
      var (name, metadata) := header.outcome.value;
      var entry := Entry(parsers, name);
      if entry.None? {
        return Failure(UnknownModifier(name, metadata));
      }
      var parsed := entry.value(remaining);
      remaining := parsed.rest;
      r := parsed.outcome;
    }
  }
}
