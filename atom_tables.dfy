/**
 * The enum tables of the generated value parsers: an ordered list of atom
 * literals, each mapped to a static member of a SwiftUI enum, some of them
 * behind `#if os(...)` and `#available(...)` checks that stop with a fatal
 * error instead of returning.
 *
 * The ordered choice over constant atom literals is modelled on the atom's
 * name: the first entry whose literal equals the atom is the one that runs.
 */
module AtomTables {
  import opened Wrappers
  import opened Platforms
  import ModifierValues

  /** The checks around the `return` of one entry: none, or an OS list and minimum versions. */
  datatype Gate = Always | Gated(oses: set<OS>, minimums: map<OS, Version>)

  datatype Entry<T> = Entry(literal: string, member: T, gate: Gate)

  /** What parsing an atom against a table gives: a member, a fatal error, or no alternative matching. */
  datatype Resolution<T> = Found(value: T) | Trap(message: string) | NoMatch

  /** The index of the first entry at or after `from` whose literal is `atom`. */
  function FirstAt<T>(table: seq<Entry<T>>, atom: string, from: nat): (r: Option<nat>)
    requires from <= |table|
    ensures r.Some? ==> from <= r.value < |table| && table[r.value].literal == atom
    ensures r.Some? ==> forall j :: from <= j < r.value ==> table[j].literal != atom
    ensures r.None? <==> forall j :: from <= j < |table| ==> table[j].literal != atom
    decreases |table| - from
  {
    if from == |table| then None
    else if table[from].literal == atom then Some(from)
    else FirstAt(table, atom, from + 1)
  }

  function OSMessage(literal: string): string {
    "'" + literal + "' is not available on this OS"
  }

  function VersionMessage(literal: string): string {
    "'" + literal + "' is not available in this OS version"
  }

  /** The body of a matched entry: the member, or the `fatalError` of the check that fails. */
  function Resolve<T>(entry: Entry<T>, p: Platform): (r: Resolution<T>)
    ensures r != NoMatch
    ensures r.Found? <==> entry.gate.Always? || (p.os in entry.gate.oses && Available(entry.gate.minimums, p))
    ensures r.Found? ==> r.value == entry.member
    ensures entry.gate.Gated? && p.os !in entry.gate.oses ==> r == Trap(OSMessage(entry.literal))
    ensures entry.gate.Gated? && p.os in entry.gate.oses && !Available(entry.gate.minimums, p) ==> r == Trap(VersionMessage(entry.literal))
  {
    match entry.gate
    case Always => Found(entry.member)
    case Gated(oses, minimums) =>
      if p.os !in oses then Trap(OSMessage(entry.literal))
      else if !Available(minimums, p) then Trap(VersionMessage(entry.literal))
      else Found(entry.member)
  }

  /** `ImplicitStaticMember { OneOf { ConstantAtomLiteral(...) ... } }`: the first matching entry runs. */
  function Lookup<T>(table: seq<Entry<T>>, atom: string, p: Platform): (r: Resolution<T>)
    ensures r.NoMatch? <==> forall j :: 0 <= j < |table| ==> table[j].literal != atom
  {
    match FirstAt(table, atom, 0)
    case None => NoMatch
    case Some(i) => Resolve(table[i], p)
  }

  predicate Distinct<T>(table: seq<Entry<T>>) {
    forall i, j :: 0 <= i < j < |table| ==> table[i].literal != table[j].literal
  }

  /** With distinct literals the order of the entries does not matter: an entry's literal selects that entry. */
  lemma LookupEntry<T>(table: seq<Entry<T>>, i: nat, p: Platform)
    requires Distinct(table) && i < |table|
    ensures Lookup(table, table[i].literal, p) == Resolve(table[i], p)
  {
    assert FirstAt(table, table[i].literal, 0).Some?;
  }

  // ---------------------------------------------------------------------
  // Axis

  const AxisTable: seq<Entry<ModifierValues.Axis>> := [
    Entry("horizontal", ModifierValues.Horizontal, Always),
    Entry("vertical", ModifierValues.Vertical, Always)
  ]

  function AxisName(axis: ModifierValues.Axis): string {
    match axis
    case Horizontal => "horizontal"
    case Vertical => "vertical"
  }

  /** Each axis is parsed from the atom of its own name, on every platform, and nothing else parses. */
  lemma AxisLookup(atom: string, p: Platform)
    ensures forall axis: ModifierValues.Axis :: Lookup(AxisTable, AxisName(axis), p) == Found(axis)
    ensures Lookup(AxisTable, atom, p).Found? <==> atom == "horizontal" || atom == "vertical"
    ensures Lookup(AxisTable, atom, p).Trap? == false
  {
    assert Distinct(AxisTable);
    LookupEntry(AxisTable, 0, p);
    LookupEntry(AxisTable, 1, p);
  }

  // ---------------------------------------------------------------------
  // BlendMode

  datatype BlendMode =
    | Normal | Multiply | Screen | Overlay | Darken | Lighten | ColorDodge
    | ColorBurn | SoftLight | HardLight | Difference | Exclusion | Hue
    | Saturation | Color | Luminosity | SourceAtop | DestinationOver
    | DestinationOut | PlusDarker | PlusLighter

  /** The Swift name of each static member. */
  function BlendModeName(mode: BlendMode): string {
    match mode
    case Normal => "normal"
    case Multiply => "multiply"
    case Screen => "screen"
    case Overlay => "overlay"
    case Darken => "darken"
    case Lighten => "lighten"
    case ColorDodge => "colorDodge"
    case ColorBurn => "colorBurn"
    case SoftLight => "softLight"
    case HardLight => "hardLight"
    case Difference => "difference"
    case Exclusion => "exclusion"
    case Hue => "hue"
    case Saturation => "saturation"
    case Color => "color"
    case Luminosity => "luminosity"
    case SourceAtop => "sourceAtop"
    case DestinationOver => "destinationOver"
    case DestinationOut => "destinationOut"
    case PlusDarker => "plusDarker"
    case PlusLighter => "plusLighter"
  }

  /**
   * Each alternative is the atom literal of a member's own name, mapped to
   * that member, with no check around it.
   */
  function BlendModeEntry(mode: BlendMode): Entry<BlendMode> {
    Entry(BlendModeName(mode), mode, Always)
  }

  /** The alternatives in the order they are listed. */
  const BlendModeTable: seq<Entry<BlendMode>> := [
    BlendModeEntry(Normal),
    BlendModeEntry(Multiply),
    BlendModeEntry(Screen),
    BlendModeEntry(Overlay),
    BlendModeEntry(Darken),
    BlendModeEntry(Lighten),
    BlendModeEntry(ColorDodge),
    BlendModeEntry(ColorBurn),
    BlendModeEntry(SoftLight),
    BlendModeEntry(HardLight),
    BlendModeEntry(Difference),
    BlendModeEntry(Exclusion),
    BlendModeEntry(Hue),
    BlendModeEntry(Saturation),
    BlendModeEntry(Color),
    BlendModeEntry(Luminosity),
    BlendModeEntry(SourceAtop),
    BlendModeEntry(DestinationOver),
    BlendModeEntry(DestinationOut),
    BlendModeEntry(PlusDarker),
    BlendModeEntry(PlusLighter)
  ]

  /** The member an atom names, if any. */
  function BlendModeOfName(name: string): Option<BlendMode> {
    if name == "normal" then Some(Normal)
    else if name == "multiply" then Some(Multiply)
    else if name == "screen" then Some(Screen)
    else if name == "overlay" then Some(Overlay)
    else if name == "darken" then Some(Darken)
    else if name == "lighten" then Some(Lighten)
    else if name == "colorDodge" then Some(ColorDodge)
    else if name == "colorBurn" then Some(ColorBurn)
    else if name == "softLight" then Some(SoftLight)
    else if name == "hardLight" then Some(HardLight)
    else if name == "difference" then Some(Difference)
    else if name == "exclusion" then Some(Exclusion)
    else if name == "hue" then Some(Hue)
    else if name == "saturation" then Some(Saturation)
    else if name == "color" then Some(Color)
    else if name == "luminosity" then Some(Luminosity)
    else if name == "sourceAtop" then Some(SourceAtop)
    else if name == "destinationOver" then Some(DestinationOver)
    else if name == "destinationOut" then Some(DestinationOut)
    else if name == "plusDarker" then Some(PlusDarker)
    else if name == "plusLighter" then Some(PlusLighter)
    else None
  }

  /** No two members share a name. */
  lemma BlendModeNameInjective(mode: BlendMode)
    ensures BlendModeOfName(BlendModeName(mode)) == Some(mode)
  {
    match mode
    case Normal =>
    case Multiply =>
    case Screen =>
    case Overlay =>
    case Darken =>
    case Lighten =>
    case ColorDodge =>
    case ColorBurn =>
    case SoftLight =>
    case HardLight =>
    case Difference =>
    case Exclusion =>
    case Hue =>
    case Saturation =>
    case Color =>
    case Luminosity =>
    case SourceAtop =>
    case DestinationOver =>
    case DestinationOut =>
    case PlusDarker =>
    case PlusLighter =>
  }

  /** Where each member sits in the table. */
  function BlendModeIndex(mode: BlendMode): (r: nat)
    ensures r < |BlendModeTable| && BlendModeTable[r] == BlendModeEntry(mode)
  {
    match mode
    case Normal => 0
    case Multiply => 1
    case Screen => 2
    case Overlay => 3
    case Darken => 4
    case Lighten => 5
    case ColorDodge => 6
    case ColorBurn => 7
    case SoftLight => 8
    case HardLight => 9
    case Difference => 10
    case Exclusion => 11
    case Hue => 12
    case Saturation => 13
    case Color => 14
    case Luminosity => 15
    case SourceAtop => 16
    case DestinationOver => 17
    case DestinationOut => 18
    case PlusDarker => 19
    case PlusLighter => 20
  }

  /** Each member is listed once. */
  lemma BlendModeListedOnce()
    ensures forall i :: 0 <= i < |BlendModeTable| ==> BlendModeIndex(BlendModeTable[i].member) == i
  {
  }

  /** The 21 literals are pairwise distinct. */
  lemma BlendModeDistinct()
    ensures Distinct(BlendModeTable)
  {
    BlendModeListedOnce();
    forall i, j | 0 <= i < j < |BlendModeTable|
      ensures BlendModeTable[i].literal != BlendModeTable[j].literal
    {
      BlendModeNameInjective(BlendModeTable[i].member);
      BlendModeNameInjective(BlendModeTable[j].member);
    }
  }

  /** Every blend mode is parsed from the atom of its own name, on every platform. */
  lemma BlendModeLookup(mode: BlendMode, p: Platform)
    ensures Lookup(BlendModeTable, BlendModeName(mode), p) == Found(mode)
  {
    var i := BlendModeIndex(mode);
    BlendModeDistinct();
    LookupEntry(BlendModeTable, i, p);
  }

  /** An atom parses as a blend mode exactly when it is a member's name, and never traps. */
  lemma BlendModeOnlyNames(atom: string, p: Platform)
    ensures Lookup(BlendModeTable, atom, p).NoMatch? <==> forall mode :: BlendModeName(mode) != atom
    ensures !Lookup(BlendModeTable, atom, p).Trap?
  {
    if mode :| BlendModeName(mode) == atom {
      BlendModeLookup(mode, p);
    } else {
      forall j | 0 <= j < |BlendModeTable|
        ensures BlendModeTable[j].literal != atom
      {
        assert BlendModeTable[j] == BlendModeEntry(BlendModeTable[j].member);
      }
    }
  }

  // ---------------------------------------------------------------------
  // ContentShapeKinds: every member but `interaction` is gated

  datatype ContentShapeKind = Interaction | DragPreview | ContextMenuPreview | HoverEffect | FocusEffect | Accessibility

  function ContentShapeKindName(kind: ContentShapeKind): string {
    match kind
    case Interaction => "interaction"
    case DragPreview => "dragPreview"
    case ContextMenuPreview => "contextMenuPreview"
    case HoverEffect => "hoverEffect"
    case FocusEffect => "focusEffect"
    case Accessibility => "accessibility"
  }

  /** The checks around each member's `return`, as the generated file writes them. */
  function ContentShapeKindGate(kind: ContentShapeKind): Gate {
    match kind
    case Interaction => Always
    case DragPreview =>
      Gated({MacOS, IOS}, map[MacOS := Version(12, 0), WatchOS := Version(8, 0), TvOS := Version(15, 0), IOS := Version(15, 0)])
    case ContextMenuPreview =>
      Gated({IOS, TvOS}, map[MacOS := Version(12, 0), IOS := Version(15, 0), WatchOS := Version(8, 0), TvOS := Version(17, 0)])
    case HoverEffect =>
      Gated({IOS}, map[MacOS := Version(12, 0), IOS := Version(15, 0), WatchOS := Version(8, 0), TvOS := Version(15, 0)])
    case FocusEffect =>
      Gated({MacOS, WatchOS}, map[MacOS := Version(12, 0), IOS := Version(15, 0), WatchOS := Version(8, 0), TvOS := Version(15, 0)])
    case Accessibility =>
      Gated({IOS, TvOS, MacOS, WatchOS}, map[IOS := Version(17, 0), TvOS := Version(17, 0), MacOS := Version(14, 0), WatchOS := Version(10, 0)])
  }

  function ContentShapeKindEntry(kind: ContentShapeKind): Entry<ContentShapeKind> {
    Entry(ContentShapeKindName(kind), kind, ContentShapeKindGate(kind))
  }

  /** The alternatives in the order they are listed. */
  const ContentShapeKindsTable: seq<Entry<ContentShapeKind>> := [
    ContentShapeKindEntry(Interaction),
    ContentShapeKindEntry(DragPreview),
    ContentShapeKindEntry(ContextMenuPreview),
    ContentShapeKindEntry(HoverEffect),
    ContentShapeKindEntry(FocusEffect),
    ContentShapeKindEntry(Accessibility)
  ]

  function ContentShapeKindIndex(kind: ContentShapeKind): (r: nat)
    ensures r < |ContentShapeKindsTable| && ContentShapeKindsTable[r] == ContentShapeKindEntry(kind)
  {
    match kind
    case Interaction => 0
    case DragPreview => 1
    case ContextMenuPreview => 2
    case HoverEffect => 3
    case FocusEffect => 4
    case Accessibility => 5
  }

  /**
   * Where each kind can be returned, stated per kind: the OSes it is
   * compiled for, each with its first version; the minimums listed for
   * OSes it is not compiled for never matter.
   */
  predicate KindAvailable(kind: ContentShapeKind, p: Platform) {
    match kind
    case Interaction => true
    case DragPreview =>
      (p.os == MacOS && AtLeast(p.version, Version(12, 0))) || (p.os == IOS && AtLeast(p.version, Version(15, 0)))
    case ContextMenuPreview =>
      (p.os == IOS && AtLeast(p.version, Version(15, 0))) || (p.os == TvOS && AtLeast(p.version, Version(17, 0)))
    case HoverEffect =>
      p.os == IOS && AtLeast(p.version, Version(15, 0))
    case FocusEffect =>
      (p.os == MacOS && AtLeast(p.version, Version(12, 0))) || (p.os == WatchOS && AtLeast(p.version, Version(8, 0)))
    case Accessibility =>
      p.os != XrOS && AtLeast(p.version, if p.os == MacOS then Version(14, 0) else if p.os == WatchOS then Version(10, 0) else Version(17, 0))
  }

  lemma ContentShapeKindsDistinct()
    ensures Distinct(ContentShapeKindsTable)
  {
  }

  /**
   * A kind's atom returns the kind exactly where the kind is available; anywhere
   * else it reaches a fatal error, and never falls through to another alternative.
   */
  lemma ContentShapeKindLookup(kind: ContentShapeKind, p: Platform)
    ensures Lookup(ContentShapeKindsTable, ContentShapeKindName(kind), p) != NoMatch
    ensures Lookup(ContentShapeKindsTable, ContentShapeKindName(kind), p).Found? <==> KindAvailable(kind, p)
    ensures Lookup(ContentShapeKindsTable, ContentShapeKindName(kind), p).Found? ==>
      Lookup(ContentShapeKindsTable, ContentShapeKindName(kind), p).value == kind
  {
    LookupKind(kind, p);
    KindResolves(kind, p);
  }

  /** The checks of each kind's entry pass exactly where the kind is available. */
  lemma KindResolves(kind: ContentShapeKind, p: Platform)
    ensures Resolve(ContentShapeKindEntry(kind), p).Found? <==> KindAvailable(kind, p)
  {
  }

  /** Which of the two fatal errors is reached: off the compiled OSes the OS one, on them the version one. */
  lemma ContentShapeKindTraps(p: Platform, version: Version)
    ensures Lookup(ContentShapeKindsTable, "hoverEffect", Platform(MacOS, version)) == Trap(OSMessage("hoverEffect"))
    ensures !AtLeast(version, Version(15, 0)) ==>
      Lookup(ContentShapeKindsTable, "hoverEffect", Platform(IOS, version)) == Trap(VersionMessage("hoverEffect"))
    ensures Lookup(ContentShapeKindsTable, "contextMenuPreview", Platform(TvOS, Version(16, 0))) == Trap(VersionMessage("contextMenuPreview"))
    ensures p.os == XrOS ==> Lookup(ContentShapeKindsTable, "accessibility", p) == Trap(OSMessage("accessibility"))
  {
    HoverEffectTraps(version);
    ContextMenuPreviewTraps();
    AccessibilityTraps(p);
  }

  lemma HoverEffectTraps(version: Version)
    ensures Lookup(ContentShapeKindsTable, "hoverEffect", Platform(MacOS, version)) == Trap(OSMessage("hoverEffect"))
    ensures !AtLeast(version, Version(15, 0)) ==>
      Lookup(ContentShapeKindsTable, "hoverEffect", Platform(IOS, version)) == Trap(VersionMessage("hoverEffect"))
  {
    LookupKind(HoverEffect, Platform(MacOS, version));
    LookupKind(HoverEffect, Platform(IOS, version));
  }

  lemma ContextMenuPreviewTraps()
    ensures Lookup(ContentShapeKindsTable, "contextMenuPreview", Platform(TvOS, Version(16, 0))) == Trap(VersionMessage("contextMenuPreview"))
  {
    LookupKind(ContextMenuPreview, Platform(TvOS, Version(16, 0)));
  }

  lemma AccessibilityTraps(p: Platform)
    ensures p.os == XrOS ==> Lookup(ContentShapeKindsTable, "accessibility", p) == Trap(OSMessage("accessibility"))
  {
    if p.os == XrOS {
      LookupKind(Accessibility, p);
      assert p.os !in ContentShapeKindGate(Accessibility).oses;
    }
  }

  /** A kind's atom runs that kind's entry. */
  lemma LookupKind(kind: ContentShapeKind, p: Platform)
    ensures Lookup(ContentShapeKindsTable, ContentShapeKindName(kind), p) == Resolve(ContentShapeKindEntry(kind), p)
  {
    ContentShapeKindsDistinct();
    LookupEntry(ContentShapeKindsTable, ContentShapeKindIndex(kind), p);
  }

  // ---------------------------------------------------------------------
  // SubmitLabel: two members are Swift keywords

  datatype SubmitLabel = Done | Go | Send | Join | Route | Search | Return | Next | Continue

  /** The name of each member; `return` and `continue` are spelt with backticks only in Swift source. */
  function SubmitLabelName(submitLabel: SubmitLabel): string {
    match submitLabel
    case Done => "done"
    case Go => "go"
    case Send => "send"
    case Join => "join"
    case Route => "route"
    case Search => "search"
    case Return => "return"
    case Next => "next"
    case Continue => "continue"
  }

  /** The table as the generated file writes it: the two keyword literals keep their backticks. */
  const SubmitLabelTableAsWritten: seq<Entry<SubmitLabel>> := [
    Entry("done", Done, Always),
    Entry("go", Go, Always),
    Entry("send", Send, Always),
    Entry("join", Join, Always),
    Entry("route", Route, Always),
    Entry("search", Search, Always),
    Entry("`return`", Return, Always),
    Entry("next", Next, Always),
    Entry("`continue`", Continue, Always)
  ]

  /** The atom `:return` finds no alternative, nor does `:continue`: only a backticked name would reach them. */
  lemma SubmitLabelKeywordsUnreachable(p: Platform)
    ensures Lookup(SubmitLabelTableAsWritten, SubmitLabelName(Return), p) == NoMatch
    ensures Lookup(SubmitLabelTableAsWritten, SubmitLabelName(Continue), p) == NoMatch
    ensures Lookup(SubmitLabelTableAsWritten, "`return`", p) == Found(Return)
  {
    assert SubmitLabelTableAsWritten[0].literal == "done";
    assert SubmitLabelTableAsWritten[6].literal == "`return`";
    assert SubmitLabelTableAsWritten[8].literal == "`continue`";
  }

  /** The table with the literals the atom syntax can express. */
  const SubmitLabelTable: seq<Entry<SubmitLabel>> := [
    Entry("done", Done, Always),
    Entry("go", Go, Always),
    Entry("send", Send, Always),
    Entry("join", Join, Always),
    Entry("route", Route, Always),
    Entry("search", Search, Always),
    Entry("return", Return, Always),
    Entry("next", Next, Always),
    Entry("continue", Continue, Always)
  ]

  function SubmitLabelIndex(submitLabel: SubmitLabel): (r: nat)
    ensures r < |SubmitLabelTable| && SubmitLabelTable[r].member == submitLabel
    ensures SubmitLabelTable[r].literal == SubmitLabelName(submitLabel)
  {
    match submitLabel
    case Done => 0
    case Go => 1
    case Send => 2
    case Join => 3
    case Route => 4
    case Search => 5
    case Return => 6
    case Next => 7
    case Continue => 8
  }

  lemma SubmitLabelDistinct()
    ensures Distinct(SubmitLabelTable)
  {
  }

  /** The corrected table differs from the written one only in the two keyword literals. */
  lemma SubmitLabelCorrection()
    ensures |SubmitLabelTable| == |SubmitLabelTableAsWritten|
    ensures forall i :: 0 <= i < |SubmitLabelTable| && i != 6 && i != 8 ==> SubmitLabelTable[i] == SubmitLabelTableAsWritten[i]
    ensures forall i :: 0 <= i < |SubmitLabelTable| ==> SubmitLabelTable[i].member == SubmitLabelTableAsWritten[i].member
  {
  }

  /** In the corrected table every submit label is parsed from the atom of its own name. */
  lemma SubmitLabelLookup(submitLabel: SubmitLabel, p: Platform)
    ensures Lookup(SubmitLabelTable, SubmitLabelName(submitLabel), p) == Found(submitLabel)
  {
    var i := SubmitLabelIndex(submitLabel);
    SubmitLabelDistinct();
    LookupEntry(SubmitLabelTable, i, p);
    assert Lookup(SubmitLabelTable, SubmitLabelTable[i].literal, p) == Found(submitLabel);
  }
}
