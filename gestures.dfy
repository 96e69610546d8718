/**
 * The gesture stylesheet value: a base gesture call followed by a chain of
 * member calls (`TapGesture(count: 2).sequenced(before: DragGesture())`),
 * folded left to right into one gesture.
 *
 * Gestures are terms; the floating-point parameters (distances, durations,
 * deltas) are parsed but their values are not part of the terms.
 */
module Gestures {
  import opened Wrappers
  import opened Platforms

  datatype CoordinateSpace = LocalSpace | GlobalSpace | NamedSpace(name: string)

  /** The gesture values the parser builds. */
  datatype Gesture =
    | DragGesture(coordinateSpace: CoordinateSpace)
    | LongPressGesture
    | MagnifyGesture(modern: bool)   // `MagnifyGesture`, or `MagnificationGesture` when not modern
    | RotateGesture(modern: bool)    // `RotateGesture`, or `RotationGesture` when not modern
    | SpatialTapGesture(count: int, coordinateSpace: CoordinateSpace)
    | TapGesture(count: int)
    | SequenceGesture(first: Gesture, second: Gesture)
    | SimultaneousGesture(first: Gesture, second: Gesture)
    | ExclusiveGesture(first: Gesture, second: Gesture)
    | EndedGesture(gesture: Gesture, action: string)

  /** A parsed member call; `OnEnded` holds the event it sends. */
  datatype Member =
    | Sequenced(other: Gesture)
    | Simultaneously(other: Gesture)
    | OnEnded(action: string)
    | Exclusively(other: Gesture)

  // ---------------------------------------------------------------------
  // Applying members

  /** The accumulated gesture and the member that was applied to it last, if any. */
  function Peel(g: Gesture): Option<(Gesture, Member)> {
    match g
    case SequenceGesture(a, b) => Some((a, Sequenced(b)))
    case SimultaneousGesture(a, b) => Some((a, Simultaneously(b)))
    case EndedGesture(a, e) => Some((a, OnEnded(e)))
    case ExclusiveGesture(a, b) => Some((a, Exclusively(b)))
    case _ => None
  }

  /** `Member.apply(to:)`: the accumulated gesture always comes first. */
  function Apply(m: Member, g: Gesture): (r: Gesture)
    ensures Peel(r) == Some((g, m))
  {
    match m
    case Sequenced(other) => SequenceGesture(g, other)
    case Simultaneously(other) => SimultaneousGesture(g, other)
    case OnEnded(action) => EndedGesture(g, action)
    case Exclusively(other) => ExclusiveGesture(g, other)
  }

  lemma PeelInverse(g: Gesture)
    ensures Peel(g).Some? ==> Apply(Peel(g).value.1, Peel(g).value.0) == g
  {
  }

  /** The members applied to `base` from left to right. */
  function Fold(base: Gesture, members: seq<Member>): Gesture
    decreases |members|
  {
    if members == [] then base
    else Apply(members[|members| - 1], Fold(base, members[..|members| - 1]))
  }

  /** `members.reduce(into: base) { result, member in result = member.apply(to: result) }`. */
  method ChainMembers(base: Gesture, members: seq<Member>) returns (result: Gesture)
    ensures result == Fold(base, members)
  {
    result := base;
    for i := 0 to |members|
      invariant result == Fold(base, members[..i])
    {
      assert members[..i + 1][..i] == members[..i];
      result := Apply(members[i], result);
    }
    assert members[..|members|] == members;
  }

  /** Folding a concatenation folds the second part onto the result of the first. */
  lemma {:induction false} FoldAppend(base: Gesture, ms1: seq<Member>, ms2: seq<Member>)
    ensures Fold(base, ms1 + ms2) == Fold(Fold(base, ms1), ms2)
    decreases |ms2|
  {
    if ms2 == [] {
      assert ms1 + ms2 == ms1;
    } else {
      var n := |ms2|;
      assert (ms1 + ms2)[..|ms1| + n - 1] == ms1 + ms2[..n - 1];
      FoldAppend(base, ms1, ms2[..n - 1]);
    }
  }

  /** Takes `n` member applications off `g`, outermost last in the list. */
  function Unchain(g: Gesture, n: nat): Option<(Gesture, seq<Member>)>
    decreases n
  {
    if n == 0 then Some((g, []))
    else match Peel(g)
      case None => None
      case Some((inner, m)) =>
        match Unchain(inner, n - 1)
        case None => None
        case Some((base, ms)) => Some((base, ms + [m]))
  }

  /** The fold loses nothing: the base and the members can be read back off the result. */
  lemma {:induction false} UnchainFold(base: Gesture, members: seq<Member>)
    ensures Unchain(Fold(base, members), |members|) == Some((base, members))
    decreases |members|
  {
    if members != [] {
      var n := |members|;
      UnchainFold(base, members[..n - 1]);
      assert members[..n - 1] + [members[n - 1]] == members;
    }
  }

  /** Whatever `Unchain` reads off a gesture folds back to it. */
  lemma {:induction false} FoldUnchain(g: Gesture, n: nat)
    ensures Unchain(g, n).Some? ==> |Unchain(g, n).value.1| == n && Fold(Unchain(g, n).value.0, Unchain(g, n).value.1) == g
    decreases n
  {
    if n > 0 && Peel(g).Some? {
      var (inner, m) := Peel(g).value;
      FoldUnchain(inner, n - 1);
      if Unchain(inner, n - 1).Some? {
        var (base, ms) := Unchain(inner, n - 1).value;
        assert (ms + [m])[..|ms|] == ms;
      }
    }
  }

  // ---------------------------------------------------------------------
  // Parsed expressions

  /** `base.m1(...).m2(...)` as the chained-member-expression parser hands it over. */
  datatype Chain = Chain(base: Call, members: seq<Call>)

  datatype Call = Call(name: string, args: seq<Arg>)

  /** An argument; the name is empty for an unlabelled one. */
  datatype Arg = Arg(name: string, value: Value)

  datatype Value =
    | IntValue(n: int)
    | NumberValue              // a floating-point literal
    | AngleValue               // an `Angle` expression
    | SpaceValue(space: CoordinateSpace)
    | EventValue(event: string)
    | GestureValue(chain: Chain)

  /**
   * Binds labelled arguments to parameters that all have defaults: the
   * arguments name parameters in declaration order, each at most once;
   * `None` marks a parameter left at its default.
   */
  function Bind(labels: seq<string>, args: seq<Arg>): (r: Option<seq<Option<Value>>>)
    ensures r.Some? ==> |r.value| == |labels|
    decreases |labels|
  {
    if labels == [] then (if args == [] then Some([]) else None)
    else if args != [] && args[0].name == labels[0] then
      match Bind(labels[1..], args[1..])
      case Some(vs) => Some([Some(args[0].value)] + vs)
      case None => None
    else
      match Bind(labels[1..], args)
      case Some(vs) => Some([None] + vs)
      case None => None
  }

  /** A call without arguments leaves every parameter at its default. */
  lemma {:induction false} BindNoArguments(labels: seq<string>)
    ensures Bind(labels, []).Some?
    ensures forall i :: 0 <= i < |labels| ==> Bind(labels, []).value[i].None?
    decreases |labels|
  {
    if labels != [] {
      BindNoArguments(labels[1..]);
    }
  }

  function IntArgument(v: Option<Value>, default: int): Option<int> {
    match v
    case None => Some(default)
    case Some(IntValue(n)) => Some(n)
    case Some(_) => None
  }

  function SpaceArgument(v: Option<Value>, default: CoordinateSpace): Option<CoordinateSpace> {
    match v
    case None => Some(default)
    case Some(SpaceValue(s)) => Some(s)
    case Some(_) => None
  }

  /** A `CGFloat` or `Double` argument: defaulted, a floating-point literal, or an integer literal. */
  predicate NumberArgument(v: Option<Value>) {
    v.None? || v.value.NumberValue? || v.value.IntValue?
  }

  predicate AngleArgument(v: Option<Value>) {
    v.None? || v.value.AngleValue?
  }

  // ---------------------------------------------------------------------
  // Base gestures

  datatype BaseKind = Drag | LongPress | Magnify | Rotate | SpatialTap | Tap

  /** The `static let name` each base gesture is keyed by. */
  function BaseName(k: BaseKind): string {
    match k
    case Drag => "DragGesture"
    case LongPress => "LongPressGesture"
    case Magnify => "MagnifyGesture"
    case Rotate => "RotateGesture"
    case SpatialTap => "SpatialTapGesture"
    case Tap => "TapGesture"
  }

  /** The argument labels of each base gesture's `init`, in order. */
  function BaseParameters(k: BaseKind): seq<string> {
    match k
    case Drag => ["minimumDistance", "coordinateSpace"]
    case LongPress => ["minimumDuration", "maximumDistance"]
    case Magnify => ["minimumScaleDelta"]
    case Rotate => ["minimumAngleDelta"]
    case SpatialTap => ["count", "coordinateSpace"]
    case Tap => ["count"]
  }

  /** The `#if os(...)` condition around each base gesture's declaration. */
  predicate Declared(k: BaseKind, os: OS) {
    match k
    case Drag => os != TvOS
    case SpatialTap => os != TvOS
    case Magnify => os == IOS || os == MacOS || os == XrOS
    case Rotate => os == IOS || os == MacOS || os == XrOS
    case _ => true
  }

  /** The alternatives of `baseParser`, in the order they are tried on `os`. */
  function BaseAlternatives(os: OS): seq<BaseKind> {
    (if os != TvOS then [Drag] else [])
    + [LongPress]
    + (if os == IOS || os == MacOS then [Magnify, Rotate] else [])
    + (if os != TvOS then [SpatialTap] else [])
    + [Tap]
  }

  /** The position of each base gesture in the full alternative list. */
  function BaseRank(k: BaseKind): nat {
    match k
    case Drag => 0
    case LongPress => 1
    case Magnify => 2
    case Rotate => 3
    case SpatialTap => 4
    case Tap => 5
  }

  /** `#available(iOS 17, macOS 14, *)` in the Magnify and Rotate initialisers. */
  predicate UsesModernType(p: Platform) {
    Available(map[IOS := Version(17, 0), MacOS := Version(14, 0)], p)
  }

  /** One base gesture's parser: its name, then its arguments against its defaults. */
  function ParseBaseAs(k: BaseKind, call: Call, p: Platform): Option<Gesture> {
    if call.name != BaseName(k) then None
    else match Bind(BaseParameters(k), call.args)
      case None => None
      case Some(vs) =>
        match k
        case Drag =>
          if !NumberArgument(vs[0]) then None
          else (match SpaceArgument(vs[1], LocalSpace)
            case Some(s) => Some(DragGesture(s))
            case None => None)
        case LongPress =>
          if NumberArgument(vs[0]) && NumberArgument(vs[1]) then Some(LongPressGesture) else None
        case Magnify =>
          if NumberArgument(vs[0]) then Some(MagnifyGesture(UsesModernType(p))) else None
        case Rotate =>
          if AngleArgument(vs[0]) then Some(RotateGesture(UsesModernType(p))) else None
        case SpatialTap =>
          (match (IntArgument(vs[0], 1), SpaceArgument(vs[1], LocalSpace))
            case (Some(n), Some(s)) => Some(SpatialTapGesture(n, s))
            case _ => None)
        case Tap =>
          (match IntArgument(vs[0], 1)
            case Some(n) => Some(TapGesture(n))
            case None => None)
  }

  /** Ordered choice over `alts` from position `i`: the first alternative that parses wins. */
  function FirstBase(alts: seq<BaseKind>, i: nat, call: Call, p: Platform): (r: Option<Gesture>)
    requires i <= |alts|
    ensures r.Some? ==> exists j :: i <= j < |alts| && ParseBaseAs(alts[j], call, p) == r && forall k :: i <= k < j ==> ParseBaseAs(alts[k], call, p).None?
    ensures r.None? ==> forall j :: i <= j < |alts| ==> ParseBaseAs(alts[j], call, p).None?
    decreases |alts| - i
  {
    if i == |alts| then None
    else match ParseBaseAs(alts[i], call, p)
      case Some(g) => Some(g)
      case None => FirstBase(alts, i + 1, call, p)
  }

  /** `baseParser(in:)`. */
  function ParseBase(call: Call, p: Platform): Option<Gesture> {
    FirstBase(BaseAlternatives(p.os), 0, call, p)
  }

  /**
   * The base alternatives come in the order Drag, LongPress, Magnify,
   * Rotate, SpatialTap, Tap; Drag and SpatialTap are missing on tvOS and
   * Magnify and Rotate are present only on iOS and macOS. Every alternative
   * is declared, and only on xrOS is one declared but not tried.
   */
  lemma BaseAlternativesGating(os: OS)
    ensures forall i, j :: 0 <= i < j < |BaseAlternatives(os)| ==> BaseRank(BaseAlternatives(os)[i]) < BaseRank(BaseAlternatives(os)[j])
    ensures Drag in BaseAlternatives(os) <==> os != TvOS
    ensures SpatialTap in BaseAlternatives(os) <==> os != TvOS
    ensures Magnify in BaseAlternatives(os) <==> os == IOS || os == MacOS
    ensures Rotate in BaseAlternatives(os) <==> os == IOS || os == MacOS
    ensures LongPress in BaseAlternatives(os) && Tap in BaseAlternatives(os)
    ensures forall k :: k in BaseAlternatives(os) ==> Declared(k, os)
    ensures (exists k :: Declared(k, os) && k !in BaseAlternatives(os)) <==> os == XrOS
  {
    BaseAlternativesList(os);
    var alts := BaseAlternatives(os);
    if os == XrOS {
      assert Declared(Magnify, os) && Magnify !in alts;
    } else {
      forall k | Declared(k, os)
        ensures k in alts
      {
        match k
        case Drag =>
        case LongPress =>
        case Magnify =>
        case Rotate =>
        case SpatialTap =>
        case Tap =>
      }
    }
  }

  /** The alternatives on each OS, written out. */
  lemma BaseAlternativesList(os: OS)
    ensures BaseAlternatives(os) ==
      if os == TvOS then [LongPress, Tap]
      else if os == IOS || os == MacOS then [Drag, LongPress, Magnify, Rotate, SpatialTap, Tap]
      else [Drag, LongPress, SpatialTap, Tap]
  {
  }

  /** Alternatives with another name never parse a call. */
  lemma {:induction false} FirstBaseByName(alts: seq<BaseKind>, i: nat, k: BaseKind, call: Call, p: Platform)
    requires i <= |alts| && call.name == BaseName(k)
    ensures FirstBase(alts, i, call, p) == (if k in alts[i..] then ParseBaseAs(k, call, p) else None)
    decreases |alts| - i
  {
    if i < |alts| {
      FirstBaseByName(alts, i + 1, k, call, p);
      assert alts[i..] == [alts[i]] + alts[i + 1..];
      if alts[i] != k {
        BaseNameInjective(alts[i], k);
        assert ParseBaseAs(alts[i], call, p) == None;
      }
    }
  }

  /** The base gestures have distinct names. */
  lemma BaseNameInjective(a: BaseKind, b: BaseKind)
    ensures BaseName(a) == BaseName(b) ==> a == b
  {
  }

  /** A call is parsed by the base gesture of its name when that one is an alternative, and fails otherwise. */
  lemma ParseBaseByName(k: BaseKind, call: Call, p: Platform)
    requires call.name == BaseName(k)
    ensures ParseBase(call, p) == (if k in BaseAlternatives(p.os) then ParseBaseAs(k, call, p) else None)
  {
    FirstBaseByName(BaseAlternatives(p.os), 0, k, call, p);
    assert BaseAlternatives(p.os)[0..] == BaseAlternatives(p.os);
  }

  /** `TapGesture()` counts one tap, on every platform. */
  lemma TapDefaultCount(p: Platform)
    ensures ParseBase(Call("TapGesture", []), p) == Some(TapGesture(1))
  {
    assert Tap in BaseAlternatives(p.os);
    ParseBaseByName(Tap, Call("TapGesture", []), p);
    BindNoArguments(BaseParameters(Tap));
  }

  /** `SpatialTapGesture()` counts one tap in the local coordinate space wherever it exists. */
  lemma SpatialTapDefaults(p: Platform)
    requires p.os != TvOS
    ensures ParseBase(Call("SpatialTapGesture", []), p) == Some(SpatialTapGesture(1, LocalSpace))
  {
    assert SpatialTap in BaseAlternatives(p.os);
    ParseBaseByName(SpatialTap, Call("SpatialTapGesture", []), p);
    BindNoArguments(BaseParameters(SpatialTap));
  }

  /** No drag gesture parses on tvOS, whatever its arguments. */
  lemma NoDragOnTvOS(p: Platform, args: seq<Arg>)
    requires p.os == TvOS
    ensures ParseBase(Call("DragGesture", args), p) == None
  {
    assert BaseAlternatives(p.os) == [LongPress, Tap];
    ParseBaseByName(Drag, Call("DragGesture", args), p);
  }

  // ---------------------------------------------------------------------
  // Members

  datatype MemberKind = SequencedKind | SimultaneouslyKind | OnEndedKind | ExclusivelyKind

  /** The alternatives of `Member.parser`, in the order they are tried. */
  const MemberAlternatives: seq<MemberKind> := [SequencedKind, SimultaneouslyKind, OnEndedKind, ExclusivelyKind]

  /** The `static let name` each member is keyed by. */
  function MemberName(k: MemberKind): string {
    match k
    case SequencedKind => "sequenced"
    case SimultaneouslyKind => "simultaneously"
    case OnEndedKind => "onEnded"
    case ExclusivelyKind => "exclusively"
  }

  /** The argument label of each member's single parameter (`_` for `onEnded`). */
  function MemberLabel(k: MemberKind): string {
    match k
    case SequencedKind => "before"
    case SimultaneouslyKind => "with"
    case OnEndedKind => ""
    case ExclusivelyKind => "before"
  }

  /** A gesture expression: the base, then every member, folded. */
  function EvalChain(c: Chain, p: Platform): (r: Option<Gesture>)
    decreases c, 2
  {
    match ParseBase(c.base, p)
    case None => None
    case Some(base) =>
      match ParseMembers(c, |c.members|, p)
      case None => None
      case Some(ms) => Some(Fold(base, ms))
  }

  /** The first `n` member calls of `c`, each parsed. */
  function ParseMembers(c: Chain, n: nat, p: Platform): (r: Option<seq<Member>>)
    requires n <= |c.members|
    ensures r.Some? ==> |r.value| == n
    decreases c, 1, n
  {
    if n == 0 then Some([])
    else match ParseMembers(c, n - 1, p)
      case None => None
      case Some(ms) =>
        match ParseMember(c.members[n - 1], p)
        case None => None
        case Some(m) => Some(ms + [m])
  }

  /** `Member.parser(in:)`. */
  function ParseMember(call: Call, p: Platform): Option<Member>
    decreases call, 2
  {
    FirstMember(0, call, p)
  }

  /** Ordered choice over the member alternatives from position `i`. */
  function FirstMember(i: nat, call: Call, p: Platform): Option<Member>
    requires i <= |MemberAlternatives|
    decreases call, 1, |MemberAlternatives| - i
  {
    if i == |MemberAlternatives| then None
    else match ParseMemberAs(MemberAlternatives[i], call, p)
      case Some(m) => Some(m)
      case None => FirstMember(i + 1, call, p)
  }

  /** One member's parser: its name and its single labelled argument. */
  function ParseMemberAs(k: MemberKind, call: Call, p: Platform): Option<Member>
    decreases call, 0
  {
    if call.name != MemberName(k) || |call.args| != 1 || call.args[0].name != MemberLabel(k) then None
    else
      var v := call.args[0].value;
      match k
      case OnEndedKind => if v.EventValue? then Some(OnEnded(v.event)) else None
      case _ =>
        if !v.GestureValue? then None
        else match EvalChain(v.chain, p)
          case None => None
          case Some(other) =>
            Some(match k
              case SequencedKind => Sequenced(other)
              case SimultaneouslyKind => Simultaneously(other)
              case _ => Exclusively(other))
  }

  /** Member alternatives with another name never parse a call. */
  lemma {:induction false} FirstMemberByName(i: nat, k: MemberKind, call: Call, p: Platform)
    requires i <= |MemberAlternatives| && call.name == MemberName(k)
    ensures FirstMember(i, call, p) == (if k in MemberAlternatives[i..] then ParseMemberAs(k, call, p) else None)
    decreases |MemberAlternatives| - i
  {
    if i < |MemberAlternatives| {
      FirstMemberByName(i + 1, k, call, p);
      assert MemberAlternatives[i..] == [MemberAlternatives[i]] + MemberAlternatives[i + 1..];
      if MemberAlternatives[i] != k {
        assert MemberName(MemberAlternatives[i]) != MemberName(k);
      }
    }
  }

  /**
   * `g.sequenced(before: h)`, `g.simultaneously(with: h)`,
   * `g.exclusively(before: h)` and `g.onEnded(e)` parse to the member of
   * that name with `h` evaluated on the same platform.
   */
  lemma ParseMemberByName(k: MemberKind, call: Call, p: Platform)
    requires call.name == MemberName(k)
    ensures ParseMember(call, p) == ParseMemberAs(k, call, p)
  {
    FirstMemberByName(0, k, call, p);
    assert MemberAlternatives[0..] == MemberAlternatives;
  }

  /**
   * A gesture expression evaluates to its base with its members applied
   * left to right; the parts can be read back off the result.
   */
  lemma EvalChainUnchains(c: Chain, p: Platform)
    requires EvalChain(c, p).Some?
    ensures ParseBase(c.base, p).Some? && ParseMembers(c, |c.members|, p).Some?
    ensures Unchain(EvalChain(c, p).value, |c.members|) == Some((ParseBase(c.base, p).value, ParseMembers(c, |c.members|, p).value))
  {
    UnchainFold(ParseBase(c.base, p).value, ParseMembers(c, |c.members|, p).value);
  }

  /** Parsing the first `n` members only looks at those members. */
  lemma {:induction false} ParseMembersPrefix(c: Chain, d: Chain, n: nat, p: Platform)
    requires n <= |c.members| && n <= |d.members| && c.members[..n] == d.members[..n]
    ensures ParseMembers(c, n, p) == ParseMembers(d, n, p)
    decreases n
  {
    if n > 0 {
      assert c.members[..n - 1] == d.members[..n - 1] by {
        assert c.members[..n - 1] == c.members[..n][..n - 1];
        assert d.members[..n - 1] == d.members[..n][..n - 1];
      }
      assert c.members[n - 1] == c.members[..n][n - 1];
      assert d.members[n - 1] == d.members[..n][n - 1];
      ParseMembersPrefix(c, d, n - 1, p);
    }
  }

  /** With no members the result is the base gesture. */
  lemma EvalChainNoMembers(base: Call, p: Platform)
    ensures EvalChain(Chain(base, []), p) == ParseBase(base, p)
  {
  }

  /**
   * Extending a chain by one member call applies that member to what the
   * shorter chain evaluates to.
   */
  lemma EvalChainExtend(base: Call, members: seq<Call>, last: Call, p: Platform)
    ensures EvalChain(Chain(base, members + [last]), p) ==
      match (EvalChain(Chain(base, members), p), ParseMember(last, p))
      case (Some(g), Some(m)) => Some(Apply(m, g))
      case _ => None
  {
    var c, d := Chain(base, members), Chain(base, members + [last]);
    assert d.members[..|members|] == c.members[..|members|];
    ParseMembersPrefix(c, d, |members|, p);
    if ParseMembers(c, |members|, p).Some? && ParseMember(last, p).Some? {
      var ms := ParseMembers(c, |members|, p).value;
      assert (ms + [ParseMember(last, p).value])[..|ms|] == ms;
    }
  }
}
