# A verified model of the LiveView Native SwiftUI modifier core

LiveView Native for SwiftUI turns a small stylesheet language of modifier
expressions into typed SwiftUI view modifiers. This project models five
parts of that in Dafny and proves what they promise:

- **The modifier generator** (`ModifierGenerator.run` and `isValid`). It
  reads the SwiftUI interface and decides two things: which modifier
  operations are emitted, and which of their overloads survive.
  - Some operations are skipped: names that start with `_`, names on the
    denylist, and names with no valid overload.
  - An overload is invalid when a `@ViewBuilder` parameter takes arguments.
  - Overloads that are structurally identical are deduplicated, and the
    first one wins.
  - The generator decides whether an operation needs the element and
    context properties.
  - It emits the operations in ascending name order and builds the
    `BuiltinModifier` enum from them (`generator.dfy`).
- **The registry generator's name handling** (`BuiltinRegistryGenerator`).
  - Word splitting, camelCase and snake_case.
  - The `Modifier` suffix capture.
  - The file denylist.
  - The shape of the emitted case lines (`naming.dfy`, `string_order.dfy`).
- **The generated modifier table** (`_GeneratedModifiers.swift`).
  - The name-keyed dispatcher, which reads the `{:name, metadata, ...}`
    header on a copy of the input (`dispatch.dfy`).
  - Seven representative operations, each with its `Value` union, its
    initialisers and its `body` (`alert.dfy`, `background.dfy`,
    `container_relative_frame.dfy`, `context_menu.dfy`, `frame.dfy`,
    `line_limit.dfy`, `toolbar.dfy`).
  - The `body` of an availability-gated case gives back its content
    unchanged when the `#available` check fails.
  - Four atom-to-enum tables (`atom_tables.dfy`).
- **The gesture parser** (`AnyGesture.parser`). A base gesture is followed
  by member calls, which are folded onto it from left to right
  (`gestures.dfy`).
- **The view-building context** (`LiveContext`), in `live_context.dfy`.
  - `with(formModel:)`.
  - The child selections that container views build: by predicate, by tag
    name and namespace, and the default slot.

Shared pieces:

- `wrappers.dfy` holds the option type, parse results and the header tokens.
- `platforms.dfy` holds operating systems, versions, and plain
  `#available` semantics. On an OS the check lists, the version must reach
  the minimum. Every other OS passes through the `*`.
- `modifier_values.dfy` holds the SwiftUI values and the views that modifiers
  build. A view is a term that records which modifier call was applied to
  which content.

Values only SwiftUI interprets are opaque identifiers (shape styles, shapes,
toolbar placements). A `#if os(...)` around a case becomes a precondition,
`Declared`: that case does not exist in a build for another OS.

## Model

| member | source | states |
|---|---|---|
| Generator.IsValid | Sources/ModifierGenerator/ModifierGenerator.swift:386-396 | the scan answers true iff no `@ViewBuilder` parameter has a type other than a closure with zero parameters (bare or under one attribute) |
| Generator.ClosureArity | Sources/ModifierGenerator/ModifierGenerator.swift:389 | a parameter count exists exactly for a function type, bare or attributed |
| Generator.ViewBuilderOfNonFunctionInvalid | Sources/ModifierGenerator/ModifierGenerator.swift:388-391 | a `@ViewBuilder` parameter that is not a function type at all makes the declaration invalid, since its nil count is not 0 |
| Generator.Enumerate | Sources/ModifierGenerator/ModifierGenerator.swift:271-273 | each surviving declaration is paired with its position in the filtered list, its parameters carrying the types `Signature.init` gives them |
| Generator.ValidDeclsEmpty | Sources/ModifierGenerator/ModifierGenerator.swift:263 | the filtered list is empty iff every declaration is invalid (the `allSatisfy` guard) (also lines 269-270) |
| Generator.ValidDeclsKeepsValid | Sources/ModifierGenerator/ModifierGenerator.swift:269-270 | the filter keeps exactly the valid declarations |
| Generator.FilterValid | Sources/ModifierGenerator/ModifierGenerator.swift:269-273 | the loop calling `isValid` on each declaration computes the enumerated valid list |
| Generator.DedupSignatures | Sources/ModifierGenerator/ModifierGenerator.swift:274-292 | the fold with its early return out of the scan equals the deduplication function |
| Generator.EnumerateIsEnumerated | Sources/ModifierGenerator/ModifierGenerator.swift:271-273 | every enumerated offset equals its position |
| Generator.DedupIsSubsequence | Sources/ModifierGenerator/ModifierGenerator.swift:271-292 | the kept signatures are the candidates at strictly increasing offsets, so the case indices may have gaps |
| Generator.DedupHasNoDuplicates | Sources/ModifierGenerator/ModifierGenerator.swift:275-292 | no two kept signatures have equal parameter counts, first names and keys of their `Signature` types |
| Generator.DedupDropsOnlyDuplicates | Sources/ModifierGenerator/ModifierGenerator.swift:286-292 | every candidate is kept, or duplicates a kept one with a smaller offset (first seen wins) |
| Generator.DedupOfDistinct | Sources/ModifierGenerator/ModifierGenerator.swift:274-292 | a list without duplicates comes back unchanged |
| Generator.DedupIdempotent | Sources/ModifierGenerator/ModifierGenerator.swift:274-292 | deduplicating twice is deduplicating once |
| Generator.DedupKeepsFirst | Sources/ModifierGenerator/ModifierGenerator.swift:274-292 | the first candidate always survives |
| Generator.RequiresContext | Sources/ModifierGenerator/ModifierGenerator.swift:294-301 | true iff some kept signature has a parameter whose `Signature` type is an identifier, bare or under one `Optional`, named `ViewReference`, `TextReference` or `AttributeReference` |
| Generator.FirstValidContextRequiresContext | Sources/ModifierGenerator/ModifierGenerator.swift:294-301 | an operation whose first declaration is valid and has a parameter of a context type in its `Signature` is emitted with the element and context properties |
| Generator.ContextMenuNeedsContext | Sources/ModifierGenerator/ModifierGenerator.swift:294-301 | `contextMenu(@ViewBuilder menuItems: () -> MenuItems)` is valid, and with the view builder typed `ViewReference` in its `Signature` the operation requires the context |
| Generator.ContextProperties | Sources/ModifierGenerator/ModifierGenerator.swift:314-315 | the element and context property lines are emitted iff the context is required |
| Generator.NormaliseNonEmpty | Sources/ModifierGenerator/ModifierGenerator.swift:261-292 | an operation that passes the guard keeps at least one case, and its case offsets increase |
| Generator.Run | Sources/ModifierGenerator/ModifierGenerator.swift:258-268 | names are visited in ascending order; `modifierList` is strictly sorted; a name is in it iff it is not `_`-prefixed, not denylisted and has a valid overload; every other name is skipped; entry i is the normalised declaration of name i |
| Generator.AppendLeast | Sources/ModifierGenerator/ModifierGenerator.swift:260 | appending the least remaining name keeps a list sorted and below every name still to come (also line 268) |
| Generator.ProcessOperation | Sources/ModifierGenerator/ModifierGenerator.swift:261-292 | one loop round emits a declaration iff the guard holds, and the declaration is the normalised one |
| Generator.BuiltinCases | Sources/ModifierGenerator/ModifierGenerator.swift:335-336 | one enum case per `modifierList` entry in order, then one per extra modifier type |
| Generator.BuiltinCaseNamesDistinct | Sources/ModifierGenerator/ModifierGenerator.swift:18-23 | the enum's case names are pairwise distinct, because generated names are sorted and not `_`-prefixed while the extras all are (also lines 335-336) |
| Generator.ExtrasStartWithUnderscore | Sources/ModifierGenerator/ModifierGenerator.swift:18-23 | every extra modifier type name starts with `_` |
| StringOrder.LessIrreflexive | Sources/ModifierGenerator/ModifierGenerator.swift:260 | the string order used for sorting is irreflexive |
| StringOrder.LessTransitive | Sources/ModifierGenerator/ModifierGenerator.swift:260 | it is transitive |
| StringOrder.LessTotal | Sources/ModifierGenerator/ModifierGenerator.swift:260 | it is total on distinct strings |
| StringOrder.LeastExists | Sources/ModifierGenerator/ModifierGenerator.swift:260 | every non-empty set of names has a least element, the next one `sorted(by:)` yields |
| Naming.SplitWords | Sources/BuiltinRegistryGenerator/BuiltinRegistryGenerator.swift:174-182 | the in-place fold (append a word, or extend the last word) computes the word list |
| Naming.WordsPartition | Sources/BuiltinRegistryGenerator/BuiltinRegistryGenerator.swift:174-182 | concatenating the words gives back the string, and no word is empty |
| Naming.OpensWordIsBreak | Sources/BuiltinRegistryGenerator/BuiltinRegistryGenerator.swift:176 | the fold's test on the words so far is a test on the string alone |
| Naming.WordStarts | Sources/BuiltinRegistryGenerator/BuiltinRegistryGenerator.swift:176-180 | words start exactly at the first character, at every digit, and at every uppercase letter except a `D` after a word ending in `3` |
| Naming.CamelStep | Sources/BuiltinRegistryGenerator/BuiltinRegistryGenerator.swift:163-168 | appending a character appends its uppercase when it opens a later word, else its lowercase |
| Naming.SnakeStep | Sources/BuiltinRegistryGenerator/BuiltinRegistryGenerator.swift:170-172 | appending a character appends `_` and its lowercase when it opens a later word, else its lowercase |
| Naming.CamelCaseAt | Sources/BuiltinRegistryGenerator/BuiltinRegistryGenerator.swift:163-168 | camelCase keeps the length; position i is uppercased iff a word other than the first starts there, and lowercased otherwise |
| Naming.CamelCaseLowered | Sources/BuiltinRegistryGenerator/BuiltinRegistryGenerator.swift:163-168 | lowercasing the camelCase spelling gives the lowercased input |
| Naming.SnakeCaseShape | Sources/BuiltinRegistryGenerator/BuiltinRegistryGenerator.swift:170-172 | snake_case has no uppercase letter and adds exactly one `_` per word after the first |
| Naming.CamelSnakeAgree | Sources/BuiltinRegistryGenerator/BuiltinRegistryGenerator.swift:163-172 | for input without `_`, snake_case without its separators is the lowercased camelCase |
| Naming.LastComponentOf | Sources/BuiltinRegistryGenerator/BuiltinRegistryGenerator.swift:97 | `lastPathComponent` of `dir/file` is `file` when `file` has no `/` |
| Naming.ExtensionDeleted | Sources/BuiltinRegistryGenerator/BuiltinRegistryGenerator.swift:97 | `deletingPathExtension` of `name.ext` is `name` when neither part has a `.` |
| Naming.FileStemOf | Sources/BuiltinRegistryGenerator/BuiltinRegistryGenerator.swift:97 | the extension-less last path component of `dir/name.ext` is `name` |
| Naming.IsAllowedFile | Sources/BuiltinRegistryGenerator/BuiltinRegistryGenerator.swift:19-23 | a file is rejected iff its name is `Shape`, `TextFieldProtocol` or `NamespaceContext` (also lines 96-98) |
| Naming.AllowedPaths | Sources/BuiltinRegistryGenerator/BuiltinRegistryGenerator.swift:43-51 | the `filter(isAllowed)` keeps exactly the allowed paths, and no kept path has a denylisted name |
| Naming.AllowedPathsSingle | Sources/BuiltinRegistryGenerator/BuiltinRegistryGenerator.swift:43-51 | one path is kept, as itself, exactly when its file stem is not denylisted |
| Naming.AllowedPathsAppend | Sources/BuiltinRegistryGenerator/BuiltinRegistryGenerator.swift:43-51 | filtering a concatenation is concatenating the filtered parts, so with AllowedPathsSingle the kept paths are the allowed ones in their original order, repeats included |
| Naming.LastSuffixAt | Sources/BuiltinRegistryGenerator/BuiltinRegistryGenerator.swift:137-142 | finds the last position at which `Modifier` follows a non-empty prefix |
| Naming.ModifierName | Sources/BuiltinRegistryGenerator/BuiltinRegistryGenerator.swift:137-142 | on a match, the capture is the longest non-empty prefix followed by `Modifier` (the greedy `OneOrMore`); with no match, the whole file name (also lines 149-154) |
| Naming.ModifierNameOfType | Sources/BuiltinRegistryGenerator/BuiltinRegistryGenerator.swift:148-157 | for a file `<name>Modifier`, the name captured is `<name>`, so the switch case instantiates `<name>Modifier` |
| Naming.ViewCaseNames | Sources/BuiltinRegistryGenerator/BuiltinRegistryGenerator.swift:121-127 | a view case line lists the view its file names |
| Naming.AdditionalViewCaseNames | Sources/BuiltinRegistryGenerator/BuiltinRegistryGenerator.swift:129-134 | a hand-written view case lists the view it is given |
| Naming.CamelCaseAvoids | Sources/BuiltinRegistryGenerator/BuiltinRegistryGenerator.swift:163-168 | camelCase introduces no non-letter character that the input lacks |
| Naming.ModifierCaseFields | Sources/BuiltinRegistryGenerator/BuiltinRegistryGenerator.swift:136-146 | the line has the form `case <camel(name)> = "<snake(name)>"` |
| Naming.ModifierSwitchCaseSelects | Sources/BuiltinRegistryGenerator/BuiltinRegistryGenerator.swift:148-159 | the switch case selects `.<camel(name)>`, the case the enum line declares |
| Dispatch.MapParsed | Sources/LiveViewNative/_GeneratedModifiers.swift:8167 | `.map(Output.x)` wraps a success, keeps a failure's error, and keeps the input the parser left |
| Dispatch.EntrySameCase | Sources/LiveViewNative/_GeneratedModifiers.swift:672 | a name's entry produces the `BuiltinModifier` case of the operation with that name, e.g. `"background"` gives `.background` (also lines 8166-8326) |
| Dispatch.HeaderRoundTrip | Sources/LiveViewNative/_GeneratedModifiers.swift:8328-8337 | a brace, any whitespace, an atom, any whitespace, a comma, any whitespace and metadata parse to that name and metadata, leaving the rest |
| Dispatch.HeaderSound | Sources/LiveViewNative/_GeneratedModifiers.swift:8328-8337 | whatever the header parser accepts has that shape, followed by the input it leaves |
| Dispatch.BadHeaderFails | Sources/LiveViewNative/_GeneratedModifiers.swift:8328-8337 | a malformed header fails with the header's error and the input is not advanced |
| Dispatch.UnknownNameFails | Sources/LiveViewNative/_GeneratedModifiers.swift:8339-8340 | a name that is neither a generated key nor a hand-written one fails with `unknownModifier`, that name and its metadata; the input is not advanced; no operation parser runs |
| Dispatch.KnownNameRunsOnOriginalInput | Sources/LiveViewNative/_GeneratedModifiers.swift:8328-8342 | for a name in the table, the result is that entry's parser run on the original, unadvanced input, and a success is the named operation's case |
| Dispatch.ExtraNameRunsOnOriginalInput | Sources/LiveViewNative/_GeneratedModifiers.swift:8323-8325 | a hand-written entry's name runs that type's parser on the original input, and a success is the case named after the type |
| Dispatch.ModelledNamesInTable | Sources/LiveViewNative/_GeneratedModifiers.swift:8166-8326 | alert, background, containerRelativeFrame, contextMenu, frame, lineLimit and toolbar have entries |
| Dispatch.GeneratedNamesSorted | Sources/LiveViewNative/_GeneratedModifiers.swift:8166-8322 | the 156 generated keys of the table are in strictly ascending order |
| Dispatch.TableKeysDistinct | Sources/LiveViewNative/_GeneratedModifiers.swift:8166-8322 | no two generated keys are equal, so the dictionary literal has no duplicate generated key to trap on |
| Dispatch.ModelledDispatch | Sources/LiveViewNative/_GeneratedModifiers.swift:8328-8342 | a well-formed `background`, `frame` or `toolbar` tuple runs that operation's parser on the whole tuple |
| Dispatch.UnknownTupleFails | Sources/LiveViewNative/_GeneratedModifiers.swift:8339-8340 | a well-formed tuple whose name is neither a generated key nor a hand-written one fails with that name and the tuple's metadata, leaving the input as it was |
| Dispatch.ModifierInput.ParseBuiltinModifier | Sources/LiveViewNative/_GeneratedModifiers.swift:8328-8342 | the method on the `inout` cursor reads the header on a copy and then gives the outcome and new cursor of the dispatcher function |
| ModifierValues.ApplyChanges | Sources/LiveViewNative/_GeneratedModifiers.swift:769-830 | applying a modifier never gives back the content it was applied to |
| Background.Init0 | Sources/LiveViewNative/_GeneratedModifiers.swift:721-726 | `init(alignment: = .center, content: = [])` makes `body` call `background(alignment:content:)` with those arguments, defaults included (also lines 769-830) |
| Background.Init1 | Sources/LiveViewNative/_GeneratedModifiers.swift:728-733 | `init(ignoresSafeAreaEdges: = .all)` makes `body` call `background(ignoresSafeAreaEdges:)` (also lines 769-830) |
| Background.Init2 | Sources/LiveViewNative/_GeneratedModifiers.swift:735-740 | `init(_ style:, ignoresSafeAreaEdges: = .all)` makes `body` call `background(_:ignoresSafeAreaEdges:)` (also lines 769-830) |
| Background.Init3 | Sources/LiveViewNative/_GeneratedModifiers.swift:742-747 | `init(in: AnyShape, fillStyle: = FillStyle())` makes `body` call `background(in:fillStyle:)` with a shape (also lines 769-830) |
| Background.Init4 | Sources/LiveViewNative/_GeneratedModifiers.swift:749-754 | `init(_ style:, in: AnyShape, fillStyle:)` makes `body` call `background(_:in:fillStyle:)` (also lines 769-830) |
| Background.Init5 | Sources/LiveViewNative/_GeneratedModifiers.swift:756-761 | `init(in: AnyInsettableShape, fillStyle:)` makes `body` call `background(in:fillStyle:)` with an insettable shape (also lines 769-830) |
| Background.Init6 | Sources/LiveViewNative/_GeneratedModifiers.swift:763-768 | `init(_ style:, in: AnyInsettableShape, fillStyle:)` makes `body` call `background(_:in:fillStyle:)` (also lines 769-830) |
| Background.BodyFailsOnlyOnNever | Sources/LiveViewNative/_GeneratedModifiers.swift:769-773 | `body` stops with "unreachable" iff the value is `_never`, and otherwise applies `background` to the content |
| Background.BodyInjective | Sources/LiveViewNative/_GeneratedModifiers.swift:674-697 | the cases map one-to-one onto SwiftUI calls (also lines 769-830) |
| Frame.Init0 | Sources/LiveViewNative/_GeneratedModifiers.swift:2707-2712 | `init(width:height:alignment: = .center)` makes `body` call `frame(width:height:alignment:)` (also lines 2727-2756) |
| Frame.Init1 | Sources/LiveViewNative/_GeneratedModifiers.swift:2714-2719 | `init()` makes `body` call `frame()` with no arguments (also lines 2740-2742) |
| Frame.Init2 | Sources/LiveViewNative/_GeneratedModifiers.swift:2721-2726 | the flexible initialiser makes `body` call the seven-argument `frame` (also lines 2727-2756) |
| Frame.BodyFailsOnlyOnNever | Sources/LiveViewNative/_GeneratedModifiers.swift:2727-2731 | `body` stops with "unreachable" iff the value is `_never` |
| Frame.BodyInjective | Sources/LiveViewNative/_GeneratedModifiers.swift:2680-2705 | the cases map one-to-one onto SwiftUI calls (also lines 2727-2756) |
| LineLimit.Init0 | Sources/LiveViewNative/_GeneratedModifiers.swift:3912-3917 | `init(_ number:)` makes `body` call `lineLimit(_:)` with the optional count (also lines 3946-3991) |
| LineLimit.Init1 | Sources/LiveViewNative/_GeneratedModifiers.swift:3919-3924 | `init(_ limit: PartialRangeFrom<Int>)` passes the `a...` range (also lines 3946-3991) |
| LineLimit.Init2 | Sources/LiveViewNative/_GeneratedModifiers.swift:3926-3931 | `init(_ limit: PartialRangeThrough<Int>)` passes the `...b` range (also lines 3946-3991) |
| LineLimit.Init3 | Sources/LiveViewNative/_GeneratedModifiers.swift:3933-3938 | `init(_ limit: ClosedRange<Int>)` passes the `a...b` range (also lines 3946-3991) |
| LineLimit.Init4 | Sources/LiveViewNative/_GeneratedModifiers.swift:3940-3945 | `init(_ limit:, reservesSpace:)` makes `body` call `lineLimit(_:reservesSpace:)` (also lines 3946-3991) |
| LineLimit.BodyFailsOnlyOnNever | Sources/LiveViewNative/_GeneratedModifiers.swift:3946-3950 | `body` stops with "unreachable" iff the value is `_never` |
| LineLimit.BodyInjective | Sources/LiveViewNative/_GeneratedModifiers.swift:3875-3910 | the cases map one-to-one onto SwiftUI calls (also lines 3946-3991) |
| Alert.Overload | Sources/LiveViewNative/_GeneratedModifiers.swift:282-305 | every real case belongs to one of the seven overloads |
| Alert.Bound | Sources/LiveViewNative/_GeneratedModifiers.swift:312-324 | an alert whose cell k holds the binding has every other cell unbound |
| Alert.Init0 | Sources/LiveViewNative/_GeneratedModifiers.swift:329-334 | `init(_ titleKey:, isPresented:, actions: = [])` sets only cell 0 and makes `body` call `alert(_:isPresented:actions:)` with cell 0 (also lines 377-438) |
| Alert.Init1 | Sources/LiveViewNative/_GeneratedModifiers.swift:336-341 | the `AttributeReference<String>` title overload sets only cell 1 and passes it (also lines 377-438) |
| Alert.Init2 | Sources/LiveViewNative/_GeneratedModifiers.swift:343-348 | the `TextReference` title overload sets only cell 2 and passes it (also lines 377-438) |
| Alert.Init3 | Sources/LiveViewNative/_GeneratedModifiers.swift:350-355 | the title key with message overload sets only cell 3 and passes it (also lines 377-438) |
| Alert.Init4 | Sources/LiveViewNative/_GeneratedModifiers.swift:357-362 | the attribute title with message overload sets only cell 4 and passes it (also lines 377-438) |
| Alert.Init5 | Sources/LiveViewNative/_GeneratedModifiers.swift:364-369 | the text title with message overload sets only cell 5 and passes it (also lines 377-438) |
| Alert.Init6 | Sources/LiveViewNative/_GeneratedModifiers.swift:371-376 | `init(isPresented:, error:, actions:)` sets only cell 6 and makes `body` call `alert(isPresented:error:actions:)` (also lines 377-438) |
| Alert.BodyReadsOwnCell | Sources/LiveViewNative/_GeneratedModifiers.swift:312-324 | `body` depends only on the cell of its own overload (also lines 377-438) |
| Alert.BodyPassesOwnCell | Sources/LiveViewNative/_GeneratedModifiers.swift:377-438 | the `isPresented` binding passed is the own overload's cell |
| Alert.BodyFailsOnlyOnNever | Sources/LiveViewNative/_GeneratedModifiers.swift:377-380 | `body` stops with "unreachable" iff the value is `_never` |
| Alert.BodyInjective | Sources/LiveViewNative/_GeneratedModifiers.swift:282-305 | equal views come from equal cases with equal own cells (also lines 377-438) |
| ContainerRelativeFrame.Init0 | Sources/LiveViewNative/_GeneratedModifiers.swift:1420-1426 | `init(_ axes:, alignment: = .center)` builds a case compiled on iOS, macOS, watchOS and tvOS; `body` applies `containerRelativeFrame(_:alignment:)` to it from iOS 17, macOS 14, watchOS 10 and tvOS 17. The initialiser is itself `@available` from those versions, so the content-returning fallback below them is reached only by a value of this case obtained otherwise (also lines 1441-1450) |
| ContainerRelativeFrame.Init1 | Sources/LiveViewNative/_GeneratedModifiers.swift:1427-1433 | the counted form builds its case with the same compiled OSes and `body` applies it under the same `#available` gate as its own `@available` (also lines 1451-1462) |
| ContainerRelativeFrame.FallbackIffUnavailable | Sources/LiveViewNative/_GeneratedModifiers.swift:1437-1463 | `body` gives back the content unchanged iff a real case fails its `#available` check |
| ContainerRelativeFrame.NotOnXrOS | Sources/LiveViewNative/_GeneratedModifiers.swift:1441 | on xrOS no case but `_never` is compiled (also line 1451) |
| ContainerRelativeFrame.IOSVersions | Sources/LiveViewNative/_GeneratedModifiers.swift:1442 | iOS 16.4 falls back, iOS 17.0 applies (also line 1452) |
| ContainerRelativeFrame.BodyInjective | Sources/LiveViewNative/_GeneratedModifiers.swift:1402-1422 | where the check passes, the cases map one-to-one onto SwiftUI calls (also lines 1437-1463) |
| ContextMenu.Init0 | Sources/LiveViewNative/_GeneratedModifiers.swift:1531-1537 | `init(menuItems: = [])`, declared from iOS 13, tvOS 14 and macOS 10.15, builds the case `body` applies as `contextMenu(menuItems:)` wherever that check passes; below it, a value of the case gives back the content (also lines 1546-1568) |
| ContextMenu.Init1 | Sources/LiveViewNative/_GeneratedModifiers.swift:1538-1544 | the preview form, declared from iOS 16, macOS 13 and tvOS 16, builds the case `body` applies as `contextMenu(menuItems:preview:)` wherever that check passes; below it, a value of the case gives back the content (also lines 1546-1568) |
| ContextMenu.FallbackIffUnavailable | Sources/LiveViewNative/_GeneratedModifiers.swift:1546-1568 | the content comes back unchanged iff a real case fails its own check |
| ContextMenu.NotOnWatchOSOrXrOS | Sources/LiveViewNative/_GeneratedModifiers.swift:1546-1568 | on watchOS and xrOS no case but `_never` is compiled |
| ContextMenu.PreviewNeedsIOS16 | Sources/LiveViewNative/_GeneratedModifiers.swift:1546-1568 | on iOS 15.x the menu applies but the preview form falls back; on iOS 16.0 the preview form applies |
| ContextMenu.PreviewImpliesMenu | Sources/LiveViewNative/_GeneratedModifiers.swift:1546-1568 | every platform that passes the preview check also passes the plain menu's check |
| ContextMenu.BodyInjective | Sources/LiveViewNative/_GeneratedModifiers.swift:1511-1531 | where the checks pass, the cases map one-to-one onto SwiftUI calls (also lines 1546-1568) |
| Toolbar.Init0 | Sources/LiveViewNative/_GeneratedModifiers.swift:7163-7168 | `init(_ visibility:, for bars:)` calls `toolbar(_:for:)` on every platform (also lines 7190-7227) |
| Toolbar.Init1 | Sources/LiveViewNative/_GeneratedModifiers.swift:7168-7174 | `init(removing:)`, declared from iOS 17, macOS 14, watchOS 10 and tvOS 17, builds the case `body` applies as `toolbar(removing:)` wherever that check passes; below it, a value of the case gives back the content (also lines 7202-7209) |
| Toolbar.Init3 | Sources/LiveViewNative/_GeneratedModifiers.swift:7177-7182 | `init(content: = [])` calls `toolbar(content:)` on every platform (also lines 7190-7227) |
| Toolbar.Init4 | Sources/LiveViewNative/_GeneratedModifiers.swift:7184-7189 | `init(id:, content: = [])` calls `toolbar(id:content:)` on every platform (also lines 7190-7227) |
| Toolbar.FallbackIffUnavailable | Sources/LiveViewNative/_GeneratedModifiers.swift:7190-7227 | the content comes back unchanged iff the value is the `removing` case below its minimum |
| Toolbar.UngatedIgnorePlatform | Sources/LiveViewNative/_GeneratedModifiers.swift:7190-7227 | the ungated cases give the same view on every platform |
| Toolbar.BodyInjective | Sources/LiveViewNative/_GeneratedModifiers.swift:7131-7161 | where the check passes, the cases map one-to-one onto SwiftUI calls (also lines 7190-7227) |
| AtomTables.FirstAt | Sources/LiveViewNative/_GeneratedModifiers.swift:8456-8476 | the ordered choice finds the first entry whose literal is the atom, or reports that none is |
| AtomTables.Resolve | Sources/LiveViewNative/_GeneratedModifiers.swift:8906-8913 | a matched entry returns its member iff its `#if os` and `#available` checks pass. Off the listed OSes it traps with "'x' is not available on this OS"; below the version it traps with "'x' is not available in this OS version" |
| AtomTables.Lookup | Sources/LiveViewNative/_GeneratedModifiers.swift:8456-8476 | no alternative matches iff no literal equals the atom |
| AtomTables.LookupEntry | Sources/LiveViewNative/_GeneratedModifiers.swift:8521-8717 | with distinct literals, an entry's literal selects that entry wherever it is listed |
| AtomTables.AxisLookup | Sources/LiveViewNative/_GeneratedModifiers.swift:8454-8479 | each axis is parsed from the atom of its own name on every platform, only those two atoms parse, and nothing traps |
| AtomTables.BlendModeNameInjective | Sources/LiveViewNative/_GeneratedModifiers.swift:8521-8717 | each alternative is the literal of its member's own name with no check around it, and the name determines the member again |
| AtomTables.BlendModeListedOnce | Sources/LiveViewNative/_GeneratedModifiers.swift:8521-8717 | each of the 21 members is listed exactly once, at its own position |
| AtomTables.BlendModeDistinct | Sources/LiveViewNative/_GeneratedModifiers.swift:8521-8717 | the 21 BlendMode literals are pairwise distinct |
| AtomTables.BlendModeLookup | Sources/LiveViewNative/_GeneratedModifiers.swift:8521-8717 | every blend mode is parsed from the atom of its own name on every platform |
| AtomTables.BlendModeOnlyNames | Sources/LiveViewNative/_GeneratedModifiers.swift:8521-8717 | an atom parses as a blend mode iff it is a member's name, and never traps |
| AtomTables.ContentShapeKindsDistinct | Sources/LiveViewNative/_GeneratedModifiers.swift:8893-8954 | the six ContentShapeKinds literals are pairwise distinct |
| AtomTables.ContentShapeKindLookup | Sources/LiveViewNative/_GeneratedModifiers.swift:8893-8954 | a kind's atom returns that kind exactly where the kind is available, stated per kind by OS and first version; elsewhere it traps and never falls through |
| AtomTables.ContentShapeKindTraps | Sources/LiveViewNative/_GeneratedModifiers.swift:8924-8948 | `hoverEffect` on macOS traps with the OS message, and on iOS below 15 with the version message. `contextMenuPreview` on tvOS 16 traps with the version message. `accessibility` on xrOS traps with the OS message |
| AtomTables.SubmitLabelKeywordsUnreachable | Sources/LiveViewNative/_GeneratedModifiers.swift:10047 | as written, the atoms `return` and `continue` match no alternative; only a backticked literal reaches those members (also line 10065) |
| AtomTables.SubmitLabelDistinct | Sources/LiveViewNative/_GeneratedModifiers.swift:9989-10077 | the corrected SubmitLabel literals are pairwise distinct |
| AtomTables.SubmitLabelCorrection | Sources/LiveViewNative/_GeneratedModifiers.swift:9989-10077 | the corrected table differs from the written one only in the two keyword literals |
| AtomTables.SubmitLabelLookup | Sources/LiveViewNative/_GeneratedModifiers.swift:9989-10077 | in the corrected table every submit label is parsed from the atom of its own name |
| Gestures.Apply | Sources/LiveViewNative/Stylesheets/ParseableTypes/AnyGesture+ParseableModifierValue.swift:84-99 | `apply` puts the accumulated gesture first, and the member can be read back off |
| Gestures.PeelInverse | Sources/LiveViewNative/Stylesheets/ParseableTypes/AnyGesture+ParseableModifierValue.swift:84-99 | every composed gesture is the application of its last member to its inner gesture |
| Gestures.ChainMembers | Sources/LiveViewNative/Stylesheets/ParseableTypes/AnyGesture+ParseableModifierValue.swift:18-22 | the `reduce(into:)` loop computes the left-to-right fold of the members onto the base |
| Gestures.FoldAppend | Sources/LiveViewNative/Stylesheets/ParseableTypes/AnyGesture+ParseableModifierValue.swift:18-22 | folding a concatenation folds the second part onto the result of the first |
| Gestures.UnchainFold | Sources/LiveViewNative/Stylesheets/ParseableTypes/AnyGesture+ParseableModifierValue.swift:18-22 | the base and the members, in order, are recovered from the folded gesture |
| Gestures.FoldUnchain | Sources/LiveViewNative/Stylesheets/ParseableTypes/AnyGesture+ParseableModifierValue.swift:18-22 | what is read off a gesture folds back to it |
| Gestures.Bind | Sources/LiveViewNative/Stylesheets/ParseableTypes/AnyGesture+ParseableModifierValue.swift:125 | a successful binding has one slot per declared parameter (also lines 136, 177, 188) |
| Gestures.BindNoArguments | Sources/LiveViewNative/Stylesheets/ParseableTypes/AnyGesture+ParseableModifierValue.swift:125 | a call without arguments leaves every parameter at its default (also lines 136, 147, 161, 177, 188) |
| Gestures.FirstBase | Sources/LiveViewNative/Stylesheets/ParseableTypes/AnyGesture+ParseableModifierValue.swift:102-117 | the ordered choice returns the first alternative that parses |
| Gestures.BaseAlternativesGating | Sources/LiveViewNative/Stylesheets/ParseableTypes/AnyGesture+ParseableModifierValue.swift:102-117 | the alternatives are in the order Drag, LongPress, Magnify, Rotate, SpatialTap, Tap. Drag and SpatialTap are absent exactly on tvOS. Magnify and Rotate are present exactly on iOS and macOS. Only on xrOS is a declared gesture not an alternative (also line 141) |
| Gestures.BaseNameInjective | Sources/LiveViewNative/Stylesheets/ParseableTypes/AnyGesture+ParseableModifierValue.swift:119-191 | the six base gestures are keyed by distinct names |
| Gestures.FirstBaseByName | Sources/LiveViewNative/Stylesheets/ParseableTypes/AnyGesture+ParseableModifierValue.swift:102-117 | alternatives keyed by another name never parse a call (also lines 122-185) |
| Gestures.ParseBaseByName | Sources/LiveViewNative/Stylesheets/ParseableTypes/AnyGesture+ParseableModifierValue.swift:102-117 | a call is parsed by the gesture of its name when that gesture is an alternative on the platform, and fails otherwise |
| Gestures.TapDefaultCount | Sources/LiveViewNative/Stylesheets/ParseableTypes/AnyGesture+ParseableModifierValue.swift:183-191 | `TapGesture()` counts one tap, on every platform |
| Gestures.SpatialTapDefaults | Sources/LiveViewNative/Stylesheets/ParseableTypes/AnyGesture+ParseableModifierValue.swift:171-181 | `SpatialTapGesture()` counts one tap in the local space wherever it exists |
| Gestures.NoDragOnTvOS | Sources/LiveViewNative/Stylesheets/ParseableTypes/AnyGesture+ParseableModifierValue.swift:104-106 | no drag gesture parses on tvOS, whatever its arguments (also lines 119-129) |
| Gestures.ParseMembers | Sources/LiveViewNative/Stylesheets/ParseableTypes/AnyGesture+ParseableModifierValue.swift:13-17 | a successful parse gives one member per member call |
| Gestures.FirstMemberByName | Sources/LiveViewNative/Stylesheets/ParseableTypes/AnyGesture+ParseableModifierValue.swift:75-82 | member alternatives keyed by another name never parse a call |
| Gestures.ParseMemberByName | Sources/LiveViewNative/Stylesheets/ParseableTypes/AnyGesture+ParseableModifierValue.swift:32-82 | a member call is parsed by the member of its name (sequenced, simultaneously, onEnded, exclusively) |
| Gestures.EvalChainUnchains | Sources/LiveViewNative/Stylesheets/ParseableTypes/AnyGesture+ParseableModifierValue.swift:12-23 | the result of a chain is its parsed base with its parsed members applied in order |
| Gestures.ParseMembersPrefix | Sources/LiveViewNative/Stylesheets/ParseableTypes/AnyGesture+ParseableModifierValue.swift:13-17 | parsing the first n members looks only at those members |
| Gestures.EvalChainNoMembers | Sources/LiveViewNative/Stylesheets/ParseableTypes/AnyGesture+ParseableModifierValue.swift:19 | with zero members the result is the base gesture |
| Gestures.EvalChainExtend | Sources/LiveViewNative/Stylesheets/ParseableTypes/AnyGesture+ParseableModifierValue.swift:18-22 | one more member call applies that member to the shorter chain's gesture |
| LiveContext.With | Sources/LiveViewNative/LiveContext.swift:30-34 | the copy has the given form model, and the same coordinator and URL |
| LiveContext.WithOverrides | Sources/LiveViewNative/LiveContext.swift:30-34 | setting twice keeps the second; setting the model already held changes nothing |
| LiveContext.Filter | Sources/LiveViewNative/LiveContext.swift:54 | keeps exactly the children satisfying the condition |
| LiveContext.FilterAppend | Sources/LiveViewNative/LiveContext.swift:54 | the filter keeps the original order |
| LiveContext.FilterAll | Sources/LiveViewNative/LiveContext.swift:54 | when every child satisfies the condition, it keeps them all |
| LiveContext.BuildChildren | Sources/LiveViewNative/LiveContext.swift:50-57 | gives one `(id, children)` pair per selected child, in order |
| LiveContext.BuildChildrenSelects | Sources/LiveViewNative/LiveContext.swift:50-57 | the pairs are exactly those of the children satisfying the condition |
| LiveContext.WithTagNameSelects | Sources/LiveViewNative/LiveContext.swift:59-74 | selects a child iff it is an element with that namespace (no namespace matches only no namespace) and that tag; never a non-element |
| LiveContext.DefaultSlotSelects | Sources/LiveViewNative/LiveContext.swift:76-84 | keeps every non-element and every element outside the `menu` namespace; the result does not depend on the tag name |
| LiveContext.DefaultSlotWithoutMenu | Sources/LiveViewNative/LiveContext.swift:76-84 | without `menu` elements, the default slot holds every child in order |

## Left out

- SwiftUI itself is not modelled:
  - rendering in `body` is left out;
  - `buildElement` and `ElementView` are left out;
  - resolving `AttributeReference`, `ViewReference`, `ChangeTracked` and `Event` against the element is left out;
  - the force casts (`as!`) from the type-erased `Any` fields are left out.

  A view is a term recording the modifier call and its arguments.
- The operations' own parsers, written by the `@ParseableExpression` macro, are not modelled. They are parameters of the dispatcher, so no claim is made about how an argument list picks an overload.
- The same holds for the stylesheet combinators (`Parse`, `OneOf`, `Whitespace`, `AtomLiteral`, `Metadata.parser`, `ConstantAtomLiteral`, `ImplicitStaticMember`). They work on tokens here, not on UTF-8 bytes.
- Gestures.Bind: it models one rule for binding the unseen macro's arguments: labels in declaration order, each at most once. The macro's real rules are not visible.
- Gestures.Bind: a `CGFloat` or `Double` parameter accepts a floating-point or an integer literal. How the unseen numeric parsers treat integer literals is not visible.
- Only seven of the roughly 150 generated operations are modelled: alert, background, containerRelativeFrame, contextMenu, frame, lineLimit and toolbar. Every other name in the table is an opaque `OtherModifier` entry.
- Dispatch.Entry: the `name` values of the three hand-written entries (`_StrokeModifier`, `_ResizableModifier`, `_RenderingModeModifier`) are defined in files that are not part of this model, so they are the keys of the `extras` parameter. A map cannot hold a key twice, and a hand-written key equal to a generated one is looked up as the generated entry; the trap such a clash would cause in the dictionary literal is not modelled.
- Cells of the other alert overloads are unbound. The Swift property wrapper's default state is not visible, so it is modelled as `Unbound`.
- Floating-point values are not modelled:
  - the frame lengths, spacing and the gesture defaults (drag distance 10, long-press duration 0.5, magnify delta 0.01) are `real`, or just "a number";
  - `Angle` is opaque.
- The `Task { await ... }` in `onEnded` is concurrency. The model records only which event is sent.
- Generator.Description: SwiftSyntax `description` includes trivia (whitespace and comments); the model's type text leaves it out, so two types that differ only in trivia compare equal here, in `IsDuplicate` and in the type keys.
- Generator.Enumerate: `Signature.init` is not part of this model. The type it gives each parameter (`ViewReference` for a view builder, for instance) is taken as given, in `signatureType`; deduplication and `requiresContext` read it, while validity reads the declared type.
- Generator.RequiresContext: it reads the `Signature` types, which come with each parameter rather than from a modelled rewrite.
- ContainerRelativeFrame.Init0: the initialisers' own `@available` attributes are not modelled, because the Init functions take no platform. Their last clause states what `body` does with the value below the minimum, which only a value obtained some other way can reach.
- ContainerRelativeFrame.Init1: the same holds for its `@available(watchOS 10.0, tvOS 17.0, macOS 14.0, iOS 17.0, *)`.
- ContextMenu.Init0: the same holds for its `@available(iOS 13.0, tvOS 14.0, macOS 10.15, *)`.
- ContextMenu.Init1: the same holds for its `@available(iOS 16.0, macOS 13.0, tvOS 16.0, *)`.
- Toolbar.Init1: the same holds for its `@available(iOS 17.0, macOS 14.0, watchOS 10.0, tvOS 17.0, *)`.
- I/O is left out: the `.swiftinterface` read, the SwiftSyntax tree, `ArgumentParser`, file writes and standard-error messages. The generator works on abstract declaration records.
- `isGeneric` is a parameter, because it reads file contents and runs a regex.
- The checked-in generated file and the generator come from different versions. For example, the generator denylists `alert` and `toolbar` and emits a plain `OneOf`, while the file has them and a name-keyed table. No claim relates the two.
- Naming.FileStem: it takes the last component first and then strips its extension. Foundation strips only the last component's extension, so this gives the same stem as the source's order. URL normalisation, such as trailing `/` or `..`, is not modelled.
- Case conversion is modelled over ASCII. Unicode `isUppercase`, `isNumber` and `lowercased()` are not.
- StringOrder.Less: it compares character codes one by one. Swift's `String <` compares Unicode scalar values of canonically equivalent forms; this agrees for the ASCII names the generator sorts, and non-ASCII names are not modelled.
- Other enum tables, such as BadgeProminence and ControlSize, are left out. They follow the same shape as the four modelled tables.

## Findings

| source | as written | input that shows it | evidently intended | confidence | as-written member | corrected member |
|---|---|---|---|---|---|---|
| Sources/LiveViewNative/_GeneratedModifiers.swift:10047-10065 | the SubmitLabel literals for the Swift keywords are written `` "`return`" `` and `` "`continue`" ``: the backticks are part of the string | the atom `:return` (or `:continue`) matches no alternative of the SubmitLabel table, so `.return` and `.continue` cannot be selected from a stylesheet, whose atoms are plain identifiers | the literals `"return"` and `"continue"`, the member names without the Swift escaping | medium, not executed (the unseen `ConstantAtomLiteral` might strip backticks) | AtomTables.SubmitLabelKeywordsUnreachable | AtomTables.SubmitLabelLookup |
