/**
 * Identifier spelling in the builtin registry generator: splitting a type
 * name into words, its camelCase and snake_case spellings, the capture of
 * the name in front of `Modifier` in a file name, the denylist filter on
 * view files, and the `case` lines emitted for views and modifiers.
 * Characters are ASCII; `isUppercase`, `isNumber`, `uppercased()` and
 * `lowercased()` are their ASCII restrictions.
 */
module Naming {
  import opened Wrappers

  predicate IsUpper(c: char) { 'A' <= c <= 'Z' }

  predicate IsLowerLetter(c: char) { 'a' <= c <= 'z' }

  predicate IsDigit(c: char) { '0' <= c <= '9' }

  function Lower(c: char): char {
    if IsUpper(c) then (c as int + 32) as char else c
  }

  function Upper(c: char): char {
    if IsLowerLetter(c) then (c as int - 32) as char else c
  }

  function LowerString(s: string): (r: string)
    ensures |r| == |s| && forall i :: 0 <= i < |s| ==> r[i] == Lower(s[i])
  {
    seq(|s|, i requires 0 <= i < |s| => Lower(s[i]))
  }

  lemma LowerUpper(c: char)
    ensures Lower(Upper(c)) == Lower(c) && !IsUpper(Lower(c))
    ensures Lower(c) == '_' <==> c == '_'
  {
  }

  // ---------------------------------------------------------------------
  // splitWords

  /** The last word ends in the character `3`. */
  predicate LastWordEndsIn3(words: seq<string>) {
    words != [] && words[|words| - 1] != [] && words[|words| - 1][|words[|words| - 1]| - 1] == '3'
  }

  /** `splitWords`' test for `c` to open a new word after `words`. */
  predicate OpensWord(words: seq<string>, c: char) {
    (IsUpper(c) && !(LastWordEndsIn3(words) && c == 'D')) || IsDigit(c) || words == []
  }

  /** One step of the fold: `c` opens a new word or is appended to the last one. */
  function AddChar(words: seq<string>, c: char): seq<string> {
    if OpensWord(words, c) then words + [[c]]
    else words[|words| - 1 := words[|words| - 1] + [c]]
  }

  /** The words of `s`, folding `AddChar` over its characters from the left. */
  function Words(s: string): seq<string>
    decreases |s|
  {
    if s == [] then [] else AddChar(Words(s[..|s| - 1]), s[|s| - 1])
  }

  /** `splitWords`, updating the word list in place character by character. */
  method SplitWords(s: string) returns (words: seq<string>)
    ensures words == Words(s)
  {
    words := [];
    for i := 0 to |s|
      invariant words == Words(s[..i])
    {
      assert s[..i + 1][..i] == s[..i];
      var c := s[i];
      if OpensWord(words, c) {
        words := words + [[c]];
      } else {
        words := words[|words| - 1 := words[|words| - 1] + [c]];
      }
    }
    assert s[..|s|] == s;
  }

  /** The words concatenated (`joined(separator: "")`). */
  function Concat(words: seq<string>): string
    decreases |words|
  {
    if words == [] then [] else Concat(words[..|words| - 1]) + words[|words| - 1]
  }

  /** The positions in `Concat(words)` at which the words start. */
  function Starts(words: seq<string>): set<int>
    decreases |words|
  {
    if words == [] then {} else Starts(words[..|words| - 1]) + {|Concat(words[..|words| - 1])|}
  }

  /**
   * A word of `s` starts at position `i`: the first character, a digit, or
   * an uppercase letter other than a `D` right after a `3`.
   */
  predicate BreakAt(s: string, i: int)
    requires 0 <= i < |s|
  {
    i == 0 || IsDigit(s[i]) || (IsUpper(s[i]) && !(s[i - 1] == '3' && s[i] == 'D'))
  }

  /** Concatenating the words gives back the string, and no word is empty. */
  lemma {:induction false} WordsPartition(s: string)
    ensures Concat(Words(s)) == s
    ensures forall k :: 0 <= k < |Words(s)| ==> Words(s)[k] != []
    ensures Words(s) == [] <==> s == []
    decreases |s|
  {
    if s != [] {
      var p, c := s[..|s| - 1], s[|s| - 1];
      WordsPartition(p);
      var ws := Words(p);
      assert s == p + [c];
      if OpensWord(ws, c) {
        assert (ws + [[c]])[..|ws|] == ws;
      } else {
        var n := |ws|;
        var ws' := ws[n - 1 := ws[n - 1] + [c]];
        assert ws'[..n - 1] == ws[..n - 1];
        assert Concat(ws) == Concat(ws[..n - 1]) + ws[n - 1];
      }
    }
  }

  /** The word-opening test on the words so far is `BreakAt` on the extended string. */
  lemma OpensWordIsBreak(p: string, c: char)
    ensures OpensWord(Words(p), c) <==> BreakAt(p + [c], |p|)
  {
    WordsPartition(p);
    var ws := Words(p);
    var s := p + [c];
    if p != [] {
      var n := |ws|;
      assert Concat(ws) == Concat(ws[..n - 1]) + ws[n - 1];
      assert p[|p| - 1] == ws[n - 1][|ws[n - 1]| - 1];
      assert s[|p| - 1] == p[|p| - 1];
    }
  }

  /** The extended string breaks where the shorter one does. */
  lemma BreakAtPrefix(p: string, c: char, i: int)
    requires 0 <= i < |p|
    ensures BreakAt(p + [c], i) <==> BreakAt(p, i)
  {
    var s := p + [c];
    assert s[i] == p[i];
    if i > 0 {
      assert s[i - 1] == p[i - 1];
    }
  }

  /** Words start exactly at the break positions of `s`. */
  lemma {:induction false} WordStarts(s: string)
    ensures forall i :: i in Starts(Words(s)) <==> 0 <= i < |s| && BreakAt(s, i)
    decreases |s|
  {
    if s != [] {
      var p, c := s[..|s| - 1], s[|s| - 1];
      assert s == p + [c];
      WordStarts(p);
      WordsPartition(p);
      OpensWordIsBreak(p, c);
      forall i | 0 <= i < |p| {
        BreakAtPrefix(p, c, i);
      }
      var ws := Words(p);
      if OpensWord(ws, c) {
        assert Words(s) == ws + [[c]];
        StartsOpen(ws, [c]);
      } else {
        AddCharSplit(ws, c);
        assert Words(s) == ws[..|ws| - 1] + [ws[|ws| - 1] + [c]];
        StartsExtend(ws, c);
      }
    }
  }

  /** A new word starts where the concatenation of the earlier ones ends. */
  lemma StartsOpen(ws: seq<string>, w: string)
    ensures Starts(ws + [w]) == Starts(ws) + {|Concat(ws)|}
  {
    assert (ws + [w])[..|ws|] == ws;
  }

  /** Extending the last word adds no start. */
  lemma StartsExtend(ws: seq<string>, c: char)
    requires ws != []
    ensures Starts(ws[..|ws| - 1] + [ws[|ws| - 1] + [c]]) == Starts(ws)
  {
    var n := |ws|;
    assert (ws[..n - 1] + [ws[n - 1] + [c]])[..n - 1] == ws[..n - 1];
    assert ws == ws[..n - 1] + [ws[n - 1]];
    StartsOpen(ws[..n - 1], ws[n - 1] + [c]);
    StartsOpen(ws[..n - 1], ws[n - 1]);
  }

  // ---------------------------------------------------------------------
  // toCamelCase and toSnakeCase

  /** The first character uppercased, the rest lowercased. */
  function Capitalized(w: string): string {
    if w == [] then [] else [Upper(w[0])] + LowerString(w[1..])
  }

  /** Word `k` of a camelCase spelling. */
  function CamelWord(k: nat, w: string): string {
    if k == 0 then LowerString(w) else Capitalized(w)
  }

  function CamelWords(words: seq<string>): seq<string> {
    seq(|words|, k requires 0 <= k < |words| => CamelWord(k, words[k]))
  }

  function LowerWords(words: seq<string>): seq<string> {
    seq(|words|, k requires 0 <= k < |words| => LowerString(words[k]))
  }

  /** The words joined with `sep` between every two of them. */
  function Join(words: seq<string>, sep: char): string
    decreases |words|
  {
    if words == [] then []
    else if |words| == 1 then words[0]
    else Join(words[..|words| - 1], sep) + [sep] + words[|words| - 1]
  }

  /** `toCamelCase`. */
  function ToCamelCase(s: string): string {
    Concat(CamelWords(Words(s)))
  }

  /** `toSnakeCase`. */
  function ToSnakeCase(s: string): string {
    Join(LowerWords(Words(s)), '_')
  }

  /** Joining, then extending the last word, is extending the joined string. */
  lemma JoinExtendLast(words: seq<string>, w: string, d: char, sep: char)
    ensures Join(words + [w + [d]], sep) == Join(words + [w], sep) + [d]
  {
    assert (words + [w + [d]])[..|words|] == words;
    assert (words + [w])[..|words|] == words;
  }

  lemma ConcatAppend(words: seq<string>, w: string)
    ensures Concat(words + [w]) == Concat(words) + w
  {
    assert (words + [w])[..|words|] == words;
  }

  lemma CamelWordsAppend(words: seq<string>, w: string)
    ensures CamelWords(words + [w]) == CamelWords(words) + [CamelWord(|words|, w)]
  {
  }

  lemma LowerWordsAppend(words: seq<string>, w: string)
    ensures LowerWords(words + [w]) == LowerWords(words) + [LowerString(w)]
  {
  }

  lemma LowerStringAppend(w: string, c: char)
    ensures LowerString(w + [c]) == LowerString(w) + [Lower(c)]
  {
  }

  /** Extending a non-empty word extends its camelCase spelling by the lowercased character. */
  lemma CamelWordExtend(k: nat, w: string, c: char)
    requires w != []
    ensures CamelWord(k, w + [c]) == CamelWord(k, w) + [Lower(c)]
  {
    LowerStringAppend(w, c);
    assert (w + [c])[1..] == w[1..] + [c];
    LowerStringAppend(w[1..], c);
  }

  /** The fold step, with the in-place update of the last word written as a split. */
  lemma AddCharSplit(words: seq<string>, c: char)
    ensures !OpensWord(words, c) ==> words != [] && AddChar(words, c) == words[..|words| - 1] + [words[|words| - 1] + [c]]
    ensures !OpensWord(words, c) ==> words == words[..|words| - 1] + [words[|words| - 1]]
  {
  }

  /** A character that opens a word adds that one-letter word to the camelCase spelling. */
  lemma CamelStepOpens(p: string, c: char)
    requires OpensWord(Words(p), c)
    ensures ToCamelCase(p + [c]) == ToCamelCase(p) + [if p != [] then Upper(c) else Lower(c)]
  {
    WordsPartition(p);
    var s := p + [c];
    assert s[..|s| - 1] == p;
    var ws := Words(p);
    var n := |ws|;
    assert Words(s) == ws + [[c]];
    CamelWordsAppend(ws, [c]);
    ConcatAppend(CamelWords(ws), CamelWord(n, [c]));
    assert [c][1..] == [] && LowerString([]) == [];
    assert CamelWord(n, [c]) == [if n == 0 then Lower(c) else Upper(c)];
  }

  /** A character appended to the last word adds its lowercase to the camelCase spelling. */
  lemma CamelStepExtends(p: string, c: char)
    requires !OpensWord(Words(p), c)
    ensures ToCamelCase(p + [c]) == ToCamelCase(p) + [Lower(c)]
  {
    WordsPartition(p);
    var s := p + [c];
    assert s[..|s| - 1] == p;
    var ws := Words(p);
    var n := |ws|;
    AddCharSplit(ws, c);
    var init, w := ws[..n - 1], ws[n - 1];
    assert Words(s) == init + [w + [c]];
    CamelExtends(init, w, c);
  }

  /** Extending a non-empty last word adds the lowercased character to the camelCase spelling. */
  lemma CamelExtends(init: seq<string>, w: string, c: char)
    requires w != []
    ensures Concat(CamelWords(init + [w + [c]])) == Concat(CamelWords(init + [w])) + [Lower(c)]
  {
    var n := |init| + 1;
    CamelWordsAppend(init, w + [c]);
    CamelWordsAppend(init, w);
    CamelWordExtend(n - 1, w, c);
    ConcatAppend(CamelWords(init), CamelWord(n - 1, w + [c]));
    ConcatAppend(CamelWords(init), CamelWord(n - 1, w));
  }

  /** Appending a character to `s` appends its uppercase or lowercase to its camelCase spelling. */
  lemma CamelStep(p: string, c: char)
    ensures ToCamelCase(p + [c]) == ToCamelCase(p) + [if p != [] && OpensWord(Words(p), c) then Upper(c) else Lower(c)]
  {
    if OpensWord(Words(p), c) {
      CamelStepOpens(p, c);
    } else {
      CamelStepExtends(p, c);
    }
  }

  /** Appending a character to `s` appends `_` and its lowercase, or only its lowercase, to its snake_case spelling. */
  lemma SnakeStep(p: string, c: char)
    ensures ToSnakeCase(p + [c]) == ToSnakeCase(p) + (if p != [] && OpensWord(Words(p), c) then ['_', Lower(c)] else [Lower(c)])
  {
    WordsPartition(p);
    var s := p + [c];
    assert s[..|s| - 1] == p;
    var ws := Words(p);
    if OpensWord(ws, c) {
      assert Words(s) == ws + [[c]];
      SnakeOpens(ws, c);
    } else {
      AddCharSplit(ws, c);
      var init, w := ws[..|ws| - 1], ws[|ws| - 1];
      assert Words(s) == init + [w + [c]];
      SnakeExtends(init, w, c);
    }
  }

  /** A one-letter word after the others adds `_` and that letter lowercased to the joined words. */
  lemma SnakeOpens(ws: seq<string>, c: char)
    ensures Join(LowerWords(ws + [[c]]), '_') == Join(LowerWords(ws), '_') + (if ws != [] then ['_', Lower(c)] else [Lower(c)])
  {
    LowerWordsAppend(ws, [c]);
    assert LowerString([c]) == [Lower(c)];
    var lw := LowerWords(ws) + [[Lower(c)]];
    assert lw[..|ws|] == LowerWords(ws);
  }

  /** Extending the last word adds the lowercased character to the joined words. */
  lemma SnakeExtends(init: seq<string>, w: string, c: char)
    ensures Join(LowerWords(init + [w + [c]]), '_') == Join(LowerWords(init + [w]), '_') + [Lower(c)]
  {
    LowerWordsAppend(init, w + [c]);
    LowerWordsAppend(init, w);
    LowerStringAppend(w, c);
    JoinExtendLast(LowerWords(init), LowerString(w), Lower(c), '_');
  }

  /**
   * camelCase, position by position: the first word is lowercased, every
   * later word starts with its uppercased first character and continues
   * lowercased.
   */
  lemma {:induction false} CamelCaseAt(s: string)
    ensures |ToCamelCase(s)| == |s|
    ensures forall i :: 0 <= i < |s| ==> ToCamelCase(s)[i] == (if i > 0 && BreakAt(s, i) then Upper(s[i]) else Lower(s[i]))
    decreases |s|
  {
    if s != [] {
      var p, c := s[..|s| - 1], s[|s| - 1];
      assert s == p + [c];
      CamelCaseAt(p);
      CamelStep(p, c);
      OpensWordIsBreak(p, c);
      var r := ToCamelCase(p);
      assert ToCamelCase(s) == r + [if p != [] && OpensWord(Words(p), c) then Upper(c) else Lower(c)];
      forall i | 0 <= i < |s|
        ensures ToCamelCase(s)[i] == (if i > 0 && BreakAt(s, i) then Upper(s[i]) else Lower(s[i]))
      {
        if i < |p| {
          BreakAtPrefix(p, c, i);
          assert s[i] == p[i] && ToCamelCase(s)[i] == r[i];
        }
      }
    }
  }

  /** Lowercasing the camelCase spelling gives the lowercased input. */
  lemma CamelCaseLowered(s: string)
    ensures LowerString(ToCamelCase(s)) == LowerString(s)
  {
    CamelCaseAt(s);
    forall i | 0 <= i < |s| {
      LowerUpper(s[i]);
    }
  }

  /** The number of occurrences of `c` in `s`. */
  function Count(s: string, c: char): nat
    decreases |s|
  {
    if s == [] then 0 else Count(s[..|s| - 1], c) + (if s[|s| - 1] == c then 1 else 0)
  }

  lemma CountAppend(s: string, t: string, c: char)
    ensures Count(s + t, c) == Count(s, c) + Count(t, c)
    decreases |t|
  {
    if t == [] {
      assert s + t == s;
    } else {
      assert (s + t)[..|s + t| - 1] == s + t[..|t| - 1];
      CountAppend(s, t[..|t| - 1], c);
    }
  }

  /** The separator and lowered character one step of snake_case appends hold one `_` more than `c` does, if a word opens. */
  lemma CountAdded(c: char, opens: bool)
    ensures Count(if opens then ['_', Lower(c)] else [Lower(c)], '_') == (if opens then 1 else 0) + Count([c], '_')
  {
    LowerUpper(c);
    assert [Lower(c)][..0] == [] && [c][..0] == [];
    if opens {
      assert ['_', Lower(c)][..1] == ['_'];
      assert ['_'][..0] == [];
    }
  }

  /**
   * snake_case has no uppercase letter, and joining the words adds exactly
   * one `_` between every two of them.
   */
  lemma {:induction false} SnakeCaseShape(s: string)
    ensures forall i :: 0 <= i < |ToSnakeCase(s)| ==> !IsUpper(ToSnakeCase(s)[i])
    ensures |ToSnakeCase(s)| + 1 == |s| + |Words(s)| + (if s == [] then 1 else 0)
    ensures s != [] ==> Count(ToSnakeCase(s), '_') == Count(s, '_') + |Words(s)| - 1
    decreases |s|
  {
    if s != [] {
      var p, c := s[..|s| - 1], s[|s| - 1];
      assert s == p + [c];
      SnakeCaseShape(p);
      SnakeStep(p, c);
      LowerUpper(c);
      WordsPartition(p);
      var opens := p != [] && OpensWord(Words(p), c);
      var added: string := if opens then ['_', Lower(c)] else [Lower(c)];
      CountAppend(ToSnakeCase(p), added, '_');
      CountAdded(c, opens);
      assert Count(s, '_') == Count(p, '_') + Count([c], '_') by {
        CountAppend(p, [c], '_');
      }
      if p == [] {
        assert ToSnakeCase(p) == [];
      }
    }
  }

  /** `s` without the character `c`. */
  function Without(s: string, c: char): string
    decreases |s|
  {
    if s == [] then [] else Without(s[..|s| - 1], c) + (if s[|s| - 1] == c then [] else [s[|s| - 1]])
  }

  lemma WithoutAppend(s: string, t: string, c: char)
    ensures Without(s + t, c) == Without(s, c) + Without(t, c)
    decreases |t|
  {
    if t == [] {
      assert s + t == s;
    } else {
      assert (s + t)[..|s + t| - 1] == s + t[..|t| - 1];
      WithoutAppend(s, t[..|t| - 1], c);
    }
  }

  /**
   * The two spellings in a modifier case line agree: for a name without
   * `_`, removing the separators from the snake_case raw value gives the
   * lowercased camelCase case name.
   */
  lemma {:induction false} CamelSnakeAgree(s: string)
    requires '_' !in s
    ensures Without(ToSnakeCase(s), '_') == LowerString(ToCamelCase(s))
    decreases |s|
  {
    if s != [] {
      var p, c := s[..|s| - 1], s[|s| - 1];
      assert s == p + [c];
      CamelSnakeAgree(p);
      SnakeStep(p, c);
      CamelStep(p, c);
      AgreeStep(ToSnakeCase(p), ToCamelCase(p), c, p != [] && OpensWord(Words(p), c));
    }
  }

  /** One step of both spellings keeps them in agreement, for a character other than `_`. */
  lemma AgreeStep(snake: string, camel: string, c: char, opens: bool)
    requires Without(snake, '_') == LowerString(camel) && c != '_'
    ensures Without(snake + (if opens then ['_', Lower(c)] else [Lower(c)]), '_') == LowerString(camel + [if opens then Upper(c) else Lower(c)])
  {
    LowerUpper(c);
    var added: string := if opens then ['_', Lower(c)] else [Lower(c)];
    WithoutAppend(snake, added, '_');
    assert Without(added, '_') == [Lower(c)] by {
      assert [Lower(c)][..0] == [];
      if opens {
        assert added[..1] == ['_'];
        assert ['_'][..0] == [];
      }
    }
    LowerStringAppend(camel, if opens then Upper(c) else Lower(c));
  }

  // ---------------------------------------------------------------------
  // File names

  /** The index of the last `c` in `s`, if any. */
  function LastIndex(s: string, c: char): (r: Option<nat>)
    ensures r.Some? ==> r.value < |s| && s[r.value] == c && c !in s[r.value + 1..]
    ensures r.None? ==> c !in s
    decreases |s|
  {
    if s == [] then None
    else if s[|s| - 1] == c then Some(|s| - 1)
    else LastIndex(s[..|s| - 1], c)
  }

  /** `lastPathComponent`: the part after the last `/`. */
  function LastPathComponent(path: string): string {
    match LastIndex(path, '/')
    case None => path
    case Some(i) => path[i + 1..]
  }

  /** `deletingPathExtension()`: the part before the last `.`, unless that `.` starts the name. */
  function DeletingPathExtension(name: string): string {
    match LastIndex(name, '.')
    case Some(i) => if i > 0 then name[..i] else name
    case None => name
  }

  /** `path.deletingPathExtension().lastPathComponent`. */
  function FileStem(path: string): string {
    DeletingPathExtension(LastPathComponent(path))
  }

  lemma {:induction false} LastIndexAppend(a: string, b: string, c: char)
    ensures LastIndex(a + b, c) == (match LastIndex(b, c) case Some(j) => Some(|a| + j) case None => LastIndex(a, c))
    decreases |b|
  {
    if b == [] {
      assert a + b == a;
    } else {
      assert (a + b)[..|a + b| - 1] == a + b[..|b| - 1];
      LastIndexAppend(a, b[..|b| - 1], c);
    }
  }

  /** The last component of `dir/file` is `file` when `file` has no `/`. */
  lemma LastComponentOf(dir: string, file: string)
    requires '/' !in file
    ensures LastPathComponent(dir + "/" + file) == file
  {
    LastIndexAppend(dir + "/", file, '/');
    LastIndexAppend(dir, "/", '/');
    assert (dir + "/" + file)[|dir| + 1..] == file;
  }

  /** Deleting the extension of `name.ext` gives `name` when neither has a `.`. */
  lemma ExtensionDeleted(name: string, ext: string)
    requires name != [] && '.' !in name && '.' !in ext
    ensures DeletingPathExtension(name + "." + ext) == name
  {
    LastIndexAppend(name + ".", ext, '.');
    LastIndexAppend(name, ".", '.');
    assert (name + "." + ext)[..|name|] == name;
  }

  /** The stem of `dir/name.ext` is `name`. */
  lemma FileStemOf(dir: string, name: string, ext: string)
    requires name != [] && '/' !in name && '.' !in name
    requires '/' !in ext && '.' !in ext
    ensures FileStem(dir + "/" + name + "." + ext) == name
  {
    var file := name + "." + ext;
    assert dir + "/" + name + "." + ext == dir + "/" + file;
    LastComponentOf(dir, file);
    ExtensionDeleted(name, ext);
  }

  /** The view files the registry never lists. */
  const RegistryDenylist: seq<string> := ["Shape", "TextFieldProtocol", "NamespaceContext"]

  /** `isAllowed(path:)`. */
  predicate IsAllowed(path: string) {
    FileStem(path) !in RegistryDenylist
  }

  /** A file `dir/name.ext` is listed iff its name is not denylisted. */
  lemma IsAllowedFile(dir: string, name: string, ext: string)
    requires name != [] && '/' !in name && '.' !in name
    requires '/' !in ext && '.' !in ext
    ensures IsAllowed(dir + "/" + name + "." + ext) <==> name != "Shape" && name != "TextFieldProtocol" && name != "NamespaceContext"
  {
    FileStemOf(dir, name, ext);
  }

  /** `.filter(isAllowed(path:))`: the allowed paths, in order. */
  function AllowedPaths(paths: seq<string>): (r: seq<string>)
    ensures forall p :: p in r <==> p in paths && IsAllowed(p)
    ensures |r| <= |paths|
    ensures forall i :: 0 <= i < |r| ==> IsAllowed(r[i])
    decreases |paths|
  {
    if paths == [] then []
    else
      var rest := AllowedPaths(paths[1..]);
      assert paths == [paths[0]] + paths[1..];
      if IsAllowed(paths[0]) then [paths[0]] + rest else rest
  }

  /** One path is kept, as itself, iff it is allowed. */
  lemma AllowedPathsSingle(path: string)
    ensures AllowedPaths([path]) == if IsAllowed(path) then [path] else []
  {
    assert [path][1..] == [];
  }

  /** The filter distributes over concatenation, so the kept paths keep their order and their repeats. */
  lemma {:induction false} AllowedPathsAppend(a: seq<string>, b: seq<string>)
    ensures AllowedPaths(a + b) == AllowedPaths(a) + AllowedPaths(b)
    decreases |a|
  {
    if a == [] {
      assert a + b == b;
    } else {
      assert (a + b)[1..] == a[1..] + b;
      AllowedPathsAppend(a[1..], b);
    }
  }

  // ---------------------------------------------------------------------
  // The name in front of `Modifier`

  const ModifierSuffix: string := "Modifier"

  predicate SuffixAt(s: string, i: int) {
    0 <= i && i + |ModifierSuffix| <= |s| && s[i..i + |ModifierSuffix|] == ModifierSuffix
  }

  /** The regex `Capture { OneOrMore(.any) } "Modifier"` matches `s`. */
  predicate HasCapture(s: string) {
    exists i :: 1 <= i <= |s| && SuffixAt(s, i)
  }

  /** The last position `i` with `1 <= i <= j` at which `Modifier` occurs. */
  function LastSuffixAt(s: string, j: int): (r: Option<nat>)
    ensures r.Some? ==> 1 <= r.value <= j && SuffixAt(s, r.value)
    ensures r.Some? ==> forall k :: r.value < k <= j ==> !SuffixAt(s, k)
    ensures r.None? ==> forall k :: 1 <= k <= j ==> !SuffixAt(s, k)
    decreases j
  {
    if j < 1 then None
    else if SuffixAt(s, j) then Some(j)
    else LastSuffixAt(s, j - 1)
  }

  /**
   * The name taken from a modifier file's stem. The regex match starts at
   * the first character and its greedy capture extends to the last
   * `Modifier` that leaves at least one character in front; without such a
   * match the whole stem is the name.
   */
  function ModifierName(stem: string): (r: string)
    ensures HasCapture(stem) ==> 1 <= |r| && SuffixAt(stem, |r|) && r == stem[..|r|]
    ensures HasCapture(stem) ==> forall k :: |r| < k ==> !SuffixAt(stem, k)
    ensures !HasCapture(stem) ==> r == stem
  {
    match LastSuffixAt(stem, |stem| - |ModifierSuffix|)
    case Some(i) => stem[..i]
    case None => stem
  }

  /** The switch case instantiates the type the file declares: `<name>Modifier` for a file `<name>Modifier`. */
  lemma ModifierNameOfType(name: string)
    requires name != []
    ensures ModifierName(name + ModifierSuffix) == name
  {
    var stem := name + ModifierSuffix;
    assert stem[|name|..|name| + |ModifierSuffix|] == ModifierSuffix;
    assert SuffixAt(stem, |name|);
    var r := ModifierName(stem);
    assert stem[..|name|] == name;
  }

  // ---------------------------------------------------------------------
  // Emitted case lines (the text inside an 8-space-indented multi-line literal)

  /** The generic argument a registry type is instantiated with. */
  function GenericArgument(generic: bool): string {
    if generic then "<R>" else ""
  }

  const ViewCaseHead: string := "        case \""
  const EnumCaseHead: string := "        case "
  const SwitchCaseHead: string := "        case ."

  /** `viewCase(path:)`; `generic` is the result of `isGeneric(path:)`. */
  function ViewCase(path: string, generic: bool): string {
    var name := FileStem(path);
    ViewCaseHead + (name + ("\":\n            " + (name + (GenericArgument(generic) + "()"))))
  }

  /** `additionalViewCase(name:initializer:)`. */
  function AdditionalViewCase(name: string, initializer: string): string {
    ViewCaseHead + (name + ("\":\n            " + initializer))
  }

  /** `modifierCase(path:)`. */
  function ModifierCase(path: string): string {
    var name := ModifierName(FileStem(path));
    EnumCaseHead + (ToCamelCase(name) + (" = \"" + (ToSnakeCase(name) + "\"")))
  }

  /** `modifierSwitchCase(path:)`; `generic` is the result of `isGeneric(path:)`. */
  function ModifierSwitchCase(path: string, generic: bool): string {
    var name := ModifierName(FileStem(path));
    SwitchCaseHead + (ToCamelCase(name) + (":\n            try " + (name + (ModifierSuffix + (GenericArgument(generic) + "(from: decoder)")))))
  }

  /** The index of the first `c` in `s`, if any. */
  function FirstIndex(s: string, c: char): (r: Option<nat>)
    ensures r.Some? ==> r.value < |s| && s[r.value] == c && c !in s[..r.value]
    ensures r.None? ==> c !in s
    decreases |s|
  {
    if s == [] then None
    else if s[0] == c then Some(0)
    else match FirstIndex(s[1..], c)
      case Some(i) => (assert s[..i + 1] == [s[0]] + s[1..][..i]; Some(i + 1))
      case None => (assert s == [s[0]] + s[1..]; None)
  }

  lemma FirstIndexAt(a: string, b: string, c: char)
    requires c !in a && b != [] && b[0] == c
    ensures FirstIndex(a + b, c) == Some(|a|)
  {
    var s := a + b;
    assert s[|a|] == c;
    var r := FirstIndex(s, c);
    assert r.value == |a|;
  }

  /** The text of `line` after `head` up to the first `stop`. */
  function Field(line: string, head: string, stop: char): (r: Option<string>)
    ensures r.Some? ==> |head| + |r.value| < |line| && line[..|head|] == head
    ensures r.Some? ==> line[|head|..|head| + |r.value|] == r.value && line[|head| + |r.value|] == stop && stop !in r.value
  {
    if |head| <= |line| && line[..|head|] == head then
      match FirstIndex(line[|head|..], stop)
      case Some(i) => Some(line[|head|..][..i])
      case None => None
    else None
  }

  lemma FieldOf(head: string, value: string, rest: string, stop: char)
    requires stop !in value && rest != [] && rest[0] == stop
    ensures Field(head + (value + rest), head, stop) == Some(value)
  {
    var line := head + (value + rest);
    assert line[..|head|] == head;
    assert line[|head|..] == value + rest;
    FirstIndexAt(value, rest, stop);
    assert (value + rest)[..|value|] == value;
  }

  /** The view a view case line lists: the text between `case "` and the next `"`. */
  function ViewNameOf(line: string): Option<string> {
    Field(line, ViewCaseHead, '"')
  }

  /** A generated view case lists the view named by its file. */
  lemma ViewCaseNames(path: string, generic: bool)
    requires '"' !in FileStem(path)
    ensures ViewNameOf(ViewCase(path, generic)) == Some(FileStem(path))
  {
    var name := FileStem(path);
    FieldOf(ViewCaseHead, name, "\":\n            " + (name + (GenericArgument(generic) + "()")), '"');
  }

  /** A hand-written view case lists the view it is given. */
  lemma AdditionalViewCaseNames(name: string, initializer: string)
    requires '"' !in name
    ensures ViewNameOf(AdditionalViewCase(name, initializer)) == Some(name)
  {
    FieldOf(ViewCaseHead, name, "\":\n            " + initializer, '"');
  }

  /** The enum case a modifier case line declares, and its raw value. */
  function EnumCaseOf(line: string): Option<(string, string)> {
    match Field(line, EnumCaseHead, ' ')
    case Some(n) =>
      var rest := line[|EnumCaseHead| + |n|..];
      if 5 <= |rest| && rest[..4] == " = \"" && rest[|rest| - 1] == '"' then Some((n, rest[4..|rest| - 1])) else None
    case None => None
  }

  /** The enum case a switch case line selects: the text between `case .` and `:`. */
  function SwitchCaseOf(line: string): Option<string> {
    Field(line, SwitchCaseHead, ':')
  }

  /** Changing the case of a character never produces a non-letter it was not already. */
  lemma CaseChangeKeeps(c: char, d: char)
    requires !IsUpper(d) && !IsLowerLetter(d)
    ensures (Lower(c) == d ==> c == d) && (Upper(c) == d ==> c == d)
  {
  }

  /** camelCase introduces no non-letter character. */
  lemma CamelCaseAvoids(s: string, d: char)
    requires !IsUpper(d) && !IsLowerLetter(d) && d !in s
    ensures d !in ToCamelCase(s)
  {
    CamelCaseAt(s);
    forall i | 0 <= i < |s|
      ensures ToCamelCase(s)[i] != d
    {
      CaseChangeKeeps(s[i], d);
    }
  }

  /** A modifier case line declares the camelCase name with the snake_case name as raw value. */
  lemma ModifierCaseFields(path: string)
    requires ' ' !in ModifierName(FileStem(path))
    ensures EnumCaseOf(ModifierCase(path)) == Some((ToCamelCase(ModifierName(FileStem(path))), ToSnakeCase(ModifierName(FileStem(path)))))
  {
    var name := ModifierName(FileStem(path));
    CamelCaseAvoids(name, ' ');
    EnumCaseLine(ToCamelCase(name), ToSnakeCase(name));
  }

  /** A case line built from a case name without spaces and a raw value reads back as that pair. */
  lemma EnumCaseLine(camel: string, snake: string)
    requires ' ' !in camel
    ensures EnumCaseOf(EnumCaseHead + (camel + (" = \"" + (snake + "\"")))) == Some((camel, snake))
  {
    var tail := " = \"" + (snake + "\"");
    FieldOf(EnumCaseHead, camel, tail, ' ');
    var line := EnumCaseHead + (camel + tail);
    assert line[|EnumCaseHead| + |camel|..] == tail;
    assert tail[..4] == " = \"" && tail[4..|tail| - 1] == snake;
  }

  /** The switch case for a modifier selects the camelCase case its enum line declares. */
  lemma ModifierSwitchCaseSelects(path: string, generic: bool)
    requires ':' !in ModifierName(FileStem(path))
    ensures SwitchCaseOf(ModifierSwitchCase(path, generic)) == Some(ToCamelCase(ModifierName(FileStem(path))))
  {
    var name := ModifierName(FileStem(path));
    CamelCaseAvoids(name, ':');
    FieldOf(SwitchCaseHead, ToCamelCase(name), ":\n            try " + (name + (ModifierSuffix + (GenericArgument(generic) + "(from: decoder)"))), ':');
  }
}
