/**
 * Identifier derivation of cmd/module.go: camelToSnake, toPascalCase and the package,
 * import-path and handler-file names built from them.
 */
module Naming {
  import opened GoStrings

  // ---------------------------------------------------------------------------
  // camelToSnake

  /** What camelToSnake writes for the character at index i. */
  function SnakeChunk(s: string, i: nat): string
    requires i < |s|
  {
    (if i > 0 && IsUpper(s[i]) then "_" else "") + [LowerChar(s[i])]
  }

  /** What camelToSnake has written after the first n characters. */
  function SnakePrefix(s: string, n: nat): string
    requires n <= |s|
  {
    if n == 0 then [] else SnakePrefix(s, n - 1) + SnakeChunk(s, n - 1)
  }

  /** The snake-case form of s. */
  function SnakeOf(s: string): string {
    SnakePrefix(s, |s|)
  }

  /**
   * camelToSnake: writes '_' before every upper-case character except at index 0,
   * then the character in lower case.
   */
  method CamelToSnake(s: string) returns (r: string)
    ensures r == SnakeOf(s)
  {
    r := "";
    var i := 0;
    while i < |s|
      invariant 0 <= i <= |s|
      invariant r == SnakePrefix(s, i)
    {
      if i > 0 && IsUpper(s[i]) {
        r := r + "_";
      }
      r := r + [LowerChar(s[i])];
      i := i + 1;
    }
  }

  /** The number of upper-case characters among s[1..n]. */
  function UpperAfterFirst(s: string, n: nat): nat
    requires n <= |s|
  {
    if n <= 1 then 0 else UpperAfterFirst(s, n - 1) + (if IsUpper(s[n - 1]) then 1 else 0)
  }

  /** One underscore is added per upper-case character after the first position. */
  lemma {:induction false} SnakeLength(s: string, n: nat)
    requires n <= |s|
    ensures |SnakePrefix(s, n)| == n + UpperAfterFirst(s, n)
  {
    if n > 0 {
      SnakeLength(s, n - 1);
    }
  }

  /** The snake-case form contains no upper-case character. */
  lemma {:induction false} SnakeIsLower(s: string, n: nat)
    requires n <= |s|
    ensures forall k :: 0 <= k < |SnakePrefix(s, n)| ==> !IsUpper(SnakePrefix(s, n)[k])
  {
    if n > 0 {
      SnakeIsLower(s, n - 1);
      var a, b := SnakePrefix(s, n - 1), SnakeChunk(s, n - 1);
      assert forall k :: 0 <= k < |b| ==> !IsUpper(b[k]);
      assert forall k :: 0 <= k < |a + b| ==> (a + b)[k] == if k < |a| then a[k] else b[k - |a|];
    }
  }

  /** s without any occurrence of the character c. */
  function Without(s: string, c: char): string {
    if s == [] then [] else Without(s[..|s| - 1], c) + (if s[|s| - 1] == c then [] else [s[|s| - 1]])
  }

  lemma {:induction false} WithoutAppend(a: string, b: string, c: char)
    ensures Without(a + b, c) == Without(a, c) + Without(b, c)
    decreases |b|
  {
    if b == [] {
      assert a + b == a;
    } else {
      assert (a + b)[..|a + b| - 1] == a + b[..|b| - 1];
      WithoutAppend(a, b[..|b| - 1], c);
    }
  }

  /**
   * Apart from the underscores, the snake-case form is the lower-cased input:
   * camelToSnake only ever inserts '_' and lowers letters.
   */
  lemma {:induction false} SnakeIsLowerWithUnderscores(s: string, n: nat)
    requires n <= |s|
    ensures Without(SnakePrefix(s, n), '_') == Without(Lower(s[..n]), '_')
  {
    if n > 0 {
      SnakeIsLowerWithUnderscores(s, n - 1);
      var lowered := [LowerChar(s[n - 1])];
      assert Lower(s[..n]) == Lower(s[..n - 1]) + lowered by {
        assert s[..n] == s[..n - 1] + [s[n - 1]];
        LowerAppend(s[..n - 1], [s[n - 1]]);
      }
      WithoutAppend(SnakePrefix(s, n - 1), SnakeChunk(s, n - 1), '_');
      WithoutAppend(Lower(s[..n - 1]), lowered, '_');
      if n - 1 > 0 && IsUpper(s[n - 1]) {
        WithoutAppend("_", lowered, '_');
        assert Without("_", '_') == [] by {
          assert "_"[..0] == [];
        }
      }
    }
  }

  /** The snake-case form of whole strings, as the source's examples give it. */
  lemma SnakeExamples()
    ensures SnakeOf("ABC") == "a_b_c"
    ensures SnakeOf("CreateCourse") == "create_course"
  {
    assert SnakePrefix("ABC", 1) == "a";
    assert SnakePrefix("ABC", 2) == "a_b";
    var cc := "CreateCourse";
    assert SnakePrefix(cc, 1) == "c";
    assert SnakePrefix(cc, 2) == "cr";
    assert SnakePrefix(cc, 3) == "cre";
    assert SnakePrefix(cc, 4) == "crea";
    assert SnakePrefix(cc, 5) == "creat";
    assert SnakePrefix(cc, 6) == "create";
    assert SnakePrefix(cc, 7) == "create_c";
    assert SnakePrefix(cc, 8) == "create_co";
    assert SnakePrefix(cc, 9) == "create_cou";
    assert SnakePrefix(cc, 10) == "create_cour";
    assert SnakePrefix(cc, 11) == "create_cours";
    assert SnakePrefix(cc, 12) == "create_course";
  }

  /** Two different method names that map to the same handler file. */
  lemma SnakeNotInjective()
    ensures "getA" != "Get_a" && SnakeOf("getA") == SnakeOf("Get_a")
  {
    assert SnakePrefix("getA", 3) == "get";
    assert SnakePrefix("Get_a", 4) == "get_";
  }

  // ---------------------------------------------------------------------------
  // toPascalCase

  /** The characters strings.FieldsFunc splits on in toPascalCase. */
  predicate IsSeparator(c: char) {
    c == '_' || c == '-' || IsSpace(c)
  }

  /** The length of the run of non-separators at the start of s. */
  function WordLen(s: string): (n: nat)
    ensures n <= |s|
    ensures forall k :: 0 <= k < n ==> !IsSeparator(s[k])
    ensures n < |s| ==> IsSeparator(s[n])
  {
    if s == [] || IsSeparator(s[0]) then 0 else 1 + WordLen(s[1..])
  }

  /** strings.FieldsFunc(s, IsSeparator): the maximal non-empty runs of non-separators. */
  function Fields(s: string): (ws: seq<string>)
    ensures forall i :: 0 <= i < |ws| ==> |ws[i]| > 0
    ensures forall i, k :: 0 <= i < |ws| && 0 <= k < |ws[i]| ==> !IsSeparator(ws[i][k])
    decreases |s|
  {
    if s == [] then []
    else if IsSeparator(s[0]) then Fields(s[1..])
    else
      var n := WordLen(s);
      [s[..n]] + Fields(s[n..])
  }

  /** A word with its first character upper-cased and the rest lower-cased. */
  function Capitalize(w: string): string {
    if w == [] then [] else [UpperChar(w[0])] + Lower(w[1..])
  }

  /** The pascal-case form of s: its words capitalised and joined. */
  function PascalOf(s: string): string {
    ConcatMap(Capitalize, Fields(s))
  }

  /**
   * toPascalCase: an empty input is returned as is; otherwise each word is written
   * with its first character upper-cased and, if longer, the rest lower-cased.
   */
  method ToPascalCase(s: string) returns (r: string)
    ensures r == PascalOf(s)
  {
    if |s| == 0 {
      return s;
    }
    var words := Fields(s);
    r := "";
    var i := 0;
    while i < |words|
      invariant 0 <= i <= |words|
      invariant r == ConcatMap(Capitalize, words[..i])
    {
      var w := words[i];
      assert words[..i + 1][..i] == words[..i];
      if |w| > 0 {
        r := r + [UpperChar(w[0])];
        if |w| > 1 {
          r := r + Lower(w[1..]);
        }
      }
      i := i + 1;
    }
    assert words[..|words|] == words;
  }

  /** s with every separator removed. */
  function KeepWordChars(s: string): string {
    if s == [] then [] else (if IsSeparator(s[0]) then [] else [s[0]]) + KeepWordChars(s[1..])
  }

  lemma {:induction false} KeepWordCharsAppend(a: string, b: string)
    ensures KeepWordChars(a + b) == KeepWordChars(a) + KeepWordChars(b)
    decreases |a|
  {
    if a != [] {
      assert (a + b)[1..] == a[1..] + b;
      KeepWordCharsAppend(a[1..], b);
    } else {
      assert a + b == b;
    }
  }

  lemma {:induction false} KeepWordCharsOfWord(w: string)
    requires forall k :: 0 <= k < |w| ==> !IsSeparator(w[k])
    ensures KeepWordChars(w) == w
  {
    if w != [] {
      KeepWordCharsOfWord(w[1..]);
    }
  }

  /** The words, joined, are exactly the non-separator characters of s, in order. */
  lemma {:induction false} FieldsCoverWordChars(s: string)
    ensures ConcatMap(Id, Fields(s)) == KeepWordChars(s)
    decreases |s|
  {
    if s == [] {
    } else if IsSeparator(s[0]) {
      FieldsCoverWordChars(s[1..]);
    } else {
      var n := WordLen(s);
      var w, rest := s[..n], s[n..];
      assert Fields(s) == [w] + Fields(rest);
      FieldsCoverWordChars(rest);
      ConcatMapCons(Id, w, Fields(rest));
      assert s == w + rest;
      KeepWordCharsAppend(w, rest);
      KeepWordCharsOfWord(w);
      assert KeepWordChars(s) == w + ConcatMap(Id, Fields(rest));
    }
  }

  lemma LowerCapitalize(w: string)
    ensures Lower(Capitalize(w)) == Lower(w)
  {
    if w != [] {
      LowerAppend([UpperChar(w[0])], Lower(w[1..]));
      LowerIdempotent(w[1..]);
      LowerAppend([w[0]], w[1..]);
      assert w == [w[0]] + w[1..];
    }
  }

  lemma {:induction false} LowerConcatCapitalized(ws: seq<string>)
    ensures Lower(ConcatMap(Capitalize, ws)) == Lower(ConcatMap(Id, ws))
  {
    if ws != [] {
      var init, last := ws[..|ws| - 1], ws[|ws| - 1];
      LowerConcatCapitalized(init);
      LowerAppend(ConcatMap(Capitalize, init), Capitalize(last));
      LowerAppend(ConcatMap(Id, init), last);
      LowerCapitalize(last);
    }
  }

  /**
   * Up to letter case, the pascal-case form is the input with its separators
   * removed; in particular it has as many characters as the input has non-separators.
   */
  lemma PascalIsInputWithoutSeparators(s: string)
    ensures Lower(PascalOf(s)) == Lower(KeepWordChars(s))
    ensures |PascalOf(s)| == |KeepWordChars(s)|
  {
    LowerConcatCapitalized(Fields(s));
    FieldsCoverWordChars(s);
  }

  lemma CapitalizeKeepsWordChars(w: string)
    requires forall k :: 0 <= k < |w| ==> !IsSeparator(w[k])
    ensures forall k :: 0 <= k < |Capitalize(w)| ==> !IsSeparator(Capitalize(w)[k])
  {
    if w != [] {
      var c := Capitalize(w);
      assert forall k :: 1 <= k < |c| ==> c[k] == LowerChar(w[k]);
    }
  }

  lemma {:induction false} CapitalizedWordsHaveNoSeparator(ws: seq<string>)
    requires forall i, k :: 0 <= i < |ws| && 0 <= k < |ws[i]| ==> !IsSeparator(ws[i][k])
    ensures forall k :: 0 <= k < |ConcatMap(Capitalize, ws)| ==> !IsSeparator(ConcatMap(Capitalize, ws)[k])
  {
    if ws != [] {
      var init, last := ws[..|ws| - 1], ws[|ws| - 1];
      CapitalizedWordsHaveNoSeparator(init);
      CapitalizeKeepsWordChars(last);
      var a, b := ConcatMap(Capitalize, init), Capitalize(last);
      assert forall k :: 0 <= k < |a + b| ==> (a + b)[k] == if k < |a| then a[k] else b[k - |a|];
    }
  }

  /** The pascal-case form contains no '_', '-' or white space. */
  lemma PascalHasNoSeparator(s: string)
    ensures forall k :: 0 <= k < |PascalOf(s)| ==> !IsSeparator(PascalOf(s)[k])
  {
    CapitalizedWordsHaveNoSeparator(Fields(s));
  }

  lemma {:induction false} WordLenOfWord(w: string, rest: string)
    requires forall k :: 0 <= k < |w| ==> !IsSeparator(w[k])
    requires rest == [] || IsSeparator(rest[0])
    ensures WordLen(w + rest) == |w|
  {
    if w != [] {
      assert (w + rest)[1..] == w[1..] + rest;
      WordLenOfWord(w[1..], rest);
    } else {
      assert w + rest == rest;
    }
  }

  /** A word followed by a separator is the first field. */
  lemma FieldsOfWordThen(w: string, c: char, rest: string)
    requires |w| > 0 && forall k :: 0 <= k < |w| ==> !IsSeparator(w[k])
    requires IsSeparator(c)
    ensures Fields(w + [c] + rest) == [w] + Fields(rest)
  {
    var s := w + [c] + rest;
    WordLenOfWord(w, [c] + rest);
    assert s == w + ([c] + rest);
    assert s[..|w|] == w;
    assert s[|w|..] == [c] + rest;
    assert ([c] + rest)[1..] == rest;
  }

  /** A single word is one field. */
  lemma FieldsOfWord(w: string)
    requires |w| > 0 && forall k :: 0 <= k < |w| ==> !IsSeparator(w[k])
    ensures Fields(w) == [w]
  {
    WordLenOfWord(w, []);
    assert w + [] == w;
  }

  /** Two words around one separator become the two words capitalised. */
  lemma PascalOfTwoWords(a: string, c: char, b: string)
    requires |a| > 0 && forall k :: 0 <= k < |a| ==> !IsSeparator(a[k])
    requires |b| > 0 && forall k :: 0 <= k < |b| ==> !IsSeparator(b[k])
    requires IsSeparator(c)
    ensures PascalOf(a + [c] + b) == Capitalize(a) + Capitalize(b)
  {
    FieldsOfWordThen(a, c, b);
    FieldsOfWord(b);
    ConcatMapCons(Capitalize, a, [b]);
    ConcatMapCons(Capitalize, b, []);
    assert [b] + [] == [b];
  }

  /** Two lower-case words joined by an underscore: each gets its first letter upper-cased. */
  lemma PascalOfLowerWords(a: string, b: string)
    requires |a| > 0 && forall k :: 0 <= k < |a| ==> 'a' <= a[k] <= 'z'
    requires |b| > 0 && forall k :: 0 <= k < |b| ==> 'a' <= b[k] <= 'z'
    ensures PascalOf(a + ['_'] + b) == [UpperChar(a[0])] + a[1..] + [UpperChar(b[0])] + b[1..]
  {
    PascalOfTwoWords(a, '_', b);
    assert Lower(a[1..]) == a[1..];
    assert Lower(b[1..]) == b[1..];
  }

  /** A name without separators is one word: only its first letter stays upper-case. */
  lemma PascalOfWord(w: string)
    requires |w| > 0 && forall k :: 0 <= k < |w| ==> !IsSeparator(w[k])
    ensures PascalOf(w) == [UpperChar(w[0])] + Lower(w[1..])
  {
    FieldsOfWord(w);
    ConcatMapCons(Capitalize, w, []);
  }

  /** The source's example: words are capitalised and joined. */
  lemma PascalExample()
    ensures PascalOf("course_catalog") == "CourseCatalog"
  {
    PascalOfLowerWords("course", "catalog");
    assert [UpperChar('c')] + "ourse" + [UpperChar('c')] + "atalog" == "CourseCatalog";
    assert "course" + ['_'] + "catalog" == "course_catalog";
  }

  /** An empty name stays empty. */
  lemma PascalOfEmpty()
    ensures PascalOf("") == ""
  {
  }

  /** toPascalCase is not idempotent: an already pascal-cased name loses its inner capitals. */
  lemma PascalNotIdempotent()
    ensures PascalOf("CourseCatalog") == "Coursecatalog"
  {
    assert [UpperChar('C')] + Lower("ourseCatalog") == "Coursecatalog";
    PascalOfWord("CourseCatalog");
  }

  // ---------------------------------------------------------------------------
  // Names derived from a module or method name

  /** strings.ToLower(moduleName): the Go package of a module. */
  function PackageName(moduleName: string): string {
    Lower(moduleName)
  }

  /** The alias of the module's generated protobuf package. */
  function PbPackage(moduleName: string): string {
    PackageName(moduleName) + "pb"
  }

  /** The import path of the module's generated protobuf package. */
  function PbImportPath(targetModule: string, moduleName: string): string {
    targetModule + "/protogen/" + PackageName(moduleName)
  }

  /** The file a handler for the named method is written to. */
  function HandlerFileName(methodName: string): string {
    "rpc_" + SnakeOf(methodName) + ".go"
  }
}
