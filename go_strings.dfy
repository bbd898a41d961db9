/**
 * The parts of Go's `strings`, `unicode` and `fmt` packages that the commands rely on,
 * stated over `string` (a sequence of Unicode scalar values).
 */
module GoStrings {

  /** unicode.IsSpace: the Unicode White_Space characters. */
  predicate IsSpace(c: char) {
    c == ' ' || c == '\t' || c == '\n' || c == '\r' || c == '\U{000B}' || c == '\U{000C}'
    || c == '\U{0085}' || c == '\U{00A0}' || c == '\U{1680}'
    || ('\U{2000}' <= c <= '\U{200A}')
    || c == '\U{2028}' || c == '\U{2029}' || c == '\U{202F}' || c == '\U{205F}' || c == '\U{3000}'
  }

  /** unicode.IsUpper, restricted to ASCII letters. */
  predicate IsUpper(c: char) {
    'A' <= c <= 'Z'
  }

  /** unicode.ToLower, restricted to ASCII letters. */
  function LowerChar(c: char): (r: char)
    ensures !IsUpper(r)
    ensures IsUpper(c) <==> r != c
  {
    if IsUpper(c) then (c as int + 32) as char else c
  }

  /** unicode.ToUpper, restricted to ASCII letters. */
  function UpperChar(c: char): (r: char)
    ensures ('a' <= c <= 'z') <==> r != c
    ensures LowerChar(r) == LowerChar(c)
  {
    if 'a' <= c <= 'z' then (c as int - 32) as char else c
  }

  /** strings.ToLower */
  function Lower(s: string): (r: string)
    ensures |r| == |s|
    ensures forall i :: 0 <= i < |s| ==> r[i] == LowerChar(s[i])
  {
    seq(|s|, i requires 0 <= i < |s| => LowerChar(s[i]))
  }

  lemma LowerAppend(a: string, b: string)
    ensures Lower(a + b) == Lower(a) + Lower(b)
  {
  }

  lemma LowerIdempotent(s: string)
    ensures Lower(Lower(s)) == Lower(s)
  {
  }

  /** strings.HasPrefix */
  predicate HasPrefix(s: string, prefix: string) {
    prefix <= s
  }

  /** A prefix of s is a prefix of anything s is extended to. */
  lemma PrefixExtends(s: string, prefix: string, t: string)
    requires HasPrefix(s, prefix)
    ensures HasPrefix(s + t, prefix)
  {
    assert (s + t)[..|prefix|] == s[..|prefix|];
  }

  /** strings.TrimPrefix */
  function TrimPrefix(s: string, prefix: string): (r: string)
    ensures HasPrefix(s, prefix) ==> prefix + r == s
    ensures !HasPrefix(s, prefix) ==> r == s
  {
    if HasPrefix(s, prefix) then s[|prefix|..] else s
  }

  /** The index of the first occurrence of `c` in `s` (strings.IndexByte). */
  function IndexOf(s: string, c: char): (k: nat)
    requires c in s
    ensures k < |s| && s[k] == c && c !in s[..k]
  {
    if s[0] == c then 0 else 1 + IndexOf(s[1..], c)
  }

  /** Text before a `c` that does not occur earlier is found again by IndexOf. */
  lemma IndexOfConcat(a: string, c: char, b: string)
    requires c !in a
    ensures c in a + [c] + b && IndexOf(a + [c] + b, c) == |a|
  {
    var s := a + [c] + b;
    assert s[|a|] == c;
    assert s[..|a|] == a;
    var k := IndexOf(s, c);
    assert forall j :: 0 <= j < k ==> s[..k][j] == s[j];
    assert s[..k] == a[..k];
  }

  /** The number of white-space characters at the front of s. */
  function LeadingSpace(s: string): (n: nat)
    ensures n <= |s|
    ensures forall k :: 0 <= k < n ==> IsSpace(s[k])
    ensures n < |s| ==> !IsSpace(s[n])
  {
    if s == [] || !IsSpace(s[0]) then 0 else 1 + LeadingSpace(s[1..])
  }

  /** Where the text of s[lo..hi] ends once its trailing white space is dropped. */
  function TextEnd(s: string, lo: nat, hi: nat): (e: nat)
    requires lo <= hi <= |s|
    ensures lo <= e <= hi
    ensures forall k :: e <= k < hi ==> IsSpace(s[k])
    ensures e > lo ==> !IsSpace(s[e - 1])
    decreases hi
  {
    if hi == lo || !IsSpace(s[hi - 1]) then hi else TextEnd(s, lo, hi - 1)
  }

  /**
   * strings.TrimSpace: the result is a slice of the input, with only white space
   * cut away on either side, and neither starts nor ends with white space.
   */
  function TrimSpace(s: string): (r: string)
    ensures r == [] || (!IsSpace(r[0]) && !IsSpace(r[|r| - 1]))
    ensures LeadingSpace(s) + |r| <= |s| && r == s[LeadingSpace(s)..LeadingSpace(s) + |r|]
    ensures forall k :: 0 <= k < LeadingSpace(s) ==> IsSpace(s[k])
    ensures forall k :: LeadingSpace(s) + |r| <= k < |s| ==> IsSpace(s[k])
  {
    s[LeadingSpace(s)..TextEnd(s, LeadingSpace(s), |s|)]
  }

  /** A string without surrounding white space is left as it is. */
  lemma TrimSpaceKeeps(s: string)
    requires s == [] || (!IsSpace(s[0]) && !IsSpace(s[|s| - 1]))
    ensures TrimSpace(s) == s
  {
  }

  /** strings.Split(s, sep) for a one-character separator. */
  function Split(s: string, sep: char): (parts: seq<string>)
    ensures |parts| >= 1
    ensures forall i :: 0 <= i < |parts| ==> sep !in parts[i]
    decreases |s|
  {
    if sep !in s then [s]
    else
      var k := IndexOf(s, sep);
      [s[..k]] + Split(s[k + 1..], sep)
  }

  /** strings.Join(parts, sep). */
  function Join(parts: seq<string>, sep: char): string
    requires |parts| >= 1
  {
    if |parts| == 1 then parts[0] else parts[0] + [sep] + Join(parts[1..], sep)
  }

  /** Joining the pieces of a split gives back the text. */
  lemma {:induction false} JoinSplit(s: string, sep: char)
    ensures Join(Split(s, sep), sep) == s
    decreases |s|
  {
    if sep in s {
      var k := IndexOf(s, sep);
      var rest := Split(s[k + 1..], sep);
      var parts := Split(s, sep);
      assert parts == [s[..k]] + rest;
      assert parts[0] == s[..k] && parts[1..] == rest;
      JoinSplit(s[k + 1..], sep);
      assert Join(parts, sep) == s[..k] + [sep] + s[k + 1..];
      assert s == s[..k] + [sep] + s[k + 1..];
    }
  }

  /** Text up to the first separator becomes the first piece of a split. */
  lemma SplitAtFirst(head: string, sep: char, rest: string)
    requires sep !in head
    ensures Split(head + [sep] + rest, sep) == [head] + Split(rest, sep)
  {
    var s := head + [sep] + rest;
    IndexOfConcat(head, sep, rest);
    assert s[..|head|] == head;
    assert s[|head| + 1..] == rest;
  }

  /** Splitting pieces that do not contain the separator gives back the pieces. */
  lemma {:induction false} SplitJoin(parts: seq<string>, sep: char)
    requires |parts| >= 1
    requires forall i :: 0 <= i < |parts| ==> sep !in parts[i]
    ensures Split(Join(parts, sep), sep) == parts
    decreases |parts|
  {
    if |parts| > 1 {
      var tail := parts[1..];
      assert forall i :: 0 <= i < |tail| ==> tail[i] == parts[i + 1];
      SplitAtFirst(parts[0], sep, Join(tail, sep));
      SplitJoin(tail, sep);
      assert parts == [parts[0]] + tail;
    }
  }

  /** `sub` occurs somewhere in `s` (strings.Contains). */
  ghost predicate Infix(sub: string, s: string) {
    exists k :: 0 <= k <= |s| && sub <= s[k..]
  }

  lemma InfixIn(pre: string, sub: string, post: string)
    ensures Infix(sub, pre + sub + post)
  {
    var s := pre + sub + post;
    assert s[|pre|..] == sub + post;
  }

  /** Concatenation of f(x) over xs, in order (a strings.Builder filled in a loop). */
  function ConcatMap<T>(f: T -> string, xs: seq<T>): string {
    if xs == [] then [] else ConcatMap(f, xs[..|xs| - 1]) + f(xs[|xs| - 1])
  }

  lemma {:induction false} ConcatMapAppend<T>(f: T -> string, xs: seq<T>, ys: seq<T>)
    ensures ConcatMap(f, xs + ys) == ConcatMap(f, xs) + ConcatMap(f, ys)
    decreases |ys|
  {
    if ys == [] {
      assert xs + ys == xs;
    } else {
      var ys' := ys[..|ys| - 1];
      assert (xs + ys)[..|xs + ys| - 1] == xs + ys';
      ConcatMapAppend(f, xs, ys');
    }
  }

  lemma {:induction false} ConcatMapCons<T>(f: T -> string, x: T, xs: seq<T>)
    ensures ConcatMap(f, [x] + xs) == f(x) + ConcatMap(f, xs)
  {
    ConcatMapAppend(f, [x], xs);
    assert [x][..0] == [];
  }

  /** The i-th piece sits right after the pieces before it. */
  lemma {:induction false} ConcatMapAt<T>(f: T -> string, xs: seq<T>, i: nat)
    requires i < |xs|
    ensures ConcatMap(f, xs) == ConcatMap(f, xs[..i]) + f(xs[i]) + ConcatMap(f, xs[i + 1..])
  {
    var front, back := xs[..i] + [xs[i]], xs[i + 1..];
    assert xs == front + back;
    ConcatMapAppend(f, front, back);
    assert front[..|front| - 1] == xs[..i];
    assert ConcatMap(f, front) == ConcatMap(f, xs[..i]) + f(xs[i]);
  }

  function Id(w: string): string {
    w
  }

  /** A line of text with its terminating newline. */
  function Line(l: string): string {
    l + "\n"
  }

  /** Text made of the given lines, each terminated by a newline. */
  function UnLines(ls: seq<string>): string {
    ConcatMap(Line, ls)
  }

  /** Newline-terminated lines are the lines joined by newlines, with an empty last piece. */
  lemma {:induction false} UnLinesIsJoin(ls: seq<string>)
    ensures UnLines(ls) == Join(ls + [""], '\n')
    decreases |ls|
  {
    if ls == [] {
      assert ls + [""] == [""];
    } else {
      ConcatMapCons(Line, ls[0], ls[1..]);
      assert ls == [ls[0]] + ls[1..];
      UnLinesIsJoin(ls[1..]);
      assert (ls + [""])[1..] == ls[1..] + [""];
    }
  }

  /** Splitting newline-terminated text at newlines gives back its lines (and an empty tail). */
  lemma SplitUnLines(ls: seq<string>)
    requires forall i :: 0 <= i < |ls| ==> '\n' !in ls[i]
    ensures Split(UnLines(ls), '\n') == ls + [""]
  {
    UnLinesIsJoin(ls);
    SplitJoin(ls + [""], '\n');
  }

  /** Each line sits in the text between the lines before and after it. */
  lemma UnLinesAt(ls: seq<string>, i: nat)
    requires i < |ls|
    ensures UnLines(ls) == UnLines(ls[..i]) + ls[i] + "\n" + UnLines(ls[i + 1..])
  {
    ConcatMapAt(Line, ls, i);
  }

  /** s holds no line break. */
  predicate SingleLine(s: string) {
    '\n' !in s
  }

  lemma SingleLineJoin(a: string, b: string)
    requires SingleLine(a) && SingleLine(b)
    ensures SingleLine(a + b)
  {
  }

  /** Text none of whose characters is a line break is one line. */
  lemma NoLineBreak(s: string)
    requires forall i :: 0 <= i < |s| ==> s[i] != '\n'
    ensures SingleLine(s)
  {
  }

  /** Seven pieces of one line each make one line. */
  lemma SingleLineOfSeven(a: string, b: string, c: string, d: string, e: string, f: string, g: string)
    requires SingleLine(a) && SingleLine(b) && SingleLine(c) && SingleLine(d)
    requires SingleLine(e) && SingleLine(f) && SingleLine(g)
    ensures SingleLine(a + b + c + d + e + f + g)
  {
    SingleLineJoin(a, b);
    SingleLineJoin(a + b, c);
    SingleLineJoin(a + b + c, d);
    SingleLineJoin(a + b + c + d, e);
    SingleLineJoin(a + b + c + d + e, f);
    SingleLineJoin(a + b + c + d + e + f, g);
  }

  /** `l` is a whole line of `text`: it starts the text or follows a newline, and a newline follows it. */
  ghost predicate HasLine(text: string, l: string) {
    SingleLine(l)
    && exists i :: 0 <= i <= |text| && (i == 0 || text[i - 1] == '\n') && l + "\n" <= text[i..]
  }

  /** Newline-terminated text is empty or ends with a newline. */
  lemma UnLinesEnds(ls: seq<string>)
    ensures UnLines(ls) == [] || UnLines(ls)[|UnLines(ls)| - 1] == '\n'
  {
  }

  /** Each single-line element of the list is a whole line of the text. */
  lemma UnLinesHasLine(ls: seq<string>, i: nat)
    requires i < |ls| && SingleLine(ls[i])
    ensures HasLine(UnLines(ls), ls[i])
  {
    UnLinesAt(ls, i);
    var pre := UnLines(ls[..i]);
    UnLinesEnds(ls[..i]);
    var text := UnLines(ls);
    assert text == pre + (ls[i] + "\n" + UnLines(ls[i + 1..]));
    assert text[|pre|..] == ls[i] + "\n" + UnLines(ls[i + 1..]);
    assert |pre| == 0 || text[|pre| - 1] == '\n';
  }

  /** The lines of block follow one another in text, the first of them starting a line. */
  ghost predicate HasBlock(text: string, block: seq<string>) {
    exists i :: 0 <= i <= |text| && (i == 0 || text[i - 1] == '\n') && UnLines(block) <= text[i..]
  }

  /** Consecutive lines of a list are a block of its text. */
  lemma UnLinesHasBlock(ls: seq<string>, i: nat, j: nat)
    requires i <= j <= |ls|
    ensures HasBlock(UnLines(ls), ls[i..j])
  {
    assert ls == ls[..i] + (ls[i..j] + ls[j..]);
    ConcatMapAppend(Line, ls[..i], ls[i..j] + ls[j..]);
    ConcatMapAppend(Line, ls[i..j], ls[j..]);
    var pre := UnLines(ls[..i]);
    UnLinesEnds(ls[..i]);
    var text := UnLines(ls);
    assert text == pre + (UnLines(ls[i..j]) + UnLines(ls[j..]));
    assert text[|pre|..] == UnLines(ls[i..j]) + UnLines(ls[j..]);
    assert |pre| == 0 || text[|pre| - 1] == '\n';
  }

  /** A list's lines are a block of its own text. */
  lemma UnLinesIsBlock(block: seq<string>)
    ensures HasBlock(UnLines(block), block)
  {
    assert UnLines(block) <= UnLines(block)[0..];
  }

  /** A block of some lines stays a block when lines go before them. */
  lemma BlockAfterLines(pre: seq<string>, ls: seq<string>, block: seq<string>)
    requires HasBlock(UnLines(ls), block)
    ensures HasBlock(UnLines(pre + ls), block)
  {
    ConcatMapAppend(Line, pre, ls);
    UnLinesEnds(pre);
    BlockAfterText(UnLines(pre), UnLines(ls), block);
  }

  /** A block stays a block when text ending in a line break goes before it. */
  lemma BlockAfterText(p: string, t: string, block: seq<string>)
    requires p == [] || p[|p| - 1] == '\n'
    requires HasBlock(t, block)
    ensures HasBlock(p + t, block)
  {
    var i :| 0 <= i <= |t| && (i == 0 || t[i - 1] == '\n') && UnLines(block) <= t[i..];
    assert (p + t)[|p| + i..] == t[i..];
    assert |p| + i == 0 || (p + t)[|p| + i - 1] == '\n';
  }

  /** A block of some lines stays a block when lines follow them. */
  lemma BlockBeforeLines(ls: seq<string>, post: seq<string>, block: seq<string>)
    requires HasBlock(UnLines(ls), block)
    ensures HasBlock(UnLines(ls + post), block)
  {
    ConcatMapAppend(Line, ls, post);
    BlockBeforeText(UnLines(ls), UnLines(post), block);
  }

  /** A block stays a block when text follows it. */
  lemma BlockBeforeText(t: string, q: string, block: seq<string>)
    requires HasBlock(t, block)
    ensures HasBlock(t + q, block)
  {
    var i :| 0 <= i <= |t| && (i == 0 || t[i - 1] == '\n') && UnLines(block) <= t[i..];
    assert (t + q)[i..] == t[i..] + q;
    assert i == 0 || (t + q)[i - 1] == '\n';
  }


  /** The first line of a block is a whole line of the text. */
  lemma BlockHasFirstLine(text: string, block: seq<string>)
    requires HasBlock(text, block) && |block| > 0 && SingleLine(block[0])
    ensures HasLine(text, block[0])
  {
    var i :| 0 <= i <= |text| && (i == 0 || text[i - 1] == '\n') && UnLines(block) <= text[i..];
    UnLinesStartsWith(block);
    assert block[0] + "\n" <= text[i..];
  }

  /** Text whose last line is a closing brace ends with that brace and a newline. */
  lemma UnLinesEndsWithBrace(ls: seq<string>)
    requires |ls| > 0 && ls[|ls| - 1] == "}"
    ensures |UnLines(ls)| >= 2 && UnLines(ls)[|UnLines(ls)| - 2..] == "}\n"
  {
    assert UnLines(ls) == UnLines(ls[..|ls| - 1]) + "}\n";
  }

  /** Text starts with the first of its lines. */
  lemma UnLinesStartsWith(ls: seq<string>)
    requires |ls| > 0
    ensures HasPrefix(UnLines(ls), ls[0] + "\n")
  {
    UnLinesAt(ls, 0);
    assert ls[..0] == [];
  }

  lemma LowerSingleLine(s: string)
    requires SingleLine(s)
    ensures SingleLine(Lower(s))
  {
  }

  function DigitValue(c: char): nat
    requires IsDigit(c)
  {
    c as int - '0' as int
  }

  predicate IsDigit(c: char) {
    '0' <= c <= '9'
  }

  /** Text made of a non-empty head of lines and more lines starts with the head's first line. */
  lemma UnLinesStartsWithHead(head: seq<string>, body: seq<string>)
    requires |head| > 0
    ensures HasPrefix(UnLines(head + body), head[0] + "\n")
  {
    UnLinesStartsWith(head);
    ConcatMapAppend(Line, head, body);
  }

  /** The length of the run of decimal digits at the start of s. */
  function DigitRun(s: string): (n: nat)
    ensures n <= |s|
    ensures forall k :: 0 <= k < n ==> IsDigit(s[k])
    ensures n < |s| ==> !IsDigit(s[n])
  {
    if s == [] || !IsDigit(s[0]) then 0 else 1 + DigitRun(s[1..])
  }

  /** The value of a string of decimal digits. */
  function DecimalValue(s: string): nat
    requires forall k :: 0 <= k < |s| ==> IsDigit(s[k])
  {
    if s == [] then 0 else 10 * DecimalValue(s[..|s| - 1]) + DigitValue(s[|s| - 1])
  }

  /** The decimal digits of n (fmt's %d of a natural number). */
  function DecimalString(n: nat): (r: string)
    ensures |r| >= 1
    ensures forall k :: 0 <= k < |r| ==> IsDigit(r[k])
  {
    var d := ['0' + (n % 10) as char];
    if n < 10 then d else DecimalString(n / 10) + d
  }

  lemma {:induction false} DecimalValueOfString(n: nat)
    ensures DecimalValue(DecimalString(n)) == n
  {
    var r := DecimalString(n);
    if n >= 10 {
      DecimalValueOfString(n / 10);
      assert r[..|r| - 1] == DecimalString(n / 10);
    }
  }
}
