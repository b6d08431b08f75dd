/** The parts of Go's `strings` and `strconv` packages that dmake relies on,
    over strings as sequences of characters. */
module Text {

  /** unicode.IsSpace: the Latin-1 spaces, then the other characters with
      Unicode's White_Space property. */
  predicate IsSpace(c: char) {
    if c <= '\U{FF}' then IsLatin1Space(c) else IsWideSpace(c)
  }

  predicate IsLatin1Space(c: char) {
    c == ' ' || ('\t' <= c <= '\r') || c == '\U{85}' || c == '\U{A0}'
  }

  predicate IsWideSpace(c: char) {
    c == '\U{1680}' || ('\U{2000}' <= c <= '\U{200A}') || ('\U{2028}' <= c <= '\U{2029}')
    || c == '\U{202F}' || c == '\U{205F}' || c == '\U{3000}'
  }

  predicate NoSpace(s: string) {
    forall i :: 0 <= i < |s| ==> !IsSpace(s[i])
  }

  predicate AllSpace(s: string) {
    forall i :: 0 <= i < |s| ==> IsSpace(s[i])
  }

  /** strings.TrimLeftFunc(s, unicode.IsSpace) */
  function TrimLeft(s: string): (r: string)
    ensures |r| <= |s| && r == s[|s| - |r|..]
    ensures AllSpace(s[..|s| - |r|])
    ensures r == [] || !IsSpace(r[0])
  {
    if s != [] && IsSpace(s[0]) then
      var r := TrimLeft(s[1..]);
      assert s[..|s| - |r|] == [s[0]] + s[1..][..|s| - 1 - |r|];
      assert s[1..][|s| - 1 - |r|..] == s[|s| - |r|..];
      r
    else s
  }

  /** strings.TrimRightFunc(s, unicode.IsSpace) */
  function TrimRight(s: string): (r: string)
    ensures |r| <= |s| && r == s[..|r|]
    ensures AllSpace(s[|r|..])
    ensures r == [] || !IsSpace(r[|r| - 1])
  {
    if s != [] && IsSpace(s[|s| - 1]) then
      var r := TrimRight(s[..|s| - 1]);
      assert s[|r|..] == s[..|s| - 1][|r|..] + [s[|s| - 1]];
      assert s[..|s| - 1][..|r|] == s[..|r|];
      r
    else s
  }

  /** strings.TrimSpace */
  function TrimSpace(s: string): (r: string)
    ensures |r| <= |s|
    ensures r == [] || (!IsSpace(r[0]) && !IsSpace(r[|r| - 1]))
  {
    TrimRight(TrimLeft(s))
  }

  /** Length of the run of non-space characters that starts `s`. */
  function WordLen(s: string): (n: nat)
    ensures n <= |s| && NoSpace(s[..n])
    ensures n == |s| || IsSpace(s[n])
  {
    if s == [] || IsSpace(s[0]) then 0 else 1 + WordLen(s[1..])
  }

  predicate IsWord(w: string) {
    w != [] && NoSpace(w)
  }

  /** strings.Fields: the maximal runs of non-space characters, in order. */
  function Fields(s: string): (ws: seq<string>)
    ensures forall i :: 0 <= i < |ws| ==> IsWord(ws[i])
    decreases |s|
  {
    var t := TrimLeft(s);
    if t == [] then []
    else
      var n := WordLen(t);
      assert n > 0 by { assert !IsSpace(t[0]); }
      [t[..n]] + Fields(t[n..])
  }

  /** strings.Join */
  function JoinWith(ws: seq<string>, sep: string): string {
    if ws == [] then []
    else if |ws| == 1 then ws[0]
    else ws[0] + sep + JoinWith(ws[1..], sep)
  }

  /** strings.HasPrefix */
  predicate HasPrefix(s: string, p: string) {
    |p| <= |s| && s[..|p|] == p
  }

  /** strings.HasSuffix */
  predicate HasSuffix(s: string, p: string) {
    |p| <= |s| && s[|s| - |p|..] == p
  }

  /** Trimming removes characters and adds none: a character absent from the
      first `m` characters is absent from the trimmed first `n`. */
  lemma TrimSpaceWithout(s: string, c: char, n: nat, m: nat)
    requires n <= m <= |s| && c !in s[..m]
    ensures c !in TrimSpace(s[..n])
  {
    var u := s[..n];
    assert u == s[..m][..n];
    var l := TrimLeft(u);
    assert l == u[|u| - |l|..];
    var r := TrimRight(l);
    assert r == l[..|r|];
  }

  /** Text that starts and ends with a non-space character is already trimmed. */
  lemma TrimSpaceOfEnds(s: string)
    requires s != [] && !IsSpace(s[0]) && !IsSpace(s[|s| - 1])
    ensures TrimSpace(s) == s
  {
  }

  lemma TrimSpaceOfWord(w: string)
    requires IsWord(w)
    ensures TrimSpace(w) == w
  {
    TrimSpaceOfEnds(w);
  }

  lemma {:induction false} TrimRightOfSpaces(w: string, sp: string)
    requires w == [] || !IsSpace(w[|w| - 1])
    requires AllSpace(sp)
    ensures TrimRight(w + sp) == w
    decreases |sp|
  {
    if sp == [] {
      assert w + sp == w;
    } else {
      assert (w + sp)[..|w + sp| - 1] == w + sp[..|sp| - 1];
      TrimRightOfSpaces(w, sp[..|sp| - 1]);
    }
  }

  lemma {:induction false} TrimLeftOfSpaces(sp: string, w: string)
    requires AllSpace(sp)
    requires w == [] || !IsSpace(w[0])
    ensures TrimLeft(sp + w) == w
    decreases |sp|
  {
    if sp == [] {
      assert sp + w == w;
    } else {
      assert (sp + w)[1..] == sp[1..] + w;
      TrimLeftOfSpaces(sp[1..], w);
    }
  }

  /** A word followed by white space trims to the word. */
  lemma TrimSpaceOfWordThenSpace(w: string, sp: string)
    requires IsWord(w) && AllSpace(sp)
    ensures TrimSpace(w + sp) == w
  {
    assert TrimLeft(w + sp) == w + sp;
    TrimRightOfSpaces(w, sp);
  }

  /** White space followed by a word trims to the word. */
  lemma TrimSpaceOfSpaceThenWord(sp: string, w: string)
    requires AllSpace(sp) && IsWord(w)
    ensures TrimSpace(sp + w) == w
  {
    TrimLeftOfSpaces(sp, w);
    TrimSpaceOfEnds(w);
  }

  lemma SuffixOfConcat(a: string, b: string)
    ensures HasSuffix(a + b, b)
  {
    assert (a + b)[|a + b| - |b|..] == b;
  }

  /** strings.TrimSuffix */
  function TrimSuffix(s: string, p: string): (r: string)
    ensures HasSuffix(s, p) ==> r + p == s
    ensures !HasSuffix(s, p) ==> r == s
  {
    if HasSuffix(s, p) then s[..|s| - |p|] else s
  }

  /** strings.Contains */
  predicate Contains(s: string, sub: string)
    decreases |s|
  {
    HasPrefix(s, sub) || (s != [] && Contains(s[1..], sub))
  }

  /** strings.IndexByte: the first index of `c` in `s`, or -1. */
  function IndexOf(s: string, c: char): (r: int)
    ensures -1 <= r < |s|
    ensures r == -1 <==> c !in s
    ensures 0 <= r ==> s[r] == c && c !in s[..r]
  {
    if s == [] then -1
    else if s[0] == c then 0
    else
      var k := IndexOf(s[1..], c);
      assert s[1..][..if k < 0 then 0 else k] == s[1..1 + if k < 0 then 0 else k];
      if k < 0 then -1 else k + 1
  }

  /** The first `c` of `a + b` is the first of `b` when `a` has none. */
  lemma {:induction false} IndexAfter(a: string, b: string, c: char)
    requires c !in a && c in b
    ensures IndexOf(a + b, c) == |a| + IndexOf(b, c)
    decreases |a|
  {
    if a == [] {
      assert a + b == b;
    } else {
      assert (a + b)[1..] == a[1..] + b;
      IndexAfter(a[1..], b, c);
    }
  }

  /** A word, a spaced separator `c` and a word: the whole is its own trim,
      its first `c` follows the first word and a space, and the text on
      either side of it trims to the two words. */
  lemma SpacedPairSplits(key: string, c: char, value: string)
    requires IsWord(key) && c !in key && c != ' ' && IsWord(value)
    ensures var line := key + [' ', c, ' '] + value;
      TrimSpace(line) == line
      && IndexOf(line, c) == |key| + 1
      && TrimSpace(line[..|key| + 1]) == key && TrimSpace(line[|key| + 2..]) == value
  {
    SpacedPairSlices(key, c, value);
    TrimSpaceOfSpacedWords(key, value);
  }

  lemma TrimSpaceOfSpacedWords(key: string, value: string)
    requires IsWord(key) && IsWord(value)
    ensures TrimSpace(key + " ") == key && TrimSpace(" " + value) == value
  {
    assert AllSpace(" ") by { assert " "[0] == ' '; }
    TrimSpaceOfWordThenSpace(key, " ");
    TrimSpaceOfSpaceThenWord(" ", value);
  }

  lemma SpacedPairSlices(key: string, c: char, value: string)
    requires IsWord(key) && c !in key && c != ' ' && IsWord(value)
    ensures var line := key + [' ', c, ' '] + value;
      TrimSpace(line) == line
      && IndexOf(line, c) == |key| + 1
      && line[..|key| + 1] == key + " " && line[|key| + 2..] == " " + value
  {
    var head, tail := key + " ", [c, ' '] + value;
    var line := head + tail;
    assert key + [' ', c, ' '] + value == line;
    assert line[..|key| + 1] == head;
    assert line[|key| + 2..] == " " + value;
    assert !IsSpace(line[0]) by { assert line[0] == key[0]; }
    assert !IsSpace(line[|line| - 1]) by {
      assert line[|line| - 1] == value[|value| - 1];
    }
    TrimSpaceOfEnds(line);
    assert c !in head by { assert head == key + [' ']; }
    IndexAfter(head, tail, c);
    assert IndexOf(tail, c) == 0;
  }

  /** A single word is its own list of fields. */
  lemma FieldsOfWord(w: string)
    requires IsWord(w)
    ensures Fields(w) == [w]
  {
    FieldsOfWordThen(w, []);
    assert w + [] == w;
  }

  /** strings.Replace(s, pat, "", -1): every non-overlapping occurrence of
      `pat`, found left to right, is deleted. */
  function RemoveAll(s: string, pat: string): (r: string)
    ensures |r| <= |s|
    decreases |s|
  {
    if pat == [] || |s| < |pat| then s
    else if s[..|pat|] == pat then RemoveAll(s[|pat|..], pat)
    else [s[0]] + RemoveAll(s[1..], pat)
  }

  /** The characters of `s` that differ from `c`, in order. */
  function Without(s: string, c: char): (r: string)
    ensures c !in r
  {
    if s == [] then [] else (if s[0] == c then [] else [s[0]]) + Without(s[1..], c)
  }

  /** Deleting a one-character pattern deletes exactly that character. */
  lemma {:induction false} RemoveAllChar(s: string, c: char)
    ensures RemoveAll(s, [c]) == Without(s, c)
  {
    if s != [] {
      RemoveAllChar(s[1..], c);
    }
  }

  /** Removing a character that does not occur changes nothing. */
  lemma {:induction false} WithoutAbsent(s: string, c: char)
    requires c !in s
    ensures Without(s, c) == s
  {
    if s != [] {
      assert c !in s[1..];
      WithoutAbsent(s[1..], c);
      assert [s[0]] + s[1..] == s;
    }
  }

  /** A pattern that does not occur is not removed. */
  lemma {:induction false} RemoveAllAbsent(s: string, pat: string)
    requires !Contains(s, pat)
    ensures RemoveAll(s, pat) == s
    decreases |s|
  {
    if pat != [] && |s| >= |pat| {
      RemoveAllAbsent(s[1..], pat);
    }
  }

  /** unicode.ToLower on an ASCII letter; other characters are kept. */
  function LowerAscii(c: char): char {
    if 'A' <= c <= 'Z' then (c as int + 32) as char else c
  }

  /** strings.ToLower, for text whose letters are ASCII. */
  function ToLowerAscii(s: string): (r: string)
    ensures |r| == |s|
    ensures forall i :: 0 <= i < |s| ==> r[i] == LowerAscii(s[i])
  {
    if s == [] then [] else [LowerAscii(s[0])] + ToLowerAscii(s[1..])
  }

  function DigitChar(d: nat): char
    requires d < 10
  {
    "0123456789"[d]
  }

  /** strconv.Itoa for non-negative numbers. */
  function NatToString(n: nat): (r: string)
    ensures r != []
    ensures forall i :: 0 <= i < |r| ==> '0' <= r[i] <= '9'
  {
    if n < 10 then [DigitChar(n)] else NatToString(n / 10) + [DigitChar(n % 10)]
  }

  // ---------------------------------------------------------------- Fields and Join

  lemma FieldsOfSpaceLed(s: string)
    requires s != [] && IsSpace(s[0])
    ensures Fields(s) == Fields(s[1..])
  {
  }

  lemma {:induction false} FieldsOfWordThen(w: string, rest: string)
    requires IsWord(w)
    requires rest == [] || IsSpace(rest[0])
    ensures Fields(w + rest) == [w] + Fields(rest)
  {
    var s := w + rest;
    assert TrimLeft(s) == s;
    WordLenOfWordThen(w, rest);
    assert s[..|w|] == w;
    assert s[|w|..] == rest;
  }

  lemma {:induction false} WordLenOfWordThen(w: string, rest: string)
    requires NoSpace(w)
    requires rest == [] || IsSpace(rest[0])
    ensures WordLen(w + rest) == |w|
    decreases |w|
  {
    if w != [] {
      assert (w + rest)[1..] == w[1..] + rest;
      WordLenOfWordThen(w[1..], rest);
    } else {
      assert w + rest == rest;
    }
  }

  /** Splitting a space-joined list of words gives the words back. */
  lemma {:induction false} FieldsOfJoin(ws: seq<string>)
    requires forall i :: 0 <= i < |ws| ==> IsWord(ws[i])
    ensures Fields(JoinWith(ws, " ")) == ws
  {
    if ws == [] {
    } else if |ws| == 1 {
      FieldsOfWordThen(ws[0], []);
      assert ws[0] + [] == ws[0];
      assert Fields([]) == [];
      assert JoinWith(ws, " ") == ws[0];
    } else {
      var tail := ws[1..];
      assert ws == [ws[0]] + tail;
      forall i | 0 <= i < |tail| ensures IsWord(tail[i]) {
        assert tail[i] == ws[i + 1];
      }
      FieldsOfJoinStep(ws);
      FieldsOfJoin(tail);
      assert Fields(JoinWith(ws, " ")) == [ws[0]] + tail;
    }
  }

  /** The first word of a join splits off. */
  lemma FieldsOfJoinStep(ws: seq<string>)
    requires |ws| >= 2 && IsWord(ws[0])
    ensures Fields(JoinWith(ws, " ")) == [ws[0]] + Fields(JoinWith(ws[1..], " "))
  {
    var spaced := JoinedTail(ws);
    FieldsOfWordThen(ws[0], spaced);
    FieldsOfSpaceLed(spaced);
  }

  /** A join of two or more words is the first word, a space, and the join
      of the rest. */
  lemma JoinedTail(ws: seq<string>) returns (spaced: string)
    requires |ws| >= 2
    ensures JoinWith(ws, " ") == ws[0] + spaced
    ensures spaced != [] && IsSpace(spaced[0]) && spaced[1..] == JoinWith(ws[1..], " ")
  {
    spaced := " " + JoinWith(ws[1..], " ");
    assert spaced[1..] == JoinWith(ws[1..], " ");
  }

  /** Normalising whitespace twice is the same as doing it once. */
  lemma FieldsJoinFields(s: string)
    ensures Fields(JoinWith(Fields(s), " ")) == Fields(s)
  {
    FieldsOfJoin(Fields(s));
  }
}
