/** vars.go: the variable store of a .dmake file and its word-by-word
    interpolator. main.go:257-270 declares the same type and method. */
module Vars {
  import opened Text

  /** Vars: variable name to value. */
  type Store = map<string, string>

  /** One word after substitution: `$key` with `key` defined becomes the value
      of `key`; any other word, an undefined `$key` included, is kept. */
  function SubstituteWord(v: Store, w: string): string {
    if w != [] && w[0] == '$' && w[1..] in v then v[w[1..]] else w
  }

  /** Every word substituted on its own, in order. */
  function SubstituteWords(v: Store, ws: seq<string>): (r: seq<string>)
    ensures |r| == |ws|
    ensures forall i :: 0 <= i < |ws| ==> r[i] == SubstituteWord(v, ws[i])
  {
    seq(|ws|, i requires 0 <= i < |ws| => SubstituteWord(v, ws[i]))
  }

  /** What interpolateVarReferences returns: the words of `s`, each substituted
      once, joined by single spaces. */
  function Interpolated(v: Store, s: string): string {
    JoinWith(SubstituteWords(v, Fields(s)), " ")
  }

  /** interpolateVarReferences: split `s` into words, overwrite each `$key`
      word in place, then join. */
  method InterpolateVarReferences(v: Store, s: string) returns (r: string)
    ensures r == Interpolated(v, s)
  {
    var words := Fields(s);
    var a := new string[|words|];
    forall i | 0 <= i < a.Length {
      a[i] := words[i];
    }
    assert a[..] == words;
    SubstituteInPlace(v, a);
    r := JoinWith(a[..], " ");
  }

  /** The loop of interpolateVarReferences over the slice of words. */
  method SubstituteInPlace(v: Store, a: array<string>)
    requires forall i :: 0 <= i < a.Length ==> IsWord(a[i])
    modifies a
    ensures a[..] == SubstituteWords(v, old(a[..]))
  {
    ghost var words := a[..];
    for index := 0 to a.Length
      invariant forall k :: 0 <= k < index ==> a[k] == SubstituteWord(v, words[k])
      invariant forall k :: index <= k < a.Length ==> a[k] == words[k]
    {
      var word := a[index];
      if word[0] == '$' {
        var key := word[1..];
        if key in v {
          a[index] := v[key];
        }
      }
    }
  }

  /** A store whose values are single words. */
  predicate WordValues(v: Store) {
    forall k :: k in v ==> IsWord(v[k])
  }

  /** When every value is a single word, the result has exactly as many words
      as the input, and word i of the result is word i of the input,
      substituted once: values are not scanned again. */
  lemma WordsPreserved(v: Store, s: string)
    requires WordValues(v)
    ensures Fields(Interpolated(v, s)) == SubstituteWords(v, Fields(s))
    ensures |Fields(Interpolated(v, s))| == |Fields(s)|
  {
    var ws := SubstituteWords(v, Fields(s));
    forall i | 0 <= i < |ws|
      ensures IsWord(ws[i])
    {
      assert IsWord(Fields(s)[i]);
    }
    FieldsOfJoin(ws);
  }

  /** Only the words of the input matter: leading, trailing and repeated
      white space give the same result as single spaces. */
  lemma WhitespaceNormalised(v: Store, s: string)
    ensures Interpolated(v, s) == Interpolated(v, JoinWith(Fields(s), " "))
  {
    FieldsJoinFields(s);
  }

  /** With no definitions, the input comes back with its white space
      normalised: undefined `$key` words are kept as they are. */
  lemma UndefinedKept(v: Store, s: string)
    requires forall w :: w in Fields(s) && w[0] == '$' ==> w[1..] !in v
    ensures Interpolated(v, s) == JoinWith(Fields(s), " ")
  {
    var ws := Fields(s);
    forall i | 0 <= i < |ws|
      ensures SubstituteWord(v, ws[i]) == ws[i]
    {
      assert ws[i] in ws;
    }
    assert SubstituteWords(v, ws) == ws;
  }

  /** A word is replaced exactly when it is `$` followed by a defined key. */
  lemma SubstituteWordChanges(v: Store, w: string)
    requires IsWord(w)
    ensures SubstituteWord(v, w) != w ==> w[0] == '$' && w[1..] in v
    ensures w[0] == '$' && w[1..] in v ==> SubstituteWord(v, w) == v[w[1..]]
    ensures (w[0] != '$' || w[1..] !in v) ==> SubstituteWord(v, w) == w
  {
  }

  /** A value that itself looks like a reference is not expanded again. */
  lemma SinglePass(v: Store, key: string, other: string)
    requires key in v && v[key] == "$" + other && other in v && v[other] != v[key]
    ensures SubstituteWord(v, "$" + key) == "$" + other
    ensures SubstituteWord(v, "$" + key) != SubstituteWord(v, SubstituteWord(v, "$" + key))
  {
    assert ("$" + key)[1..] == key;
    assert ("$" + other)[1..] == other;
  }
}
