/** The `Vars` store that vars_test.go exercises: SetValue, GetValue,
    GetString, Apply, Interpolate and ReadFromReader. The implementation of
    this API is not part of this model; what is fixed here is what the tests
    assert, and the rest of each operation is a stated modelling choice. */
module VarsApi {
  import opened Wrappers
  import opened Text

  /** The assignment operators `=`, `+=` and `-=`. */
  datatype Op = OpEq | OpPlusEq | OpMinusEq

  /** MakeVar(op, value) */
  datatype Var = Var(op: Op, value: string)

  /** The value of `key`, or "" when it is not defined. */
  function Lookup(m: map<string, string>, key: string): string {
    if key in m then m[key] else ""
  }

  /** The store after Apply(key, v): `=` assigns, `+=` appends literally and
      `-=` deletes every occurrence; an undefined key counts as "". */
  function Applied(m: map<string, string>, key: string, v: Var): (r: map<string, string>)
    ensures r.Keys == m.Keys + {key}
    ensures forall k :: k in m && k != key ==> r[k] == m[k]
  {
    match v.op
    case OpEq => m[key := v.value]
    case OpPlusEq => m[key := Lookup(m, key) + v.value]
    case OpMinusEq => m[key := RemoveAll(Lookup(m, key), v.value)]
  }

  /** `-=` of one character deletes every occurrence of that character and
      nothing else (TestOps removes "A" from "AVAR_VALUE_CVAR_VALUE"). */
  lemma ApplyMinusEqChar(m: map<string, string>, key: string, c: char)
    ensures Applied(m, key, Var(OpMinusEq, [c]))[key] == Without(Lookup(m, key), c)
    ensures c !in Applied(m, key, Var(OpMinusEq, [c]))[key]
    ensures c !in Lookup(m, key) ==> Applied(m, key, Var(OpMinusEq, [c]))[key] == Lookup(m, key)
  {
    RemoveAllChar(Lookup(m, key), c);
    if c !in Lookup(m, key) {
      WithoutAbsent(Lookup(m, key), c);
    }
  }

  /** `+=` keeps the old value as a prefix and adds exactly the new text
      (TestOps appends "_CVAR_VALUE" to "AVAR_VALUE"). */
  lemma ApplyPlusEqExtends(m: map<string, string>, key: string, x: string)
    ensures HasPrefix(Applied(m, key, Var(OpPlusEq, x))[key], Lookup(m, key))
    ensures HasSuffix(Applied(m, key, Var(OpPlusEq, x))[key], x)
    ensures |Applied(m, key, Var(OpPlusEq, x))[key]| == |Lookup(m, key)| + |x|
  {
    var r := Lookup(m, key) + x;
    assert r[..|Lookup(m, key)|] == Lookup(m, key);
    assert r[|r| - |x|..] == x;
  }

  // ---------------------------------------------------------------- Interpolate

  /** Length of the bare variable name that starts `s`: it runs up to the next
      white space or `$`. */
  function NameLen(s: string): (n: nat)
    ensures n <= |s|
    ensures forall i :: 0 <= i < n ==> IsNameChar(s[i])
    ensures n == |s| || !IsNameChar(s[n])
  {
    if s == [] || !IsNameChar(s[0]) then 0 else 1 + NameLen(s[1..])
  }

  predicate IsNameChar(c: char) {
    !IsSpace(c) && c != '$'
  }

  /** `p` in front of a successful result; an error passes through. */
  function Prepend(p: string, r: Result<string, string>): Result<string, string> {
    match r
    case Ok(x) => Ok(p + x)
    case Err(e) => Err(e)
  }

  /** Interpolate, scanning left to right: `$$` is one `$`, `${name}` and a
      bare `$name` are the value of `name` ("" when undefined), other
      characters are copied. A `${` without a closing `}` is an error. */
  function Expand(m: map<string, string>, s: string): (r: Result<string, string>)
    decreases |s|
  {
    if s == [] then Ok("")
    else if s[0] != '$' then Prepend([s[0]], Expand(m, s[1..]))
    else if |s| >= 2 && s[1] == '$' then Prepend("$", Expand(m, s[2..]))
    else if |s| >= 2 && s[1] == '{' then
      var close := IndexOf(s[2..], '}');
      if close < 0 then Err("unterminated variable reference")
      else Prepend(Lookup(m, s[2..2 + close]), Expand(m, s[3 + close..]))
    else
      var n := NameLen(s[1..]);
      Prepend(Lookup(m, s[1..1 + n]), Expand(m, s[1 + n..]))
  }

  lemma PrependTwice(a: string, b: string, r: Result<string, string>)
    ensures Prepend(a, Prepend(b, r)) == Prepend(a + b, r)
  {
    if r.Ok? {
      assert a + (b + r.value) == (a + b) + r.value;
    }
  }

  /** Text without `$` comes back unchanged; in particular "" gives "". */
  lemma {:induction false} ExpandNoDollar(m: map<string, string>, s: string)
    requires '$' !in s
    ensures Expand(m, s) == Ok(s)
    decreases |s|
  {
    if s != [] {
      ExpandNoDollar(m, s[1..]);
      assert [s[0]] + s[1..] == s;
    }
  }

  /** Text without `$` in front of the rest is copied through. */
  lemma {:induction false} ExpandLiteralPrefix(m: map<string, string>, p: string, s: string)
    requires '$' !in p
    ensures Expand(m, p + s) == Prepend(p, Expand(m, s))
    decreases |p|
  {
    if p == [] {
      assert p + s == s;
      assert Prepend(p, Expand(m, s)) == Expand(m, s) by {
        if Expand(m, s).Ok? {
          assert p + Expand(m, s).value == Expand(m, s).value;
        }
      }
    } else {
      assert (p + s)[1..] == p[1..] + s;
      ExpandLiteralPrefix(m, p[1..], s);
      PrependTwice([p[0]], p[1..], Expand(m, s));
      assert [p[0]] + p[1..] == p;
    }
  }

  /** `$$` is one `$`, wherever it appears. */
  lemma ExpandEscape(m: map<string, string>, s: string)
    ensures Expand(m, "$$" + s) == Prepend("$", Expand(m, s))
  {
    assert ("$$" + s)[2..] == s;
  }

  /** The reference `${name}`. */
  function Braced(name: string): string {
    "${" + name + "}"
  }

  /** `${name}` is the value of `name`, "" when undefined. */
  lemma ExpandBraced(m: map<string, string>, name: string, s: string)
    requires '}' !in name
    ensures Expand(m, Braced(name) + s) == Prepend(Lookup(m, name), Expand(m, s))
  {
    var t := Braced(name) + s;
    var u := t[2..];
    assert u == name + "}" + s;
    assert u[|name|] == '}';
    var close := IndexOf(u, '}');
    assert u[..|name|] == name;
    assert close == |name|;
    assert t[2..2 + close] == name;
    assert t[3 + close..] == s;
  }

  /** A `${` that is never closed is an error. */
  lemma ExpandUnterminated(m: map<string, string>, name: string)
    requires '}' !in name
    ensures Expand(m, "${" + name).Err?
  {
    assert ("${" + name)[2..] == name;
  }

  /** A bare name: the characters up to the next white space or `$`. */
  predicate IsBareName(name: string) {
    name != [] && name[0] != '{' && forall i :: 0 <= i < |name| ==> IsNameChar(name[i])
  }

  lemma {:induction false} NameLenOfNameThen(name: string, s: string)
    requires forall i :: 0 <= i < |name| ==> IsNameChar(name[i])
    requires s == [] || !IsNameChar(s[0])
    ensures NameLen(name + s) == |name|
    decreases |name|
  {
    if name == [] {
      assert name + s == s;
    } else {
      assert (name + s)[1..] == name[1..] + s;
      NameLenOfNameThen(name[1..], s);
    }
  }

  /** `$name` is the value of `name`, "" when undefined; the name runs to
      the next white space or `$`. */
  lemma ExpandBare(m: map<string, string>, name: string, s: string)
    requires IsBareName(name)
    requires s == [] || !IsNameChar(s[0])
    ensures Expand(m, "$" + name + s) == Prepend(Lookup(m, name), Expand(m, s))
  {
    var t := "$" + name + s;
    assert t[1..] == name + s;
    NameLenOfNameThen(name, s);
    assert t[1..1 + |name|] == name;
    assert t[1 + |name|..] == s;
  }

  /** TestInterpolate, `$$` cases: `$$` gives one `$` before, after and
      between plain text ("$$", "PREFIX$$", "$$SUFFIX", "PREFIX$$SUFFIX"). */
  lemma InterpolateEscape(m: map<string, string>, p: string, q: string)
    requires '$' !in p && '$' !in q
    ensures Expand(m, p + "$$" + q) == Ok(p + "$" + q)
  {
    assert p + "$$" + q == p + ("$$" + q);
    ExpandLiteralPrefix(m, p, "$$" + q);
    ExpandEscape(m, q);
    ExpandNoDollar(m, q);
    assert p + ("$" + q) == p + "$" + q;
  }

  /** TestInterpolate, undefined keys in braces: "${NOVAR}", "PREFIX${NOVAR}",
      "${NOVAR}SUFFIX" and "PREFIX${NOVAR}SUFFIX" drop the reference. */
  lemma InterpolateUndefinedBraced(m: map<string, string>, p: string, name: string, q: string)
    requires '$' !in p && '$' !in q && '}' !in name && name !in m
    ensures Expand(m, p + Braced(name) + q) == Ok(p + q)
  {
    assert p + Braced(name) + q == p + (Braced(name) + q);
    ExpandLiteralPrefix(m, p, Braced(name) + q);
    ExpandBraced(m, name, q);
    ExpandNoDollar(m, q);
    assert "" + q == q;
  }

  /** TestInterpolate, undefined bare keys: "$NOVAR", "PREFIX$NOVAR" and
      "$NOVARSUFFIX" give the text before the reference; the name runs to the
      end of the word. */
  lemma InterpolateUndefinedBare(m: map<string, string>, p: string, name: string)
    requires '$' !in p && IsBareName(name) && name !in m
    ensures Expand(m, p + "$" + name) == Ok(p)
  {
    assert p + "$" + name == p + ("$" + name + "");
    ExpandLiteralPrefix(m, p, "$" + name + "");
    ExpandBare(m, name, "");
    assert p + ("" + "") == p;
  }

  /** TestInterpolate, defined keys: "${AVAR}", "PREFIX_${AVAR}",
      "${AVAR}_SUFFIX" and "PREFIX_${AVAR}_SUFFIX" put the value in place. */
  lemma InterpolateDefinedBraced(m: map<string, string>, p: string, name: string, q: string)
    requires '$' !in p && '$' !in q && '}' !in name && name in m
    ensures Expand(m, p + Braced(name) + q) == Ok(p + m[name] + q)
  {
    assert p + Braced(name) + q == p + (Braced(name) + q);
    ExpandLiteralPrefix(m, p, Braced(name) + q);
    ExpandBraced(m, name, q);
    ExpandNoDollar(m, q);
    assert p + (m[name] + q) == p + m[name] + q;
  }

  /** TestInterpolate, "PREFIX_${AVAR}_SUFFIX_${AVAR}": every occurrence is
      replaced. */
  lemma InterpolateRepeated(m: map<string, string>, p: string, name: string, q: string)
    requires '$' !in p && '$' !in q && '}' !in name && name in m
    ensures Expand(m, p + Braced(name) + q + Braced(name)) == Ok(p + m[name] + q + m[name])
  {
    var ref := Braced(name);
    var v := m[name];
    assert p + ref + q + ref == p + (ref + (q + ref));
    assert p + (v + (q + v)) == p + v + q + v;
    RepeatedTail(m, name, q);
    LiteralThenOk(m, p, ref + (q + ref), v + (q + v));
  }

  /** `${name}`, plain text, `${name}` again. */
  lemma RepeatedTail(m: map<string, string>, name: string, q: string)
    requires '$' !in q && '}' !in name && name in m
    ensures Expand(m, Braced(name) + (q + Braced(name))) == Ok(m[name] + (q + m[name]))
  {
    var ref := Braced(name);
    var v := m[name];
    ExpandNoDollar(m, "");
    BracedThenOk(m, name, "", "");
    assert ref + "" == ref;
    assert v + "" == v;
    LiteralThenOk(m, q, ref, v);
    BracedThenOk(m, name, q + ref, q + v);
  }

  lemma BracedThenOk(m: map<string, string>, name: string, s: string, x: string)
    requires '}' !in name && Expand(m, s) == Ok(x)
    ensures Expand(m, Braced(name) + s) == Ok(Lookup(m, name) + x)
  {
    ExpandBraced(m, name, s);
  }

  lemma LiteralThenOk(m: map<string, string>, p: string, s: string, x: string)
    requires '$' !in p && Expand(m, s) == Ok(x)
    ensures Expand(m, p + s) == Ok(p + x)
  {
    ExpandLiteralPrefix(m, p, s);
  }

  /** TestInterpolate, more than one variable: "${AVAR}$BVAR" and
      "${AVAR}${BVAR}" both concatenate the two values. */
  lemma InterpolateAdjacent(m: map<string, string>, a: string, b: string)
    requires '}' !in a && '}' !in b && IsBareName(b)
    ensures Expand(m, Braced(a) + "$" + b) == Ok(Lookup(m, a) + Lookup(m, b))
    ensures Expand(m, Braced(a) + Braced(b)) == Ok(Lookup(m, a) + Lookup(m, b))
  {
    ExpandNoDollar(m, "");
    assert Braced(a) + "$" + b == Braced(a) + ("$" + b + "");
    ExpandBraced(m, a, "$" + b + "");
    ExpandBare(m, b, "");
    assert Braced(a) + Braced(b) == Braced(a) + (Braced(b) + "");
    ExpandBraced(m, a, Braced(b) + "");
    ExpandBraced(m, b, "");
    assert Lookup(m, a) + (Lookup(m, b) + "") == Lookup(m, a) + Lookup(m, b);
  }

  // ---------------------------------------------------------------- ReadFromReader

  /** One line of a variables file. */
  datatype Statement =
    | Blank
    | Assignment(key: string, op: Op, value: string)
    | Malformed(message: string)

  /** How one line reads: blank and `#` lines are skipped, a lone name is
      set to "true", `name = value`, `name += value` and `name -= value` are
      assignments; the name must be a single word. */
  function ParseStatement(raw: string): (st: Statement)
    ensures st.Assignment? ==> IsWord(st.key) && '=' !in st.key
    ensures TrimSpace(raw) == [] || TrimSpace(raw)[0] == '#' <==> st == Blank
  {
    var line := TrimSpace(raw);
    if line == [] || line[0] == '#' then Blank
    else
      var index := IndexOf(line, '=');
      if index == -1 then
        if IsWord(line) then Assignment(line, OpEq, "true")
        else Malformed("malformed line, spaces in key")
      else if index == 0 then Malformed("malformed line, no variable name before '='")
      else
        var op := if line[index - 1] == '+' then OpPlusEq
                  else if line[index - 1] == '-' then OpMinusEq
                  else OpEq;
        var end := if op == OpEq then index else index - 1;
        TrimSpaceWithout(line, '=', end, index);
        var key := TrimSpace(line[..end]);
        if IsWord(key) then Assignment(key, op, TrimSpace(line[index + 1..]))
        else Malformed("malformed line, spaces in key")
  }

  /** The store and the error after reading `lines`, the first of which is
      line `lineno + 1`: each value is interpolated against the store as it
      stands, then applied; the first bad line stops the reading. */
  function ReadLines(m: map<string, string>, lines: seq<string>, path: string, lineno: nat)
    : (r: (map<string, string>, Option<string>))
    decreases |lines|
  {
    if lines == [] then (m, None)
    else
      match ParseStatement(lines[0])
      case Blank => ReadLines(m, lines[1..], path, lineno + 1)
      case Malformed(message) => (m, Some(path + ":" + NatToString(lineno + 1) + " - " + message))
      case Assignment(key, op, raw) =>
        match Expand(m, raw)
        case Err(e) => (m, Some(path + ":" + NatToString(lineno + 1) + " - " + e))
        case Ok(value) => ReadLines(Applied(m, key, Var(op, value)), lines[1..], path, lineno + 1)
  }

  /** The names the lines assign to, wherever the reading stops. */
  function AssignedKeys(lines: seq<string>): set<string> {
    if lines == [] then {}
    else
      var st := ParseStatement(lines[0]);
      (if st.Assignment? then {st.key} else {}) + AssignedKeys(lines[1..])
  }

  /** Reading never forgets a variable, and every new variable is named on
      some line. */
  lemma {:induction false} ReadLinesKeys(m: map<string, string>, lines: seq<string>, path: string, lineno: nat)
    ensures m.Keys <= ReadLines(m, lines, path, lineno).0.Keys <= m.Keys + AssignedKeys(lines)
    decreases |lines|
  {
    if lines != [] {
      var st := ParseStatement(lines[0]);
      if st.Blank? {
        ReadLinesKeys(m, lines[1..], path, lineno + 1);
      } else if st.Assignment? && Expand(m, st.value).Ok? {
        var m' := Applied(m, st.key, Var(st.op, Expand(m, st.value).value));
        ReadLinesKeys(m', lines[1..], path, lineno + 1);
      }
    }
  }

  /** A file of blank and comment lines leaves the store alone. */
  lemma {:induction false} ReadLinesSkipsBlank(m: map<string, string>, lines: seq<string>, path: string, lineno: nat)
    requires forall i :: 0 <= i < |lines| ==> ParseStatement(lines[i]) == Blank
    ensures ReadLines(m, lines, path, lineno) == (m, None)
    decreases |lines|
  {
    if lines != [] {
      assert ParseStatement(lines[0]) == Blank;
      ReadLinesSkipsBlank(m, lines[1..], path, lineno + 1);
    }
  }

  /** A line that is a single name sets that name to "true" (the BOOLEAN
      line of TestReadFromFile). */
  lemma BareNameIsTrue(name: string)
    requires IsWord(name) && '=' !in name && name[0] != '#'
    ensures ParseStatement(name) == Assignment(name, OpEq, "true")
  {
    TrimSpaceOfWord(name);
  }

  /** `name = value` with plain words on both sides assigns the value (the
      AVAR line of TestReadFromFile). */
  lemma PlainAssignment(name: string, value: string)
    requires IsWord(name) && '=' !in name && name[0] != '#'
    requires name[|name| - 1] != '+' && name[|name| - 1] != '-'
    requires IsWord(value)
    ensures ParseStatement(name + " = " + value) == Assignment(name, OpEq, value)
  {
    AssignLineShape(name + " = " + value, name, value);
    ParseEqLine(name + " = " + value, |name| + 1);
  }

  lemma AssignLineShape(line: string, name: string, value: string)
    requires IsWord(name) && '=' !in name && name[0] != '#'
    requires name[|name| - 1] != '+' && name[|name| - 1] != '-'
    requires IsWord(value)
    requires line == name + " = " + value
    ensures TrimSpace(line) == line && line != [] && line[0] != '#'
    ensures IndexOf(line, '=') == |name| + 1 && line[|name|] == ' '
    ensures TrimSpace(line[..|name| + 1]) == name && TrimSpace(line[|name| + 2..]) == value
  {
    AssignLineStart(line, name, value);
    AssignLineTrimmed(name, value);
    AssignLineIndex(name, value);
    AssignLineKey(name, value);
    AssignLineValue(name, value);
  }

  lemma AssignLineStart(line: string, name: string, value: string)
    requires IsWord(name) && name[0] != '#'
    requires line == name + " = " + value
    ensures line != [] && line[0] != '#' && line[|name|] == ' '
  {
    assert line[0] == name[0];
  }

  /** The reading of a trimmed line whose first `=` is at `index`, preceded by
      neither `+` nor `-`. */
  lemma ParseEqLine(line: string, index: nat)
    requires TrimSpace(line) == line && line != [] && line[0] != '#'
    requires 0 < index && IndexOf(line, '=') == index
    requires line[index - 1] != '+' && line[index - 1] != '-'
    requires IsWord(TrimSpace(line[..index]))
    ensures ParseStatement(line) == Assignment(TrimSpace(line[..index]), OpEq, TrimSpace(line[index + 1..]))
  {
  }

  lemma AssignLineTrimmed(name: string, value: string)
    requires IsWord(name) && IsWord(value)
    ensures TrimSpace(name + " = " + value) == name + " = " + value
  {
    var line := name + " = " + value;
    assert line[0] == name[0] && line[|line| - 1] == value[|value| - 1];
    TrimSpaceOfEnds(line);
  }

  lemma AssignLineIndex(name: string, value: string)
    requires '=' !in name
    ensures IndexOf(name + " = " + value, '=') == |name| + 1
  {
    IndexAfter(name, " = " + value, '=');
    assert name + " = " + value == name + (" = " + value);
  }

  lemma AssignLineKey(name: string, value: string)
    requires IsWord(name)
    ensures TrimSpace((name + " = " + value)[..|name| + 1]) == name
  {
    var line := name + " = " + value;
    assert line[..|name| + 1] == name + " ";
    TrimSpaceOfWordThenSpace(name, " ");
  }

  lemma AssignLineValue(name: string, value: string)
    requires IsWord(value)
    ensures TrimSpace((name + " = " + value)[|name| + 2..]) == value
  {
    var line := name + " = " + value;
    assert line[|name| + 2..] == " " + value;
    TrimSpaceOfSpaceThenWord(" ", value);
  }

  /** A blank line, or a trimmed line that starts with `#`, is skipped. */
  lemma CommentIsBlank(line: string)
    requires TrimSpace(line) == line && (line == [] || line[0] == '#')
    ensures ParseStatement(line) == Blank
  {
  }

  /** TestReadFromFile: a comment, a blank line, `name = value` (see
      PlainAssignment), a lone `flag` (see BareNameIsTrue), a blank line and
      a comment (see CommentIsBlank) give exactly `name` = value and `flag` =
      "true", with no error. */
  lemma TestReadFromFile(lines: seq<string>, path: string, n: nat, name: string, value: string, flag: string)
    requires |lines| == 6 && '$' !in value && flag != name
    requires ParseStatement(lines[0]) == Blank && ParseStatement(lines[1]) == Blank
    requires ParseStatement(lines[2]) == Assignment(name, OpEq, value)
    requires ParseStatement(lines[3]) == Assignment(flag, OpEq, "true")
    requires ParseStatement(lines[4]) == Blank && ParseStatement(lines[5]) == Blank
    ensures ReadLines(map[], lines, path, n) == (map[name := value, flag := "true"], None)
  {
    var m1 := map[name := value];
    var m2 := map[name := value, flag := "true"];
    ReadSampleFlag(lines[3..], path, n + 3, name, value, flag);
    ExpandNoDollar(map[], value);
    assert Applied(map[], name, Var(OpEq, value)) == m1;
    ReadAssignStep(map[], lines[2..], path, n + 2, value);
    assert lines[2..][1..] == lines[3..];
    ReadBlankStep(map[], lines[1..], path, n + 1);
    assert lines[1..][1..] == lines[2..];
    ReadBlankStep(map[], lines, path, n);
  }

  lemma ReadSampleFlag(lines: seq<string>, path: string, n: nat, name: string, value: string, flag: string)
    requires |lines| == 3 && flag != name
    requires ParseStatement(lines[0]) == Assignment(flag, OpEq, "true")
    requires ParseStatement(lines[1]) == Blank && ParseStatement(lines[2]) == Blank
    ensures ReadLines(map[name := value], lines, path, n) == (map[name := value, flag := "true"], None)
  {
    var m2 := map[name := value, flag := "true"];
    ReadFlagStep(map[name := value], lines, path, n, flag);
    ReadTwoBlank(m2, lines[1..], path, n + 1);
  }

  lemma ReadFlagStep(m: map<string, string>, lines: seq<string>, path: string, lineno: nat, flag: string)
    requires lines != [] && ParseStatement(lines[0]) == Assignment(flag, OpEq, "true")
    ensures ReadLines(m, lines, path, lineno) == ReadLines(m[flag := "true"], lines[1..], path, lineno + 1)
  {
    ExpandNoDollar(m, "true");
    ReadAssignStep(m, lines, path, lineno, "true");
  }

  lemma ReadTwoBlank(m: map<string, string>, lines: seq<string>, path: string, n: nat)
    requires |lines| == 2
    requires ParseStatement(lines[0]) == Blank && ParseStatement(lines[1]) == Blank
    ensures ReadLines(m, lines, path, n) == (m, None)
  {
    assert lines[2..] == [];
    ReadBlankStep(m, lines[1..], path, n + 1);
    assert lines[1..][1..] == lines[2..];
    ReadBlankStep(m, lines, path, n);
  }

  lemma ReadBlankStep(m: map<string, string>, lines: seq<string>, path: string, lineno: nat)
    requires lines != [] && ParseStatement(lines[0]) == Blank
    ensures ReadLines(m, lines, path, lineno) == ReadLines(m, lines[1..], path, lineno + 1)
  {
  }

  lemma ReadAssignStep(m: map<string, string>, lines: seq<string>, path: string, lineno: nat, value: string)
    requires lines != [] && ParseStatement(lines[0]).Assignment?
    requires Expand(m, ParseStatement(lines[0]).value) == Ok(value)
    ensures ReadLines(m, lines, path, lineno)
      == ReadLines(Applied(m, ParseStatement(lines[0]).key, Var(ParseStatement(lines[0]).op, value)), lines[1..], path, lineno + 1)
  {
  }

  // ---------------------------------------------------------------- the store

  /** Vars: a map that the methods below update in place. */
  class Vars {
    var values: map<string, string>

    /** make(Vars) */
    constructor ()
      ensures values == map[]
    {
      values := map[];
    }

    method SetValue(key: string, value: string)
      modifies this
      ensures values == old(values)[key := value]
    {
      values := values[key := value];
    }

    /** The value of `key` and whether it is defined. */
    method GetValue(key: string) returns (value: string, found: bool)
      ensures found <==> key in values
      ensures found ==> value == values[key]
      ensures !found ==> value == ""
    {
      found := key in values;
      value := if found then values[key] else "";
    }

    /** The value of `key`, "" when it is not defined. */
    method GetString(key: string) returns (value: string)
      ensures key in values ==> value == values[key]
      ensures key !in values ==> value == ""
    {
      value := if key in values then values[key] else "";
    }

    method Apply(key: string, v: Var)
      modifies this
      ensures values == Applied(old(values), key, v)
    {
      var current := if key in values then values[key] else "";
      match v.op {
        case OpEq => values := values[key := v.value];
        case OpPlusEq => values := values[key := current + v.value];
        case OpMinusEq => values := values[key := RemoveAll(current, v.value)];
      }
    }

    /** Interpolate against the current values. */
    function Interpolate(s: string): Result<string, string>
      reads this
    {
      Expand(values, s)
    }

    /** ReadFromReader over the lines of the input: line by line, stopping at
        the first bad line with `path:lineno - message`; the lines before it
        stay applied. */
    method ReadFromReader(lines: seq<string>, path: string) returns (err: Option<string>)
      modifies this
      ensures (values, err) == ReadLines(old(values), lines, path, 0)
    {
      var lineno := 0;
      while lineno < |lines|
        invariant 0 <= lineno <= |lines|
        invariant ReadLines(values, lines[lineno..], path, lineno) == ReadLines(old(values), lines, path, 0)
      {
        assert lines[lineno..][1..] == lines[lineno + 1..];
        var st := ParseStatement(lines[lineno]);
        match st {
          case Blank =>
          case Malformed(message) =>
            return Some(path + ":" + NatToString(lineno + 1) + " - " + message);
          case Assignment(key, op, raw) =>
            var expanded := Interpolate(raw);
            if expanded.Err? {
              return Some(path + ":" + NatToString(lineno + 1) + " - " + expanded.error);
            }
            Apply(key, Var(op, expanded.value));
        }
        lineno := lineno + 1;
      }
      assert lines[lineno..] == [];
      return None;
    }
  }
}
