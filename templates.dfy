/** The prompt template engine (`PromptTemplate` in server/promptUtils.js):
    `{{name}}` placeholders in a text are replaced by values, and the names
    a text uses can be listed and checked against the values supplied. */
module Templates {
  import opened Wrappers
  import opened JsStrings
  import opened JsValues

  /** A template. Its text is fixed when it is constructed. */
  datatype PromptTemplate = PromptTemplate(template: string)

  /** Neither brace occurs in `x`. */
  predicate NoBraces(x: string)
  {
    '{' !in x && '}' !in x
  }

  /** The placeholder `{{key}}`. */
  function Placeholder(key: string): string
  {
    "{{" + key + "}}"
  }

  /** The text a value is replaced by: `value || ''`, turned into a string by
      the replacement. */
  function ReplacementText(v: Json): string
  {
    if Truthy(v) then ToJsString(v) else ""
  }

  // ---------------------------------------------------------------------
  // render
  // ---------------------------------------------------------------------

  /** The text `s` after every placeholder of each variable in turn has been
      replaced, in the order the variables are listed. */
  function Rendered(s: string, vars: seq<(string, Json)>): string
    decreases |vars|
  {
    if vars == [] then s
    else Rendered(ReplaceAll(s, Placeholder(vars[0].0), ReplacementText(vars[0].1)), vars[1..])
  }

  /** `render(variables)`: the entries of `variables` in `Object.entries`
      order, each replacing all of its placeholders. */
  method Render(t: PromptTemplate, variables: seq<(string, Json)>) returns (result: string)
    ensures result == Rendered(t.template, variables)
  {
    result := t.template;
    for i := 0 to |variables|
      invariant Rendered(result, variables[i..]) == Rendered(t.template, variables)
    {
      var (key, value) := variables[i];
      assert variables[i..][1..] == variables[i + 1..];
      result := ReplaceAll(result, Placeholder(key), ReplacementText(value));
    }
    assert variables[|variables|..] == [];
  }

  /** Where a placeholder occurs, a pair of opening braces occurs. */
  lemma PlaceholderOpens(s: string, k: string, i: nat)
    ensures OccursAt(s, Placeholder(k), i) ==> OccursAt(s, "{{", i)
  {
    if OccursAt(s, Placeholder(k), i) {
      assert s[i..i + 2] == s[i..i + |Placeholder(k)|][..2];
    }
  }

  /** A text without `{{` renders to itself, whatever the variables. */
  lemma {:induction false} RenderedWithoutPlaceholders(s: string, vars: seq<(string, Json)>)
    requires !Includes(s, "{{")
    ensures Rendered(s, vars) == s
    decreases |vars|
  {
    if vars != [] {
      var k := vars[0].0;
      forall i: nat | i <= |s|
        ensures !OccursAt(s, Placeholder(k), i)
      {
        PlaceholderOpens(s, k, i);
      }
      ReplaceAllAbsent(s, Placeholder(k), ReplacementText(vars[0].1));
      RenderedWithoutPlaceholders(s, vars[1..]);
    }
  }

  /** Inside `{{key}}` the opening braces are the first two characters and
      the closing braces are the last two. */
  lemma PlaceholderBraces(key: string)
    requires NoBraces(key)
    ensures forall d :: 0 <= d < |Placeholder(key)| ==>
              (Placeholder(key)[d] == '{' <==> d < 2)
    ensures forall d :: 0 <= d < |Placeholder(key)| ==>
              (Placeholder(key)[d] == '}' <==> d >= |key| + 2)
  {
    var p := Placeholder(key);
    forall d | 2 <= d < |key| + 2
      ensures p[d] == key[d - 2]
    {
    }
  }

  /** Two placeholders of brace-free names can only overlap where they are
      the same placeholder. */
  lemma PlaceholdersDisjoint(s: string, k: string, j: string, m: nat, n: nat)
    requires NoBraces(k) && NoBraces(j) && j != ""
    ensures (&& OccursAt(s, Placeholder(k), m) && OccursAt(s, Placeholder(j), n)
             && m < n + |Placeholder(j)| && n < m + |Placeholder(k)|) ==> k == j
  {
    var p, q := Placeholder(k), Placeholder(j);
    if OccursAt(s, p, m) && OccursAt(s, q, n) && m < n + |q| && n < m + |p| {
      PlaceholderBraces(k);
      PlaceholderBraces(j);
      assert forall x :: m <= x < m + |p| ==> s[x] == s[m..m + |p|][x - m] == p[x - m];
      assert forall x :: n <= x < n + |q| ==> s[x] == s[n..n + |q|][x - n] == q[x - n];
      assert s[m] == '{' && s[m + 1] == '{' && s[n] == '{' && s[n + 1] == '{';
      assert m == n;
      assert s[m + |k| + 2] == '}' && s[n + |j| + 2] == '}';
      assert |k| == |j|;
      assert p == s[m..m + |p|] == q;
      assert k == p[2..|k| + 2] && j == q[2..|j| + 2];
    }
  }

  /** A placeholder whose name no variable supplies is still in the rendered
      text, provided the variables' names have no braces. */
  lemma {:induction false} UnsuppliedPlaceholderSurvives(s: string, vars: seq<(string, Json)>, j: string)
    requires NoBraces(j) && j != ""
    requires forall i :: 0 <= i < |vars| ==> NoBraces(vars[i].0) && vars[i].0 != j
    requires Includes(s, Placeholder(j))
    ensures Includes(Rendered(s, vars), Placeholder(j))
    decreases |vars|
  {
    if vars != [] {
      var k := vars[0].0;
      var p, q := Placeholder(k), Placeholder(j);
      var n: nat :| n <= |s| && OccursAt(s, q, n);
      forall m: nat | m < n + |q| && n < m + |p|
        ensures !OccursAt(s, p, m)
      {
        PlaceholdersDisjoint(s, k, j, m, n);
      }
      var v := ReplacementText(vars[0].1);
      ReplaceAllKeepsOccurrence(s, p, v, q, n);
      UnsuppliedPlaceholderSurvives(ReplaceAll(s, p, v), vars[1..], j);
    }
  }

  /** A single placeholder between two texts without `{` is replaced by the
      value's text; a falsy value removes it. */
  lemma RenderOnePlaceholder(t0: string, k: string, v: Json, t1: string)
    requires '{' !in t0 && '{' !in t1
    ensures Rendered(t0 + Placeholder(k) + t1, [(k, v)]) == t0 + ReplacementText(v) + t1
    ensures !Truthy(v) ==> Rendered(t0 + Placeholder(k) + t1, [(k, v)]) == t0 + t1
  {
    var p, w := Placeholder(k), ReplacementText(v);
    assert t0 + p + t1 == t0 + (p + t1);
    ReplaceAllSkipsText(t0, p + t1, p, w);
    assert (p + t1)[..|p|] == p;
    assert (p + t1)[|p|..] == t1;
    forall i: nat | i <= |t1|
      ensures !OccursAt(t1, p, i)
    {
      if i + |p| <= |t1| {
        assert t1[i..i + |p|][0] == t1[i];
      }
    }
    ReplaceAllAbsent(t1, p, w);
    assert [(k, v)][1..] == [];
  }

  /** Every occurrence of one key's placeholder between texts without `{`
      is replaced by the value's text: the global flag of the replace. */
  lemma RenderEveryPlaceholderOfKey(texts: seq<string>, k: string, v: Json)
    requires |texts| >= 1
    requires forall i :: 0 <= i < |texts| ==> '{' !in texts[i]
    ensures Rendered(Join(texts, Placeholder(k)), [(k, v)]) == Join(texts, ReplacementText(v))
  {
    assert Placeholder(k)[0] == '{';
    ReplaceAllJoin(texts, Placeholder(k), ReplacementText(v));
    assert [(k, v)][1..] == [];
  }

  /** A template read as a sequence of pieces: literal text, or the
      placeholder of a key. */
  datatype Piece = Literal(text: string) | Slot(key: string)

  function PieceText(x: Piece): string
  {
    match x
    case Literal(t) => t
    case Slot(k) => Placeholder(k)
  }

  /** The text the pieces spell. */
  function Flatten(ps: seq<Piece>): string
    decreases |ps|
  {
    if ps == [] then "" else PieceText(ps[0]) + Flatten(ps[1..])
  }

  /** Literal text without `{`, and keys that are not empty and have no
      braces (as the `[^}]+` of the variable scan requires). */
  predicate WellFormedPieces(ps: seq<Piece>)
  {
    forall i :: 0 <= i < |ps| ==>
      match ps[i]
      case Literal(t) => '{' !in t
      case Slot(k) => NoBraces(k) && k != ""
  }

  /** The value of `key` among `vars` (the first entry for it). */
  function Lookup(vars: seq<(string, Json)>, key: string): Option<Json>
  {
    if vars == [] then None
    else if vars[0].0 == key then Some(vars[0].1)
    else Lookup(vars[1..], key)
  }

  /** A piece after rendering: a slot whose key is supplied becomes the
      text of its value, every other piece is kept. */
  function Filled(x: Piece, vars: seq<(string, Json)>): Piece
  {
    match x
    case Literal(_) => x
    case Slot(k) =>
      match Lookup(vars, k)
      case None => x
      case Some(v) => Literal(ReplacementText(v))
  }

  function FillSlots(ps: seq<Piece>, vars: seq<(string, Json)>): seq<Piece>
  {
    seq(|ps|, i requires 0 <= i < |ps| => Filled(ps[i], vars))
  }

  /** The placeholder of another brace-free key is copied past unchanged. */
  lemma ReplaceAllSkipsPlaceholder(j: string, rest: string, k: string, w: string)
    requires NoBraces(j) && j != "" && NoBraces(k) && j != k
    ensures ReplaceAll(Placeholder(j) + rest, Placeholder(k), w) == Placeholder(j) + ReplaceAll(rest, Placeholder(k), w)
  {
    var s, p := Placeholder(j) + rest, Placeholder(k);
    var s1, t := s[1..], j + "}}";
    OtherPlaceholderNotAtStart(j, rest, k);
    ReplaceAllStep(s, p, w);
    ReplaceAllStep(s1, p, w);
    assert s1[1..] == t + rest;
    ReplaceAllSkipsText(t, rest, p, w);
    assert Placeholder(j) == [s[0]] + [s1[0]] + t;
  }

  /** Another brace-free key's placeholder starts neither at the first nor
      at the second character of a placeholder. */
  lemma OtherPlaceholderNotAtStart(j: string, rest: string, k: string)
    requires NoBraces(j) && j != "" && NoBraces(k) && j != k
    ensures !OccursAt(Placeholder(j) + rest, Placeholder(k), 0)
    ensures !OccursAt((Placeholder(j) + rest)[1..], Placeholder(k), 0)
  {
    var s, q := Placeholder(j) + rest, Placeholder(j);
    assert OccursAt(s, q, 0) by { assert s[..|q|] == q; }
    PlaceholdersDisjoint(s, k, j, 0, 0);
    PlaceholdersDisjoint(s, k, j, 1, 0);
    OccursInSuffix(s, Placeholder(k), 1, 0);
  }

  /** One well-formed piece in front: it turns into its filled text. */
  lemma ReplaceAllPiece(x: Piece, rest: string, k: string, v: Json)
    requires NoBraces(k)
    requires match x
             case Literal(t) => '{' !in t
             case Slot(j) => NoBraces(j) && j != ""
    ensures ReplaceAll(PieceText(x) + rest, Placeholder(k), ReplacementText(v))
         == PieceText(Filled(x, [(k, v)])) + ReplaceAll(rest, Placeholder(k), ReplacementText(v))
  {
    var p, w := Placeholder(k), ReplacementText(v);
    assert [(k, v)][1..] == [];
    match x
    case Literal(t) =>
      ReplaceAllSkipsText(t, rest, p, w);
    case Slot(j) =>
      if j == k {
        assert (p + rest)[..|p|] == p;
        assert (p + rest)[|p|..] == rest;
      } else {
        assert Lookup([(k, v)], j) == Lookup([], j);
        ReplaceAllSkipsPlaceholder(j, rest, k, w);
      }
  }

  /** Replacing one brace-free key's placeholder in well-formed pieces fills
      exactly the slots of that key. */
  lemma {:induction false} ReplaceAllPieces(ps: seq<Piece>, k: string, v: Json)
    requires WellFormedPieces(ps) && NoBraces(k)
    ensures ReplaceAll(Flatten(ps), Placeholder(k), ReplacementText(v)) == Flatten(FillSlots(ps, [(k, v)]))
    decreases |ps|
  {
    if ps != [] {
      var vs := [(k, v)];
      assert WellFormedPieces(ps[1..]) by {
        forall i | 0 <= i < |ps[1..]| ensures ps[1..][i] == ps[i + 1] { }
      }
      ReplaceAllPieces(ps[1..], k, v);
      ReplaceAllPiece(ps[0], Flatten(ps[1..]), k, v);
      var fs := FillSlots(ps, vs);
      assert fs[0] == Filled(ps[0], vs);
      assert fs[1..] == FillSlots(ps[1..], vs);
    }
  }

  /** Filling with the first variable keeps the pieces well formed when its
      value's text has no `{`. */
  lemma FillKeepsWellFormed(ps: seq<Piece>, k: string, v: Json)
    requires WellFormedPieces(ps) && '{' !in ReplacementText(v)
    ensures WellFormedPieces(FillSlots(ps, [(k, v)]))
  {
    var qs := FillSlots(ps, [(k, v)]);
    assert [(k, v)][1..] == [];
    forall i | 0 <= i < |qs|
      ensures match qs[i]
              case Literal(t) => '{' !in t
              case Slot(j) => NoBraces(j) && j != ""
    {
      if ps[i].Slot? && ps[i].key == k {
        assert qs[i] == Literal(ReplacementText(v));
      } else if ps[i].Slot? {
        assert Lookup([(k, v)], ps[i].key) == Lookup([], ps[i].key);
        assert qs[i] == ps[i];
      } else {
        assert qs[i] == ps[i];
      }
    }
  }

  /** Rendering well-formed pieces replaces every placeholder of each
      supplied key by the text of the key's value and leaves those of other
      keys in place, when the keys have no braces and no value's text has a
      `{`. */
  lemma {:induction false} RenderFillsPlaceholders(ps: seq<Piece>, vars: seq<(string, Json)>)
    requires WellFormedPieces(ps)
    requires forall i :: 0 <= i < |vars| ==> NoBraces(vars[i].0) && '{' !in ReplacementText(vars[i].1)
    ensures Rendered(Flatten(ps), vars) == Flatten(FillSlots(ps, vars))
    decreases |vars|
  {
    if vars == [] {
      assert FillSlots(ps, vars) == ps;
    } else {
      var (k, v) := vars[0];
      ReplaceAllPieces(ps, k, v);
      var qs := FillSlots(ps, [(k, v)]);
      assert [(k, v)][1..] == [];
      FillKeepsWellFormed(ps, k, v);
      RenderFillsPlaceholders(qs, vars[1..]);
      forall i | 0 <= i < |ps|
        ensures Filled(qs[i], vars[1..]) == Filled(ps[i], vars)
      {
        if ps[i].Slot? && ps[i].key == k {
          assert qs[i] == Literal(ReplacementText(v));
        } else if ps[i].Slot? {
          assert Lookup([(k, v)], ps[i].key) == Lookup([], ps[i].key);
          assert qs[i] == ps[i];
          assert Lookup(vars, ps[i].key) == Lookup(vars[1..], ps[i].key);
        }
      }
      assert FillSlots(qs, vars[1..]) == FillSlots(ps, vars);
    }
  }

  /** When every key the pieces use is supplied, the filled text has no
      `{`. */
  lemma {:induction false} FilledHasNoBrace(ps: seq<Piece>, vars: seq<(string, Json)>)
    requires WellFormedPieces(ps)
    requires forall i :: 0 <= i < |vars| ==> '{' !in ReplacementText(vars[i].1)
    requires forall i :: 0 <= i < |ps| && ps[i].Slot? ==> Lookup(vars, ps[i].key).Some?
    ensures '{' !in Flatten(FillSlots(ps, vars))
    decreases |ps|
  {
    if ps != [] {
      var fs := FillSlots(ps, vars);
      assert forall i :: 0 <= i < |ps[1..]| ==> ps[1..][i] == ps[i + 1];
      FilledHasNoBrace(ps[1..], vars);
      assert fs[1..] == FillSlots(ps[1..], vars);
      if ps[0].Slot? {
        LookupBraceFree(vars, ps[0].key);
      }
      assert '{' !in PieceText(fs[0]);
    }
  }

  /** A value found among values whose texts have no `{` has none either. */
  lemma {:induction false} LookupBraceFree(vars: seq<(string, Json)>, key: string)
    requires forall i :: 0 <= i < |vars| ==> '{' !in ReplacementText(vars[i].1)
    ensures Lookup(vars, key).Some? ==> '{' !in ReplacementText(Lookup(vars, key).value)
    decreases |vars|
  {
    if vars != [] && vars[0].0 != key {
      assert forall i :: 0 <= i < |vars[1..]| ==> vars[1..][i] == vars[i + 1];
      LookupBraceFree(vars[1..], key);
    }
  }

  /** When every key the pieces use is supplied, no placeholder is left. */
  lemma RenderLeavesNoPlaceholder(ps: seq<Piece>, vars: seq<(string, Json)>)
    requires WellFormedPieces(ps)
    requires forall i :: 0 <= i < |vars| ==> NoBraces(vars[i].0) && '{' !in ReplacementText(vars[i].1)
    requires forall i :: 0 <= i < |ps| && ps[i].Slot? ==> Lookup(vars, ps[i].key).Some?
    ensures !Includes(Rendered(Flatten(ps), vars), "{{")
  {
    RenderFillsPlaceholders(ps, vars);
    FilledHasNoBrace(ps, vars);
    MissingCharNotIncluded(Rendered(Flatten(ps), vars), "{{", 0);
  }

  // ---------------------------------------------------------------------
  // getVariables and validateVariables
  // ---------------------------------------------------------------------

  /** `s` starts with a match of `\{\{([^}]+)\}\}` that is `n` long: two
      opening braces, at least one character that is not `}`, and two
      closing braces. */
  predicate TokenOfLength(s: string, n: nat)
  {
    && 5 <= n <= |s| && s[0] == '{' && s[1] == '{'
    && '}' !in s[2..n - 2] && s[n - 2] == '}' && s[n - 1] == '}'
  }

  /** The length of the match at the start of `s`, if there is one. The run
      of non-`}` characters stops at the first `}`, so no other length can
      match. */
  function TokenLength(s: string): (r: Option<nat>)
    ensures r.Some? ==> TokenOfLength(s, r.value)
  {
    if |s| < 2 || s[0] != '{' || s[1] != '{' then None
    else
      match IndexOfChar(s[2..], '}')
      case None => None
      case Some(k) =>
        if 1 <= k && k + 3 < |s| && s[k + 3] == '}' then
          assert s[2..k + 2] == s[2..][..k];
          Some(k + 4)
        else None
  }

  /** Every match at the start of `s` is the one `TokenLength` finds. */
  lemma TokenLengthComplete(s: string, n: nat)
    requires TokenOfLength(s, n)
    ensures TokenLength(s) == Some(n)
  {
    var t := s[2..];
    assert t[n - 4] == '}';
    assert t[..n - 4] == s[2..n - 2];
    var k := IndexOfChar(t, '}').value;
    assert forall x :: 0 <= x < n - 4 ==> t[x] == t[..n - 4][x] != '}';
    assert forall x :: 0 <= x < k ==> t[x] == t[..k][x] != '}';
    assert k == n - 4;
  }

  /** The characters of `x` other than braces, in order. */
  function StripBraces(x: string): (r: string)
    ensures NoBraces(r)
    ensures |r| <= |x|
  {
    if x == [] then []
    else (if x[0] == '{' || x[0] == '}' then [] else [x[0]]) + StripBraces(x[1..])
  }

  lemma {:induction false} StripBracesOfBraceFree(x: string)
    requires NoBraces(x)
    ensures StripBraces(x) == x
  {
    if x != [] {
      assert x[0] in x;
      StripBracesOfBraceFree(x[1..]);
      assert x == [x[0]] + x[1..];
    }
  }

  /** The variable names of a text: `template.match(/\{\{([^}]+)\}\}/g)`,
      left to right, with every brace removed from each match. */
  function VariableNames(s: string): (names: seq<string>)
    ensures forall i :: 0 <= i < |names| ==> NoBraces(names[i])
    decreases |s|
  {
    match TokenLength(s)
    case Some(n) => [StripBraces(s[2..n - 2])] + VariableNames(s[n..])
    case None => if s == [] then [] else VariableNames(s[1..])
  }

  /** Text without `{` contributes no variable names. */
  lemma {:induction false} VariablesSkipText(t: string, rest: string)
    requires '{' !in t
    ensures VariableNames(t + rest) == VariableNames(rest)
    decreases |t|
  {
    if t != [] {
      var s := t + rest;
      assert s[0] == t[0];
      assert TokenLength(s) == None;
      assert s[1..] == t[1..] + rest;
      VariablesSkipText(t[1..], rest);
    } else {
      assert t + rest == rest;
    }
  }

  /** A placeholder of a brace-free name contributes exactly that name. */
  lemma VariablesOfPlaceholder(k: string, rest: string)
    requires NoBraces(k) && k != ""
    ensures VariableNames(Placeholder(k) + rest) == [k] + VariableNames(rest)
  {
    var s := Placeholder(k) + rest;
    var n := |k| + 4;
    assert s[2..n - 2] == k;
    assert TokenOfLength(s, n);
    TokenLengthComplete(s, n);
    StripBracesOfBraceFree(k);
    assert s[n..] == rest;
  }

  /** The text `texts[0] {{names[0]}} texts[1] ... {{names[last]}} texts[last]`. */
  function Interleave(texts: seq<string>, names: seq<string>): string
    requires |texts| == |names| + 1
    decreases |names|
  {
    if names == [] then texts[0]
    else texts[0] + Placeholder(names[0]) + Interleave(texts[1..], names[1..])
  }

  /** The variables of an interleaved text are the interleaved names, in
      order and with repetitions, when the texts have no `{` and the names
      no braces. */
  lemma {:induction false} VariablesOfInterleave(texts: seq<string>, names: seq<string>)
    requires |texts| == |names| + 1
    requires forall i :: 0 <= i < |texts| ==> '{' !in texts[i]
    requires forall i :: 0 <= i < |names| ==> NoBraces(names[i]) && names[i] != ""
    ensures VariableNames(Interleave(texts, names)) == names
    decreases |names|
  {
    if names == [] {
      VariablesSkipText(texts[0], []);
      assert texts[0] + [] == texts[0];
      assert TokenLength([]) == None;
    } else {
      var rest := Interleave(texts[1..], names[1..]);
      assert texts[0] + Placeholder(names[0]) + rest == texts[0] + (Placeholder(names[0]) + rest);
      VariablesSkipText(texts[0], Placeholder(names[0]) + rest);
      VariablesOfPlaceholder(names[0], rest);
      VariablesOfInterleave(texts[1..], names[1..]);
    }
  }

  /** Each interleaved name's placeholder occurs in the interleaved text. */
  lemma {:induction false} InterleaveContains(texts: seq<string>, names: seq<string>, i: nat)
    requires |texts| == |names| + 1 && i < |names|
    ensures Includes(Interleave(texts, names), Placeholder(names[i]))
    decreases i
  {
    var rest := Interleave(texts[1..], names[1..]);
    var s := texts[0] + Placeholder(names[0]) + rest;
    if i == 0 {
      assert s[|texts[0]|..|texts[0]| + |Placeholder(names[0])|] == Placeholder(names[0]);
      assert OccursAt(s, Placeholder(names[0]), |texts[0]|);
    } else {
      InterleaveContains(texts[1..], names[1..], i - 1);
      var m: nat :| m <= |rest| && OccursAt(rest, Placeholder(names[i]), m);
      OccursAfterPrefix(texts[0] + Placeholder(names[0]), rest, Placeholder(names[i]), m);
    }
  }

  /** `Object.keys(variables)`. */
  function Keys(vars: seq<(string, Json)>): (keys: seq<string>)
    ensures |keys| == |vars|
    ensures forall i :: 0 <= i < |vars| ==> keys[i] == vars[i].0
  {
    seq(|vars|, i requires 0 <= i < |vars| => vars[i].0)
  }

  /** The names not among `keys`, in their order. */
  function FilterOut(names: seq<string>, keys: seq<string>): (r: seq<string>)
    ensures forall x :: x in r <==> x in names && x !in keys
    ensures |r| <= |names|
  {
    if names == [] then []
    else (if names[0] in keys then [] else [names[0]]) + FilterOut(names[1..], keys)
  }

  /** Filtering keeps the order of the parts it is applied to. */
  lemma {:induction false} FilterOutAppend(a: seq<string>, b: seq<string>, keys: seq<string>)
    ensures FilterOut(a + b, keys) == FilterOut(a, keys) + FilterOut(b, keys)
  {
    if a != [] {
      assert (a + b)[1..] == a[1..] + b;
      FilterOutAppend(a[1..], b, keys);
    } else {
      assert a + b == b;
    }
  }

  /** `validateVariables(variables)`: the template's variable names that no
      key of `variables` supplies. */
  function ValidateVariables(t: PromptTemplate, vars: seq<(string, Json)>): (missing: seq<string>)
    ensures forall x :: x in missing <==> x in VariableNames(t.template) && x !in Keys(vars)
    ensures forall i :: 0 <= i < |missing| ==> NoBraces(missing[i])
  {
    var names := VariableNames(t.template);
    var missing := FilterOut(names, Keys(vars));
    assert forall i :: 0 <= i < |missing| ==> missing[i] in names;
    missing
  }

  /** For an interleaved template, every variable reported missing still has
      its placeholder in the rendered text. */
  lemma MissingVariablesStayUnrendered(texts: seq<string>, names: seq<string>,
                                       vars: seq<(string, Json)>, j: string)
    requires |texts| == |names| + 1
    requires forall i :: 0 <= i < |texts| ==> '{' !in texts[i]
    requires forall i :: 0 <= i < |names| ==> NoBraces(names[i]) && names[i] != ""
    requires forall i :: 0 <= i < |vars| ==> NoBraces(vars[i].0)
    requires j in ValidateVariables(PromptTemplate(Interleave(texts, names)), vars)
    ensures Includes(Rendered(Interleave(texts, names), vars), Placeholder(j))
  {
    var s := Interleave(texts, names);
    VariablesOfInterleave(texts, names);
    var i :| 0 <= i < |names| && names[i] == j;
    InterleaveContains(texts, names, i);
    forall l | 0 <= l < |vars|
      ensures vars[l].0 != j
    {
      assert Keys(vars)[l] == vars[l].0;
    }
    UnsuppliedPlaceholderSurvives(s, vars, j);
  }
}
