/** The prompt template engine: detecting `{{name}}` placeholders, keeping the
    variable records in step with the content, and the two substitution routines
    (the test preview of the editor and the execution screen). */
module Template {
  import opened Model
  import opened Text
  import opened Lists

  // ---------------------------------------------------------------------------
  // Scanning for placeholders with the regular expression \{\{([^}]+)\}\} (global)
  // ---------------------------------------------------------------------------

  /** The regular expression matches at i and its capture is s[i + 2..e]:
      two opening braces, one or more characters other than '}', two closing braces. */
  predicate PlaceholderAt(s: string, i: int, e: int) {
    0 <= i && i + 2 < e && e + 1 < |s|
    && s[i] == '{' && s[i + 1] == '{'
    && (forall k :: i + 2 <= k < e ==> s[k] != '}')
    && s[e] == '}' && s[e + 1] == '}'
  }

  /** The text of a placeholder whose capture is c. */
  function Pattern(c: string): (p: string)
    ensures |p| == |c| + 4 && p != []
  {
    "{{" + c + "}}"
  }

  /** Index of the first '}' at or after j, or |s| when there is none. */
  function CloseBrace(s: string, j: nat): (e: nat)
    requires j <= |s|
    ensures j <= e <= |s|
    ensures forall k :: j <= k < e ==> s[k] != '}'
    ensures e < |s| ==> s[e] == '}'
    decreases |s| - j
  {
    if j == |s| || s[j] == '}' then j else CloseBrace(s, j + 1)
  }

  /** A match starting at i fixes where its capture ends. */
  lemma PlaceholderEndUnique(s: string, i: int, e: int, e': int)
    requires PlaceholderAt(s, i, e) && PlaceholderAt(s, i, e')
    ensures e == e'
  {
    assert s[e] == '}' && s[e'] == '}';
  }

  /** Tries the regular expression at i: the end of the capture, if it matches.
      `[^}]+` is greedy and cannot give back a character that is not '}', so the
      capture runs to the first '}' after the two opening braces. */
  function MatchAt(s: string, i: nat): (m: Option<nat>)
    ensures m.Some? ==> PlaceholderAt(s, i, m.value)
    ensures m.None? ==> forall e :: !PlaceholderAt(s, i, e)
  {
    if i + 1 < |s| && s[i] == '{' && s[i + 1] == '{' then
      var e := CloseBrace(s, i + 2);
      if e > i + 2 && e + 1 < |s| && s[e + 1] == '}' then Some(e)
      else
        MatchAtFails(s, i, e);
        None
    else None
  }

  lemma MatchAtFails(s: string, i: nat, e: nat)
    requires i + 1 < |s| && s[i] == '{' && s[i + 1] == '{' && e == CloseBrace(s, i + 2)
    requires !(e > i + 2 && e + 1 < |s| && s[e + 1] == '}')
    ensures forall f :: !PlaceholderAt(s, i, f)
  {
    forall f ensures !PlaceholderAt(s, i, f) {
      if e < f && e < |s| {
        assert s[e] == '}';
      } else if i + 2 <= f < e {
        assert s[f] != '}';
      }
    }
  }

  /** The captures of the leftmost, non-overlapping matches at or after p, in order:
      what `Array.from(content.matchAll(regex)).map(m => m[1])` yields for p = 0. */
  function CapturesFrom(s: string, p: nat): (cs: seq<string>)
    ensures forall k :: 0 <= k < |cs| ==> cs[k] != [] && '}' !in cs[k]
    decreases |s| - p
  {
    if p >= |s| then []
    else match MatchAt(s, p)
      case Some(e) => CaptureShape(s, p, e); [s[p + 2..e]] + CapturesFrom(s, e + 2)
      case None => CapturesFrom(s, p + 1)
  }

  lemma CaptureShape(s: string, i: int, e: int)
    requires PlaceholderAt(s, i, e)
    ensures s[i + 2..e] != [] && '}' !in s[i + 2..e]
    ensures OccursAt(s, Pattern(s[i + 2..e]), i)
  {
    assert s[i..e + 2] == Pattern(s[i + 2..e]);
  }

  /** No match starts in [p, q). */
  ghost predicate NoMatchBetween(s: string, p: int, q: int) {
    forall j, e :: p <= j < q ==> !PlaceholderAt(s, j, e)
  }

  /** The scan skips positions where nothing matches. */
  lemma {:induction false} CapturesSkip(s: string, p: nat, q: nat)
    requires p <= q && NoMatchBetween(s, p, q)
    ensures CapturesFrom(s, p) == CapturesFrom(s, q)
    decreases q - p
  {
    if p < q {
      if p < |s| {
        assert MatchAt(s, p).None?;
      }
      CapturesSkip(s, p + 1, q);
    }
  }

  /** The first capture comes from the leftmost match, and scanning resumes just
      after that match, so matches never overlap. */
  lemma {:induction false} CapturesLeftmost(s: string, p: nat, i: nat, e: nat)
    requires p <= i && PlaceholderAt(s, i, e) && NoMatchBetween(s, p, i)
    ensures CapturesFrom(s, p) == [s[i + 2..e]] + CapturesFrom(s, e + 2)
  {
    CapturesSkip(s, p, i);
    var m := MatchAt(s, i);
    assert m.Some?;
    PlaceholderEndUnique(s, i, e, m.value);
  }

  /** The placeholder with capture c occurs in s at or after p. */
  ghost predicate OccursFrom(s: string, c: string, p: int) {
    exists i :: p <= i && OccursAt(s, Pattern(c), i)
  }

  /** Every capture is the inside of a placeholder that occurs in s at or after p. */
  lemma {:induction false} CapturesSound(s: string, p: nat)
    ensures forall k :: 0 <= k < |CapturesFrom(s, p)| ==> OccursFrom(s, CapturesFrom(s, p)[k], p)
    decreases |s| - p
  {
    if p < |s| {
      var cs := CapturesFrom(s, p);
      match MatchAt(s, p)
      case Some(e) =>
        CaptureShape(s, p, e);
        CapturesSound(s, e + 2);
        assert cs == [s[p + 2..e]] + CapturesFrom(s, e + 2);
        forall k | 0 <= k < |cs| ensures OccursFrom(s, cs[k], p) {
          if k == 0 {
            assert OccursAt(s, Pattern(cs[0]), p);
          } else {
            assert cs[k] == CapturesFrom(s, e + 2)[k - 1];
            assert OccursFrom(s, cs[k], e + 2);
          }
        }
      case None =>
        CapturesSound(s, p + 1);
        assert cs == CapturesFrom(s, p + 1);
        forall k | 0 <= k < |cs| ensures OccursFrom(s, cs[k], p) {
          assert OccursFrom(s, cs[k], p + 1);
        }
    }
  }

  /** The scan finds nothing exactly when no placeholder starts at or after p. */
  lemma {:induction false} CapturesEmpty(s: string, p: nat)
    ensures CapturesFrom(s, p) == [] <==> NoMatchBetween(s, p, |s|)
    decreases |s| - p
  {
    if p < |s| {
      match MatchAt(s, p)
      case Some(e) =>
      case None =>
        CapturesEmpty(s, p + 1);
    }
  }

  // ---------------------------------------------------------------------------
  // Detected names and the variable records (CreatePromptScreen's effect)
  // ---------------------------------------------------------------------------

  /** Every capture of the content, trimmed: `match[1].trim()`. */
  function TrimmedCaptures(content: string): (ts: seq<string>)
    ensures |ts| == |CapturesFrom(content, 0)|
    ensures forall k :: 0 <= k < |ts| ==> ts[k] == Trim(CapturesFrom(content, 0)[k])
  {
    var cs := CapturesFrom(content, 0);
    seq(|cs|, k requires 0 <= k < |cs| => Trim(cs[k]))
  }

  function Same(x: string): string { x }

  /** `[...new Set(trimmed captures)]`: the variable names the editor detects. */
  function DetectNames(content: string): seq<string>
  {
    DedupBy(TrimmedCaptures(content), Same)
  }

  /** The detected names: no duplicates, each is a trimmed capture, every trimmed
      capture is one of them, they come in order of first appearance, and content
      without a placeholder has none. */
  lemma DetectNamesSpec(content: string)
    ensures forall i, j :: 0 <= i < j < |DetectNames(content)| ==>
      DetectNames(content)[i] != DetectNames(content)[j]
    ensures forall n :: n in DetectNames(content) ==> n in TrimmedCaptures(content)
    ensures forall k :: 0 <= k < |TrimmedCaptures(content)| ==>
      TrimmedCaptures(content)[k] in DetectNames(content)
    ensures InFirstAppearanceOrder(DetectNames(content), TrimmedCaptures(content), Same)
    ensures DetectNames(content) == [] <==> NoMatchBetween(content, 0, |content|)
  {
    var ts := TrimmedCaptures(content);
    var names := DetectNames(content);
    assert names == DedupBy(ts, Same);
    DedupByDistinctKeys(ts, Same);
    assert forall i, j :: 0 <= i < j < |names| ==> Same(names[i]) != Same(names[j]);
    DetectNamesMembers(ts, names);
    DedupByOrdered(ts, Same);
    CapturesEmpty(content, 0);
    if ts != [] {
      assert ts[0] in names;
    }
  }

  /** De-duplication keeps exactly the values of the list, as a set. */
  lemma DetectNamesMembers(ts: seq<string>, names: seq<string>)
    requires names == DedupBy(ts, Same)
    ensures forall n :: n in names ==> n in ts
    ensures forall k :: 0 <= k < |ts| ==> ts[k] in names
  {
    forall n | n in names ensures n in ts { DedupByMembers(ts, Same, n); }
    DedupByCovers(ts, Same);
    forall k | 0 <= k < |ts| ensures ts[k] in names {
      assert Same(ts[k]) in KeysOf(names, Same);
      var i :| 0 <= i < |names| && KeysOf(names, Same)[i] == Same(ts[k]);
      assert names[i] == ts[k];
    }
  }

  /** The record `detectedVariables.find(v => v.name === n)` finds: the first one named n. */
  function FindByName(vs: seq<Variable>, n: string): (r: Option<Variable>)
    ensures r.None? <==> forall i :: 0 <= i < |vs| ==> vs[i].name != n
    ensures r.Some? ==> r.value.name == n
    ensures r.Some? ==>
      exists i :: 0 <= i < |vs| && vs[i] == r.value && forall j :: 0 <= j < i ==> vs[j].name != n
  {
    if vs == [] then None
    else if vs[0].name == n then Some(vs[0])
    else
      var r := FindByName(vs[1..], n);
      assert forall i :: 1 <= i < |vs| ==> vs[i] == vs[1..][i - 1];
      r
  }

  /** The record a newly detected name gets. */
  function Fresh(n: string): Variable {
    Variable(n, Some(""), Some(""), Some(true))
  }

  /** vs has one record per name in names, in the same order. */
  predicate Tracks(vs: seq<Variable>, names: seq<string>) {
    |vs| == |names| && forall i :: 0 <= i < |vs| ==> vs[i].name == names[i]
  }

  /** Every record of r whose name prev knows is prev's first record of that name. */
  predicate KeepsKnown(prev: seq<Variable>, r: seq<Variable>) {
    forall i :: 0 <= i < |r| ==>
      (exists k :: 0 <= k < |prev| && prev[k].name == r[i].name) ==>
        exists k :: 0 <= k < |prev| && prev[k] == r[i] && forall j :: 0 <= j < k ==> prev[j].name != r[i].name
  }

  /** Every record of r whose name prev does not know is a fresh one. */
  predicate FreshForNew(prev: seq<Variable>, r: seq<Variable>) {
    forall i :: 0 <= i < |r| ==>
      (forall k :: 0 <= k < |prev| ==> prev[k].name != r[i].name) ==> r[i] == Fresh(r[i].name)
  }

  /** The variable list after the content changes: one record per detected name, in
      order; a name already known keeps its whole first record, a new one gets a
      fresh required record, and names no longer in the content are dropped. */
  function Rescan(prev: seq<Variable>, content: string): (r: seq<Variable>)
    ensures Tracks(r, DetectNames(content))
  {
    Carry(prev, DetectNames(content))
  }

  /** One record per name: the first one prev has under that name, else a fresh one. */
  function Carry(prev: seq<Variable>, names: seq<string>): (r: seq<Variable>)
    ensures Tracks(r, names)
  {
    seq(|names|, i requires 0 <= i < |names| => FindByName(prev, names[i]).GetOr(Fresh(names[i])))
  }

  /** A name already known keeps its whole first record, a new one gets a fresh record. */
  lemma RescanSpec(prev: seq<Variable>, content: string)
    ensures KeepsKnown(prev, Rescan(prev, content)) && FreshForNew(prev, Rescan(prev, content))
  {
    var names := DetectNames(content);
    var r := Rescan(prev, content);
    assert r == Carry(prev, names);
    forall i | 0 <= i < |r| ensures r[i] == FindByName(prev, names[i]).GetOr(Fresh(names[i])) {
    }
  }

  /** Rescanning the same content again changes nothing. */
  lemma RescanStable(prev: seq<Variable>, content: string)
    ensures Rescan(Rescan(prev, content), content) == Rescan(prev, content)
  {
    var r := Rescan(prev, content);
    var names := DetectNames(content);
    DetectNamesSpec(content);
    var r2 := Rescan(r, content);
    forall i | 0 <= i < |r| ensures r2[i] == r[i] {
      FindOwnRecord(r, names, i);
    }
  }

  /** In a list whose i-th record is named names[i], names being distinct, looking
      up names[i] finds record i. */
  lemma FindOwnRecord(r: seq<Variable>, names: seq<string>, i: int)
    requires |r| == |names| && 0 <= i < |r|
    requires forall k :: 0 <= k < |r| ==> r[k].name == names[k]
    requires forall a, b :: 0 <= a < b < |names| ==> names[a] != names[b]
    ensures FindByName(r, names[i]) == Some(r[i])
  {
    var f := FindByName(r, names[i]);
    assert r[i].name == names[i];
    var k :| 0 <= k < |r| && r[k] == f.value && forall j :: 0 <= j < k ==> r[j].name != names[i];
    assert names[k] == names[i];
  }

  /** The field an edit of the variables panel sets (the panel edits the example,
      the default value and the required flag). */
  datatype Edit =
    | SetExample(example: string)
    | SetDefault(defaultValue: string)
    | SetRequired(required: bool)

  /** `{ ...variable, [field]: value }`: the edited field reads back the new value,
      the others keep theirs. */
  function Apply(v: Variable, edit: Edit): (r: Variable)
    ensures r.name == v.name
    ensures r.example == (if edit.SetExample? then Some(edit.example) else v.example)
    ensures r.defaultValue == (if edit.SetDefault? then Some(edit.defaultValue) else v.defaultValue)
    ensures r.required == (if edit.SetRequired? then Some(edit.required) else v.required)
  {
    match edit
    case SetExample(x) => v.(example := Some(x))
    case SetDefault(d) => v.(defaultValue := Some(d))
    case SetRequired(b) => v.(required := Some(b))
  }

  /** `updateVariable(index, field, value)`: only element `index` is edited; length,
      order and every other element stay, and an index out of range changes nothing. */
  function UpdateVariable(vs: seq<Variable>, index: int, edit: Edit): (r: seq<Variable>)
    ensures |r| == |vs|
    ensures forall names :: Tracks(vs, names) ==> Tracks(r, names)
    ensures forall i :: 0 <= i < |vs| && i != index ==> r[i] == vs[i]
    ensures 0 <= index < |vs| ==> r[index] == Apply(vs[index], edit)
    ensures !(0 <= index < |vs|) ==> r == vs
  {
    seq(|vs|, i requires 0 <= i < |vs| => if i == index then Apply(vs[i], edit) else vs[i])
  }

  // ---------------------------------------------------------------------------
  // Literal replace-all and its partners
  // ---------------------------------------------------------------------------

  /** `s.replace(new RegExp(pat, 'g'), v)` for a pattern with no special characters:
      every leftmost non-overlapping occurrence of pat is replaced by v. */
  function ReplaceAll(s: string, pat: string, v: string): (r: string)
    requires pat != []
    decreases |s|
  {
    if |s| < |pat| then s
    else if s[..|pat|] == pat then v + ReplaceAll(s[|pat|..], pat, v)
    else [s[0]] + ReplaceAll(s[1..], pat, v)
  }

  /** The pieces of s between the occurrences ReplaceAll replaces, in order. */
  function Split(s: string, pat: string): (ps: seq<string>)
    requires pat != []
    ensures |ps| >= 1
    ensures |ps[0]| <= |s| && ps[0] == s[..|ps[0]|]
    decreases |s|
  {
    if |s| < |pat| then [s]
    else if s[..|pat|] == pat then [[]] + Split(s[|pat|..], pat)
    else
      var r := Split(s[1..], pat);
      [[s[0]] + r[0]] + r[1..]
  }

  /** The pieces joined with sep between neighbours. */
  function Join(ps: seq<string>, sep: string): string
    requires |ps| >= 1
  {
    if |ps| == 1 then ps[0] else ps[0] + sep + Join(ps[1..], sep)
  }

  /** Replacing is splitting at the occurrences and joining with the value. */
  lemma {:induction false} ReplaceIsJoin(s: string, pat: string, v: string)
    requires pat != []
    ensures ReplaceAll(s, pat, v) == Join(Split(s, pat), v)
    decreases |s|
  {
    if |s| < |pat| {
    } else if s[..|pat|] == pat {
      ReplaceIsJoin(s[|pat|..], pat, v);
    } else {
      ReplaceIsJoin(s[1..], pat, v);
      JoinExtendFirst(s[0], Split(s[1..], pat), v);
    }
  }

  lemma JoinExtendFirst(c: char, r: seq<string>, sep: string)
    requires |r| >= 1
    ensures Join([[c] + r[0]] + r[1..], sep) == [c] + Join(r, sep)
  {
    var q := [[c] + r[0]] + r[1..];
    if |r| > 1 {
      assert q[1..] == r[1..];
    }
  }

  /** Joining the pieces with the pattern gives s back. */
  lemma {:induction false} SplitJoin(s: string, pat: string)
    requires pat != []
    ensures Join(Split(s, pat), pat) == s
  {
    ReplaceWithItself(s, pat);
    ReplaceIsJoin(s, pat, pat);
  }

  lemma {:induction false} ReplaceWithItself(s: string, pat: string)
    requires pat != []
    ensures ReplaceAll(s, pat, pat) == s
    decreases |s|
  {
    if |s| < |pat| {
    } else if s[..|pat|] == pat {
      ReplaceWithItself(s[|pat|..], pat);
      assert s == s[..|pat|] + s[|pat|..];
    } else {
      ReplaceWithItself(s[1..], pat);
      assert s == [s[0]] + s[1..];
    }
  }

  /** No piece contains the pattern: every occurrence of the pattern in s is
      replaced, none is skipped. */
  lemma {:induction false} SplitPiecesFree(s: string, pat: string)
    requires pat != []
    ensures forall k :: 0 <= k < |Split(s, pat)| ==> !Contains(Split(s, pat)[k], pat)
    decreases |s|
  {
    var ps := Split(s, pat);
    if |s| < |pat| {
    } else if s[..|pat|] == pat {
      SplitPiecesFree(s[|pat|..], pat);
      assert forall k :: 1 <= k < |ps| ==> ps[k] == Split(s[|pat|..], pat)[k - 1];
    } else {
      var r := Split(s[1..], pat);
      SplitPiecesFree(s[1..], pat);
      var x := [s[0]] + r[0];
      assert ps[0] == x;
      forall i | 0 <= i <= |x| - |pat| ensures !OccursAt(x, pat, i) {
        if i == 0 {
          assert x[..|pat|] == s[..|pat|];
        } else {
          assert x[i..i + |pat|] == r[0][i - 1..i - 1 + |pat|];
          assert !OccursAt(r[0], pat, i - 1);
        }
      }
      assert forall k :: 1 <= k < |ps| ==> ps[k] == r[k];
    }
  }

  // ---------------------------------------------------------------------------
  // The two substitution routines
  // ---------------------------------------------------------------------------

  /** Where a substitution takes its values from: the editor's test preview uses the
      examples; the execution screen uses the values the user entered. */
  datatype Fill = Preview | Entered(values: map<string, Option<string>>)

  /** `values[name]`: undefined for a key that is absent. */
  function Lookup(values: map<string, Option<string>>, n: string): (r: Option<string>)
    ensures n in values ==> r == values[n]
    ensures n !in values ==> r.None?
  {
    if n in values then values[n] else None
  }

  /** The replacement for one variable: `example || defaultValue || [name]` for the
      preview, `values[name] || defaultValue || [name]` for the execution; an empty
      string counts as missing, so the value is never empty. */
  function ValueFor(fill: Fill, v: Variable): (r: string)
    ensures r != []
    ensures fill.Preview? && Truthy(v.example) ==> r == v.example.value
    ensures fill.Entered? && Truthy(Lookup(fill.values, v.name)) ==> r == fill.values[v.name].value
    ensures !Truthy(if fill.Preview? then v.example else Lookup(fill.values, v.name)) ==>
      r == (if Truthy(v.defaultValue) then v.defaultValue.value else "[" + v.name + "]")
  {
    var first := if fill.Preview? then v.example else Lookup(fill.values, v.name);
    if Truthy(first) then first.value
    else if Truthy(v.defaultValue) then v.defaultValue.value
    else "[" + v.name + "]"
  }

  /** The content after each variable's pass, in list order (the `forEach` loop). */
  function SubstituteAll(s: string, vars: seq<Variable>, fill: Fill): string
    decreases |vars|
  {
    if vars == [] then s
    else SubstituteAll(ReplaceAll(s, Pattern(vars[0].name), ValueFor(fill, vars[0])), vars[1..], fill)
  }

  /** One pass splits at the variable's placeholder and joins with its value. */
  lemma SubstituteOne(s: string, v: Variable, fill: Fill)
    ensures SubstituteAll(s, [v], fill) == Join(Split(s, Pattern(v.name)), ValueFor(fill, v))
  {
    ReplaceIsJoin(s, Pattern(v.name), ValueFor(fill, v));
  }

  /** The execution never reads `example`: two variable lists that differ only in
      their examples give the same final prompt. */
  lemma {:induction false} ExecutionIgnoresExample(s: string, vars: seq<Variable>, vars': seq<Variable>,
                                                   values: map<string, Option<string>>)
    requires |vars| == |vars'|
    requires forall i :: 0 <= i < |vars| ==> vars'[i] == vars[i].(example := vars'[i].example)
    ensures SubstituteAll(s, vars, Entered(values)) == SubstituteAll(s, vars', Entered(values))
    decreases |vars|
  {
    if vars != [] {
      assert ValueFor(Entered(values), vars[0]) == ValueFor(Entered(values), vars'[0]);
      ExecutionIgnoresExample(ReplaceAll(s, Pattern(vars[0].name), ValueFor(Entered(values), vars[0])),
                              vars[1..], vars'[1..], values);
    }
  }

  /** Detection trims names but substitution does not: `{{ x }}` is detected as `x`
      and is left in place by the pass for `x`. */
  lemma SpacedPlaceholderIsNotReplaced()
    ensures DetectNames("{{ x }}") == ["x"]
    ensures SubstituteAll("{{ x }}", [Fresh("x").(example := Some("A"))], Preview) == "{{ x }}"
  {
    SpacedPlaceholderDetected();
    SpacedPlaceholderKept();
  }

  lemma SpacedPlaceholderDetected()
    ensures DetectNames("{{ x }}") == ["x"]
  {
    SpacedPlaceholderCapture();
    TrimSpacedX();
    assert TrimmedCaptures("{{ x }}") == ["x"];
    assert DedupBy(["x"], Same) == ["x"] by {
      assert ["x"][..0] == [];
    }
  }

  lemma SpacedPlaceholderCapture()
    ensures CapturesFrom("{{ x }}", 0) == [" x "]
  {
    var s := "{{ x }}";
    assert CloseBrace(s, 2) == 5 by {
      assert CloseBrace(s, 5) == 5;
      assert CloseBrace(s, 4) == 5;
      assert CloseBrace(s, 3) == 5;
    }
    assert MatchAt(s, 0) == Some(5);
    assert CapturesFrom(s, 7) == [];
    assert s[2..5] == " x ";
  }

  lemma TrimSpacedX()
    ensures Trim(" x ") == "x"
  {
    assert TrimStart("x ") == "x ";
    assert TrimStart(" x ") == "x ";
    assert "x "[..1] == "x";
    assert TrimEnd("x") == "x";
    assert TrimEnd("x ") == "x";
  }

  lemma SpacedPlaceholderKept()
    ensures SubstituteAll("{{ x }}", [Fresh("x").(example := Some("A"))], Preview) == "{{ x }}"
  {
    var s := "{{ x }}";
    var p := Pattern("x");
    var v := Fresh("x").(example := Some("A"));
    assert ValueFor(Preview, v) == "A";
    assert ReplaceAll(s[3..], p, "A") == s[3..];
    assert s[2..][..5] != p && s[2..][1..] == s[3..];
    assert ReplaceAll(s[2..], p, "A") == s[2..];
    assert s[1..][..5] != p && s[1..][1..] == s[2..];
    assert ReplaceAll(s[1..], p, "A") == s[1..];
    assert s[..5] != p;
    assert ReplaceAll(s, p, "A") == s;
    assert SubstituteAll(s, [v], Preview) == SubstituteAll(s, [], Preview);
  }

  /** Passes run in list order, so a value inserted by an earlier pass can be
      rewritten by a later one. */
  lemma LaterPassRewritesEarlierValue()
    ensures SubstituteAll("{{a}}",
                          [Fresh("a").(example := Some("{{b}}")), Fresh("b").(example := Some("B"))],
                          Preview) == "B"
  {
    var va := Fresh("a").(example := Some("{{b}}"));
    var vb := Fresh("b").(example := Some("B"));
    assert ValueFor(Preview, va) == "{{b}}" && ValueFor(Preview, vb) == "B";
    assert "{{a}}"[..5] == Pattern("a") && "{{a}}"[5..] == "";
    assert ReplaceAll("{{a}}", Pattern("a"), "{{b}}") == "{{b}}" by {
      assert ReplaceAll("", Pattern("a"), "{{b}}") == "";
    }
    assert "{{b}}"[..5] == Pattern("b") && "{{b}}"[5..] == "";
    assert ReplaceAll("{{b}}", Pattern("b"), "B") == "B" by {
      assert ReplaceAll("", Pattern("b"), "B") == "";
    }
    assert [va, vb][1..] == [vb] && [vb][1..] == [];
    assert SubstituteAll("{{a}}", [va, vb], Preview) == SubstituteAll("{{b}}", [vb], Preview);
  }

  /** A capture of spaces only trims to the empty name. */
  lemma BlankPlaceholderGivesEmptyName()
    ensures DetectNames("{{ }}") == [""]
  {
    var s := "{{ }}";
    assert CloseBrace(s, 2) == 3 by { assert CloseBrace(s, 3) == 3; }
    assert MatchAt(s, 0) == Some(3);
    assert CapturesFrom(s, 5) == [];
    assert s[2..3] == " ";
    assert CapturesFrom(s, 0) == [" "];
    assert TrimmedCaptures(s) == [""];
    assert DedupBy([""], Same) == [""];
  }

  // ---------------------------------------------------------------------------
  // The execution screen's pure parts
  // ---------------------------------------------------------------------------

  /** No variable after index i has the same name as vars[i]. */
  predicate LastOfName(vars: seq<Variable>, i: int)
    requires 0 <= i < |vars|
  {
    forall j :: i < j < |vars| ==> vars[j].name != vars[i].name
  }

  /** The initial `variableValues`: the `reduce` that sends each name to its
      `defaultValue` (undefined when it has none); a later variable with the same
      name overrides an earlier one. */
  function InitialValues(vars: seq<Variable>): (m: map<string, Option<string>>)
    ensures forall i :: 0 <= i < |vars| ==> vars[i].name in m
  {
    if vars == [] then map[]
    else
      var front := vars[..|vars| - 1];
      assert forall i :: 0 <= i < |front| ==> front[i] == vars[i];
      InitialValues(front)[vars[|vars| - 1].name := vars[|vars| - 1].defaultValue]
  }

  /** The `reduce` has a key for each variable name and no other, and a name's key
      holds the default value of the last variable with that name. */
  lemma {:induction false} InitialValuesSpec(vars: seq<Variable>)
    ensures forall n :: n in InitialValues(vars) ==> exists i :: 0 <= i < |vars| && vars[i].name == n
    ensures forall i :: 0 <= i < |vars| && LastOfName(vars, i) ==>
      InitialValues(vars)[vars[i].name] == vars[i].defaultValue
  {
    if vars != [] {
      var front := vars[..|vars| - 1];
      var last := vars[|vars| - 1];
      InitialValuesSpec(front);
      assert InitialValues(vars) == InitialValues(front)[last.name := last.defaultValue];
      forall n | n in InitialValues(vars) ensures exists i :: 0 <= i < |vars| && vars[i].name == n {
        if n != last.name {
          var i :| 0 <= i < |front| && front[i].name == n;
          assert vars[i] == front[i];
        }
      }
      forall i | 0 <= i < |vars| && LastOfName(vars, i)
        ensures InitialValues(vars)[vars[i].name] == vars[i].defaultValue
      {
        if i < |vars| - 1 {
          assert vars[i] == front[i];
          assert last.name != vars[i].name;
          forall j | i < j < |front| ensures front[j].name != front[i].name {
            assert front[j] == vars[j];
          }
          assert LastOfName(front, i);
        }
      }
    }
  }

  /** `values[name]?.trim()` is truthy. */
  predicate HasValue(values: map<string, Option<string>>, n: string) {
    Truthy(Lookup(values, n)) && Trim(Lookup(values, n).value) != []
  }

  /** `variables.filter(v => v.required).every(v => values[v.name]?.trim())`. */
  function CanGenerate(vars: seq<Variable>, values: map<string, Option<string>>): (ok: bool)
    ensures ok <==> forall i :: 0 <= i < |vars| && IsRequired(vars[i]) ==> HasValue(values, vars[i].name)
  {
    var req := Filter(vars, IsRequired);
    FilterSpec(vars, IsRequired);
    forall j :: 0 <= j < |req| ==> HasValue(values, req[j].name)
  }

  /** Variables that are not required never affect the gate. */
  lemma CanGenerateOnlyRequired(vars: seq<Variable>, values: map<string, Option<string>>)
    ensures CanGenerate(vars, values) == CanGenerate(Filter(vars, IsRequired), values)
    ensures (forall i :: 0 <= i < |vars| ==> !IsRequired(vars[i])) ==> CanGenerate(vars, values)
  {
    FilterSpec(vars, IsRequired);
    var req := Filter(vars, IsRequired);
    forall j | 0 <= j < |req| ensures IsRequired(req[j]) && req[j] in vars {
      assert req[j] in req;
    }
  }

  /** A field's label: the name with every `_` shown as a space. */
  function FieldLabel(name: string): (shown: string)
    ensures |shown| == |name| && '_' !in shown
    ensures forall i :: 0 <= i < |name| && name[i] != '_' ==> shown[i] == name[i]
  {
    ReplaceChar(name, '_', ' ')
  }
}
