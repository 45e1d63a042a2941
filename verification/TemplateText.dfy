/**
 The text that a spec renders to, line by line and said of the spec's own lists (workspacehelper/terraform.go), and
 which changes of its variables the text shows.
 */
module TemplateText {
  import opened Options
  import opened Variables
  import opened Workspace
  import opened Template
  import opened TemplateShapes

  /****** The lines of a text ******/

  /** How many of the first `i` variables are not environment variables. */
  function Ahead(vs: seq<(SpecVariable, Reference)>, i: nat): nat
    requires i <= |vs|
  {
    if i == 0 then 0 else Ahead(vs, i - 1) + (if vs[i - 1].0.environment then 0 else 1)
  }

  predicate OpensWith(lines: seq<string>, organization: string, namespace: string, name: string) {
    && |lines| >= 9
    && lines[0] == "terraform {" && lines[1] == "\t\tbackend \"remote\" {"
    && lines[2] == "\t\t\torganization = \"" + organization + "\"" && lines[3] == "\t"
    && lines[4] == "\t\t\tworkspaces {" && lines[5] == "\t\t\t\tname = \"" + namespace + "-" + name + "\""
    && lines[6] == "\t\t\t}" && lines[7] == "\t\t}" && lines[8] == "\t}"
  }

  /** From line `first` on, in order, one line for each variable that is not an environment variable. */
  predicate Declares(lines: seq<string>, first: nat, vs: seq<(SpecVariable, Reference)>) {
    forall i :: 0 <= i < |vs| && !vs[i].0.environment ==>
        var at := first + Ahead(vs, i); at < |lines| && lines[at] == "\tvariable \"" + vs[i].0.key + "\" {}"
  }

  /** And one argument for each of them. */
  predicate Passes(lines: seq<string>, first: nat, vs: seq<(SpecVariable, Reference)>) {
    forall i :: 0 <= i < |vs| && !vs[i].0.environment ==>
        var at := first + Ahead(vs, i); at < |lines| && lines[at] == "\t\t" + vs[i].0.key + " = var." + vs[i].0.key
  }

  predicate IsOutputAt(lines: seq<string>, at: nat, o: OutputSpec) {
    && at + 3 <= |lines| && lines[at] == "\toutput \"" + o.key + "\" {"
    && lines[at + 1] == "\t\tvalue = module.operator." + o.moduleOutputName && lines[at + 2] == "\t}"
  }

  predicate Outputs(lines: seq<string>, first: nat, outputs: seq<OutputSpec>) {
    forall j :: 0 <= j < |outputs| ==> IsOutputAt(lines, first + 3 * j, outputs[j])
  }

  /** Where the module's arguments begin. */
  function Arguments(m: Module): nat { if m.version == "" then 2 else 3 }

  predicate Opens(lines: seq<string>, at: nat, m: Module) {
    && at + Arguments(m) <= |lines|
    && lines[at] == "\tmodule \"operator\" {" && lines[at + 1] == "\t\tsource = \"" + m.source + "\""
    && (m.version != "" ==> lines[at + 2] == "\t\tversion = \"" + m.version + "\"")
  }

  /** Every line of the text, each at its place, and no others. */
  predicate IsTextOf(lines: seq<string>, spec: Spec, namespace: string, name: string)
    requires spec.mod.Some?
  {
    var n, m := Ahead(spec.variables, |spec.variables|), spec.mod.value;
    var at := 9 + n + 3 * |spec.outputs|;
    && |lines| == at + Arguments(m) + n + 1
    && OpensWith(lines, spec.organization, namespace, name)
    && Declares(lines, 9, spec.variables) && Outputs(lines, 9 + n, spec.outputs)
    && Opens(lines, at, m) && Passes(lines, at + Arguments(m), spec.variables) && lines[|lines| - 1] == "\t}"
  }

  /****** Keys by index ******/

  lemma {:induction false} KeysConcat(a: seq<(SpecVariable, Reference)>, b: seq<(SpecVariable, Reference)>)
    ensures TerraformKeys(a + b) == TerraformKeys(a) + TerraformKeys(b)
    decreases |a|
  {
    if a == [] {
      assert a + b == b;
    } else {
      assert (a + b)[1..] == a[1..] + b;
      KeysConcat(a[1..], b);
    }
  }

  function KeyOf(v: (SpecVariable, Reference)): seq<string> { if v.0.environment then [] else [v.0.key] }

  lemma KeysOfOne(v: (SpecVariable, Reference))
    ensures TerraformKeys([v]) == KeyOf(v)
  {
    assert [v][1..] == [];
  }

  lemma {:induction false} KeysAhead(vs: seq<(SpecVariable, Reference)>, i: nat)
    requires i <= |vs|
    ensures |TerraformKeys(vs[..i])| == Ahead(vs, i)
    decreases i
  {
    if i > 0 {
      KeysAhead(vs, i - 1);
      assert vs[..i] == vs[..i - 1] + [vs[i - 1]];
      KeysConcat(vs[..i - 1], [vs[i - 1]]);
      KeysOfOne(vs[i - 1]);
    }
  }

  lemma SecondPart(a: seq<string>, b: seq<string>, c: seq<string>)
    requires |b| == 1
    ensures |a + (b + c)| > |a| && (a + (b + c))[|a|] == b[0]
  {
  }

  lemma KeyBetween(front: seq<(SpecVariable, Reference)>, v: (SpecVariable, Reference),
                   back: seq<(SpecVariable, Reference)>)
    requires !v.0.environment
    ensures var keys, n := TerraformKeys(front + ([v] + back)), |TerraformKeys(front)|; n < |keys| && keys[n] == v.0.key
  {
    KeysConcat(front, [v] + back);
    KeysConcat([v], back);
    KeysOfOne(v);
    SecondPart(TerraformKeys(front), [v.0.key], TerraformKeys(back));
  }

  lemma KeyAt(vs: seq<(SpecVariable, Reference)>, i: nat)
    requires i < |vs| && !vs[i].0.environment
    ensures Ahead(vs, i) < |TerraformKeys(vs)| && TerraformKeys(vs)[Ahead(vs, i)] == vs[i].0.key
  {
    KeysAhead(vs, i);
    assert vs == vs[..i] + ([vs[i]] + vs[i + 1..]);
    KeyBetween(vs[..i], vs[i], vs[i + 1..]);
  }

  lemma AheadOfAll(vs: seq<(SpecVariable, Reference)>)
    ensures |TerraformKeys(vs)| == Ahead(vs, |vs|)
  {
    KeysAhead(vs, |vs|);
    assert vs[..|vs|] == vs;
  }

  /****** Lines by index ******/

  lemma {:induction false} LinesOfKeys(keys: seq<string>)
    ensures |VariableLines(keys)| == |keys| && |ArgumentLines(keys)| == |keys|
    ensures forall i :: 0 <= i < |keys| ==> VariableLines(keys)[i] == "\tvariable \"" + keys[i] + "\" {}"
    ensures forall i :: 0 <= i < |keys| ==> ArgumentLines(keys)[i] == "\t\t" + keys[i] + " = var." + keys[i]
    decreases |keys|
  {
    if keys != [] {
      LinesOfKeys(keys[1..]);
    }
  }

  lemma {:induction false} LinesOfOutputs(outputs: seq<OutputSpec>, j: nat)
    ensures |OutputLines(outputs)| == 3 * |outputs|
    ensures j < |outputs| ==> IsOutputAt(OutputLines(outputs), 3 * j, outputs[j])
    decreases |outputs|
  {
    if outputs != [] {
      LinesOfOutputs(outputs[1..], if j == 0 then 0 else j - 1);
      OutputBehind(OutputBlock(outputs[0]), OutputLines(outputs[1..]), j, outputs);
    }
  }

  lemma OutputBehind(block: seq<string>, rest: seq<string>, j: nat, outputs: seq<OutputSpec>)
    requires outputs != [] && block == OutputBlock(outputs[0])
    requires 0 < j < |outputs| ==> IsOutputAt(rest, 3 * (j - 1), outputs[1..][j - 1])
    ensures j < |outputs| ==> IsOutputAt(block + rest, 3 * j, outputs[j])
  {
    if 0 < j < |outputs| {
      var at := 3 * (j - 1);
      assert (block + rest)[at + 3] == rest[at];
      assert (block + rest)[at + 4] == rest[at + 1];
      assert (block + rest)[at + 5] == rest[at + 2];
    }
  }

  /** A part of the lines, at its place. */
  predicate PartAt(lines: seq<string>, at: nat, part: seq<string>) {
    at + |part| <= |lines| && forall k :: 0 <= k < |part| ==> lines[at + k] == part[k]
  }

  lemma PartsOf(a: seq<string>, b: seq<string>, c: seq<string>, d: seq<string>, e: seq<string>, lines: seq<string>)
    requires lines == a + (b + c + (d + e + ["\t}"]))
    ensures |lines| == |a| + |b| + |c| + |d| + |e| + 1 && lines[|lines| - 1] == "\t}"
    ensures PartAt(lines, 0, a) && PartAt(lines, |a|, b) && PartAt(lines, |a| + |b|, c)
    ensures PartAt(lines, |a| + |b| + |c|, d) && PartAt(lines, |a| + |b| + |c| + |d|, e)
  {
  }

  lemma DeclaresAt(lines: seq<string>, at: nat, vs: seq<(SpecVariable, Reference)>)
    requires PartAt(lines, at, VariableLines(TerraformKeys(vs)))
    ensures Declares(lines, at, vs)
  {
    var part := VariableLines(TerraformKeys(vs));
    LinesOfKeys(TerraformKeys(vs));
    forall i | 0 <= i < |vs| && !vs[i].0.environment
      ensures at + Ahead(vs, i) < |lines| &&
              lines[at + Ahead(vs, i)] == "\tvariable \"" + vs[i].0.key + "\" {}"
    {
      KeyAt(vs, i);
      assert lines[at + Ahead(vs, i)] == part[Ahead(vs, i)];
    }
  }

  lemma PassesAt(lines: seq<string>, at: nat, vs: seq<(SpecVariable, Reference)>)
    requires PartAt(lines, at, ArgumentLines(TerraformKeys(vs)))
    ensures Passes(lines, at, vs)
  {
    var part := ArgumentLines(TerraformKeys(vs));
    LinesOfKeys(TerraformKeys(vs));
    forall i | 0 <= i < |vs| && !vs[i].0.environment
      ensures at + Ahead(vs, i) < |lines| &&
              lines[at + Ahead(vs, i)] == "\t\t" + vs[i].0.key + " = var." + vs[i].0.key
    {
      KeyAt(vs, i);
      assert lines[at + Ahead(vs, i)] == part[Ahead(vs, i)];
    }
  }

  lemma OutputsAt(lines: seq<string>, at: nat, outputs: seq<OutputSpec>)
    requires PartAt(lines, at, OutputLines(outputs))
    ensures Outputs(lines, at, outputs)
  {
    var part := OutputLines(outputs);
    forall j | 0 <= j < |outputs| ensures IsOutputAt(lines, at + 3 * j, outputs[j]) {
      LinesOfOutputs(outputs, j);
      assert lines[at + 3 * j] == part[3 * j];
      assert lines[at + (3 * j + 1)] == part[3 * j + 1];
      assert lines[at + (3 * j + 2)] == part[3 * j + 2];
    }
  }

  lemma OpensAt(lines: seq<string>, at: nat, m: Module)
    requires PartAt(lines, at, SourceLines(m.source) + VersionLines(m.version))
    ensures Opens(lines, at, m)
  {
    var part := SourceLines(m.source) + VersionLines(m.version);
    assert |part| == Arguments(m);
    assert lines[at + 0] == part[0] && lines[at + 1] == part[1];
    if m.version != "" {
      assert lines[at + 2] == part[2];
    }
  }

  lemma OpensWithHeader(lines: seq<string>, organization: string, namespace: string, name: string)
    requires PartAt(lines, 0, Header(organization, namespace, name))
    ensures OpensWith(lines, organization, namespace, name)
  {
    var header := Header(organization, namespace, name);
    assert lines[0 + 0] == header[0] && lines[0 + 1] == header[1] && lines[0 + 2] == header[2];
    assert lines[0 + 3] == header[3] && lines[0 + 4] == header[4] && lines[0 + 5] == header[5];
    assert lines[0 + 6] == header[6] && lines[0 + 7] == header[7] && lines[0 + 8] == header[8];
  }

  /** The places of the five parts, with `n` variables declared and the module at line `at`. */
  predicate InParts(lines: seq<string>, spec: Spec, namespace: string, name: string, n: nat, at: nat)
    requires spec.mod.Some?
  {
    var keys, m := TerraformKeys(spec.variables), spec.mod.value;
    && |lines| == at + Arguments(m) + n + 1 && lines[|lines| - 1] == "\t}"
    && PartAt(lines, 0, Header(spec.organization, namespace, name)) && PartAt(lines, 9, VariableLines(keys))
    && PartAt(lines, 9 + n, OutputLines(spec.outputs))
    && PartAt(lines, at, SourceLines(m.source) + VersionLines(m.version))
    && PartAt(lines, at + Arguments(m), ArgumentLines(keys))
  }

  lemma LinesOf(spec: Spec, namespace: string, name: string, keys: seq<string>, m: Module)
    requires spec.mod == Some(m) && keys == TerraformKeys(spec.variables)
    ensures Lines(Project(spec), namespace, name) ==
            Header(spec.organization, namespace, name) + (VariableLines(keys) + OutputLines(spec.outputs)
            + ((SourceLines(m.source) + VersionLines(m.version)) + ArgumentLines(keys) + ["\t}"]))
  {
  }

  lemma PartLengths(spec: Spec, namespace: string, name: string, keys: seq<string>, m: Module)
    ensures |Header(spec.organization, namespace, name)| == 9
    ensures |VariableLines(keys)| == |keys| == |ArgumentLines(keys)|
    ensures |OutputLines(spec.outputs)| == 3 * |spec.outputs|
    ensures |SourceLines(m.source) + VersionLines(m.version)| == Arguments(m)
  {
    LinesOfKeys(keys);
    LinesOfOutputs(spec.outputs, 0);
  }

  lemma LinesInParts(spec: Spec, namespace: string, name: string, keys: seq<string>, m: Module, lines: seq<string>)
    requires spec.mod == Some(m) && keys == TerraformKeys(spec.variables)
    requires lines == Lines(Project(spec), namespace, name)
    ensures InParts(lines, spec, namespace, name, |keys|, 9 + |keys| + 3 * |spec.outputs|)
  {
    PartLengths(spec, namespace, name, keys, m);
    LinesOf(spec, namespace, name, keys, m);
    PartsOf(Header(spec.organization, namespace, name), VariableLines(keys), OutputLines(spec.outputs),
            SourceLines(m.source) + VersionLines(m.version), ArgumentLines(keys), lines);
  }

  /** The text has, in order, exactly one declaration and one argument for every variable that is not an environment
      variable, three lines for every output, and the module. */
  lemma TextIsOf(spec: Spec, namespace: string, name: string) returns (lines: seq<string>)
    requires spec.mod.Some?
    ensures IsTextOf(lines, spec, namespace, name) && lines != []
    ensures Render(spec, namespace, name) == Some(Join(lines))
  {
    lines := Lines(Project(spec), namespace, name);
    var n := Ahead(spec.variables, |spec.variables|);
    AheadOfAll(spec.variables);
    LinesInParts(spec, namespace, name, TerraformKeys(spec.variables), spec.mod.value, lines);
    PartsMakeTheText(lines, spec, namespace, name, n, 9 + n + 3 * |spec.outputs|);
  }

  lemma PartsMakeTheText(lines: seq<string>, spec: Spec, namespace: string, name: string, n: nat, at: nat)
    requires spec.mod.Some? && InParts(lines, spec, namespace, name, n, at)
    requires n == Ahead(spec.variables, |spec.variables|) && at == 9 + n + 3 * |spec.outputs|
    ensures IsTextOf(lines, spec, namespace, name)
  {
    VariablesInText(lines, spec, namespace, name, n, at);
    OpensWithHeader(lines, spec.organization, namespace, name);
    OutputsAt(lines, 9 + n, spec.outputs);
    OpensAt(lines, at, spec.mod.value);
  }

  lemma VariablesInText(lines: seq<string>, spec: Spec, namespace: string, name: string, n: nat, at: nat)
    requires spec.mod.Some? && InParts(lines, spec, namespace, name, n, at)
    ensures Declares(lines, 9, spec.variables) && Passes(lines, at + Arguments(spec.mod.value), spec.variables)
  {
    DeclaresAt(lines, 9, spec.variables);
    PassesAt(lines, at + Arguments(spec.mod.value), spec.variables);
  }

  /****** Which changes of the variables show ******/

  lemma {:induction false} KeysLengthConcat(a: seq<string>, b: seq<string>)
    ensures KeysLength(a + b) == KeysLength(a) + KeysLength(b)
    decreases |a|
  {
    if a == [] {
      assert a + b == b;
    } else {
      assert (a + b)[1..] == a[1..] + b;
      KeysLengthConcat(a[1..], b);
    }
  }

  lemma Around(front: seq<(SpecVariable, Reference)>, v: (SpecVariable, Reference),
               back: seq<(SpecVariable, Reference)>)
    ensures TerraformKeys(front + [v] + back) == TerraformKeys(front) + KeyOf(v) + TerraformKeys(back)
  {
    KeysConcat(front + [v], back);
    KeysConcat(front, [v]);
    KeysOfOne(v);
  }

  lemma KeysLengthAround(front: seq<string>, key: seq<string>, back: seq<string>)
    ensures KeysLength(front + key + back) == KeysLength(front) + KeysLength(key) + KeysLength(back)
  {
    KeysLengthConcat(front + key, back);
    KeysLengthConcat(front, key);
  }

  lemma KeysLengthOfOne(v: (SpecVariable, Reference))
    ensures KeysLength(KeyOf(v)) == if v.0.environment then 0 else 3 * |v.0.key| + 26
  {
    if !v.0.environment {
      assert KeyOf(v)[1..] == [];
    }
  }

  /** Specs with other variables that render alike have keys of the same total length. */
  lemma AlikeKeysAreAsLong(spec: Spec, other: Spec, namespace: string, name: string)
    requires spec.mod.Some? && other == spec.(variables := other.variables)
    requires Render(spec, namespace, name) == Render(other, namespace, name)
    ensures KeysLength(TerraformKeys(spec.variables)) == KeysLength(TerraformKeys(other.variables))
  {
    AlikeAddsUp(Project(spec), Project(other), namespace, name);
  }

  /** One more variable shows in the text exactly if it is not an environment variable. */
  lemma AddingShows(spec: Spec, i: nat, v: (SpecVariable, Reference), namespace: string, name: string)
    requires spec.mod.Some? && i <= |spec.variables|
    ensures var more := spec.(variables := spec.variables[..i] + [v] + spec.variables[i..]);
            Render(more, namespace, name) == Render(spec, namespace, name) <==> v.0.environment
  {
    var front, back := spec.variables[..i], spec.variables[i..];
    var more := spec.(variables := front + [v] + back);
    var fronts, backs := TerraformKeys(front), TerraformKeys(back);
    assert spec.variables == front + back;
    KeysConcat(front, back);
    Around(front, v, back);
    if v.0.environment {
      assert fronts + KeyOf(v) + backs == fronts + backs;
      assert Project(more) == Project(spec);
    } else if Render(more, namespace, name) == Render(spec, namespace, name) {
      AlikeKeysAreAsLong(spec, more, namespace, name);
      KeysLengthAround(fronts, KeyOf(v), backs);
      KeysLengthConcat(fronts, backs);
      KeysLengthOfOne(v);
    }
  }

  /** What the text shows of a variable. */
  predicate ShowAlike(v: SpecVariable, w: SpecVariable) {
    v.environment == w.environment && (!v.environment ==> v.key == w.key)
  }

  /** A variable that is replaced shows in the text exactly if its kind changed, or, unless it is an environment
      variable, its key: whatever else of it did. */
  lemma ReplacingShows(spec: Spec, i: nat, v: (SpecVariable, Reference), namespace: string, name: string)
    requires spec.mod.Some? && i < |spec.variables|
    ensures var other := spec.(variables := spec.variables[i := v]);
            Render(other, namespace, name) == Render(spec, namespace, name) <==> ShowAlike(v.0, spec.variables[i].0)
  {
    var front, w, back := spec.variables[..i], spec.variables[i], spec.variables[i + 1..];
    var other := spec.(variables := spec.variables[i := v]);
    assert spec.variables == front + [w] + back && other.variables == front + [v] + back;
    Around(front, v, back);
    Around(front, w, back);
    if ShowAlike(v.0, w.0) {
      assert KeyOf(v) == KeyOf(w);
      assert Project(other) == Project(spec);
    } else if Render(other, namespace, name) == Render(spec, namespace, name) {
      AlikeKeysAreAsLong(spec, other, namespace, name);
      AlikeKeys(TerraformKeys(front), v, w, TerraformKeys(back));
      RenamedShows(spec, other, |TerraformKeys(front)|, namespace, name);
    }
  }

  /** Between the same keys, another one of the same length. */
  lemma AlikeKeys(front: seq<string>, v: (SpecVariable, Reference), w: (SpecVariable, Reference), back: seq<string>)
    requires KeysLength(front + KeyOf(v) + back) == KeysLength(front + KeyOf(w) + back) && !ShowAlike(v.0, w.0)
    ensures !v.0.environment && !w.0.environment
    ensures var a, b := front + KeyOf(w) + back, front + KeyOf(v) + back;
            |front| < |a| == |b| && b == a[|front| := b[|front|]] && a[|front|] != b[|front|]
  {
    KeysLengthAround(front, KeyOf(v), back);
    KeysLengthAround(front, KeyOf(w), back);
    KeysLengthOfOne(v);
    KeysLengthOfOne(w);
  }

  lemma RenamedShows(spec: Spec, other: Spec, i: nat, namespace: string, name: string)
    requires spec.mod.Some? && other == spec.(variables := other.variables)
    requires var a, b := TerraformKeys(spec.variables), TerraformKeys(other.variables);
             i < |a| && i < |b| && b == a[i := b[i]]
    requires Render(spec, namespace, name) == Render(other, namespace, name)
    ensures TerraformKeys(spec.variables) == TerraformKeys(other.variables)
  {
    assert OtherKey(Project(spec), Project(other), i);
    OneFieldAlwaysShows(Project(spec), Project(other), namespace, name);
  }
}
