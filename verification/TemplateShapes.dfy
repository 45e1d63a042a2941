/**
 What line breaks cannot hide.  Two specs may render alike when a field runs on into another one; but not when
 their fields have the same lengths, whatever is in them, and so not when only one field differs.
 */
module TemplateShapes {
  import opened Options
  import opened Template
  import opened Workspace

  /****** Lines of the same lengths ******/

  predicate SameLengths(a: seq<string>, b: seq<string>) {
    |a| == |b| && forall i :: 0 <= i < |a| ==> |a[i]| == |b[i]|
  }

  lemma SameLengthsConcat(a1: seq<string>, b1: seq<string>, a2: seq<string>, b2: seq<string>)
    requires SameLengths(a1, b1) && SameLengths(a2, b2)
    ensures SameLengths(a1 + a2, b1 + b2)
  {
  }

  lemma CutAt(a: string, s: string, b: string, t: string)
    requires |a| == |b| && a + "\n" + s == b + "\n" + t
    ensures a == b && s == t
  {
    assert a + "\n" + s == a + ("\n" + s) && b + "\n" + t == b + ("\n" + t);
    SplitAt(a, "\n" + s, b, "\n" + t);
    SplitAt("\n", s, "\n", t);
  }

  /** Lines of known lengths can be cut out of the text, whatever is in them. */
  lemma {:induction false} JoinCuts(a: seq<string>, b: seq<string>)
    requires a != [] && b != [] && SameLengths(a, b) && Join(a) == Join(b)
    ensures a == b
    decreases |a|
  {
    if |a| > 1 {
      CutAt(a[0], Join(a[1..]), b[0], Join(b[1..]));
      JoinCuts(a[1..], b[1..]);
    }
    assert a == [a[0]] + a[1..] && b == [b[0]] + b[1..];
  }

  /****** Fields of the same lengths ******/

  predicate SameOutputLengths(a: seq<OutputSpec>, b: seq<OutputSpec>) {
    && |a| == |b|
    && forall i :: 0 <= i < |a| ==> |a[i].key| == |b[i].key| && |a[i].moduleOutputName| == |b[i].moduleOutputName|
  }

  /** Field by field, both have the same length. */
  predicate SameShape(p: Projection, q: Projection) {
    && |p.organization| == |q.organization| && SameLengths(p.keys, q.keys) && SameOutputLengths(p.outputs, q.outputs)
    && |p.mod.source| == |q.mod.source| && |p.mod.version| == |q.mod.version|
  }

  lemma {:induction false} SameVariableLines(a: seq<string>, b: seq<string>)
    requires SameLengths(a, b)
    ensures SameLengths(VariableLines(a), VariableLines(b)) && SameLengths(ArgumentLines(a), ArgumentLines(b))
    decreases |a|
  {
    if a != [] {
      SameVariableLines(a[1..], b[1..]);
      SameLengthsConcat([VariableLine(a[0])], [VariableLine(b[0])], VariableLines(a[1..]), VariableLines(b[1..]));
      SameLengthsConcat(ArgumentLines(a)[..1], ArgumentLines(b)[..1], ArgumentLines(a[1..]), ArgumentLines(b[1..]));
      assert ArgumentLines(a) == ArgumentLines(a)[..1] + ArgumentLines(a[1..]);
      assert ArgumentLines(b) == ArgumentLines(b)[..1] + ArgumentLines(b[1..]);
    }
  }

  lemma {:induction false} SameOutputLines(a: seq<OutputSpec>, b: seq<OutputSpec>)
    requires SameOutputLengths(a, b)
    ensures SameLengths(OutputLines(a), OutputLines(b))
    decreases |a|
  {
    if a != [] {
      SameOutputLines(a[1..], b[1..]);
      SameLengthsConcat(OutputBlock(a[0]), OutputBlock(b[0]), OutputLines(a[1..]), OutputLines(b[1..]));
    }
  }

  function VersionLines(version: string): seq<string> {
    if version == "" then [] else ["\t\tversion = \"" + version + "\""]
  }

  function SourceLines(source: string): seq<string> { ["\tmodule \"operator\" {", "\t\tsource = \"" + source + "\""] }

  lemma SameModuleLines(m1: Module, k1: seq<string>, m2: Module, k2: seq<string>)
    requires |m1.source| == |m2.source| && |m1.version| == |m2.version| && SameLengths(k1, k2)
    ensures SameLengths(ModuleLines(m1, k1), ModuleLines(m2, k2))
  {
    SameVariableLines(k1, k2);
    var a1, a2 := SourceLines(m1.source), SourceLines(m2.source);
    var b1, b2 := VersionLines(m1.version), VersionLines(m2.version);
    SameLengthsConcat(a1, a2, b1, b2);
    SameLengthsConcat(a1 + b1, a2 + b2, ArgumentLines(k1), ArgumentLines(k2));
    SameLengthsConcat(a1 + b1 + ArgumentLines(k1), a2 + b2 + ArgumentLines(k2), ["\t}"], ["\t}"]);
  }

  lemma SameLines(p: Projection, q: Projection, namespace: string, name: string)
    requires SameShape(p, q)
    ensures SameLengths(Lines(p, namespace, name), Lines(q, namespace, name))
  {
    var v1, v2 := VariableLines(p.keys), VariableLines(q.keys);
    var o1, o2 := OutputLines(p.outputs), OutputLines(q.outputs);
    SameVariableLines(p.keys, q.keys);
    SameOutputLines(p.outputs, q.outputs);
    SameModuleLines(p.mod, p.keys, q.mod, q.keys);
    SameLengthsConcat(v1, v2, o1, o2);
    SameLengthsConcat(v1 + o1, v2 + o2, ModuleLines(p.mod, p.keys), ModuleLines(q.mod, q.keys));
    SameLengthsConcat(Header(p.organization, namespace, name), Header(q.organization, namespace, name),
                      Body(p.keys, p.outputs, p.keys, p.mod), Body(q.keys, q.outputs, q.keys, q.mod));
  }

  predicate RenderAlike(p: Projection, q: Projection, namespace: string, name: string) {
    Join(Lines(p, namespace, name)) == Join(Lines(q, namespace, name))
  }

  /** With fields of the same lengths, two specs render alike exactly if they agree, line breaks or not. */
  lemma SameShapeHidesNothing(p: Projection, q: Projection, namespace: string, name: string)
    requires SameShape(p, q)
    ensures RenderAlike(p, q, namespace, name) <==> p == q
  {
    if RenderAlike(p, q, namespace, name) {
      SameLines(p, q, namespace, name);
      JoinCuts(Lines(p, namespace, name), Lines(q, namespace, name));
      LinesDetermine(p, q, namespace, name);
    }
  }

  /****** How long the text is ******/

  function Length(lines: seq<string>): nat { if lines == [] then 0 else |lines[0]| + 1 + Length(lines[1..]) }

  lemma {:induction false} JoinLength(lines: seq<string>)
    requires lines != []
    ensures |Join(lines)| + 1 == Length(lines)
    decreases |lines|
  {
    if |lines| > 1 {
      JoinLength(lines[1..]);
    }
  }

  lemma {:induction false} LengthConcat(a: seq<string>, b: seq<string>)
    ensures Length(a + b) == Length(a) + Length(b)
    decreases |a|
  {
    if a == [] {
      assert a + b == b;
    } else {
      assert (a + b)[1..] == a[1..] + b;
      LengthConcat(a[1..], b);
    }
  }

  /** A key stands once in its variable's line and twice in the module's argument. */
  function KeysLength(keys: seq<string>): nat {
    if keys == [] then 0 else 3 * |keys[0]| + 26 + KeysLength(keys[1..])
  }

  lemma {:induction false} KeysAddUp(keys: seq<string>)
    ensures Length(VariableLines(keys)) + Length(ArgumentLines(keys)) == KeysLength(keys)
    decreases |keys|
  {
    if keys != [] {
      assert VariableLines(keys)[1..] == VariableLines(keys[1..]);
      assert ArgumentLines(keys)[1..] == ArgumentLines(keys[1..]);
      KeysAddUp(keys[1..]);
    }
  }

  lemma LinesLength(p: Projection, namespace: string, name: string)
    ensures Length(Lines(p, namespace, name)) ==
            Length(Header(p.organization, namespace, name)) + KeysLength(p.keys) + Length(OutputLines(p.outputs))
            + Length(SourceLines(p.mod.source)) + Length(VersionLines(p.mod.version)) + Length(["\t}"])
  {
    var a, b, c := SourceLines(p.mod.source), VersionLines(p.mod.version), ArgumentLines(p.keys);
    KeysAddUp(p.keys);
    LengthConcat(a, b);
    LengthConcat(a + b, c);
    LengthConcat(a + b + c, ["\t}"]);
    assert ModuleLines(p.mod, p.keys) == a + b + c + ["\t}"];
    LengthConcat(VariableLines(p.keys), OutputLines(p.outputs));
    LengthConcat(VariableLines(p.keys) + OutputLines(p.outputs), ModuleLines(p.mod, p.keys));
    LengthConcat(Header(p.organization, namespace, name), Body(p.keys, p.outputs, p.keys, p.mod));
  }

  lemma HeaderLengths(o1: string, o2: string, namespace: string, name: string)
    requires Length(Header(o1, namespace, name)) == Length(Header(o2, namespace, name))
    ensures |o1| == |o2|
  {
    var h1, h2 := Header(o1, namespace, name), Header(o2, namespace, name);
    HeaderAround(o1, namespace, name);
    HeaderAround(o2, namespace, name);
    assert h1[..2] == h2[..2] && h1[3..] == h2[3..];
  }

  lemma HeaderAround(o: string, namespace: string, name: string)
    ensures var h := Header(o, namespace, name); Length(h) == Length(h[..2]) + |h[2]| + 1 + Length(h[3..])
  {
    var h := Header(o, namespace, name);
    LengthConcat(h[..2], h[2..]);
    assert h == h[..2] + h[2..] && h[2..][1..] == h[3..];
  }

  lemma {:induction false} KeysLengths(keys: seq<string>, i: nat, key: string)
    requires i < |keys|
    ensures KeysLength(keys[i := key]) == KeysLength(keys) + 3 * (|key| - |keys[i]|)
    decreases i
  {
    var now := keys[i := key];
    if i == 0 {
      assert now[1..] == keys[1..];
    } else {
      assert now[1..] == keys[1..][i - 1 := key];
      KeysLengths(keys[1..], i - 1, key);
    }
  }

  lemma BlockLength(o: OutputSpec)
    ensures Length(OutputBlock(o)) == |o.key| + |o.moduleOutputName| + Length(OutputBlock(OutputSpec("", "")))
  {
    BlockSum(o);
    BlockSum(OutputSpec("", ""));
  }

  lemma BlockSum(o: OutputSpec)
    ensures Length(OutputBlock(o)) == |OutputBlock(o)[0]| + |OutputBlock(o)[1]| + |OutputBlock(o)[2]| + 3
  {
    var b := OutputBlock(o);
    assert b[1..][1..] == [b[2]] && b[1..][0] == b[1];
    assert Length([b[2]]) == |b[2]| + 1;
  }

  lemma {:induction false} OutputsLengths(outputs: seq<OutputSpec>, i: nat, o: OutputSpec)
    requires i < |outputs|
    ensures Length(OutputLines(outputs[i := o])) == Length(OutputLines(outputs)) + |o.key| + |o.moduleOutputName|
                                                    - |outputs[i].key| - |outputs[i].moduleOutputName|
    decreases i
  {
    var now := outputs[i := o];
    LengthConcat(OutputBlock(outputs[0]), OutputLines(outputs[1..]));
    LengthConcat(OutputBlock(now[0]), OutputLines(now[1..]));
    if i == 0 {
      assert now[1..] == outputs[1..];
      BlockLength(outputs[0]);
      BlockLength(o);
    } else {
      assert now[1..] == outputs[1..][i - 1 := o];
      OutputsLengths(outputs[1..], i - 1, o);
    }
  }

  /****** One field ******/

  /** At most the `i`-th key, or one of the two fields of the `i`-th output, differs. */
  predicate OtherKey(p: Projection, q: Projection, i: nat) {
    i < |p.keys| && i < |q.keys| && q == p.(keys := p.keys[i := q.keys[i]])
  }

  predicate OtherOutput(p: Projection, q: Projection, i: nat) {
    && i < |p.outputs| && i < |q.outputs| && q == p.(outputs := p.outputs[i := q.outputs[i]])
    && (q.outputs[i].key == p.outputs[i].key || q.outputs[i].moduleOutputName == p.outputs[i].moduleOutputName)
  }

  /** At most one field differs; no key and no output is more or less. */
  ghost predicate OneFieldApart(p: Projection, q: Projection) {
    || q == p.(organization := q.organization)
    || q == p.(mod := p.mod.(source := q.mod.source))
    || q == p.(mod := p.mod.(version := q.mod.version))
    || (exists i: nat :: OtherKey(p, q, i))
    || (exists i: nat :: OtherOutput(p, q, i))
  }

  lemma AlikeIsAsLong(p: Projection, q: Projection, namespace: string, name: string)
    requires RenderAlike(p, q, namespace, name)
    ensures Length(Lines(p, namespace, name)) == Length(Lines(q, namespace, name))
  {
    JoinLength(Lines(p, namespace, name));
    JoinLength(Lines(q, namespace, name));
  }

  lemma SourceLength(source: string)
    ensures Length(SourceLines(source)) == |source| + Length(SourceLines(""))
  {
    SourceSum(source);
    SourceSum("");
  }

  lemma SourceSum(source: string)
    ensures Length(SourceLines(source)) == |SourceLines(source)[0]| + |SourceLines(source)[1]| + 2
  {
    var lines := SourceLines(source);
    assert lines[1..] == [lines[1]];
    assert Length([lines[1]]) == |lines[1]| + 1;
  }

  lemma VersionLength(version: string)
    ensures Length(VersionLines(version)) == if version == "" then 0 else |version| + 15
  {
    if version != "" {
      assert VersionLines(version)[1..] == [];
      assert |VersionLines(version)[0]| == |version| + 14;
    }
  }

  /** Both texts are equally long, and the parts that agree are too. */
  predicate AsLong(p: Projection, q: Projection, namespace: string, name: string) {
    Length(Header(p.organization, namespace, name)) + KeysLength(p.keys) + Length(OutputLines(p.outputs))
    + Length(SourceLines(p.mod.source)) + Length(VersionLines(p.mod.version)) ==
    Length(Header(q.organization, namespace, name)) + KeysLength(q.keys) + Length(OutputLines(q.outputs))
    + Length(SourceLines(q.mod.source)) + Length(VersionLines(q.mod.version))
  }

  lemma AlikeAddsUp(p: Projection, q: Projection, namespace: string, name: string)
    requires RenderAlike(p, q, namespace, name)
    ensures AsLong(p, q, namespace, name)
  {
    AlikeIsAsLong(p, q, namespace, name);
    LinesLength(p, namespace, name);
    LinesLength(q, namespace, name);
  }

  lemma OtherModuleHasOneShape(p: Projection, q: Projection, namespace: string, name: string)
    requires AsLong(p, q, namespace, name) && q == p.(mod := q.mod)
    requires p.mod.source == q.mod.source || p.mod.version == q.mod.version
    ensures SameShape(p, q)
  {
    SourceLength(p.mod.source);
    SourceLength(q.mod.source);
    VersionLength(p.mod.version);
    VersionLength(q.mod.version);
  }

  lemma OtherOrganizationHasOneShape(p: Projection, q: Projection, namespace: string, name: string)
    requires AsLong(p, q, namespace, name) && q == p.(organization := q.organization)
    ensures SameShape(p, q)
  {
    HeaderLengths(p.organization, q.organization, namespace, name);
  }

  lemma OtherKeyHasOneShape(p: Projection, q: Projection, i: nat, namespace: string, name: string)
    requires AsLong(p, q, namespace, name) && OtherKey(p, q, i)
    ensures SameShape(p, q)
  {
    KeysLengths(p.keys, i, q.keys[i]);
  }

  lemma OtherOutputHasOneShape(p: Projection, q: Projection, i: nat, namespace: string, name: string)
    requires AsLong(p, q, namespace, name) && OtherOutput(p, q, i)
    ensures SameShape(p, q)
  {
    OutputsLengths(p.outputs, i, q.outputs[i]);
  }

  lemma OneFieldHasOneLength(p: Projection, q: Projection, namespace: string, name: string)
    requires OneFieldApart(p, q) && RenderAlike(p, q, namespace, name)
    ensures SameShape(p, q)
  {
    AlikeAddsUp(p, q, namespace, name);
    if i: nat :| OtherKey(p, q, i) {
      OtherKeyHasOneShape(p, q, i, namespace, name);
    } else if i: nat :| OtherOutput(p, q, i) {
      OtherOutputHasOneShape(p, q, i, namespace, name);
    } else if q == p.(organization := q.organization) {
      OtherOrganizationHasOneShape(p, q, namespace, name);
    } else {
      OtherModuleHasOneShape(p, q, namespace, name);
    }
  }

  /** A change of one field alone always shows in the text, whatever line breaks it brings or takes away. */
  lemma OneFieldAlwaysShows(p: Projection, q: Projection, namespace: string, name: string)
    requires OneFieldApart(p, q)
    ensures RenderAlike(p, q, namespace, name) <==> p == q
  {
    if RenderAlike(p, q, namespace, name) {
      OneFieldHasOneLength(p, q, namespace, name);
      SameShapeHidesNothing(p, q, namespace, name);
    }
  }
}
