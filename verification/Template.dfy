/**
 The Terraform configuration rendered from a spec (workspacehelper/terraform.go), and its ConfigMap
 (workspacehelper/k8s_configmap.go).  Whether a run is needed is decided by comparing the rendered text
 with the text in the ConfigMap, so different specs must not render alike.
 */
module Template {
  import opened Options
  import opened Outcomes
  import opened Variables
  import opened Workspace

  /****** Rendering ******/

  function Header(organization: string, namespace: string, name: string): seq<string> {
    [ "terraform {",
      "\t\tbackend \"remote\" {",
      "\t\t\torganization = \"" + organization + "\"",
      "\t",
      "\t\t\tworkspaces {",
      "\t\t\t\tname = \"" + namespace + "-" + name + "\"",
      "\t\t\t}",
      "\t\t}",
      "\t}" ]
  }

  function VariableLine(key: string): string { "\tvariable \"" + key + "\" {}" }

  function VariableLines(keys: seq<string>): seq<string> {
    if keys == [] then [] else [VariableLine(keys[0])] + VariableLines(keys[1..])
  }

  function OutputBlock(o: OutputSpec): seq<string> {
    ["\toutput \"" + o.key + "\" {", "\t\tvalue = module.operator." + o.moduleOutputName, "\t}"]
  }

  function OutputLines(outputs: seq<OutputSpec>): seq<string> {
    if outputs == [] then [] else OutputBlock(outputs[0]) + OutputLines(outputs[1..])
  }

  function ArgumentLines(keys: seq<string>): seq<string> {
    if keys == [] then [] else ["\t\t" + keys[0] + " = var." + keys[0]] + ArgumentLines(keys[1..])
  }

  function ModuleLines(m: Module, keys: seq<string>): seq<string> {
    ["\tmodule \"operator\" {", "\t\tsource = \"" + m.source + "\""]
    + (if m.version == "" then [] else ["\t\tversion = \"" + m.version + "\""])
    + ArgumentLines(keys) + ["\t}"]
  }

  function Join(lines: seq<string>): string
    requires lines != []
  {
    if |lines| == 1 then lines[0] else lines[0] + "\n" + Join(lines[1..])
  }

  /** The keys of the variables that are not environment variables, in order. */
  function TerraformKeys(vs: seq<(SpecVariable, Reference)>): seq<string> {
    if vs == [] then []
    else (if vs[0].0.environment then [] else [vs[0].0.key]) + TerraformKeys(vs[1..])
  }

  /** All that the text depends on, for one object. */
  datatype Projection = Projection(organization: string, keys: seq<string>, outputs: seq<OutputSpec>, mod: Module)

  function Project(spec: Spec): Projection
    requires spec.mod.Some?
  {
    Projection(spec.organization, TerraformKeys(spec.variables), spec.outputs, spec.mod.value)
  }

  /** The lines after the header; `all` are the arguments passed to the module. */
  function Body(keys: seq<string>, outputs: seq<OutputSpec>, all: seq<string>, m: Module): seq<string> {
    VariableLines(keys) + OutputLines(outputs) + ModuleLines(m, all)
  }

  function Lines(p: Projection, namespace: string, name: string): seq<string> {
    Header(p.organization, namespace, name) + Body(p.keys, p.outputs, p.keys, p.mod)
  }

  /** The text; there is none, but an error, when the spec has no module. */
  function Render(spec: Spec, namespace: string, name: string): Option<string> {
    if spec.mod.None? then None else Some(Join(Lines(Project(spec), namespace, name)))
  }

  /****** Lines can be told apart in the text ******/

  predicate OneLine(s: string) { '\n' !in s }

  predicate OneLineEach(ss: seq<string>) { forall s :: s in ss ==> OneLine(s) }

  function FirstLine(s: string): string {
    if s == "" || s[0] == '\n' then "" else [s[0]] + FirstLine(s[1..])
  }

  lemma {:induction false} FirstLineOf(line: string, rest: string)
    requires OneLine(line) && (rest == "" || rest[0] == '\n')
    ensures FirstLine(line + rest) == line
  {
    if line == "" {
      assert line + rest == rest;
    } else {
      assert (line + rest)[1..] == line[1..] + rest;
      FirstLineOf(line[1..], rest);
    }
  }

  /** The first line and the rest can be read off the text. */
  lemma JoinSplits(lines: seq<string>)
    requires lines != [] && OneLine(lines[0])
    ensures FirstLine(Join(lines)) == lines[0]
    ensures if |lines| == 1 then Join(lines) == lines[0]
            else |Join(lines)| > |lines[0]| && Join(lines)[|lines[0]| + 1..] == Join(lines[1..])
  {
    var rest := if |lines| == 1 then "" else "\n" + Join(lines[1..]);
    assert Join(lines) == lines[0] + rest;
    FirstLineOf(lines[0], rest);
  }

  lemma {:induction false} JoinIsInjective(a: seq<string>, b: seq<string>)
    requires a != [] && b != [] && OneLineEach(a) && OneLineEach(b)
    requires Join(a) == Join(b)
    ensures a == b
  {
    assert a[0] in a && b[0] in b;
    JoinSplits(a);
    JoinSplits(b);
    assert a == [a[0]] + a[1..] && b == [b[0]] + b[1..];
    if |a| > 1 {
      assert OneLineEach(a[1..]) && OneLineEach(b[1..]);
      JoinIsInjective(a[1..], b[1..]);
    }
  }

  /** Between the same two ends, different texts make different lines. */
  lemma Between(prefix: string, a: string, b: string, suffix: string)
    requires prefix + a + suffix == prefix + b + suffix
    ensures a == b
  {
    var s, t := prefix + a + suffix, prefix + b + suffix;
    assert |a| == |b|;
    assert a == s[|prefix|..|prefix| + |a|];
    assert b == t[|prefix|..|prefix| + |b|];
  }

  /****** Lines determine what they were rendered from ******/

  lemma BodyStart(keys: seq<string>, outputs: seq<OutputSpec>, all: seq<string>, m: Module)
    ensures var body := Body(keys, outputs, all, m);
            body != [] && |body[0]| >= 2 && body[0][1] == if keys != [] then 'v' else if outputs != [] then 'o' else 'm'
  {
    if keys != [] {
      assert Body(keys, outputs, all, m)[0] == VariableLine(keys[0]);
    } else if outputs != [] {
      assert Body(keys, outputs, all, m)[0] == OutputBlock(outputs[0])[0];
    } else {
      assert Body(keys, outputs, all, m)[0] == "\tmodule \"operator\" {";
    }
  }

  lemma {:induction false} KeysDetermined(k1: seq<string>, o1: seq<OutputSpec>, a1: seq<string>, m1: Module,
                                          k2: seq<string>, o2: seq<OutputSpec>, a2: seq<string>, m2: Module)
    requires Body(k1, o1, a1, m1) == Body(k2, o2, a2, m2)
    ensures k1 == k2 && Body([], o1, a1, m1) == Body([], o2, a2, m2)
    decreases |k1|
  {
    BodyStart(k1, o1, a1, m1);
    BodyStart(k2, o2, a2, m2);
    if k1 != [] {
      assert Body(k1, o1, a1, m1) == [VariableLine(k1[0])] + Body(k1[1..], o1, a1, m1);
      assert Body(k2, o2, a2, m2) == [VariableLine(k2[0])] + Body(k2[1..], o2, a2, m2);
      assert Body(k1[1..], o1, a1, m1) == Body(k1, o1, a1, m1)[1..] == Body(k2[1..], o2, a2, m2);
      Between("\tvariable \"", k1[0], k2[0], "\" {}");
      KeysDetermined(k1[1..], o1, a1, m1, k2[1..], o2, a2, m2);
      assert k1 == [k1[0]] + k1[1..] && k2 == [k2[0]] + k2[1..];
    }
  }

  lemma {:induction false} OutputsDetermined(o1: seq<OutputSpec>, a1: seq<string>, m1: Module,
                                             o2: seq<OutputSpec>, a2: seq<string>, m2: Module)
    requires Body([], o1, a1, m1) == Body([], o2, a2, m2)
    ensures o1 == o2 && ModuleLines(m1, a1) == ModuleLines(m2, a2)
    decreases |o1|
  {
    BodyStart([], o1, a1, m1);
    BodyStart([], o2, a2, m2);
    if o1 != [] {
      var b1, b2 := Body([], o1, a1, m1), Body([], o2, a2, m2);
      assert b1 == OutputBlock(o1[0]) + Body([], o1[1..], a1, m1);
      assert b2 == OutputBlock(o2[0]) + Body([], o2[1..], a2, m2);
      assert Body([], o1[1..], a1, m1) == b1[3..] == b2[3..] == Body([], o2[1..], a2, m2);
      assert OutputBlock(o1[0]) == b1[..3] == b2[..3] == OutputBlock(o2[0]);
      OutputDetermined(o1[0], o2[0]);
      OutputsDetermined(o1[1..], a1, m1, o2[1..], a2, m2);
      assert o1 == [o1[0]] + o1[1..] && o2 == [o2[0]] + o2[1..];
    } else {
      assert Body([], o1, a1, m1) == ModuleLines(m1, a1) && Body([], o2, a2, m2) == ModuleLines(m2, a2);
    }
  }

  lemma OutputDetermined(a: OutputSpec, b: OutputSpec)
    requires OutputBlock(a) == OutputBlock(b)
    ensures a == b
  {
    assert OutputBlock(a)[0] == OutputBlock(b)[0] && OutputBlock(a)[1] == OutputBlock(b)[1];
    Between("\toutput \"", a.key, b.key, "\" {");
    var prefix := "\t\tvalue = module.operator.";
    assert prefix + a.moduleOutputName + "" == prefix + b.moduleOutputName + "";
    Between(prefix, a.moduleOutputName, b.moduleOutputName, "");
  }

  lemma ModuleDetermined(m1: Module, m2: Module, keys: seq<string>)
    requires ModuleLines(m1, keys) == ModuleLines(m2, keys)
    ensures m1 == m2
  {
    var l1, l2 := ModuleLines(m1, keys), ModuleLines(m2, keys);
    assert l1[1] == "\t\tsource = \"" + m1.source + "\"" && l2[1] == "\t\tsource = \"" + m2.source + "\"";
    Between("\t\tsource = \"", m1.source, m2.source, "\"");
    assert |l1| == (if m1.version == "" then 3 else 4) + |ArgumentLines(keys)|;
    assert |l2| == (if m2.version == "" then 3 else 4) + |ArgumentLines(keys)|;
    if m1.version != "" {
      assert l1[2] == "\t\tversion = \"" + m1.version + "\"" && l2[2] == "\t\tversion = \"" + m2.version + "\"";
      Between("\t\tversion = \"", m1.version, m2.version, "\"");
    }
  }

  lemma OrganizationDetermined(o1: string, o2: string, namespace: string, name: string)
    requires Header(o1, namespace, name) == Header(o2, namespace, name)
    ensures o1 == o2
  {
    var h1, h2 := Header(o1, namespace, name), Header(o2, namespace, name);
    assert h1[2] == h2[2];
    Between("\t\t\torganization = \"", o1, o2, "\"");
  }

  lemma HeaderLength(organization: string, namespace: string, name: string)
    ensures |Header(organization, namespace, name)| == 9
  {
  }

  lemma SplitAt<T>(a1: seq<T>, b1: seq<T>, a2: seq<T>, b2: seq<T>)
    requires a1 + b1 == a2 + b2 && |a1| == |a2|
    ensures a1 == a2 && b1 == b2
  {
    assert a1 == (a1 + b1)[..|a1|] == a2;
    assert b1 == (a1 + b1)[|a1|..] == b2;
  }

  lemma LinesSplit(p: Projection, q: Projection, namespace: string, name: string)
    requires Lines(p, namespace, name) == Lines(q, namespace, name)
    ensures Header(p.organization, namespace, name) == Header(q.organization, namespace, name)
    ensures Body(p.keys, p.outputs, p.keys, p.mod) == Body(q.keys, q.outputs, q.keys, q.mod)
  {
    var h1, h2 := Header(p.organization, namespace, name), Header(q.organization, namespace, name);
    var b1, b2 := Body(p.keys, p.outputs, p.keys, p.mod), Body(q.keys, q.outputs, q.keys, q.mod);
    HeaderLength(p.organization, namespace, name);
    HeaderLength(q.organization, namespace, name);
    SplitAt(h1, b1, h2, b2);
  }

  lemma LinesDetermine(p: Projection, q: Projection, namespace: string, name: string)
    requires Lines(p, namespace, name) == Lines(q, namespace, name)
    ensures p == q
  {
    LinesSplit(p, q, namespace, name);
    OrganizationDetermined(p.organization, q.organization, namespace, name);
    KeysDetermined(p.keys, p.outputs, p.keys, p.mod, q.keys, q.outputs, q.keys, q.mod);
    OutputsDetermined(p.outputs, p.keys, p.mod, q.outputs, q.keys, q.mod);
    ModuleDetermined(p.mod, q.mod, p.keys);
  }

  /****** The text determines what it was rendered from ******/

  predicate OneLineFields(p: Projection) {
    && OneLine(p.organization) && OneLineEach(p.keys) && OneLine(p.mod.source) && OneLine(p.mod.version)
    && forall o :: o in p.outputs ==> OneLine(o.key) && OneLine(o.moduleOutputName)
  }

  lemma Within(prefix: string, s: string, suffix: string)
    requires OneLine(prefix) && OneLine(s) && OneLine(suffix)
    ensures OneLine(prefix + s + suffix)
  {
  }

  lemma Concat(a: seq<string>, b: seq<string>)
    requires OneLineEach(a) && OneLineEach(b)
    ensures OneLineEach(a + b)
  {
  }

  lemma {:induction false} VariableLinesAreLines(keys: seq<string>)
    requires OneLineEach(keys)
    ensures OneLineEach(VariableLines(keys)) && OneLineEach(ArgumentLines(keys))
  {
    if keys != [] {
      assert keys[0] in keys;
      Within("\tvariable \"", keys[0], "\" {}");
      Within("\t\t", keys[0], " = var.");
      Within("\t\t" + keys[0] + " = var.", keys[0], "");
      assert "\t\t" + keys[0] + " = var." + keys[0] + "" == "\t\t" + keys[0] + " = var." + keys[0];
      VariableLinesAreLines(keys[1..]);
    }
  }

  lemma OutputBlockIsLines(o: OutputSpec)
    requires OneLine(o.key) && OneLine(o.moduleOutputName)
    ensures OneLineEach(OutputBlock(o))
  {
    Within("\toutput \"", o.key, "\" {");
    Within("\t\tvalue = module.operator.", o.moduleOutputName, "");
    assert "\t\tvalue = module.operator." + o.moduleOutputName + "" ==
           "\t\tvalue = module.operator." + o.moduleOutputName;
  }

  lemma {:induction false} OutputLinesAreLines(outputs: seq<OutputSpec>)
    requires forall o :: o in outputs ==> OneLine(o.key) && OneLine(o.moduleOutputName)
    ensures OneLineEach(OutputLines(outputs))
  {
    if outputs != [] {
      assert outputs[0] in outputs;
      OutputBlockIsLines(outputs[0]);
      OutputLinesAreLines(outputs[1..]);
      Concat(OutputBlock(outputs[0]), OutputLines(outputs[1..]));
    }
  }

  lemma HeaderIsLines(organization: string, namespace: string, name: string)
    requires OneLine(organization) && OneLine(namespace) && OneLine(name)
    ensures OneLineEach(Header(organization, namespace, name))
  {
    Within("\t\t\torganization = \"", organization, "\"");
    Within("\t\t\t\tname = \"", namespace, "-");
    Within("\t\t\t\tname = \"" + namespace + "-", name, "\"");
  }

  lemma ModuleLinesAreLines(m: Module, keys: seq<string>)
    requires OneLine(m.source) && OneLine(m.version) && OneLineEach(keys)
    ensures OneLineEach(ModuleLines(m, keys))
  {
    VariableLinesAreLines(keys);
    Within("\t\tsource = \"", m.source, "\"");
    Within("\t\tversion = \"", m.version, "\"");
    var first := ["\tmodule \"operator\" {", "\t\tsource = \"" + m.source + "\""];
    var second := if m.version == "" then [] else ["\t\tversion = \"" + m.version + "\""];
    Concat(first, second);
    Concat(first + second, ArgumentLines(keys));
    Concat(first + second + ArgumentLines(keys), ["\t}"]);
  }

  lemma LinesAreLines(p: Projection, namespace: string, name: string)
    requires OneLineFields(p) && OneLine(namespace) && OneLine(name)
    ensures OneLineEach(Lines(p, namespace, name))
  {
    HeaderIsLines(p.organization, namespace, name);
    VariableLinesAreLines(p.keys);
    OutputLinesAreLines(p.outputs);
    ModuleLinesAreLines(p.mod, p.keys);
    var h, v, o := Header(p.organization, namespace, name), VariableLines(p.keys), OutputLines(p.outputs);
    Concat(v, o);
    Concat(v + o, ModuleLines(p.mod, p.keys));
    Concat(h, Body(p.keys, p.outputs, p.keys, p.mod));
  }

  /** Two specs of one object, without line breaks in their fields, render to the same text exactly when they
      agree on the organization, the keys of the Terraform variables, the outputs and the module. */
  lemma RenderIsInjective(s1: Spec, s2: Spec, namespace: string, name: string)
    requires s1.mod.Some? && s2.mod.Some? && OneLine(namespace) && OneLine(name)
    requires OneLineFields(Project(s1)) && OneLineFields(Project(s2))
    ensures Render(s1, namespace, name) == Render(s2, namespace, name) <==> Project(s1) == Project(s2)
  {
    if Render(s1, namespace, name) == Render(s2, namespace, name) {
      LinesAreLines(Project(s1), namespace, name);
      LinesAreLines(Project(s2), namespace, name);
      JoinIsInjective(Lines(Project(s1), namespace, name), Lines(Project(s2), namespace, name));
      LinesDetermine(Project(s1), Project(s2), namespace, name);
    }
  }

  lemma {:induction false} JoinConcat(a: seq<string>, b: seq<string>)
    requires a != [] && b != []
    ensures Join(a + b) == Join(a) + "\n" + Join(b)
  {
    if |a| == 1 {
      assert (a + b)[1..] == b;
    } else {
      assert (a + b)[1..] == a[1..] + b;
      JoinConcat(a[1..], b);
      assert a[0] + "\n" + (Join(a[1..]) + "\n" + Join(b)) == Join(a) + "\n" + Join(b);
    }
  }

  lemma Join3(lines: seq<string>)
    requires |lines| == 3
    ensures Join(lines) == lines[0] + "\n" + lines[1] + "\n" + lines[2]
  {
    assert Join(lines[1..]) == lines[1] + "\n" + Join(lines[1..][1..]);
    assert lines[1..][1..] == [lines[2]];
    assert lines[0] + "\n" + (lines[1] + "\n" + lines[2]) == lines[0] + "\n" + lines[1] + "\n" + lines[2];
  }

  /** An output whose name in the module runs on, over line breaks, into another output. */
  function Disguise(k: OutputSpec, j: OutputSpec): OutputSpec {
    k.(moduleOutputName := k.moduleOutputName + "\n" + OutputBlock(k)[2] + "\n" + Join(OutputBlock(j)[..2]))
  }

  lemma Regroup(a: string, b: string, c: string, d: string, e: string)
    ensures a + "\n" + (b + "\n" + c + "\n" + (d + "\n" + e)) + "\n" + c
         == (a + "\n" + b + "\n" + c) + "\n" + (d + "\n" + e + "\n" + c)
  {
  }

  lemma DisguisedLine(value: string, name: string, c: string, tail: string)
    ensures value + (name + "\n" + c + "\n" + tail) == (value + name) + "\n" + c + "\n" + tail
  {
  }

  lemma Join2(lines: seq<string>)
    requires |lines| == 2
    ensures Join(lines) == lines[0] + "\n" + lines[1]
  {
    assert lines[1..] == [lines[1]];
  }

  lemma BlocksRenderAlike(k: OutputSpec, j: OutputSpec)
    ensures Join(OutputBlock(Disguise(k, j))) == Join(OutputBlock(k) + OutputBlock(j))
  {
    var d, bk, bj := OutputBlock(Disguise(k, j)), OutputBlock(k), OutputBlock(j);
    JoinConcat(bk, bj);
    Join3(d);
    Join3(bk);
    Join3(bj);
    Join2(bj[..2]);
    DisguisedLine("\t\tvalue = module.operator.", k.moduleOutputName, bk[2], Join(bj[..2]));
    assert d[1] == bk[1] + "\n" + bk[2] + "\n" + (bj[0] + "\n" + bj[1]);
    assert d[0] == bk[0] && d[2] == bk[2] == bj[2];
    Regroup(bk[0], bk[1], bk[2], bj[0], bj[1]);
  }

  lemma JoinMiddle(front: seq<string>, middle: seq<string>, back: seq<string>)
    requires front != [] && middle != [] && back != []
    ensures Join(front + middle + back) == Join(front) + "\n" + Join(middle) + "\n" + Join(back)
  {
    JoinConcat(front, middle);
    JoinConcat(front + middle, back);
  }

  lemma LinesAround(p: Projection, namespace: string, name: string)
    ensures var front := Header(p.organization, namespace, name) + VariableLines(p.keys);
            Lines(p, namespace, name) == front + OutputLines(p.outputs) + ModuleLines(p.mod, p.keys)
  {
  }

  /** With line breaks the text may hide a difference: any two outputs can be written as one. */
  lemma LineBreaksHideDifferences(p: Projection, k: OutputSpec, j: OutputSpec, namespace: string, name: string)
    ensures var q, r := p.(outputs := [Disguise(k, j)]), p.(outputs := [k, j]);
            q != r && Join(Lines(q, namespace, name)) == Join(Lines(r, namespace, name))
  {
    var front := Header(p.organization, namespace, name) + VariableLines(p.keys);
    var back := ModuleLines(p.mod, p.keys);
    var one, two := OutputBlock(Disguise(k, j)), OutputBlock(k) + OutputBlock(j);
    OneOrTwoBlocks(k, j);
    LinesAround(p.(outputs := [Disguise(k, j)]), namespace, name);
    LinesAround(p.(outputs := [k, j]), namespace, name);
    BlocksRenderAlike(k, j);
    JoinMiddle(front, one, back);
    JoinMiddle(front, two, back);
  }

  lemma OneOrTwoBlocks(k: OutputSpec, j: OutputSpec)
    ensures OutputLines([k]) == OutputBlock(k) && OutputLines([k, j]) == OutputBlock(k) + OutputBlock(j)
    ensures OutputLines([Disguise(k, j)]) == OutputBlock(Disguise(k, j))
  {
    assert [k, j][1..] == [j];
    assert OutputLines([j]) == OutputBlock(j);
  }

  /****** The ConfigMap ******/

  /** The ConfigMap is rewritten when its text differs. */
  function Upserted(config: Option<string>, text: string): (Option<string>, bool) {
    (Some(text), config != Some(text))
  }

  class ConfigMapClient {
    var config: Option<string>

    constructor (config: Option<string>)
      ensures this.config == config
    {
      this.config := config;
    }

    /** Creates or updates the object; it may fail with or without effect. */
    method Write(text: string) returns (ok: bool)
      modifies this
      ensures config == Some(text) || config == old(config)
      ensures ok ==> config == Some(text)
    {
      var o: Outcome := *;
      if o.Effective() {
        config := Some(text);
      }
      ok := o.Done?;
    }

    method UpsertTerraformConfig(text: string) returns (updated: bool, ok: bool)
      modifies this
      ensures ok ==> (config, updated) == Upserted(old(config), text)
      ensures ok ==> config == Some(text) && (updated <==> old(config) != Some(text))
      ensures !ok ==> !updated && (config == old(config) || config == Some(text))
    {
      var found: bool := *;
      if !found {
        return false, false;
      }
      match config {
        case None =>
          ok := Write(text);
          return ok, ok;
        case Some(current) =>
          if current == text {
            return false, true;
          }
          ok := Write(text);
          return ok, ok;
      }
    }
  }

  /** When the ConfigMap holds what an earlier spec rendered to, a later one rewrites it exactly when the
      parts of the spec that the text shows have changed. */
  lemma RewrittenExactlyIfProjectionChanged(before: Spec, now: Spec, namespace: string, name: string)
    requires before.mod.Some? && now.mod.Some? && OneLine(namespace) && OneLine(name)
    requires OneLineFields(Project(before)) && OneLineFields(Project(now))
    ensures Upserted(Render(before, namespace, name), Render(now, namespace, name).value).1 <==>
            Project(before) != Project(now)
  {
    RenderIsInjective(before, now, namespace, name);
  }
}
