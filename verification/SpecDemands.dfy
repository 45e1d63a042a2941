/** What the machine keeps in step, said of the spec and the cluster alone. */
module SpecDemands {
  import opened Options
  import opened Workspace
  import opened Machine
  import Template
  import TemplateText
  import Variables

  /** The setting that is asked for by a variable of the spec: its value comes from where the rules say. */
  ghost predicate IsAsked(w: Variables.Setting, v: Variables.SpecVariable, from: Reference, refs: References) {
    exists value :: Supplies(v, from, refs, value) && Variables.Restates(w, v.(value := value))
  }

  /** The variables to be kept in step are those of the spec, in order, each with its value; there are none, but an
      error, exactly if one has no value. */
  lemma WantedIsAsked(spec: Spec, cluster: Cluster)
    ensures var refs := cluster.sources.refs;
            WantedBy(spec, cluster).None? <==>
              exists i :: 0 <= i < |spec.variables| && !HasValue(spec.variables[i].0, spec.variables[i].1, refs)
    ensures var refs, vs := cluster.sources.refs, spec.variables;
            WantedBy(spec, cluster).Some? ==>
              var ws := WantedBy(spec, cluster).value;
              |ws| == |vs| && forall i :: 0 <= i < |vs| ==> IsAsked(ws[i], vs[i].0, vs[i].1, refs)
  {
    var refs, vs := cluster.sources.refs, spec.variables;
    ResolvesAllOrNone(vs, refs);
    if WantedBy(spec, cluster).Some? {
      var found, ws := ResolveAll(vs, refs).value, WantedBy(spec, cluster).value;
      forall i | 0 <= i < |vs| ensures IsAsked(ws[i], vs[i].0, vs[i].1, refs) {
        assert ws[i] == Variables.ToSetting(found[i]);
        Variables.SettingRestates(found[i], ws[i]);
        assert Supplies(vs[i].0, vs[i].1, refs, found[i].value);
      }
    }
  }

  /** The template to be kept in step has the lines that the spec and the object's own name ask for. */
  lemma TextIsAsked(spec: Spec, cluster: Cluster) returns (lines: seq<string>)
    requires spec.mod.Some?
    ensures TemplateText.IsTextOf(lines, spec, cluster.namespace, cluster.name) && lines != []
    ensures TextOf(spec, cluster) == Some(Template.Join(lines))
  {
    lines := TemplateText.TextIsOf(spec, cluster.namespace, cluster.name);
  }
}
