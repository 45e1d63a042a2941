/** The Workspace custom resource (api/v1alpha1/workspace_types.go), as far as the operator's logic reads it. */
module Workspace {
  import opened Options
  import opened Variables
  import opened Notifications

  datatype Module = Module(source: string, version: string)

  datatype OutputSpec = OutputSpec(key: string, moduleOutputName: string)

  /** Where the value of a variable comes from when the spec does not have it. */
  datatype Reference = Nowhere | ConfigMapKey(ref: string) | SecretKey(ref: string)

  /** `vcs` tells that a VCS repository is given; it then takes precedence over a module. */
  datatype Spec = Spec(
    organization: string, vcs: bool, mod: Option<Module>, variables: seq<(SpecVariable, Reference)>,
    outputs: seq<OutputSpec>, notifications: seq<Notification>, runTriggers: seq<string>)

  /** What the cluster holds behind the references. */
  datatype References = References(configMaps: map<string, string>, secrets: map<string, string>)

  /** Where the value of a variable comes from: its own goes before a ConfigMap's, but after a Secret's. */
  predicate Supplies(v: SpecVariable, from: Reference, refs: References, value: string) {
    if v.sensitive then
      || (from.Nowhere? && value == v.value)
      || (from.SecretKey? && from.ref in refs.secrets && value == refs.secrets[from.ref])
    else
      || (v.value != "" && value == v.value)
      || (v.value == "" && from.ConfigMapKey? && from.ref in refs.configMaps && value == refs.configMaps[from.ref])
  }

  /** Looks up the value of one variable (workspacehelper/k8s_configmap.go and k8s_secret.go). */
  function Resolve(v: SpecVariable, from: Reference, refs: References): (r: Option<SpecVariable>)
    ensures r.Some? ==> r.value == v.(value := r.value.value) && Supplies(v, from, refs, r.value.value)
    ensures r.None? ==> forall value :: !Supplies(v, from, refs, value)
  {
    if !v.sensitive then
      if v.value != "" then Some(v)
      else if from.ConfigMapKey? && from.ref in refs.configMaps then Some(v.(value := refs.configMaps[from.ref]))
      else None
    else if from.Nowhere? then Some(v)
    else if from.SecretKey? && from.ref in refs.secrets then Some(v.(value := refs.secrets[from.ref]))
    else None
  }

  /** All variables with their values; there are none, but an error, if one reference leads nowhere. */
  function ResolveAll(vs: seq<(SpecVariable, Reference)>, refs: References): Option<seq<SpecVariable>> {
    if forall v :: v in vs ==> Resolve(v.0, v.1, refs).Some? then
      Some(seq(|vs|, i requires 0 <= i < |vs| => Found(vs[i], refs)))
    else None
  }

  function Found(v: (SpecVariable, Reference), refs: References): SpecVariable {
    match Resolve(v.0, v.1, refs)
    case Some(w) => w
    case None => v.0
  }

  ghost predicate HasValue(v: SpecVariable, from: Reference, refs: References) {
    exists value :: Supplies(v, from, refs, value)
  }

  /** All variables come with their values, in order, if each has one; otherwise none does. */
  lemma ResolvesAllOrNone(vs: seq<(SpecVariable, Reference)>, refs: References)
    ensures ResolveAll(vs, refs).None? <==> exists i :: 0 <= i < |vs| && !HasValue(vs[i].0, vs[i].1, refs)
    ensures ResolveAll(vs, refs).Some? ==>
              var ws := ResolveAll(vs, refs).value;
              |ws| == |vs| && forall i :: 0 <= i < |vs| ==>
                ws[i] == vs[i].0.(value := ws[i].value) && Supplies(vs[i].0, vs[i].1, refs, ws[i].value)
  {
  }
}
