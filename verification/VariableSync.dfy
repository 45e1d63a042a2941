/**
 CheckVariables as the code runs it (workspacehelper/tfc_variable.go): loops over the spec's variables,
 which are shared objects that the passes change in place, and API calls that may fail at any point.

 Every method says which calls it has made when it returns, `done`.  They always are the first calls of
 the plan of module Variables, and all of them when no error is returned.
 */
module VariableSync {
  import opened Options
  import opened Outcomes
  import opened Variables

  /** The client library's variable object. */
  class Variable {
    const key: string
    const category: Category
    const hcl: bool
    var value: string
    var sensitive: bool
    var id: nat

    constructor (v: SpecVariable)
      ensures Setting() == ToSetting(v)
    {
      key := v.key;
      value := TrimNewline(v.value);
      sensitive := v.sensitive;
      category := if v.environment then Env else Terraform;
      hcl := v.hcl;
    }

    function Setting(): Setting
      reads this`value, this`sensitive
    {
      Variables.Setting(key, value, sensitive, category, hcl)
    }

    function UpdateCall(): Call
      reads this
    {
      Update(id, key, value, hcl, sensitive)
    }
  }

  predicate Distinct(vs: seq<Variable>) { forall i, j :: 0 <= i < j < |vs| ==> vs[i] != vs[j] }

  /** The objects hold the settings, one each. */
  ghost predicate Hold(vs: seq<Variable>, settings: seq<Setting>)
    reads vs`value, vs`sensitive
  {
    |vs| == |settings| && forall j :: 0 <= j < |vs| ==> vs[j].Setting() == settings[j]
  }

  /** The objects carry the update calls, one each. */
  ghost predicate Carry(vs: seq<Variable>, calls: seq<Call>)
    reads vs
  {
    |vs| == |calls| && forall j :: 0 <= j < |vs| ==> vs[j].UpdateCall() == calls[j]
  }

  /** The objects for the spec's variables, one each. */
  method MapToTFCVariable(specVariables: seq<SpecVariable>) returns (vs: seq<Variable>)
    ensures fresh(vs) && Distinct(vs) && Hold(vs, ToSettings(specVariables))
    ensures forall j :: 0 <= j < |vs| ==> Restates(vs[j].Setting(), specVariables[j])
  {
    forall v { SettingRestates(v, ToSetting(v)); }
    vs := [];
    for i := 0 to |specVariables|
      invariant |vs| == i && fresh(vs) && Distinct(vs)
      invariant forall j :: 0 <= j < i ==> vs[j].Setting() == ToSetting(specVariables[j])
    {
      var v := new Variable(specVariables[i]);
      vs := vs + [v];
    }
  }

  method FindIn(vs: seq<Variable>, key: string, ghost wanted: seq<Setting>) returns (index: int)
    requires Hold(vs, wanted)
    ensures if index < 0 then Wanted(wanted, key).None? else index < |vs| && Wanted(wanted, key) == Some(wanted[index])
  {
    index := 0;
    while index < |vs|
      invariant 0 <= index <= |vs| && Wanted(wanted[..index], key).None?
    {
      assert wanted[..index + 1][..index] == wanted[..index];
      if vs[index].key == key {
        WantedInPrefix(wanted, index + 1, key);
        return index;
      }
      index := index + 1;
    }
    assert wanted[..index] == wanted;
    return -1;
  }

  lemma {:induction false} WantedInPrefix(spec: seq<Setting>, n: nat, key: string)
    requires n <= |spec| && Wanted(spec[..n], key).Some?
    ensures Wanted(spec, key) == Wanted(spec[..n], key)
  {
    if n < |spec| {
      assert spec[..|spec| - 1][..n] == spec[..n];
      WantedInPrefix(spec[..|spec| - 1], n, key);
    } else {
      assert spec[..n] == spec;
    }
  }

  method FindListed(listed: seq<Listed>, key: string) returns (index: int)
    ensures if index < 0 then Find(listed, key).None? else index < |listed| && Find(listed, key) == Some(listed[index])
  {
    index := 0;
    while index < |listed|
      invariant 0 <= index <= |listed| && Find(listed[..index], key).None?
    {
      assert listed[..index + 1][..index] == listed[..index];
      if listed[index].shown.key == key {
        FoundInPrefix(listed, index + 1, key);
        return index;
      }
      index := index + 1;
    }
    assert listed[..index] == listed;
    return -1;
  }

  lemma {:induction false} FoundInPrefix(listed: seq<Listed>, n: nat, key: string)
    requires n <= |listed| && Find(listed[..n], key).Some?
    ensures Find(listed, key) == Find(listed[..n], key)
  {
    if n < |listed| {
      assert listed[..|listed| - 1][..n] == listed[..n];
      FoundInPrefix(listed[..|listed| - 1], n, key);
    } else {
      assert listed[..n] == listed;
    }
  }

  /** Reads a missing sensitive value from the file of the variable's name. */
  method CheckAndRetrieveIfSensitive(v: Variable, mount: map<string, string>) returns (ok: bool)
    modifies v
    ensures ok <==> Retrieve(old(v.Setting()), mount).Some?
    ensures v.Setting() == if ok then Retrieve(old(v.Setting()), mount).value else old(v.Setting())
    ensures v.id == old(v.id) && (!ok ==> unchanged(v))
  {
    if v.sensitive && v.value == "" {
      if v.key !in mount {
        return false;
      }
      v.value := mount[v.key];
    }
    return true;
  }

  lemma PlainUpdatesStep(spec: seq<Setting>, i: nat, listed: seq<Listed>)
    requires i < |spec|
    ensures PlainUpdates(spec[..i + 1], listed) ==
            PlainUpdates(spec[..i], listed) + Optional(PlainUpdateOf(spec[i], listed))
    ensures PlainIndices(spec[..i + 1], listed) ==
            var before := PlainIndices(spec[..i], listed);
            if PlainUpdateOf(spec[i], listed).Some? then before + [i] else before
  {
    assert spec[..i + 1][..i] == spec[..i];
  }

  /** Points the object at the listed variable of its key, if that has to be changed and is not sensitive. */
  method Target(v: Variable, listed: seq<Listed>) returns (chosen: bool)
    modifies v`id
    ensures chosen == PlainUpdateOf(v.Setting(), listed).Some?
    ensures if chosen then v.UpdateCall() == PlainUpdateOf(v.Setting(), listed).value else unchanged(v)
    ensures chosen ==> !ListedSensitive(v.Setting(), listed)
  {
    var index := FindListed(listed, v.key);
    if index < 0 || listed[index].shown.sensitive {
      return false;
    }
    if Changed(v.Setting(), listed[index].shown) {
      v.id := listed[index].id;
      return true;
    }
    return false;
  }

  /** Where in the spec the changed variables that are not sensitive stand. */
  ghost function PlainIndices(spec: seq<Setting>, listed: seq<Listed>): (from: seq<nat>)
    ensures forall k :: 0 <= k < |from| ==> from[k] < |spec| && !ListedSensitive(spec[from[k]], listed)
  {
    if spec == [] then []
    else
      var before := PlainIndices(spec[..|spec| - 1], listed);
      if PlainUpdateOf(spec[|spec| - 1], listed).Some? then before + [|spec| - 1] else before
  }

  lemma NotYetChosen(vs: seq<Variable>, from: seq<nat>, spec: seq<Variable>, i: nat)
    requires Distinct(spec) && i < |spec| && Chosen(vs, from, spec, i)
    ensures spec[i] !in vs
  {
  }

  lemma ChooseOneMore(vs: seq<Variable>, from: seq<nat>, spec: seq<Variable>, i: nat, calls: seq<Call>, c: Option<Call>)
    requires i < |spec| && Chosen(vs, from, spec, i) && Carry(vs, calls)
    requires c.Some? ==> spec[i].UpdateCall() == c.value
    ensures if c.Some? then Chosen(vs + [spec[i]], from + [i], spec, i + 1) &&
            Carry(vs + [spec[i]], calls + Optional(c))
            else Chosen(vs, from, spec, i + 1) && Carry(vs, calls + Optional(c))
  {
    assert c.None? ==> calls + Optional(c) == calls;
  }

  /** The objects are the targets of the updates for the first `n` variables of the spec that are not sensitive. */
  ghost predicate ChosenSoFar(vs: seq<Variable>, spec: seq<Variable>, n: nat, wanted: seq<Setting>, listed: seq<Listed>)
    reads vs
  {
    && n <= |wanted| && Carry(vs, PlainUpdates(wanted[..n], listed))
    && Chosen(vs, PlainIndices(wanted[..n], listed), spec, n)
  }

  /** The round of the loop for the `i`-th variable. */
  method Choose(v: Variable, listed: seq<Listed>, before: seq<Variable>, ghost spec: seq<Variable>, ghost i: nat,
                ghost wanted: seq<Setting>)
    returns (updates: seq<Variable>)
    requires Distinct(spec) && Hold(spec, wanted) && i < |spec| && v == spec[i]
    requires ChosenSoFar(before, spec, i, wanted, listed)
    modifies v`id
    ensures ChosenSoFar(updates, spec, i + 1, wanted, listed)
  {
    ghost var c := PlainUpdateOf(wanted[i], listed);
    ghost var from, calls := PlainIndices(wanted[..i], listed), PlainUpdates(wanted[..i], listed);
    NotYetChosen(before, from, spec, i);
    var chosen := Target(v, listed);
    ChooseOneMore(before, from, spec, i, calls, c);
    PlainUpdatesStep(wanted, i, listed);
    updates := if chosen then before + [v] else before;
  }

  method GetNonSensitiveVariablesToUpdate(spec: seq<Variable>, listed: seq<Listed>, ghost wanted: seq<Setting>)
    returns (updates: seq<Variable>)
    requires Distinct(spec) && Hold(spec, wanted)
    modifies spec`id
    ensures Hold(spec, wanted) && Carry(updates, PlainUpdates(wanted, listed))
    ensures Chosen(updates, PlainIndices(wanted, listed), spec, |spec|)
  {
    updates := [];
    NoneChosen(spec, wanted, listed);
    for i := 0 to |spec|
      invariant Hold(spec, wanted) && ChosenSoFar(updates, spec, i, wanted, listed)
    {
      updates := Choose(spec[i], listed, updates, spec, i, wanted);
    }
    AllChosen(updates, spec, wanted, listed);
  }

  lemma NoneChosen(spec: seq<Variable>, wanted: seq<Setting>, listed: seq<Listed>)
    ensures ChosenSoFar([], spec, 0, wanted, listed)
  {
  }

  lemma AllChosen(vs: seq<Variable>, spec: seq<Variable>, wanted: seq<Setting>, listed: seq<Listed>)
    requires |spec| == |wanted| && ChosenSoFar(vs, spec, |spec|, wanted, listed)
    ensures Carry(vs, PlainUpdates(wanted, listed)) && Chosen(vs, PlainIndices(wanted, listed), spec, |spec|)
  {
    assert wanted[..|spec|] == wanted;
  }

  /** The objects were chosen from among the first `n` of the spec. */
  ghost predicate Chosen(vs: seq<Variable>, from: seq<nat>, spec: seq<Variable>, n: nat) {
    && |vs| == |from| && n <= |spec|
    && forall k :: 0 <= k < |from| ==> from[k] < n && vs[k] == spec[from[k]]
  }

  lemma SensitiveUpdatesStep(spec: seq<Setting>, i: nat, mount: map<string, string>, listed: seq<Listed>)
    requires i < |spec| && SensitiveUpdates(spec[..i], mount, listed).ok
    ensures var before := SensitiveUpdates(spec[..i], mount, listed);
            SensitiveUpdates(spec[..i + 1], mount, listed) ==
            if ListedSensitive(spec[i], listed) && Retrieve(spec[i], mount).None? then before.(ok := false)
            else before.(calls := before.calls + Optional(SensitiveUpdateOf(spec[i], mount, listed)))
  {
    assert spec[..i + 1][..i] == spec[..i];
  }

  /** The same for a listed sensitive variable, which is sent whether it changed or not, and as sensitive. */
  method TargetSensitive(v: Variable, listed: seq<Listed>, mount: map<string, string>) returns (chosen: bool, ok: bool)
    modifies v
    ensures ok == !(ListedSensitive(old(v.Setting()), listed) && Retrieve(old(v.Setting()), mount).None?)
    ensures chosen == SensitiveUpdateOf(old(v.Setting()), mount, listed).Some?
    ensures if chosen then v.UpdateCall() == SensitiveUpdateOf(old(v.Setting()), mount, listed).value else unchanged(v)
  {
    chosen, ok := false, true;
    var index := FindListed(listed, v.key);
    if index >= 0 && listed[index].shown.sensitive {
      ok := CheckAndRetrieveIfSensitive(v, mount);
      if ok {
        v.id := listed[index].id;
        v.sensitive := true;
        chosen := true;
      }
    }
  }

  method GetSensitiveVariablesToUpdate(spec: seq<Variable>, listed: seq<Listed>, mount: map<string, string>,
      ghost wanted: seq<Setting>)
    returns (updates: seq<Variable>, ok: bool)
    requires Distinct(spec) && Hold(spec, wanted)
    modifies spec
    ensures ok == SensitiveUpdates(wanted, mount, listed).ok
    ensures ok ==> Carry(updates, SensitiveUpdates(wanted, mount, listed).calls)
    ensures forall j :: 0 <= j < |spec| && !ListedSensitive(wanted[j], listed) ==> unchanged(spec[j])
  {
    updates := [];
    ghost var from: seq<nat>, calls: seq<Call> := [], [];
    for i := 0 to |spec|
      invariant forall j :: 0 <= j < |spec| && (j >= i || !ListedSensitive(wanted[j], listed)) ==> unchanged(spec[j])
      invariant SensitiveUpdates(wanted[..i], mount, listed) == Partial(calls, true) && Carry(updates, calls)
      invariant Chosen(updates, from, spec, i)
    {
      ghost var c := SensitiveUpdateOf(wanted[i], mount, listed);
      SensitiveUpdatesStep(wanted, i, mount, listed);
      NotYetChosen(updates, from, spec, i);
      var chosen, retrieved := TargetSensitive(spec[i], listed, mount);
      if !retrieved {
        StoppedStaysStopped(wanted, i + 1, mount, listed);
        return [], false;
      }
      ChooseOneMore(updates, from, spec, i, calls, c);
      calls := calls + Optional(c);
      if chosen {
        updates, from := updates + [spec[i]], from + [i];
      }
    }
    assert wanted[..|spec|] == wanted;
    ok := true;
  }

  lemma {:induction false} StoppedStaysStopped(spec: seq<Setting>, n: nat, mount: map<string, string>,
      listed: seq<Listed>)
    requires n <= |spec| && !SensitiveUpdates(spec[..n], mount, listed).ok
    ensures !SensitiveUpdates(spec, mount, listed).ok
  {
    if n < |spec| {
      assert spec[..|spec| - 1][..n] == spec[..n];
      StoppedStaysStopped(spec[..|spec| - 1], n, mount, listed);
    } else {
      assert spec[..n] == spec;
    }
  }

  /** The sensitive pass works on the same objects after the other, and leaves those it chose alone. */
  method GenerateUpdateVariableList(spec: seq<Variable>, listed: seq<Listed>, mount: map<string, string>,
      ghost wanted: seq<Setting>)
    returns (updates: seq<Variable>, ok: bool)
    requires Distinct(spec) && Hold(spec, wanted)
    modifies spec
    ensures ok == Updates(wanted, mount, listed).ok
    ensures ok ==> Carry(updates, Updates(wanted, mount, listed).calls)
  {
    updates := [];
    var nonSensitive := GetNonSensitiveVariablesToUpdate(spec, listed, wanted);
    if |nonSensitive| == 0 {
      return [], true;
    }
    label Between:
    var sensitive;
    sensitive, ok := GetSensitiveVariablesToUpdate(spec, listed, mount, wanted);
    if !ok {
      return nonSensitive, false;
    }
    assert forall k :: 0 <= k < |nonSensitive| ==> unchanged@Between(nonSensitive[k]);
    CarryBoth(nonSensitive, PlainUpdates(wanted, listed), sensitive, SensitiveUpdates(wanted, mount, listed).calls);
    updates := nonSensitive + sensitive;
  }

  lemma CarryBoth(vs: seq<Variable>, calls: seq<Call>, ws: seq<Variable>, others: seq<Call>)
    requires Carry(vs, calls) && Carry(ws, others)
    ensures Carry(vs + ws, calls + others)
  {
  }

  /** The server keeps the keys of a workspace's variables distinct. */
  type Keyed = r: Remote | DistinctKeys(r) witness Remote(map[], 0)

  class VariableClient {
    var remote: Keyed
    const mount: map<string, string>

    constructor (remote: Keyed, mount: map<string, string>)
      ensures this.remote == remote && this.mount == mount
    {
      this.remote := remote;
      this.mount := mount;
    }

    /** A call that changes variables, which may fail with or without effect; one that would make two variables
        share a key is turned down. */
    method Send(c: Call) returns (ok: bool, ghost done: seq<Call>)
      modifies this
      ensures done <= [c] && (ok ==> done == [c]) && remote == ApplyAll(old(remote), done)
    {
      var o: Outcome := *;
      done := [];
      if !DistinctKeys(Apply(remote, c)) {
        return false, done;
      }
      if o.Effective() {
        done := [c];
        assert ApplyAll(remote, [c]) == Apply(ApplyAll(remote, []), c);
        remote := Apply(remote, c);
      }
      ok := o.Done?;
    }

    /** The reads of CheckVariables: the workspace, then its variables. */
    method ListVariables() returns (ok: bool, listed: seq<Listed>)
      ensures Lists(listed, remote)
    {
      ok, listed := *, [];
      var ids := remote.vars.Keys;
      while ids != {}
        invariant ids <= remote.vars.Keys
        invariant forall l :: l in listed ==>
                  l.id in remote.vars && l.id !in ids && l.shown == Masked(remote.vars[l.id])
        invariant forall i, j :: 0 <= i < j < |listed| ==> listed[i].id != listed[j].id
        invariant forall id :: id in remote.vars && id !in ids ==> Listed(id, Masked(remote.vars[id])) in listed
        decreases ids
      {
        var id :| id in ids;
        listed := listed + [Listed(id, Masked(remote.vars[id]))];
        ids := ids - {id};
      }
    }

    method DeleteIfExtra(spec: seq<Variable>, l: Listed, ghost wanted: seq<Setting>)
        returns (ok: bool, ghost done: seq<Call>)
      requires Hold(spec, wanted)
      modifies this
      ensures remote == ApplyAll(old(remote), done)
      ensures done <= Optional(DeleteOf(wanted, l)) && (ok ==> done == Optional(DeleteOf(wanted, l)))
    {
      ok, done := true, [];
      var index := FindIn(spec, l.shown.key, wanted);
      if index < 0 {
        ok, done := Send(Delete(l.id));
      }
    }

    method DeleteVariablesFromTFC(spec: seq<Variable>, listed: seq<Listed>, ghost wanted: seq<Setting>)
      returns (ok: bool, ghost done: seq<Call>)
      requires Hold(spec, wanted)
      modifies this
      ensures remote == ApplyAll(old(remote), done)
      ensures done <= Deletes(wanted, listed) && (ok ==> done == Deletes(wanted, listed))
    {
      done := [];
      for i := 0 to |listed|
        invariant done == Deletes(wanted, listed[..i]) && remote == ApplyAll(old(remote), done)
      {
        DeletesStep(wanted, listed, i);
        DeletesGrow(wanted, listed, i + 1);
        var sent, c := DeleteIfExtra(spec, listed[i], wanted);
        ApplyConcat(old(remote), done, c);
        done := done + c;
        if !sent {
          return false, done;
        }
      }
      assert listed[..|listed|] == listed;
      ok := true;
    }

    method CreateTerraformVariable(v: Variable) returns (ok: bool, ghost done: seq<Call>)
      modifies this, v
      ensures remote == ApplyAll(old(remote), done)
      ensures match Retrieve(old(v.Setting()), mount)
              case None => !ok && done == []
              case Some(w) => done <= [Create(w)] && (ok ==> done == [Create(w)])
    {
      done := [];
      ok := CheckAndRetrieveIfSensitive(v, mount);
      if ok {
        ok, done := Send(Create(v.Setting()));
      }
    }

    method CreateIfMissing(v: Variable, listed: seq<Listed>, ghost wanted: Setting)
      returns (created: bool, ok: bool, ghost done: seq<Call>)
      requires v.Setting() == wanted
      modifies this, v
      ensures remote == ApplyAll(old(remote), done)
      ensures done <= Optional(CreateOf(wanted, mount, listed))
      ensures ok ==> done == Optional(CreateOf(wanted, mount, listed)) && created == (done != [])
      ensures ok ==> Find(listed, wanted.key).Some? || Retrieve(wanted, mount).Some?
      ensures Find(listed, wanted.key).Some? ==> v.Setting() == wanted
    {
      created, ok, done := false, true, [];
      var index := FindListed(listed, v.key);
      if index < 0 {
        ok, done := CreateTerraformVariable(v);
        created := ok;
      }
    }

    method CreateVariablesOnTFC(spec: seq<Variable>, listed: seq<Listed>, ghost wanted: seq<Setting>)
      returns (updated: bool, ok: bool, ghost done: seq<Call>)
      requires Distinct(spec) && Hold(spec, wanted)
      modifies this, spec
      ensures remote == ApplyAll(old(remote), done)
      ensures var p := Creates(wanted, mount, listed); done <= p.calls && (ok ==> p == Partial(done, true))
      ensures ok ==> updated == (done != [])
      ensures forall j :: 0 <= j < |spec| && Find(listed, wanted[j].key).Some? ==> spec[j].Setting() == wanted[j]
    {
      updated, done := false, [];
      for i := 0 to |spec|
        invariant forall j :: 0 <= j < |spec| && (j >= i || Find(listed, wanted[j].key).Some?) ==>
                  spec[j].Setting() == wanted[j]
        invariant Creates(wanted[..i], mount, listed) == Partial(done, true) && remote == ApplyAll(old(remote), done)
        invariant updated == (done != [])
      {
        var created, sent, c := CreateIfMissing(spec[i], listed, wanted[i]);
        CreatesGoOn(wanted, i, mount, listed, done, c, sent);
        ApplyConcat(old(remote), done, c);
        done := done + c;
        if !sent {
          return false, false, done;
        }
        updated := updated || created;
      }
      assert wanted[..|spec|] == wanted;
      ok := true;
    }

    method UpdateTerraformVariables(vs: seq<Variable>, ghost calls: seq<Call>) returns (ok: bool, ghost done: seq<Call>)
      requires Carry(vs, calls)
      modifies this
      ensures remote == ApplyAll(old(remote), done)
      ensures done <= calls && (ok ==> done == calls)
    {
      done := [];
      for i := 0 to |vs|
        invariant done == calls[..i] && remote == ApplyAll(old(remote), done) && Carry(vs, calls)
      {
        var sent, c := Send(vs[i].UpdateCall());
        ApplyConcat(old(remote), done, c);
        done := done + c;
        if !sent {
          return false, done;
        }
      }
      ok := true;
    }

    /** Makes the remote variables agree with the spec, call by call of the plan, and says whether some that
        were already there had to be changed. */
    method CheckVariables(spec: seq<Variable>, ghost wanted: seq<Setting>)
      returns (updated: bool, ok: bool, ghost listed: seq<Listed>, ghost done: seq<Call>)
      requires Distinct(spec) && Hold(spec, wanted)
      modifies this, spec
      ensures Lists(listed, old(remote)) && remote == ApplyAll(old(remote), done)
      ensures var plan := Plan(wanted, mount, listed);
              done <= plan.calls && (ok ==> plan == Outline(done, true, updated))
      ensures !ok ==> !updated
    {
      var shown;
      ok, shown := ListVariables();
      listed, done, updated := shown, [], false;
      ghost var c, now;
      if !ok {
        return;
      }
      ok, done := DeleteVariablesFromTFC(spec, shown, wanted);
      PlanStarts(wanted, mount, shown, done);
      if !ok {
        return;
      }
      var created;
      created, ok, c := CreateVariablesOnTFC(spec, shown, wanted);
      ApplyConcat(old(remote), done, c);
      done := done + c;
      PlanContinues(wanted, mount, shown, c);
      if !ok {
        return;
      }
      now := Current(spec);
      SameUpdates(wanted, now, mount, shown);
      var updates;
      updates, ok := GenerateUpdateVariableList(spec, shown, mount, now);
      if !ok || |updates| == 0 {
        PlanEnds(wanted, mount, shown, []);
        return;
      }
      ok, c := UpdateTerraformVariables(updates, Updates(wanted, mount, shown).calls);
      ApplyConcat(old(remote), done, c);
      done := done + c;
      PlanEnds(wanted, mount, shown, c);
      if !ok {
        return;
      }
      updated := created || |updates| > 0;
    }
  }

  lemma PlanStarts(spec: seq<Setting>, mount: map<string, string>, listed: seq<Listed>, c: seq<Call>)
    requires c <= Deletes(spec, listed)
    ensures c <= Plan(spec, mount, listed).calls
  {
  }

  lemma PlanContinues(spec: seq<Setting>, mount: map<string, string>, listed: seq<Listed>, c: seq<Call>)
    requires c <= Creates(spec, mount, listed).calls
    ensures Deletes(spec, listed) + c <= Plan(spec, mount, listed).calls
  {
    var deletes, creates := Deletes(spec, listed), Creates(spec, mount, listed).calls;
    assert Plan(spec, mount, listed).calls[..|deletes| + |creates|] == deletes + creates;
  }

  lemma PlanEnds(spec: seq<Setting>, mount: map<string, string>, listed: seq<Listed>, c: seq<Call>)
    requires Creates(spec, mount, listed).ok && c <= Updates(spec, mount, listed).calls
    ensures var done := Deletes(spec, listed) + Creates(spec, mount, listed).calls + c;
            var updates := Updates(spec, mount, listed);
            && done <= Plan(spec, mount, listed).calls
            && (c == updates.calls ==> Plan(spec, mount, listed) == Outline(done, updates.ok, updates.ok && c != []))
    ensures Deletes(spec, listed) + Creates(spec, mount, listed).calls + [] ==
            Deletes(spec, listed) + Creates(spec, mount, listed).calls
  {
    var plan := Plan(spec, mount, listed);
    assert plan.calls ==
           Deletes(spec, listed) + Creates(spec, mount, listed).calls + Updates(spec, mount, listed).calls;
  }

  ghost function Current(vs: seq<Variable>): (settings: seq<Setting>)
    reads vs
    ensures Hold(vs, settings)
  {
    seq(|vs|, i requires 0 <= i < |vs| reads vs => vs[i].Setting())
  }

  lemma DeletesStep(spec: seq<Setting>, listed: seq<Listed>, i: nat)
    requires i < |listed|
    ensures Deletes(spec, listed[..i + 1]) == Deletes(spec, listed[..i]) + Optional(DeleteOf(spec, listed[i]))
  {
    assert listed[..i + 1][..i] == listed[..i];
  }

  lemma CreatesStep(spec: seq<Setting>, i: nat, mount: map<string, string>, listed: seq<Listed>)
    requires i < |spec| && Creates(spec[..i], mount, listed).ok
    ensures var before := Creates(spec[..i], mount, listed);
            Creates(spec[..i + 1], mount, listed) ==
            if Find(listed, spec[i].key).None? && Retrieve(spec[i], mount).None? then before.(ok := false)
            else before.(calls := before.calls + Optional(CreateOf(spec[i], mount, listed)))
  {
    assert spec[..i + 1][..i] == spec[..i];
  }

  /** One more variable in the create pass, whether its call went through or not. */
  lemma CreatesGoOn(spec: seq<Setting>, i: nat, mount: map<string, string>, listed: seq<Listed>, calls: seq<Call>,
                    c: seq<Call>, sent: bool)
    requires i < |spec| && Creates(spec[..i], mount, listed) == Partial(calls, true)
    requires c <= Optional(CreateOf(spec[i], mount, listed))
    requires sent ==> c == Optional(CreateOf(spec[i], mount, listed))
    requires sent ==> Find(listed, spec[i].key).Some? || Retrieve(spec[i], mount).Some?
    ensures calls + c <= Creates(spec, mount, listed).calls
    ensures sent ==> Creates(spec[..i + 1], mount, listed) == Partial(calls + c, true)
  {
    CreatesStep(spec, i, mount, listed);
    CreatesGrow(spec, i + 1, mount, listed);
    PrefixOfSum(calls, c, Optional(CreateOf(spec[i], mount, listed)));
  }

  lemma PrefixOfSum(calls: seq<Call>, c: seq<Call>, d: seq<Call>)
    requires c <= d
    ensures calls + c <= calls + d
  {
  }

  lemma {:induction false} DeletesGrow(spec: seq<Setting>, listed: seq<Listed>, n: nat)
    requires n <= |listed|
    ensures Deletes(spec, listed[..n]) <= Deletes(spec, listed)
  {
    if n < |listed| {
      assert listed[..|listed| - 1][..n] == listed[..n];
      DeletesGrow(spec, listed[..|listed| - 1], n);
    } else {
      assert listed[..n] == listed;
    }
  }

  lemma {:induction false} CreatesGrow(spec: seq<Setting>, n: nat, mount: map<string, string>, listed: seq<Listed>)
    requires n <= |spec|
    ensures Creates(spec[..n], mount, listed).calls <= Creates(spec, mount, listed).calls
    ensures !Creates(spec[..n], mount, listed).ok ==> !Creates(spec, mount, listed).ok
  {
    if n < |spec| {
      assert spec[..|spec| - 1][..n] == spec[..n];
      CreatesGrow(spec[..|spec| - 1], n, mount, listed);
    } else {
      assert spec[..n] == spec;
    }
  }

  /** The create pass changes only variables that are not listed, and so leaves the update list the same. */
  lemma {:induction false} SameUpdates(spec: seq<Setting>, now: seq<Setting>, mount: map<string, string>,
      listed: seq<Listed>)
    requires |spec| == |now|
    requires forall i :: 0 <= i < |spec| ==>
               now[i].key == spec[i].key && (Find(listed, spec[i].key).Some? ==> now[i] == spec[i])
    ensures PlainUpdates(now, listed) == PlainUpdates(spec, listed)
    ensures SensitiveUpdates(now, mount, listed) == SensitiveUpdates(spec, mount, listed)
    ensures Updates(now, mount, listed) == Updates(spec, mount, listed)
  {
    if spec != [] {
      SameUpdates(spec[..|spec| - 1], now[..|spec| - 1], mount, listed);
    }
  }
}
