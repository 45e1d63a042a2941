/**
 Making the inbound run triggers of a workspace agree with the spec (workspacehelper/tfc_run_trigger.go).

 A trigger is known by the name of its source workspace.  Deletes and creates are both decided from one
 listing, taken before anything was deleted.
 */
module RunTriggers {
  import opened Outcomes

  /** The server's triggers: from identifiers to the names of the sources. */
  datatype Remote = Remote(sources: map<nat, string>, next: nat)

  datatype Listed = Listed(id: nat, source: string)

  datatype Call = Delete(id: nat) | Create(source: string)

  function Apply(r: Remote, c: Call): Remote {
    match c
    case Delete(id) => r.(sources := r.sources - {id})
    case Create(source) => Remote(r.sources[r.next := source], r.next + 1)
  }

  function ApplyAll(r: Remote, calls: seq<Call>): Remote {
    if calls == [] then r else Apply(ApplyAll(r, calls[..|calls| - 1]), calls[|calls| - 1])
  }

  predicate ValidRemote(r: Remote) { forall id :: id in r.sources ==> id < r.next }

  predicate Lists(listed: seq<Listed>, r: Remote) {
    && (forall l :: l in listed ==> l.id in r.sources && l.source == r.sources[l.id])
    && (forall id :: id in r.sources ==> Listed(id, r.sources[id]) in listed)
  }

  predicate Has(listed: seq<Listed>, source: string) { exists l :: l in listed && l.source == source }

  function Deletes(spec: seq<string>, listed: seq<Listed>): seq<Call> {
    if listed == [] then []
    else
      var last := listed[|listed| - 1];
      var before := Deletes(spec, listed[..|listed| - 1]);
      if last.source in spec then before else before + [Delete(last.id)]
  }

  function Creates(spec: seq<string>, listed: seq<Listed>): seq<Call> {
    if spec == [] then []
    else
      var last := spec[|spec| - 1];
      var before := Creates(spec[..|spec| - 1], listed);
      if Has(listed, last) then before else before + [Create(last)]
  }

  /** The calls of CheckRunTriggers, when all of them succeed. */
  function Plan(spec: seq<string>, listed: seq<Listed>): seq<Call> { Deletes(spec, listed) + Creates(spec, listed) }

  predicate HasSource(r: Remote, source: string) { exists id :: id in r.sources && r.sources[id] == source }

  /** The remote source names are those of the spec. */
  predicate Mirrors(spec: seq<string>, r: Remote) {
    && (forall id :: id in r.sources ==> r.sources[id] in spec)
    && (forall s :: s in spec ==> HasSource(r, s))
  }

  lemma {:induction false} ApplyConcat(r: Remote, a: seq<Call>, b: seq<Call>)
    ensures ApplyAll(r, a + b) == ApplyAll(ApplyAll(r, a), b)
  {
    if b == [] {
      assert a + b == a;
    } else {
      ApplyConcat(r, a, b[..|b| - 1]);
      assert (a + b)[..|a + b| - 1] == a + b[..|b| - 1];
    }
  }

  lemma {:induction false} DeletesEffect(spec: seq<string>, listed: seq<Listed>, r: Remote)
    ensures var s := ApplyAll(r, Deletes(spec, listed));
            && s.next == r.next
            && (forall id :: id in s.sources ==> id in r.sources && s.sources[id] == r.sources[id])
            && (forall id :: id in r.sources ==>
                  (id !in s.sources <==> exists l :: l in listed && l.id == id && l.source !in spec))
  {
    if listed != [] {
      var before, last := listed[..|listed| - 1], listed[|listed| - 1];
      DeletesEffect(spec, before, r);
      assert forall l :: l in listed <==> l in before || l == last;
      var d := Deletes(spec, before);
      ApplyConcat(r, d, if last.source in spec then [] else [Delete(last.id)]);
      assert ApplyAll(ApplyAll(r, d), [Delete(last.id)]) == Apply(ApplyAll(ApplyAll(r, d), []), Delete(last.id));
    }
  }

  /** The create pass creates a trigger for each source of the spec that is not listed, and no other. */
  lemma {:induction false} CreatesWhich(spec: seq<string>, listed: seq<Listed>)
    ensures forall c :: c in Creates(spec, listed) ==> c.Create? && c.source in spec && !Has(listed, c.source)
    ensures forall n :: n in spec && !Has(listed, n) ==> Create(n) in Creates(spec, listed)
  {
    if spec != [] {
      CreatesWhich(spec[..|spec| - 1], listed);
    }
  }

  lemma {:induction false} ApplyCreates(r: Remote, calls: seq<Call>)
    requires ValidRemote(r) && forall c :: c in calls ==> c.Create?
    ensures var s := ApplyAll(r, calls);
            && s.next == r.next + |calls|
            && (forall id :: id in s.sources <==> id in r.sources || r.next <= id < s.next)
            && (forall id :: id in r.sources ==> s.sources[id] == r.sources[id])
            && (forall id :: r.next <= id < s.next ==> s.sources[id] == calls[id - r.next].source)
  {
    if calls != [] {
      assert calls[|calls| - 1] in calls;
      ApplyCreates(r, calls[..|calls| - 1]);
    }
  }

  lemma CreatesEffect(spec: seq<string>, listed: seq<Listed>, r: Remote)
    requires ValidRemote(r)
    ensures var s := ApplyAll(r, Creates(spec, listed));
            && ValidRemote(s)
            && (forall id :: id in r.sources ==> id in s.sources && s.sources[id] == r.sources[id])
            && (forall id :: id in s.sources && id !in r.sources ==>
                  s.sources[id] in spec && !Has(listed, s.sources[id]))
            && (forall n :: n in spec && !Has(listed, n) ==> HasSource(s, n))
  {
    var calls := Creates(spec, listed);
    CreatesWhich(spec, listed);
    ApplyCreates(r, calls);
    var s := ApplyAll(r, calls);
    forall id | id in s.sources && id !in r.sources
      ensures s.sources[id] in spec && !Has(listed, s.sources[id])
    {
      assert calls[id - r.next] in calls;
    }
    forall n | n in spec && !Has(listed, n)
      ensures HasSource(s, n)
    {
      CreatedIsThere(calls, r, n);
    }
  }

  lemma CreatedIsThere(calls: seq<Call>, r: Remote, n: string)
    requires ValidRemote(r) && Create(n) in calls && forall c :: c in calls ==> c.Create?
    ensures HasSource(ApplyAll(r, calls), n)
  {
    ApplyCreates(r, calls);
    var j :| 0 <= j < |calls| && calls[j] == Create(n);
    var id := r.next + j;
    assert ApplyAll(r, calls).sources[id] == calls[id - r.next].source;
  }

  /** The create pass may work from the listing taken before the deletes: a fresh one would decide the same. */
  lemma StaleListingDecidesTheSame(spec: seq<string>, listed: seq<Listed>, r: Remote, relisted: seq<Listed>)
    requires Lists(listed, r) && Lists(relisted, ApplyAll(r, Deletes(spec, listed)))
    ensures Creates(spec, relisted) == Creates(spec, listed)
  {
    DeletesEffect(spec, listed, r);
    var s := ApplyAll(r, Deletes(spec, listed));
    forall n | n in spec
      ensures Has(relisted, n) <==> Has(listed, n)
    {
      if Has(listed, n) {
        var l :| l in listed && l.source == n;
        assert Listed(l.id, s.sources[l.id]) in relisted;
      }
      if Has(relisted, n) {
        var l :| l in relisted && l.source == n;
        assert Listed(l.id, r.sources[l.id]) in listed;
      }
    }
    SameCreates(spec, listed, relisted);
  }

  lemma {:induction false} SameCreates(spec: seq<string>, listed: seq<Listed>, relisted: seq<Listed>)
    requires forall n :: n in spec ==> (Has(relisted, n) <==> Has(listed, n))
    ensures Creates(spec, relisted) == Creates(spec, listed)
  {
    if spec != [] {
      assert spec[|spec| - 1] in spec;
      SameCreates(spec[..|spec| - 1], listed, relisted);
    }
  }

  /** Carried out to the end, the plan makes the remote names those of the spec. */
  lemma PlanConverges(spec: seq<string>, listed: seq<Listed>, r: Remote)
    requires ValidRemote(r) && Lists(listed, r)
    ensures var s := ApplyAll(r, Plan(spec, listed)); ValidRemote(s) && Mirrors(spec, s)
  {
    var kept := ApplyAll(r, Deletes(spec, listed));
    ApplyConcat(r, Deletes(spec, listed), Creates(spec, listed));
    DeletesEffect(spec, listed, r);
    CreatesEffect(spec, listed, kept);
    var s := ApplyAll(r, Plan(spec, listed));
    forall id | id in s.sources
      ensures s.sources[id] in spec
    {
      if id in kept.sources {
        assert Listed(id, r.sources[id]) in listed;
      }
    }
    forall n | n in spec
      ensures HasSource(s, n)
    {
      if Has(listed, n) {
        var l :| l in listed && l.source == n;
        assert l.id in kept.sources by {
          assert forall m :: m in listed && m.id == l.id ==> m.source == n;
        }
        assert s.sources[l.id] == n;
      } else {
        assert HasSource(s, n);
      }
    }
  }

  /** Nothing is left to do exactly when the names agree; so a second call makes no change and returns false. */
  lemma NoCallsWhenMirrored(spec: seq<string>, listed: seq<Listed>, r: Remote)
    requires ValidRemote(r) && Lists(listed, r)
    ensures Plan(spec, listed) == [] <==> Mirrors(spec, r)
  {
    if Mirrors(spec, r) {
      forall n | n in spec
        ensures Has(listed, n)
      {
        var id :| id in r.sources && r.sources[id] == n;
        assert Listed(id, r.sources[id]) in listed;
      }
      NoDeletes(spec, listed);
      NoCreates(spec, listed);
    } else if Plan(spec, listed) == [] {
      assert ApplyAll(r, []) == r;
      PlanConverges(spec, listed, r);
    }
  }

  lemma {:induction false} NoCreates(spec: seq<string>, listed: seq<Listed>)
    requires forall n :: n in spec ==> Has(listed, n)
    ensures Creates(spec, listed) == []
  {
    if spec != [] {
      assert spec[|spec| - 1] in spec;
      NoCreates(spec[..|spec| - 1], listed);
    }
  }

  lemma {:induction false} NoDeletes(spec: seq<string>, listed: seq<Listed>)
    requires forall l :: l in listed ==> l.source in spec
    ensures Deletes(spec, listed) == []
  {
    if listed != [] {
      assert listed[|listed| - 1] in listed;
      NoDeletes(spec, listed[..|listed| - 1]);
    }
  }

  /****** The code ******/

  function Names(listed: seq<Listed>): (names: seq<string>)
    ensures |names| == |listed| && forall n :: n in names <==> Has(listed, n)
  {
    var names := seq(|listed|, i requires 0 <= i < |listed| => listed[i].source);
    assert forall i :: 0 <= i < |listed| ==> listed[i] in listed && names[i] == listed[i].source;
    names
  }

  method FindRT(names: seq<string>, source: string) returns (index: int)
    ensures if index < 0 then source !in names else index < |names| && names[index] == source
  {
    for i := 0 to |names|
      invariant source !in names[..i]
    {
      if names[i] == source {
        return i;
      }
    }
    return -1;
  }

  class TriggerClient {
    var remote: Remote
    /** The server turns down no trigger. */
    const takesAll: bool

    constructor (remote: Remote, takesAll: bool)
      ensures this.remote == remote && this.takesAll == takesAll
    {
      this.remote, this.takesAll := remote, takesAll;
    }

    method Send(c: Call) returns (ok: bool, ghost done: seq<Call>)
      modifies this
      ensures done <= [c] && (ok ==> done == [c]) && remote == ApplyAll(old(remote), done)
      ensures takesAll && c.Create? ==> ok
    {
      var o: Outcome := *;
      done := [];
      if takesAll && c.Create? {
        o := Done;
      }
      if o.Effective() {
        done := [c];
        assert ApplyAll(remote, [c]) == Apply(ApplyAll(remote, []), c);
        remote := Apply(remote, c);
      }
      ok := o.Done?;
    }

    method ListRunTriggers() returns (ok: bool, listed: seq<Listed>)
      ensures Lists(listed, remote)
    {
      ok, listed := *, [];
      var ids := remote.sources.Keys;
      while ids != {}
        invariant ids <= remote.sources.Keys
        invariant forall l :: l in listed ==> l.id in remote.sources && l.source == remote.sources[l.id]
        invariant forall id :: id in remote.sources && id !in ids ==> Listed(id, remote.sources[id]) in listed
        decreases ids
      {
        var id :| id in ids;
        listed := listed + [Listed(id, remote.sources[id])];
        ids := ids - {id};
      }
    }

    method DeleteRunTriggersFromTFC(spec: seq<string>, listed: seq<Listed>) returns (ok: bool, ghost done: seq<Call>)
      modifies this
      ensures remote == ApplyAll(old(remote), done)
      ensures done <= Deletes(spec, listed) && (ok ==> done == Deletes(spec, listed))
    {
      done := [];
      for i := 0 to |listed|
        invariant done == Deletes(spec, listed[..i]) && remote == ApplyAll(old(remote), done)
      {
        DeletesStep(spec, listed, i);
        var index := FindRT(spec, listed[i].source);
        if index < 0 {
          var sent, c := Send(Delete(listed[i].id));
          ApplyConcat(old(remote), done, c);
          done := done + c;
          if !sent {
            return false, done;
          }
        }
      }
      assert listed[..|listed|] == listed;
      ok := true;
    }

    /** The answer to the create call is not looked at; only the look-up of the source can fail. */
    method CreateTerraformRunTrigger(source: string) returns (ok: bool, ghost refused: bool, ghost done: seq<Call>)
      modifies this
      ensures remote == ApplyAll(old(remote), done)
      ensures done <= [Create(source)] && (ok && !refused ==> done == [Create(source)])
      ensures takesAll ==> !refused
    {
      var found: bool := *;
      if !found {
        return false, false, [];
      }
      var sent, c := Send(Create(source));
      return true, !sent, c;
    }

    /** `refused` tells that the server turned down a create call, which goes unnoticed. */
    method CreateRunTriggersOnTFC(spec: seq<string>, listed: seq<Listed>)
      returns (updated: bool, ok: bool, ghost refused: bool, ghost done: seq<Call>)
      modifies this
      ensures remote == ApplyAll(old(remote), done)
      ensures (!refused ==> done <= Creates(spec, listed)) && (takesAll ==> !refused)
      ensures ok && !refused ==> done == Creates(spec, listed)
      ensures ok ==> updated == (Creates(spec, listed) != [])
    {
      updated, refused, done := false, false, [];
      for i := 0 to |spec|
        invariant remote == ApplyAll(old(remote), done)
        invariant (!refused ==> done == Creates(spec[..i], listed)) && (takesAll ==> !refused)
        invariant updated == (Creates(spec[..i], listed) != [])
      {
        CreatesStep(spec, i, listed);
        var index := FindRT(Names(listed), spec[i]);
        if index < 0 {
          var sent, dropped, c := CreateTerraformRunTrigger(spec[i]);
          ApplyConcat(old(remote), done, c);
          done := done + c;
          refused := refused || dropped;
          if !sent {
            return false, false, refused, done;
          }
          updated := true;
        }
      }
      assert spec[..|spec|] == spec;
      ok := true;
    }

    method CheckRunTriggers(spec: seq<string>)
      returns (updated: bool, ok: bool, ghost refused: bool, ghost listed: seq<Listed>, ghost done: seq<Call>)
      modifies this
      ensures Lists(listed, old(remote)) && remote == ApplyAll(old(remote), done)
      ensures (!refused ==> done <= Plan(spec, listed)) && (takesAll ==> !refused)
      ensures ok && !refused ==> done == Plan(spec, listed)
      ensures ok ==> updated == (Creates(spec, listed) != [])
    {
      var shown;
      ok, shown := ListRunTriggers();
      updated, refused, listed, done := false, false, shown, [];
      if !ok {
        return;
      }
      ok, done := DeleteRunTriggersFromTFC(spec, shown);
      if !ok {
        return;
      }
      ghost var c;
      updated, ok, refused, c := CreateRunTriggersOnTFC(spec, shown);
      ApplyConcat(old(remote), done, c);
      done := done + c;
    }
  }

  lemma DeletesStep(spec: seq<string>, listed: seq<Listed>, i: nat)
    requires i < |listed|
    ensures Deletes(spec, listed[..i + 1]) ==
            if listed[i].source in spec then Deletes(spec, listed[..i])
            else Deletes(spec, listed[..i]) + [Delete(listed[i].id)]
    ensures Deletes(spec, listed[..i + 1]) <= Deletes(spec, listed)
  {
    assert listed[..i + 1][..i] == listed[..i];
    DeletesGrow(spec, listed, i + 1);
  }

  lemma CreatesStep(spec: seq<string>, i: nat, listed: seq<Listed>)
    requires i < |spec|
    ensures Creates(spec[..i + 1], listed) ==
            if Has(listed, spec[i]) then Creates(spec[..i], listed) else Creates(spec[..i], listed) + [Create(spec[i])]
    ensures Creates(spec[..i + 1], listed) <= Creates(spec, listed)
  {
    assert spec[..i + 1][..i] == spec[..i];
    CreatesGrow(spec, i + 1, listed);
  }

  lemma {:induction false} DeletesGrow(spec: seq<string>, listed: seq<Listed>, n: nat)
    requires n <= |listed|
    ensures Deletes(spec, listed[..n]) <= Deletes(spec, listed)
  {
    if n < |listed| {
      assert listed[..|listed| - 1][..n] == listed[..n];
      DeletesGrow(spec, listed[..|listed| - 1], n);
    } else {
      assert listed[..n] == listed;
    }
  }

  lemma {:induction false} CreatesGrow(spec: seq<string>, n: nat, listed: seq<Listed>)
    requires n <= |spec|
    ensures Creates(spec[..n], listed) <= Creates(spec, listed)
  {
    if n < |spec| {
      assert spec[..|spec| - 1][..n] == spec[..n];
      CreatesGrow(spec[..|spec| - 1], n, listed);
    } else {
      assert spec[..n] == spec;
    }
  }
}
