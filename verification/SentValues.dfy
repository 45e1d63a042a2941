/**
 Which values, flags and categories a sync of the variables sends, and what the server holds afterwards
 (workspacehelper/tfc_variable.go), said of the spec and of the mounted files only.
 */
module SentValues {
  import opened Options
  import opened Variables

  /** The value to be held for a variable: its own if it has one; a sensitive one without takes its file's content. */
  predicate IsValueFor(v: Setting, mount: map<string, string>, value: string) {
    if v.value != "" then value == v.value
    else if v.sensitive then v.key in mount && value == mount[v.key]
    else value == ""
  }

  /** A sensitive variable has no value, and no file. */
  predicate Lacking(v: Setting, mount: map<string, string>) { v.sensitive && v.value == "" && v.key !in mount }

  /** A value that is there is never replaced, and never makes the lookup fail; one that is not comes from the file,
      and the lookup fails exactly if there is none. */
  lemma RetrieveIsExact(v: Setting, mount: map<string, string>)
    ensures Retrieve(v, mount).None? <==> Lacking(v, mount)
    ensures Retrieve(v, mount).Some? ==>
              var w := Retrieve(v, mount).value; w == v.(value := w.value) && IsValueFor(v, mount, w.value)
  {
  }

  predicate ListedAs(listed: seq<Listed>, id: nat, sensitive: bool) {
    exists l :: l in listed && l.id == id && l.shown.sensitive == sensitive
  }

  predicate ListedKey(listed: seq<Listed>, key: string) { exists l :: l in listed && l.shown.key == key }

  /** A create is for a variable of the spec that is not listed, and carries all that the spec says of it. */
  predicate CreateIsRight(c: Call, spec: seq<Setting>, mount: map<string, string>, listed: seq<Listed>)
    requires c.Create?
  {
    !ListedKey(listed, c.v.key) && IsCreatedFor(c.v, spec, mount)
  }

  /** An update of a variable that is sensitive carries its value and keeps it sensitive; that of another one carries
      value and flags as the spec has them. */
  predicate UpdateIsRight(c: Call, spec: seq<Setting>, mount: map<string, string>, listed: seq<Listed>)
    requires c.Update?
  {
    exists v :: v in spec && UpdateCarries(c, v, mount, listed)
  }

  predicate UpdateCarries(c: Call, v: Setting, mount: map<string, string>, listed: seq<Listed>)
    requires c.Update?
  {
    && c.key == v.key && c.hcl == v.hcl
    && ((ListedAs(listed, c.id, true) && c.sensitive && IsValueFor(v, mount, c.value)) ||
        (ListedAs(listed, c.id, false) && c.sensitive == v.sensitive && c.value == v.value))
  }

  predicate IsRight(c: Call, spec: seq<Setting>, mount: map<string, string>, listed: seq<Listed>) {
    if c.Create? then CreateIsRight(c, spec, mount, listed)
    else if c.Update? then UpdateIsRight(c, spec, mount, listed)
    else exists l :: l in listed && l.id == c.id && forall v :: v in spec ==> v.key != l.shown.key
  }

  /** All that the spec says of a variable, with its value. */
  predicate IsCreatedFor(w: Setting, spec: seq<Setting>, mount: map<string, string>) {
    exists v :: v in spec && w == v.(value := w.value) && IsValueFor(v, mount, w.value)
  }

  lemma NoneIsListed(listed: seq<Listed>, key: string)
    requires Find(listed, key).None?
    ensures !ListedKey(listed, key)
  {
  }

  lemma CreateCarries(c: Call, spec: seq<Setting>, mount: map<string, string>, listed: seq<Listed>)
    requires DistinctSettings(spec) && c in Creates(spec, mount, listed).calls
    ensures c.Create? && CreateIsRight(c, spec, mount, listed)
  {
    CreatesWhich(spec, mount, listed);
    var v := Wanted(spec, c.v.key).value;
    RetrieveIsExact(v, mount);
    NoneIsListed(listed, v.key);
  }

  lemma UpdateCarriesWhat(c: Call, spec: seq<Setting>, mount: map<string, string>, listed: seq<Listed>, r: Remote)
    requires DistinctSettings(spec) && Lists(listed, r) && Updates(spec, mount, listed).ok
    requires c in Updates(spec, mount, listed).calls
    ensures c.Update? && UpdateIsRight(c, spec, mount, listed)
  {
    UpdatesWhich(spec, mount, listed, r);
    var v := Wanted(spec, c.key).value;
    var l := Find(listed, v.key).value;
    assert l in listed;
    RetrieveIsExact(v, mount);
    assert UpdateCarries(c, v, mount, listed);
  }

  /** Every call of a sync, wherever it stops, is right. */
  lemma EveryCallIsRight(spec: seq<Setting>, mount: map<string, string>, listed: seq<Listed>, r: Remote)
    requires DistinctSettings(spec) && Lists(listed, r)
    ensures forall c :: c in Plan(spec, mount, listed).calls ==> IsRight(c, spec, mount, listed)
  {
    PlanCalls(spec, mount, listed, r);
    forall c | c in Plan(spec, mount, listed).calls ensures IsRight(c, spec, mount, listed) {
      assert PlanCall(spec, mount, listed, c);
      if c.Create? { CreateCarries(c, spec, mount, listed); }
      else if c.Update? { UpdateCarriesWhat(c, spec, mount, listed, r); }
    }
  }

  /****** When a sync fails for want of a value ******/

  lemma {:induction false} CreatesFail(spec: seq<Setting>, mount: map<string, string>, listed: seq<Listed>)
    ensures !Creates(spec, mount, listed).ok <==>
            exists v :: v in spec && !ListedKey(listed, v.key) && Lacking(v, mount)
  {
    if spec != [] {
      var before, last := spec[..|spec| - 1], spec[|spec| - 1];
      CreatesFail(before, mount, listed);
      RetrieveIsExact(last, mount);
      assert forall v :: v in spec <==> v in before || v == last;
      assert Find(listed, last.key).None? <==> !ListedKey(listed, last.key);
    }
  }

  lemma {:induction false} SensitiveUpdatesFail(spec: seq<Setting>, mount: map<string, string>, listed: seq<Listed>)
    ensures !SensitiveUpdates(spec, mount, listed).ok <==>
            exists v :: v in spec && ListedSensitive(v, listed) && Lacking(v, mount)
  {
    if spec != [] {
      var before, last := spec[..|spec| - 1], spec[|spec| - 1];
      SensitiveUpdatesFail(before, mount, listed);
      RetrieveIsExact(last, mount);
      assert forall v :: v in spec <==> v in before || v == last;
    }
  }

  /** A variable that is needed lacks its value: one to be created, or a sensitive one that is sent along because
      another changed. */
  predicate NeededLacks(spec: seq<Setting>, mount: map<string, string>, listed: seq<Listed>, r: Remote) {
    || (exists v :: v in spec && !ListedKey(listed, v.key) && Lacking(v, mount))
    || ((exists id :: id in r.vars && Differs(spec, r.vars[id])) &&
        exists v :: v in spec && ListedSensitive(v, listed) && Lacking(v, mount))
  }

  lemma SomeChangedExactlyIfSomeDiffers(spec: seq<Setting>, mount: map<string, string>, listed: seq<Listed>, r: Remote)
    requires DistinctSettings(spec) && Lists(listed, r) && DistinctKeys(r)
    ensures PlainUpdates(spec, listed) != [] <==> exists id :: id in r.vars && Differs(spec, r.vars[id])
  {
    PlainUpdatesWhich(spec, listed);
    if PlainUpdates(spec, listed) != [] {
      var c := PlainUpdates(spec, listed)[0];
      assert c in PlainUpdates(spec, listed);
      var v := Wanted(spec, c.key).value;
      var l := Find(listed, v.key).value;
      assert l in listed && l.id in r.vars;
      assert Differs(spec, r.vars[l.id]);
    }
    if id :| id in r.vars && Differs(spec, r.vars[id]) {
      FindsTheOne(listed, r, id);
      var v := Wanted(spec, r.vars[id].key).value;
      assert PlainUpdateOf(v, listed).Some?;
    }
  }

  /** The sync is without such an error exactly if nothing that is needed lacks its value. */
  lemma FailsExactlyIfNeededLacks(spec: seq<Setting>, mount: map<string, string>, listed: seq<Listed>, r: Remote)
    requires DistinctSettings(spec) && Lists(listed, r) && DistinctKeys(r)
    ensures !Plan(spec, mount, listed).ok <==> NeededLacks(spec, mount, listed, r)
  {
    CreatesFail(spec, mount, listed);
    SensitiveUpdatesFail(spec, mount, listed);
    SomeChangedExactlyIfSomeDiffers(spec, mount, listed, r);
  }

  /****** What the server holds afterwards ******/

  /** What an update leaves: all but the category is as it was sent. */
  predicate HoldsUpdate(c: Call, before: Setting, after: Setting)
    requires c.Update?
  {
    && after.key == c.key && after.value == c.value && after.hcl == c.hcl && after.sensitive == c.sensitive
    && after.category == before.category
  }

  predicate IsUpdated(calls: seq<Call>, id: nat) { exists c :: c in calls && c.Update? && c.id == id }

  /** Every update did as it says, and what none was sent for is as before. */
  ghost predicate Arrived(calls: seq<Call>, r: Remote, t: Remote) {
    && (forall c :: c in calls && c.Update? ==>
          c.id in r.vars && c.id in t.vars && HoldsUpdate(c, r.vars[c.id], t.vars[c.id]))
    && (forall id :: id in r.vars && id in t.vars && !IsUpdated(calls, id) ==> t.vars[id] == r.vars[id])
  }

  lemma OnlyUpdatesArrive(r: Remote, s: Remote, updates: seq<Call>)
    requires AllUpdates(updates) && DistinctIds(updates)
    requires forall c :: c in updates ==> c.id in r.vars && c.id in s.vars
    requires forall id :: id in r.vars && id in s.vars ==> s.vars[id] == r.vars[id]
    ensures Arrived(updates, r, ApplyAll(s, updates))
  {
    ApplyUpdates(s, updates);
    assert forall id :: IsUpdated(updates, id) <==> Names(updates, id);
  }

  lemma OthersDoNotMatter(others: seq<Call>, updates: seq<Call>, r: Remote, t: Remote)
    requires forall c :: c in others ==> !c.Update?
    requires Arrived(updates, r, t)
    ensures Arrived(others + updates, r, t)
  {
    assert forall c :: c in others + updates <==> c in others || c in updates;
    forall id | !IsUpdated(others + updates, id) ensures !IsUpdated(updates, id) { }
  }

  lemma UpdatesArrive(spec: seq<Setting>, mount: map<string, string>, listed: seq<Listed>, r: Remote)
    requires ValidRemote(r) && DistinctSettings(spec) && Lists(listed, r) && DistinctKeys(r)
    requires Plan(spec, mount, listed).ok
    ensures var calls := Plan(spec, mount, listed).calls; Arrived(calls, r, ApplyAll(r, calls))
  {
    var others := Deletes(spec, listed) + Creates(spec, mount, listed).calls;
    var updates := Updates(spec, mount, listed).calls;
    OthersChangeNothing(spec, mount, listed, r);
    var s := ApplyAll(r, others);
    ApplyConcat(r, others, updates);
    UpdatesWhich(spec, mount, listed, r);
    forall c | c in updates ensures c.id in r.vars && c.id in s.vars {
      UpdatesOfKept(spec, mount, listed, r, c);
    }
    OnlyUpdatesArrive(r, s, updates);
    OthersDoNotMatter(others, updates, r, ApplyAll(s, updates));
  }

  lemma OthersChangeNothing(spec: seq<Setting>, mount: map<string, string>, listed: seq<Listed>, r: Remote)
    requires ValidRemote(r) && DistinctSettings(spec) && Lists(listed, r)
    ensures var others := Deletes(spec, listed) + Creates(spec, mount, listed).calls; var s := ApplyAll(r, others);
            && (forall c :: c in others ==> !c.Update?)
            && (forall id :: id in r.vars && Wanted(spec, r.vars[id].key).Some? ==> id in s.vars)
            && (forall id :: id in r.vars && id in s.vars ==> s.vars[id] == r.vars[id])
  {
    var creates := Creates(spec, mount, listed).calls;
    CreatesWhich(spec, mount, listed);
    DeletesWhich(spec, listed);
    KeptAndCreated(spec, creates, listed, r);
  }

  /** After an error-free sync, what was created is as the spec has it, with its value. */
  lemma CreatedHoldTheirValues(spec: seq<Setting>, mount: map<string, string>, listed: seq<Listed>, r: Remote)
    requires ValidRemote(r) && DistinctSettings(spec) && Lists(listed, r) && DistinctKeys(r)
    requires Plan(spec, mount, listed).ok
    ensures var t := ApplyAll(r, Plan(spec, mount, listed).calls);
            forall id :: id in t.vars && id !in r.vars ==> IsCreatedFor(t.vars[id], spec, mount)
  {
    PlanDone(spec, mount, listed, r);
    var creates := Creates(spec, mount, listed).calls;
    forall c | c in creates ensures c.Create? && IsCreatedFor(c.v, spec, mount) {
      CreateCarries(c, spec, mount, listed);
    }
    var t := ApplyAll(r, Plan(spec, mount, listed).calls);
    assert Kept(spec, creates, r, t);
    forall id | id in t.vars && id !in r.vars ensures IsCreatedFor(t.vars[id], spec, mount) {
      assert creates[id - r.next] in creates;
    }
  }

  /** And a variable that stayed sensitive, and was sent along, holds its value. */
  lemma SensitiveHoldTheirValues(spec: seq<Setting>, mount: map<string, string>, listed: seq<Listed>, r: Remote,
      v: Setting, id: nat)
    requires ValidRemote(r) && DistinctSettings(spec) && Lists(listed, r) && DistinctKeys(r)
    requires Plan(spec, mount, listed).ok && (exists i :: i in r.vars && Differs(spec, r.vars[i]))
    requires v in spec && id in r.vars && r.vars[id].key == v.key && r.vars[id].sensitive
    ensures var t := ApplyAll(r, Plan(spec, mount, listed).calls);
            id in t.vars && t.vars[id].sensitive && t.vars[id].hcl == v.hcl && IsValueFor(v, mount, t.vars[id].value)
  {
    UpdatesArrive(spec, mount, listed, r);
    SomeChangedExactlyIfSomeDiffers(spec, mount, listed, r);
    WantedInSpec(spec, v);
    FindsTheOne(listed, r, id);
    UpdatesWhich(spec, mount, listed, r);
    PlainUpdatesWhich(spec, listed);
    assert PlainUpdates(spec, listed)[0] in PlainUpdates(spec, listed);
    var c := SensitiveUpdateOf(v, mount, listed).value;
    RetrieveIsExact(v, mount);
    assert c in Updates(spec, mount, listed).calls && c in Plan(spec, mount, listed).calls;
  }

  /** A variable that is not sensitive remotely, but is in the spec, becomes so exactly if its value or its HCL flag
      changes with it: otherwise it stays readable. */
  lemma MarkedExactlyIfItDiffered(spec: seq<Setting>, mount: map<string, string>, listed: seq<Listed>, r: Remote,
      v: Setting, id: nat)
    requires ValidRemote(r) && DistinctSettings(spec) && Lists(listed, r) && DistinctKeys(r)
    requires Plan(spec, mount, listed).ok
    requires v in spec && v.sensitive && id in r.vars && r.vars[id].key == v.key && !r.vars[id].sensitive
    ensures var t := ApplyAll(r, Plan(spec, mount, listed).calls);
            id in t.vars && (t.vars[id].sensitive <==> Differs(spec, r.vars[id]))
  {
    var calls := Plan(spec, mount, listed).calls;
    UpdatesArrive(spec, mount, listed, r);
    PlanDone(spec, mount, listed, r);
    WantedInSpec(spec, v);
    FindsTheOne(listed, r, id);
    assert id in ApplyAll(r, calls).vars;
    UpdatedExactlyIfDiffers(spec, mount, listed, r, v, id);
    if c :| c in calls && c.Update? && c.id == id {
      UpdateSaysSensitive(spec, mount, listed, r, v, id, c);
    }
  }

  lemma UpdatedExactlyIfDiffers(spec: seq<Setting>, mount: map<string, string>, listed: seq<Listed>, r: Remote,
      v: Setting, id: nat)
    requires DistinctSettings(spec) && Lists(listed, r) && DistinctKeys(r) && Plan(spec, mount, listed).ok
    requires v in spec && v.sensitive && id in r.vars && r.vars[id].key == v.key && !r.vars[id].sensitive
    ensures IsUpdated(Plan(spec, mount, listed).calls, id) <==> Differs(spec, r.vars[id])
  {
    var calls := Plan(spec, mount, listed).calls;
    WantedInSpec(spec, v);
    FindsTheOne(listed, r, id);
    UpdatesWhich(spec, mount, listed, r);
    if Differs(spec, r.vars[id]) {
      var c := PlainUpdateOf(v, listed).value;
      assert c in Updates(spec, mount, listed).calls && c in calls;
    }
    if c :| c in calls && c.Update? && c.id == id {
      PlanCalls(spec, mount, listed, r);
      assert PlanCall(spec, mount, listed, c);
      UpdatesOfKept(spec, mount, listed, r, c);
    }
  }

  lemma UpdateSaysSensitive(spec: seq<Setting>, mount: map<string, string>, listed: seq<Listed>, r: Remote,
      v: Setting, id: nat, c: Call)
    requires DistinctSettings(spec) && Lists(listed, r) && DistinctKeys(r) && Plan(spec, mount, listed).ok
    requires v in spec && v.sensitive && id in r.vars && r.vars[id].key == v.key
    requires c in Plan(spec, mount, listed).calls && c.Update? && c.id == id
    ensures c.sensitive
  {
    PlanCalls(spec, mount, listed, r);
    assert PlanCall(spec, mount, listed, c);
    UpdatesOfKept(spec, mount, listed, r, c);
    WantedInSpec(spec, v);
  }

  /** A variable that becomes sensitive in the spec without a value there is emptied, whatever its file holds: the
      file is read only for what is created, or sensitive already. */
  lemma BecomingSensitiveEmpties(v: Setting, mount: map<string, string>, id: nat,
      before: Setting)
    requires v.sensitive && v.value == "" && before.key == v.key && !before.sensitive && before.value != ""
    ensures Plan([v], mount, [Listed(id, before)]) == Outline([Update(id, v.key, "", v.hcl, true)], true, true)
  {
    var listed := [Listed(id, before)];
    assert listed[..0] == [] && [v][..0] == [];
    assert Find(listed, v.key) == Some(listed[0]) && Wanted([v], v.key) == Some(v);
    assert Deletes([v], []) == [] && Creates([], mount, listed) == Partial([], true);
    assert SensitiveUpdates([], mount, listed) == Partial([], true);
    assert PlainUpdates([], listed) == [];
  }
}
