/**
 Making the variables of a remote workspace agree with the spec (workspacehelper/tfc_variable.go).

 The remote collection is a value: a map from server-issued identifiers to variables.  What
 CheckVariables does to it is a list of API calls, and `Plan` is that list as a function of the spec and
 of the one listing that all passes work from.  The lemmas of this module are about the plan; that the
 imperative code carries it out is shown in module VariableSync.
 */
module Variables {
  import opened Options

  datatype Category = Env | Terraform

  /** A variable as the spec wants it. */
  datatype Setting = Setting(key: string, value: string, sensitive: bool, category: Category, hcl: bool)

  /** What the server holds; `next` is the identifier it issues next. */
  datatype Remote = Remote(vars: map<nat, Setting>, next: nat)

  /** What the server shows of a variable: the value of a sensitive one is write-only. */
  datatype Listed = Listed(id: nat, shown: Setting)

  function Masked(v: Setting): Setting { if v.sensitive then v.(value := "") else v }

  datatype Call =
    | Delete(id: nat)
    | Create(v: Setting)
    | Update(id: nat, key: string, value: string, hcl: bool, sensitive: bool)

  /****** The server ******/

  function Overwritten(held: Setting, c: Call): Setting
    requires c.Update?
  {
    held.(key := c.key, value := c.value, hcl := c.hcl, sensitive := c.sensitive)
  }

  function Apply(r: Remote, c: Call): Remote {
    match c
    case Delete(id) => r.(vars := r.vars - {id})
    case Create(v) => Remote(r.vars[r.next := v], r.next + 1)
    case Update(id, _, _, _, _) => if id in r.vars then r.(vars := r.vars[id := Overwritten(r.vars[id], c)]) else r
  }

  function ApplyAll(r: Remote, calls: seq<Call>): Remote {
    if calls == [] then r else Apply(ApplyAll(r, calls[..|calls| - 1]), calls[|calls| - 1])
  }

  predicate ValidRemote(r: Remote) { forall id :: id in r.vars ==> id < r.next }

  predicate DistinctKeys(r: Remote) {
    forall i, j :: i in r.vars && j in r.vars && r.vars[i].key == r.vars[j].key ==> i == j
  }

  predicate DistinctSettings(spec: seq<Setting>) {
    forall i, j :: 0 <= i < j < |spec| ==> spec[i].key != spec[j].key
  }

  /** A complete listing: every variable once, in some order. */
  predicate Lists(listed: seq<Listed>, r: Remote) {
    && (forall l :: l in listed ==> l.id in r.vars && l.shown == Masked(r.vars[l.id]))
    && (forall i, j :: 0 <= i < j < |listed| ==> listed[i].id != listed[j].id)
    && (forall id :: id in r.vars ==> Listed(id, Masked(r.vars[id])) in listed)
  }

  /****** The passes ******/

  /** The first variable of the spec that has the key. */
  function Wanted(spec: seq<Setting>, key: string): (v: Option<Setting>)
    ensures v.Some? ==> v.value in spec && v.value.key == key
    ensures v.None? ==> forall w :: w in spec ==> w.key != key
  {
    if spec == [] then None
    else
      match Wanted(spec[..|spec| - 1], key)
      case Some(v) => Some(v)
      case None => if spec[|spec| - 1].key == key then Some(spec[|spec| - 1]) else None
  }

  /** The first listed variable that has the key. */
  function Find(listed: seq<Listed>, key: string): (l: Option<Listed>)
    ensures l.Some? ==> l.value in listed && l.value.shown.key == key
    ensures l.None? ==> forall m :: m in listed ==> m.shown.key != key
  {
    if listed == [] then None
    else
      match Find(listed[..|listed| - 1], key)
      case Some(l) => Some(l)
      case None => if listed[|listed| - 1].shown.key == key then Some(listed[|listed| - 1]) else None
  }

  function Optional(c: Option<Call>): seq<Call> { if c.Some? then [c.value] else [] }

  function Extend(calls: seq<Call>, c: Option<Call>): seq<Call> { if c.Some? then calls + [c.value] else calls }

  function DeleteOf(spec: seq<Setting>, l: Listed): Option<Call> {
    if Wanted(spec, l.shown.key).None? then Some(Delete(l.id)) else None
  }

  function Deletes(spec: seq<Setting>, listed: seq<Listed>): seq<Call> {
    if listed == [] then []
    else Extend(Deletes(spec, listed[..|listed| - 1]), DeleteOf(spec, listed[|listed| - 1]))
  }

  /** The value to send for a variable: a sensitive one without a value is read from the mounted file of its name. */
  function Retrieve(v: Setting, mount: map<string, string>): (w: Option<Setting>)
    ensures w.Some? ==> w.value == v.(value := w.value.value)
  {
    if v.sensitive && v.value == "" then
      if v.key in mount then Some(v.(value := mount[v.key])) else None
    else Some(v)
  }

  /** Calls that were decided on, up to the first file that could not be read. */
  datatype Partial = Partial(calls: seq<Call>, ok: bool)

  /** The create call for a variable that is not listed. */
  function CreateOf(v: Setting, mount: map<string, string>, listed: seq<Listed>): (c: Option<Call>)
    ensures c.Some? ==> c.value.Create? && c.value.v.key == v.key
  {
    if Find(listed, v.key).Some? || Retrieve(v, mount).None? then None
    else Some(Create(Retrieve(v, mount).value))
  }

  function Creates(spec: seq<Setting>, mount: map<string, string>, listed: seq<Listed>): Partial {
    if spec == [] then Partial([], true)
    else
      var before := Creates(spec[..|spec| - 1], mount, listed);
      var v := spec[|spec| - 1];
      if !before.ok then before
      else if Find(listed, v.key).None? && Retrieve(v, mount).None? then before.(ok := false)
      else before.(calls := Extend(before.calls, CreateOf(v, mount, listed)))
  }

  predicate Changed(v: Setting, shown: Setting) {
    v.value != shown.value || v.hcl != shown.hcl || (!v.sensitive && shown.sensitive)
  }

  /** The update call for a listed variable that is not sensitive and changed. */
  function PlainUpdateOf(v: Setting, listed: seq<Listed>): (c: Option<Call>)
    ensures c.Some? ==> IsUpdateFor(c.value, v, listed, false)
  {
    match Find(listed, v.key)
    case None => None
    case Some(l) =>
      if l.shown.sensitive || !Changed(v, l.shown) then None
      else Some(Update(l.id, v.key, v.value, v.hcl, v.sensitive))
  }

  predicate IsUpdateFor(c: Call, v: Setting, listed: seq<Listed>, sensitive: bool) {
    && c.Update? && c.key == v.key && Find(listed, v.key).Some?
    && var l := Find(listed, v.key).value; c.id == l.id && l.shown.sensitive == sensitive
  }

  function PlainUpdates(spec: seq<Setting>, listed: seq<Listed>): seq<Call> {
    if spec == [] then []
    else Extend(PlainUpdates(spec[..|spec| - 1], listed), PlainUpdateOf(spec[|spec| - 1], listed))
  }

  predicate ListedSensitive(v: Setting, listed: seq<Listed>) {
    Find(listed, v.key).Some? && Find(listed, v.key).value.shown.sensitive
  }

  /** The update call for a listed sensitive variable, changed or not: it stays sensitive. */
  function SensitiveUpdateOf(v: Setting, mount: map<string, string>, listed: seq<Listed>): (c: Option<Call>)
    ensures c.Some? ==> IsUpdateFor(c.value, v, listed, true) && c.value.sensitive
  {
    if !ListedSensitive(v, listed) || Retrieve(v, mount).None? then None
    else
      var w := Retrieve(v, mount).value;
      Some(Update(Find(listed, v.key).value.id, w.key, w.value, w.hcl, true))
  }

  function SensitiveUpdates(spec: seq<Setting>, mount: map<string, string>, listed: seq<Listed>): Partial {
    if spec == [] then Partial([], true)
    else
      var before := SensitiveUpdates(spec[..|spec| - 1], mount, listed);
      var v := spec[|spec| - 1];
      if !before.ok then before
      else if ListedSensitive(v, listed) && Retrieve(v, mount).None? then before.(ok := false)
      else before.(calls := Extend(before.calls, SensitiveUpdateOf(v, mount, listed)))
  }

  /** Sensitive variables are sent along whenever some other variable changed, and only then. */
  function Updates(spec: seq<Setting>, mount: map<string, string>, listed: seq<Listed>): Partial {
    var plain := PlainUpdates(spec, listed);
    if plain == [] then Partial([], true)
    else
      var sensitive := SensitiveUpdates(spec, mount, listed);
      if sensitive.ok then Partial(plain + sensitive.calls, true) else Partial([], false)
  }

  /** All calls of CheckVariables in order; `ok` when no file stopped it, `updated` what it then returns. */
  datatype Outline = Outline(calls: seq<Call>, ok: bool, updated: bool)

  function Plan(spec: seq<Setting>, mount: map<string, string>, listed: seq<Listed>): Outline {
    var deletes := Deletes(spec, listed);
    var creates := Creates(spec, mount, listed);
    if !creates.ok then Outline(deletes + creates.calls, false, false)
    else
      var updates := Updates(spec, mount, listed);
      Outline(deletes + creates.calls + updates.calls, updates.ok, updates.ok && updates.calls != [])
  }

  /****** What each pass does ******/

  lemma InOptional(calls: seq<Call>, c: Option<Call>)
    ensures c.None? ==> calls + Optional(c) == calls
    ensures c.Some? ==> calls + Optional(c) == calls + [c.value]
    ensures forall d :: d in calls + Optional(c) <==> d in calls || c == Some(d)
  {
  }

  lemma Extends(before: seq<Setting>, spec: seq<Setting>)
    requires spec != [] && before == spec[..|spec| - 1] && DistinctSettings(spec)
    ensures forall v :: v in spec <==> v in before || v == spec[|spec| - 1]
    ensures DistinctSettings(before) && Wanted(before, spec[|spec| - 1].key).None?
    ensures forall key :: Wanted(before, key).Some? ==> Wanted(spec, key) == Wanted(before, key)
    ensures Wanted(spec, spec[|spec| - 1].key) == Some(spec[|spec| - 1])
  {
  }

  lemma {:induction false} ApplyConcat(r: Remote, a: seq<Call>, b: seq<Call>)
    ensures ApplyAll(r, a + b) == ApplyAll(ApplyAll(r, a), b)
  {
    if b == [] {
      assert a + b == a;
    } else {
      ApplyConcat(r, a, b[..|b| - 1]);
      assert (a + b)[..|a + b| - 1] == a + b[..|b| - 1];
    }
  }

  lemma ApplyOneMore(r: Remote, calls: seq<Call>, c: Option<Call>)
    ensures ApplyAll(r, calls + Optional(c)) ==
            if c.Some? then Apply(ApplyAll(r, calls), c.value) else ApplyAll(r, calls)
  {
    ApplyConcat(r, calls, Optional(c));
    if c.Some? {
      assert ApplyAll(ApplyAll(r, calls), [c.value]) == Apply(ApplyAll(ApplyAll(r, calls), []), c.value);
    }
  }

  /** The variable is listed under a key that the spec does not have. */
  predicate Unwanted(spec: seq<Setting>, listed: seq<Listed>, id: nat) {
    exists l :: l in listed && l.id == id && Wanted(spec, l.shown.key).None?
  }

  lemma UnwantedOneMore(spec: seq<Setting>, listed: seq<Listed>, id: nat)
    requires listed != []
    ensures var last := listed[|listed| - 1];
            Unwanted(spec, listed, id) <==>
            Unwanted(spec, listed[..|listed| - 1], id) || (last.id == id && Wanted(spec, last.shown.key).None?)
  {
    assert listed == listed[..|listed| - 1] + [listed[|listed| - 1]];
  }

  lemma DeleteEffect(r: Remote, c: Option<Call>)
    requires c.Some? ==> c.value.Delete?
    ensures var s := if c.Some? then Apply(r, c.value) else r;
            && s.next == r.next
            && (forall id :: id in s.vars <==> id in r.vars && !(c.Some? && c.value.id == id))
            && (forall id :: id in s.vars ==> s.vars[id] == r.vars[id])
  {
  }

  /** The delete pass keeps a variable unless it is listed under a key that the spec does not have. */
  lemma {:induction false} DeletesEffect(spec: seq<Setting>, listed: seq<Listed>, r: Remote)
    ensures var s := ApplyAll(r, Deletes(spec, listed));
            && s.next == r.next
            && (forall id :: id in s.vars ==> id in r.vars && s.vars[id] == r.vars[id])
            && (forall id :: id in r.vars ==> (id !in s.vars <==> Unwanted(spec, listed, id)))
  {
    if listed != [] {
      var before, c := listed[..|listed| - 1], DeleteOf(spec, listed[|listed| - 1]);
      DeletesEffect(spec, before, r);
      ApplyOneMore(r, Deletes(spec, before), c);
      DeleteEffect(ApplyAll(r, Deletes(spec, before)), c);
      forall id: nat { UnwantedOneMore(spec, listed, id); }
    }
  }

  /** Of a complete listing, the delete pass keeps exactly the variables whose keys the spec has. */
  lemma KeptByDeletes(spec: seq<Setting>, listed: seq<Listed>, r: Remote)
    requires Lists(listed, r)
    ensures var s := ApplyAll(r, Deletes(spec, listed));
            && s.next == r.next
            && (forall id :: id in s.vars <==> id in r.vars && Wanted(spec, r.vars[id].key).Some?)
            && (forall id :: id in s.vars ==> s.vars[id] == r.vars[id])
  {
    DeletesEffect(spec, listed, r);
    forall id | id in r.vars && Wanted(spec, r.vars[id].key).None?
      ensures id !in ApplyAll(r, Deletes(spec, listed)).vars
    {
      assert Listed(id, Masked(r.vars[id])) in listed;
      assert Unwanted(spec, listed, id);
    }
  }

  lemma {:induction false} ApplyCreates(r: Remote, calls: seq<Call>)
    requires ValidRemote(r) && forall c :: c in calls ==> c.Create?
    ensures var s := ApplyAll(r, calls);
            && s.next == r.next + |calls|
            && (forall id :: id in s.vars <==> id in r.vars || r.next <= id < s.next)
            && (forall id :: id in r.vars ==> s.vars[id] == r.vars[id])
            && (forall id :: r.next <= id < s.next ==> s.vars[id] == calls[id - r.next].v)
  {
    if calls != [] {
      assert calls[|calls| - 1] in calls;
      ApplyCreates(r, calls[..|calls| - 1]);
    }
  }

  predicate DistinctNew(calls: seq<Call>) {
    forall j, k :: 0 <= j < k < |calls| ==> calls[j].Create? && calls[k].Create? && calls[j].v.key != calls[k].v.key
  }

  /** The create pass creates the spec's variables that were not listed, each once and none other. */
  lemma {:induction false} CreatesWhich(spec: seq<Setting>, mount: map<string, string>, listed: seq<Listed>)
    requires DistinctSettings(spec)
    ensures var p := Creates(spec, mount, listed);
            && (forall c :: c in p.calls ==>
                  c.Create? && Wanted(spec, c.v.key).Some? &&
                      CreateOf(Wanted(spec, c.v.key).value, mount, listed) == Some(c))
            && DistinctNew(p.calls)
            && (p.ok ==> forall v :: v in spec && Find(listed, v.key).None? ==>
                  CreateOf(v, mount, listed).Some? && CreateOf(v, mount, listed).value in p.calls)
  {
    if spec != [] {
      var before, last := spec[..|spec| - 1], spec[|spec| - 1];
      CreatesWhich(before, mount, listed);
      Extends(before, spec);
      InOptional(Creates(before, mount, listed).calls, CreateOf(last, mount, listed));
    }
  }

  predicate AllUpdates(calls: seq<Call>) { forall c :: c in calls ==> c.Update? }

  predicate DistinctIds(calls: seq<Call>)
    requires AllUpdates(calls)
  {
    forall j, k :: 0 <= j < k < |calls| ==> calls[j].id != calls[k].id
  }

  predicate Names(calls: seq<Call>, id: nat)
    requires AllUpdates(calls)
  {
    exists c :: c in calls && c.id == id
  }

  lemma {:induction false} ApplyUpdates(r: Remote, calls: seq<Call>)
    requires AllUpdates(calls) && DistinctIds(calls)
    requires forall c :: c in calls ==> c.id in r.vars
    ensures var s := ApplyAll(r, calls);
            && s.next == r.next && s.vars.Keys == r.vars.Keys
            && (forall c :: c in calls ==> s.vars[c.id] == Overwritten(r.vars[c.id], c))
            && (forall id :: id in r.vars && !Names(calls, id) ==> s.vars[id] == r.vars[id])
  {
    if calls != [] {
      var before, last := calls[..|calls| - 1], calls[|calls| - 1];
      ApplyUpdates(r, before);
      assert forall c :: c in calls <==> c in before || c == last;
      assert !Names(before, last.id);
      forall id | id in r.vars && !Names(calls, id)
        ensures !Names(before, id) && id != last.id
      {
      }
    }
  }

  lemma {:induction false} PlainUpdatesWhich(spec: seq<Setting>, listed: seq<Listed>)
    requires DistinctSettings(spec)
    ensures var calls := PlainUpdates(spec, listed);
            && (forall c :: c in calls ==>
                  c.Update? && Wanted(spec, c.key).Some? && PlainUpdateOf(Wanted(spec, c.key).value, listed) == Some(c))
            && (forall v :: v in spec && PlainUpdateOf(v, listed).Some? ==> PlainUpdateOf(v, listed).value in calls)
            && (forall j, k :: 0 <= j < k < |calls| ==> calls[j].key != calls[k].key)
  {
    if spec != [] {
      var before, last := spec[..|spec| - 1], spec[|spec| - 1];
      PlainUpdatesWhich(before, listed);
      Extends(before, spec);
      InOptional(PlainUpdates(before, listed), PlainUpdateOf(last, listed));
    }
  }

  lemma {:induction false} SensitiveUpdatesWhich(spec: seq<Setting>, mount: map<string, string>, listed: seq<Listed>)
    requires DistinctSettings(spec)
    ensures var p := SensitiveUpdates(spec, mount, listed);
            && (forall c :: c in p.calls ==>
                  c.Update? && Wanted(spec, c.key).Some? &&
                      SensitiveUpdateOf(Wanted(spec, c.key).value, mount, listed) == Some(c))
            && (p.ok ==> forall v :: v in spec && ListedSensitive(v, listed) ==>
                  SensitiveUpdateOf(v, mount, listed).Some? && SensitiveUpdateOf(v, mount, listed).value in p.calls)
            && (forall j, k :: 0 <= j < k < |p.calls| ==> p.calls[j].key != p.calls[k].key)
  {
    if spec != [] {
      var before, last := spec[..|spec| - 1], spec[|spec| - 1];
      SensitiveUpdatesWhich(before, mount, listed);
      Extends(before, spec);
      InOptional(SensitiveUpdates(before, mount, listed).calls, SensitiveUpdateOf(last, mount, listed));
    }
  }

  /****** The update list ******/

  /** Identifiers in a complete listing are as distinct as the keys they are looked up by. */
  lemma SameId(listed: seq<Listed>, r: Remote, k: Listed, l: Listed)
    requires Lists(listed, r) && k in listed && l in listed && k.id == l.id
    ensures k == l
  {
  }

  predicate PlainFor(spec: seq<Setting>, listed: seq<Listed>, c: Call) {
    c.Update? && Wanted(spec, c.key).Some? && PlainUpdateOf(Wanted(spec, c.key).value, listed) == Some(c)
  }

  predicate SensitiveFor(spec: seq<Setting>, mount: map<string, string>, listed: seq<Listed>, c: Call) {
    c.Update? && Wanted(spec, c.key).Some? && SensitiveUpdateOf(Wanted(spec, c.key).value, mount, listed) == Some(c)
  }

  lemma PlainAndSensitiveDiffer(spec: seq<Setting>, mount: map<string, string>, listed: seq<Listed>, r: Remote,
      c: Call, d: Call)
    requires Lists(listed, r) && PlainFor(spec, listed, c) && SensitiveFor(spec, mount, listed, d)
    ensures c.id != d.id
  {
    UpdatesDiffer(spec, mount, listed, r, c, d);
  }

  lemma PlainIdsDiffer(spec: seq<Setting>, mount: map<string, string>, listed: seq<Listed>, r: Remote, plain: seq<Call>)
    requires Lists(listed, r) && AllUpdates(plain) && forall c :: c in plain ==> PlainFor(spec, listed, c)
    requires forall j, k :: 0 <= j < k < |plain| ==> plain[j].key != plain[k].key
    ensures DistinctIds(plain)
  {
    forall j, k | 0 <= j < k < |plain| ensures plain[j].id != plain[k].id {
      assert plain[j] in plain && plain[k] in plain;
      UpdatesDiffer(spec, mount, listed, r, plain[j], plain[k]);
    }
  }

  lemma SensitiveIdsDiffer(spec: seq<Setting>, mount: map<string, string>, listed: seq<Listed>, r: Remote,
      sensitive: seq<Call>)
    requires Lists(listed, r) && AllUpdates(sensitive) && forall c :: c in sensitive ==>
             SensitiveFor(spec, mount, listed, c)
    requires forall j, k :: 0 <= j < k < |sensitive| ==> sensitive[j].key != sensitive[k].key
    ensures DistinctIds(sensitive)
  {
    forall j, k | 0 <= j < k < |sensitive| ensures sensitive[j].id != sensitive[k].id {
      assert sensitive[j] in sensitive && sensitive[k] in sensitive;
      UpdatesDiffer(spec, mount, listed, r, sensitive[j], sensitive[k]);
    }
  }

  lemma IdsStayDistinct(a: seq<Call>, b: seq<Call>)
    requires AllUpdates(a) && AllUpdates(b) && DistinctIds(a) && DistinctIds(b)
    requires forall c, d :: c in a && d in b ==> c.id != d.id
    ensures AllUpdates(a + b) && DistinctIds(a + b)
  {
    var calls := a + b;
    forall j, k | 0 <= j < k < |calls| ensures calls[j].id != calls[k].id {
      if j < |a| <= k { assert a[j] in a && b[k - |a|] in b; }
    }
  }

  /** The two halves of a full update list. */
  lemma HalvesWhich(spec: seq<Setting>, mount: map<string, string>, listed: seq<Listed>, r: Remote)
    requires DistinctSettings(spec) && Lists(listed, r)
    ensures var plain, sensitive := PlainUpdates(spec, listed), SensitiveUpdates(spec, mount, listed).calls;
            && AllUpdates(plain + sensitive) && DistinctIds(plain + sensitive)
            && (forall c :: c in plain + sensitive ==>
                  PlainFor(spec, listed, c) || SensitiveFor(spec, mount, listed, c))
  {
    PlainUpdatesWhich(spec, listed);
    SensitiveUpdatesWhich(spec, mount, listed);
    var plain, sensitive := PlainUpdates(spec, listed), SensitiveUpdates(spec, mount, listed).calls;
    PlainIdsDiffer(spec, mount, listed, r, plain);
    SensitiveIdsDiffer(spec, mount, listed, r, sensitive);
    forall c, d | c in plain && d in sensitive ensures c.id != d.id {
      PlainAndSensitiveDiffer(spec, mount, listed, r, c, d);
    }
    IdsStayDistinct(plain, sensitive);
  }

  /** The update list names each listed variable at most once.  It is empty unless a variable that is not
      sensitive changed; then it has exactly those that changed, and all the matched sensitive ones. */
  lemma UpdatesWhich(spec: seq<Setting>, mount: map<string, string>, listed: seq<Listed>, r: Remote)
    requires DistinctSettings(spec) && Lists(listed, r) && Updates(spec, mount, listed).ok
    ensures var calls := Updates(spec, mount, listed).calls;
            && AllUpdates(calls) && DistinctIds(calls)
            && (forall c :: c in calls ==>
                  Wanted(spec, c.key).Some? && IsUpdateFrom(c, Wanted(spec, c.key).value, mount, listed))
            && (forall v :: v in spec && PlainUpdateOf(v, listed).Some? ==> PlainUpdateOf(v, listed).value in calls)
            && (forall v :: v in spec && ListedSensitive(v, listed) && calls != [] ==>
                  SensitiveUpdateOf(v, mount, listed).Some? && SensitiveUpdateOf(v, mount, listed).value in calls)
            && (calls == [] <==> forall v :: v in spec ==> PlainUpdateOf(v, listed).None?)
  {
    HalvesWhich(spec, mount, listed, r);
    var plain := PlainUpdates(spec, listed);
    PlainUpdatesWhich(spec, listed);
    if plain != [] {
      SensitiveUpdatesWhich(spec, mount, listed);
      assert plain[0] in plain;
    }
  }

  predicate IsUpdateFrom(c: Call, v: Setting, mount: map<string, string>, listed: seq<Listed>) {
    PlainUpdateOf(v, listed) == Some(c) || SensitiveUpdateOf(v, mount, listed) == Some(c)
  }

  lemma UpdatesDiffer(spec: seq<Setting>, mount: map<string, string>, listed: seq<Listed>, r: Remote, c: Call, d: Call)
    requires Lists(listed, r) && c.Update? && d.Update?
    requires Wanted(spec, c.key).Some? && IsUpdateFrom(c, Wanted(spec, c.key).value, mount, listed)
    requires Wanted(spec, d.key).Some? && IsUpdateFrom(d, Wanted(spec, d.key).value, mount, listed)
    requires c.key != d.key || Find(listed, c.key).value.shown.sensitive != Find(listed, d.key).value.shown.sensitive
    ensures c.id != d.id
  {
    if c.id == d.id {
      SameId(listed, r, Find(listed, c.key).value, Find(listed, d.key).value);
    }
  }

  /****** What the plan achieves ******/

  predicate HasKey(r: Remote, key: string) { exists id :: id in r.vars && r.vars[id].key == key }

  predicate Agrees(v: Setting, held: Setting) { !held.sensitive ==> held.value == v.value && held.hcl == v.hcl }

  /** The remote variables mirror the spec: the same keys, once each, and whatever is not sensitive remotely
      has the value and the HCL flag that the spec asks for. */
  predicate Mirrors(spec: seq<Setting>, r: Remote) {
    && DistinctKeys(r)
    && (forall id :: id in r.vars ==>
          Wanted(spec, r.vars[id].key).Some? && Agrees(Wanted(spec, r.vars[id].key).value, r.vars[id]))
    && (forall v :: v in spec ==> HasKey(r, v.key))
  }

  /** A remote variable that is not sensitive, wanted with another value or another HCL flag. */
  predicate Differs(spec: seq<Setting>, held: Setting) {
    && !held.sensitive && Wanted(spec, held.key).Some?
    && var v := Wanted(spec, held.key).value; v.value != held.value || v.hcl != held.hcl
  }

  /** With distinct keys, looking up a key in a listing finds the one variable that has it. */
  lemma FindsTheOne(listed: seq<Listed>, r: Remote, id: nat)
    requires Lists(listed, r) && DistinctKeys(r) && id in r.vars
    ensures Find(listed, r.vars[id].key) == Some(Listed(id, Masked(r.vars[id])))
  {
    assert Listed(id, Masked(r.vars[id])) in listed;
  }

  lemma WantedInSpec(spec: seq<Setting>, v: Setting)
    requires DistinctSettings(spec) && v in spec
    ensures Wanted(spec, v.key) == Some(v)
  {
    var w := Wanted(spec, v.key).value;
    var i :| 0 <= i < |spec| && spec[i] == v;
    var j :| 0 <= j < |spec| && spec[j] == w;
  }

  /** What becomes of a variable that the delete pass kept. */
  predicate KeptAgrees(spec: seq<Setting>, before: Setting, after: Setting) {
    && after.key == before.key && Wanted(spec, before.key).Some? && Agrees(Wanted(spec, before.key).value, after)
    && (before.sensitive ==> after.sensitive)
  }

  lemma UpdatedAgrees(spec: seq<Setting>, mount: map<string, string>, listed: seq<Listed>, id: nat,
                      before: Setting, after: Setting, c: Option<Call>)
    requires Wanted(spec, before.key).Some? && Find(listed, before.key) == Some(Listed(id, Masked(before)))
    requires c.Some? ==> c.value.Update? && IsUpdateFrom(c.value, Wanted(spec, before.key).value, mount, listed)
    requires c.Some? ==> after == Overwritten(before, c.value)
    requires c.None? ==> after == before && PlainUpdateOf(Wanted(spec, before.key).value, listed).None?
    ensures KeptAgrees(spec, before, after)
  {
  }

  /** Between creating and updating: the kept variables and the created ones. */
  ghost predicate Kept(spec: seq<Setting>, creates: seq<Call>, r: Remote, s: Remote) {
    && ValidRemote(s) && s.next == r.next + |creates|
    && (forall id :: id in s.vars <==> (id in r.vars && Wanted(spec, r.vars[id].key).Some?) || r.next <= id < s.next)
    && (forall c :: c in creates ==> c.Create?)
    && (forall id :: r.next <= id < s.next ==> s.vars[id] == creates[id - r.next].v)
  }

  lemma KeptAndCreated(spec: seq<Setting>, creates: seq<Call>, listed: seq<Listed>, r: Remote)
    requires ValidRemote(r) && Lists(listed, r) && forall c :: c in creates ==> c.Create?
    ensures var s := ApplyAll(r, Deletes(spec, listed) + creates);
            && Kept(spec, creates, r, s)
            && (forall id :: id in r.vars && id in s.vars ==> s.vars[id] == r.vars[id])
  {
    var deletes := Deletes(spec, listed);
    ApplyConcat(r, deletes, creates);
    KeptByDeletes(spec, listed, r);
    ApplyCreates(ApplyAll(r, deletes), creates);
  }

  /** At the end: the kept variables agree with the spec, and the created ones are as they were created. */
  ghost predicate Done(spec: seq<Setting>, creates: seq<Call>, r: Remote, t: Remote) {
    && Kept(spec, creates, r, t)
    && (forall id :: id in r.vars && id in t.vars ==> KeptAgrees(spec, r.vars[id], t.vars[id]))
  }

  /** Updates of kept variables leave the created ones alone. */
  lemma UpdatesKeep(spec: seq<Setting>, creates: seq<Call>, updates: seq<Call>, r: Remote, s: Remote)
    requires ValidRemote(r) && Kept(spec, creates, r, s)
    requires AllUpdates(updates) && DistinctIds(updates) && forall c :: c in updates ==>
             c.id in r.vars && c.id in s.vars
    ensures Kept(spec, creates, r, ApplyAll(s, updates))
  {
    ApplyUpdates(s, updates);
    assert forall id :: r.next <= id < s.next ==> !Names(updates, id);
  }

  /** Every update is of a listed variable whose key the spec has. */
  lemma UpdatesOfKept(spec: seq<Setting>, mount: map<string, string>, listed: seq<Listed>, r: Remote, c: Call)
    requires DistinctSettings(spec) && Lists(listed, r) && DistinctKeys(r) && Updates(spec, mount, listed).ok
    requires c in Updates(spec, mount, listed).calls
    ensures c.Update? && c.id in r.vars && c.key == r.vars[c.id].key && Wanted(spec, c.key).Some?
    ensures IsUpdateFrom(c, Wanted(spec, c.key).value, mount, listed)
  {
    UpdatesWhich(spec, mount, listed, r);
    assert Find(listed, c.key).value in listed;
  }

  lemma KeptAgreesAfter(spec: seq<Setting>, mount: map<string, string>, listed: seq<Listed>, r: Remote, s: Remote,
      id: nat)
    requires DistinctSettings(spec) && Lists(listed, r) && DistinctKeys(r) && Updates(spec, mount, listed).ok
    requires AllUpdates(Updates(spec, mount, listed).calls) && DistinctIds(Updates(spec, mount, listed).calls)
    requires forall c :: c in Updates(spec, mount, listed).calls ==> c.id in s.vars
    requires id in r.vars && id in s.vars && s.vars[id] == r.vars[id] && Wanted(spec, r.vars[id].key).Some?
    ensures var t := ApplyAll(s, Updates(spec, mount, listed).calls);
            id in t.vars && KeptAgrees(spec, r.vars[id], t.vars[id])
  {
    var updates := Updates(spec, mount, listed).calls;
    ApplyUpdates(s, updates);
    FindsTheOne(listed, r, id);
    var c: Option<Call> := None;
    if Names(updates, id) {
      var d :| d in updates && d.id == id;
      UpdatesOfKept(spec, mount, listed, r, d);
      c := Some(d);
    } else {
      UpdatesWhich(spec, mount, listed, r);
    }
    UpdatedAgrees(spec, mount, listed, id, r.vars[id], ApplyAll(s, updates).vars[id], c);
  }

  lemma PlanDone(spec: seq<Setting>, mount: map<string, string>, listed: seq<Listed>, r: Remote)
    requires ValidRemote(r) && DistinctSettings(spec) && Lists(listed, r) && DistinctKeys(r)
    requires Plan(spec, mount, listed).ok
    ensures Done(spec, Creates(spec, mount, listed).calls, r, ApplyAll(r, Plan(spec, mount, listed).calls))
  {
    var deletes, creates, updates := Deletes(spec, listed), Creates(spec, mount, listed).calls,
        Updates(spec, mount, listed).calls;
    assert Plan(spec, mount, listed).calls == deletes + creates + updates;
    CreatesWhich(spec, mount, listed);
    KeptAndCreated(spec, creates, listed, r);
    var s := ApplyAll(r, deletes + creates);
    ApplyConcat(r, deletes + creates, updates);
    UpdatesWhich(spec, mount, listed, r);
    forall c | c in updates ensures c.id in r.vars && c.id in s.vars {
      UpdatesOfKept(spec, mount, listed, r, c);
    }
    UpdatesKeep(spec, creates, updates, r, s);
    forall id | id in r.vars && id in s.vars
      ensures KeptAgrees(spec, r.vars[id], ApplyAll(s, updates).vars[id])
    {
      KeptAgreesAfter(spec, mount, listed, r, s, id);
    }
  }

  lemma CreatedAreNew(spec: seq<Setting>, mount: map<string, string>, listed: seq<Listed>, c: Call)
    requires DistinctSettings(spec) && c in Creates(spec, mount, listed).calls
    ensures c.Create? && Find(listed, c.v.key).None?
    ensures Wanted(spec, c.v.key).Some? && Agrees(Wanted(spec, c.v.key).value, c.v)
  {
    CreatesWhich(spec, mount, listed);
  }

  lemma KeysStayDistinct(spec: seq<Setting>, creates: seq<Call>, listed: seq<Listed>, r: Remote, t: Remote, i: nat,
      j: nat)
    requires Lists(listed, r) && DistinctKeys(r) && Done(spec, creates, r, t) && DistinctNew(creates)
    requires forall c :: c in creates ==> Find(listed, c.v.key).None?
    requires i in t.vars && j in t.vars && t.vars[i].key == t.vars[j].key
    ensures i == j
  {
    if i in r.vars { FindsTheOne(listed, r, i); }
    if j in r.vars { FindsTheOne(listed, r, j); }
    if i !in r.vars { assert t.vars[i] == creates[i - r.next].v; }
    if j !in r.vars { assert t.vars[j] == creates[j - r.next].v; }
  }

  lemma SpecKeysAreThere(spec: seq<Setting>, creates: seq<Call>, listed: seq<Listed>, r: Remote, t: Remote, v: Setting)
    requires DistinctSettings(spec) && Lists(listed, r) && Done(spec, creates, r, t) && v in spec
    requires Find(listed, v.key).None? ==> exists c :: c in creates && c.v.key == v.key
    ensures HasKey(t, v.key)
  {
    WantedInSpec(spec, v);
    if Find(listed, v.key).Some? {
      var l := Find(listed, v.key).value;
      assert l in listed;
      assert l.id in t.vars && t.vars[l.id].key == v.key;
    } else {
      var c :| c in creates && c.v.key == v.key;
      var j :| 0 <= j < |creates| && creates[j] == c;
      assert t.vars[r.next + j] == creates[(r.next + j) - r.next].v;
    }
  }

  /** Carried out to the end, the plan makes the remote variables mirror the spec. */
  lemma PlanConverges(spec: seq<Setting>, mount: map<string, string>, listed: seq<Listed>, r: Remote)
    requires ValidRemote(r) && DistinctSettings(spec) && Lists(listed, r) && DistinctKeys(r)
    requires Plan(spec, mount, listed).ok
    ensures ValidRemote(ApplyAll(r, Plan(spec, mount, listed).calls))
    ensures Mirrors(spec, ApplyAll(r, Plan(spec, mount, listed).calls))
  {
    PlanDone(spec, mount, listed, r);
    var t := ApplyAll(r, Plan(spec, mount, listed).calls);
    var creates := Creates(spec, mount, listed).calls;
    CreatesWhich(spec, mount, listed);
    forall c | c in creates
      ensures Find(listed, c.v.key).None? && Wanted(spec, c.v.key).Some? && Agrees(Wanted(spec, c.v.key).value, c.v)
    {
      CreatedAreNew(spec, mount, listed, c);
    }
    forall id | id in t.vars
      ensures Wanted(spec, t.vars[id].key).Some? && Agrees(Wanted(spec, t.vars[id].key).value, t.vars[id])
    {
      if id !in r.vars { assert creates[id - r.next] in creates; }
    }
    forall i, j | i in t.vars && j in t.vars && t.vars[i].key == t.vars[j].key ensures i == j {
      KeysStayDistinct(spec, creates, listed, r, t, i, j);
    }
    forall v | v in spec ensures HasKey(t, v.key) {
      SpecKeysAreThere(spec, creates, listed, r, t, v);
    }
  }

  /** Nothing is left to do exactly when the remote variables mirror the spec: so a second round,
      from the same spec and any new listing, makes no call and returns false. */
  lemma NoCallsWhenMirrored(spec: seq<Setting>, mount: map<string, string>, listed: seq<Listed>, r: Remote)
    requires DistinctSettings(spec) && Lists(listed, r) && DistinctKeys(r)
    ensures Plan(spec, mount, listed) == Outline([], true, false) <==> Mirrors(spec, r)
  {
    if Mirrors(spec, r) {
      NoDeletes(spec, listed);
      NoCreates(spec, mount, listed, r);
      forall v | v in spec ensures PlainUpdateOf(v, listed).None? { NoUpdateFor(spec, listed, r, v); }
      NoUpdates(spec, listed);
    } else if Plan(spec, mount, listed) == Outline([], true, false) {
      OnlyMirroredNeedsNothing(spec, mount, listed, r);
    }
  }

  lemma {:induction false} NoDeletes(spec: seq<Setting>, listed: seq<Listed>)
    requires forall l :: l in listed ==> Wanted(spec, l.shown.key).Some?
    ensures Deletes(spec, listed) == []
  {
    if listed != [] {
      NoDeletes(spec, listed[..|listed| - 1]);
    }
  }

  lemma {:induction false} NoCreates(spec: seq<Setting>, mount: map<string, string>, listed: seq<Listed>, r: Remote)
    requires Lists(listed, r) && DistinctKeys(r) && forall v :: v in spec ==> HasKey(r, v.key)
    ensures Creates(spec, mount, listed) == Partial([], true)
  {
    if spec != [] {
      NoCreates(spec[..|spec| - 1], mount, listed, r);
      var v := spec[|spec| - 1];
      assert v in spec;
      var id :| id in r.vars && r.vars[id].key == v.key;
      FindsTheOne(listed, r, id);
    }
  }

  lemma NoUpdateFor(spec: seq<Setting>, listed: seq<Listed>, r: Remote, v: Setting)
    requires DistinctSettings(spec) && Lists(listed, r) && Mirrors(spec, r) && v in spec
    ensures PlainUpdateOf(v, listed).None?
  {
    WantedInSpec(spec, v);
    var id :| id in r.vars && r.vars[id].key == v.key;
    FindsTheOne(listed, r, id);
  }

  lemma {:induction false} NoUpdates(spec: seq<Setting>, listed: seq<Listed>)
    requires forall v :: v in spec ==> PlainUpdateOf(v, listed).None?
    ensures PlainUpdates(spec, listed) == []
  {
    if spec != [] {
      NoUpdates(spec[..|spec| - 1], listed);
    }
  }

  lemma NoPlanNoDifference(spec: seq<Setting>, mount: map<string, string>, listed: seq<Listed>, r: Remote)
    requires DistinctSettings(spec) && Lists(listed, r)
    requires Plan(spec, mount, listed).calls == [] && Plan(spec, mount, listed).ok
    ensures forall id :: id in r.vars ==> Wanted(spec, r.vars[id].key).Some?
    ensures forall v :: v in spec ==> PlainUpdateOf(v, listed).None? && Find(listed, v.key).Some?
  {
    assert Deletes(spec, listed) == [] && Creates(spec, mount, listed).calls == [] &&
        Updates(spec, mount, listed).calls == [];
    KeptByDeletes(spec, listed, r);
    CreatesWhich(spec, mount, listed);
    UpdatesWhich(spec, mount, listed, r);
    assert ApplyAll(r, []) == r;
  }

  lemma UnchangedAgrees(spec: seq<Setting>, listed: seq<Listed>, r: Remote, id: nat)
    requires Lists(listed, r) && DistinctKeys(r) && id in r.vars && Wanted(spec, r.vars[id].key).Some?
    requires PlainUpdateOf(Wanted(spec, r.vars[id].key).value, listed).None?
    ensures Agrees(Wanted(spec, r.vars[id].key).value, r.vars[id])
  {
    FindsTheOne(listed, r, id);
  }

  lemma FoundHasKey(listed: seq<Listed>, r: Remote, key: string)
    requires Lists(listed, r) && Find(listed, key).Some?
    ensures HasKey(r, key)
  {
    var l := Find(listed, key).value;
    assert l.id in r.vars && r.vars[l.id].key == key;
  }

  lemma AllAgree(spec: seq<Setting>, listed: seq<Listed>, r: Remote)
    requires Lists(listed, r) && DistinctKeys(r)
    requires forall id :: id in r.vars ==> Wanted(spec, r.vars[id].key).Some?
    requires forall v :: v in spec ==> PlainUpdateOf(v, listed).None?
    ensures forall id :: id in r.vars ==> Agrees(Wanted(spec, r.vars[id].key).value, r.vars[id])
  {
    forall id | id in r.vars ensures Agrees(Wanted(spec, r.vars[id].key).value, r.vars[id]) {
      UnchangedAgrees(spec, listed, r, id);
    }
  }

  lemma AllThere(spec: seq<Setting>, listed: seq<Listed>, r: Remote)
    requires Lists(listed, r) && forall v :: v in spec ==> Find(listed, v.key).Some?
    ensures forall v :: v in spec ==> HasKey(r, v.key)
  {
    forall v | v in spec ensures HasKey(r, v.key) {
      FoundHasKey(listed, r, v.key);
    }
  }

  lemma OnlyMirroredNeedsNothing(spec: seq<Setting>, mount: map<string, string>, listed: seq<Listed>, r: Remote)
    requires DistinctSettings(spec) && Lists(listed, r) && DistinctKeys(r)
    requires Plan(spec, mount, listed).calls == [] && Plan(spec, mount, listed).ok
    ensures Mirrors(spec, r)
  {
    NoPlanNoDifference(spec, mount, listed, r);
    AllAgree(spec, listed, r);
    AllThere(spec, listed, r);
  }

  /** What CheckVariables returns on success: whether a variable that was already remote, and not sensitive,
      differed in value or HCL flag.  Having created or deleted variables does not count. */
  lemma UpdatedExactlyIfSomeDiffered(spec: seq<Setting>, mount: map<string, string>, listed: seq<Listed>, r: Remote)
    requires DistinctSettings(spec) && Lists(listed, r) && DistinctKeys(r)
    requires Plan(spec, mount, listed).ok
    ensures Plan(spec, mount, listed).updated <==> exists id :: id in r.vars && Differs(spec, r.vars[id])
  {
    UpdatesWhich(spec, mount, listed, r);
    forall id | id in r.vars && Differs(spec, r.vars[id])
      ensures Plan(spec, mount, listed).updated
    {
      FindsTheOne(listed, r, id);
    }
    if Plan(spec, mount, listed).updated {
      var v :| v in spec && PlainUpdateOf(v, listed).Some?;
      WantedInSpec(spec, v);
      var l := Find(listed, v.key).value;
      assert l.id in r.vars && Differs(spec, r.vars[l.id]);
    }
  }

  /****** Rounds that may break off ******/

  /** What every call of a plan respects: variables are updated under their own keys, and created under new ones. */
  predicate Proper(r: Remote, calls: seq<Call>) {
    && (forall c :: c in calls && c.Update? ==> c.id in r.vars && c.key == r.vars[c.id].key)
    && (forall c :: c in calls && c.Create? ==> !HasKey(r, c.v.key))
    && (forall j, k :: 0 <= j < k < |calls| && calls[j].Create? && calls[k].Create? ==>
          calls[j].v.key != calls[k].v.key)
  }

  predicate FromEither(r: Remote, calls: seq<Call>, id: nat, key: string) {
    if id in r.vars then key == r.vars[id].key
    else id >= r.next && exists c :: c in calls && c.Create? && c.v.key == key
  }

  /** Any part of a plan leaves the keys distinct. */
  lemma {:induction false} ProperKeepsKeysDistinct(r: Remote, calls: seq<Call>)
    requires ValidRemote(r) && DistinctKeys(r) && Proper(r, calls)
    ensures var s := ApplyAll(r, calls);
            && ValidRemote(s) && s.next >= r.next && DistinctKeys(s)
            && (forall id :: id in s.vars ==> FromEither(r, calls, id, s.vars[id].key))
  {
    if calls != [] {
      var before, last := calls[..|calls| - 1], calls[|calls| - 1];
      assert forall c :: c in calls <==> c in before || c == last;
      ProperKeepsKeysDistinct(r, before);
      var s := ApplyAll(r, before);
      if last.Create? {
        forall id | id in s.vars ensures s.vars[id].key != last.v.key {
          assert FromEither(r, before, id, s.vars[id].key);
        }
      }
      forall id | id in ApplyAll(r, calls).vars
        ensures FromEither(r, calls, id, ApplyAll(r, calls).vars[id].key)
      {
        if id in s.vars { assert FromEither(r, before, id, s.vars[id].key); }
      }
    }
  }

  lemma {:induction false} DeletesWhich(spec: seq<Setting>, listed: seq<Listed>)
    ensures forall c :: c in Deletes(spec, listed) ==>
              c.Delete? && exists l :: l in listed && l.id == c.id && Wanted(spec, l.shown.key).None?
  {
    if listed != [] {
      var before, last := listed[..|listed| - 1], listed[|listed| - 1];
      DeletesWhich(spec, before);
      InOptional(Deletes(spec, before), DeleteOf(spec, last));
      assert last in listed;
    }
  }

  /** A call of the plan is a delete of an unwanted variable, a create, or an update. */
  predicate PlanCall(spec: seq<Setting>, mount: map<string, string>, listed: seq<Listed>, c: Call) {
    match c
    case Delete(id) => exists l :: l in listed && l.id == id && Wanted(spec, l.shown.key).None?
    case Create(v) => c in Creates(spec, mount, listed).calls
    case Update(_, _, _, _, _) => Updates(spec, mount, listed).ok && c in Updates(spec, mount, listed).calls
  }

  lemma PlanCalls(spec: seq<Setting>, mount: map<string, string>, listed: seq<Listed>, r: Remote)
    requires DistinctSettings(spec) && Lists(listed, r)
    ensures forall c :: c in Plan(spec, mount, listed).calls ==> PlanCall(spec, mount, listed, c)
  {
    DeletesWhich(spec, listed);
    CreatesWhich(spec, mount, listed);
    if Updates(spec, mount, listed).ok {
      UpdatesWhich(spec, mount, listed, r);
    }
  }

  lemma PlanIsProper(spec: seq<Setting>, mount: map<string, string>, listed: seq<Listed>, r: Remote)
    requires DistinctSettings(spec) && Lists(listed, r) && DistinctKeys(r)
    ensures Proper(r, Plan(spec, mount, listed).calls)
  {
    var calls := Plan(spec, mount, listed).calls;
    var deletes, creates := Deletes(spec, listed), Creates(spec, mount, listed).calls;
    PlanCalls(spec, mount, listed, r);
    CreatesWhich(spec, mount, listed);
    forall c | c in calls && c.Update? ensures c.id in r.vars && c.key == r.vars[c.id].key {
      UpdatesOfKept(spec, mount, listed, r, c);
    }
    forall c | c in calls && c.Create? ensures !HasKey(r, c.v.key) {
      CreatedAreNew(spec, mount, listed, c);
      forall id | id in r.vars ensures r.vars[id].key != c.v.key {
        FindsTheOne(listed, r, id);
      }
    }
    DeletesWhich(spec, listed);
    var updates := calls[|deletes| + |creates|..];
    assert calls == deletes + creates + updates;
    assert forall c :: c in updates ==> c.Update? by {
      if updates != [] {
        UpdatesWhich(spec, mount, listed, r);
        assert updates == Updates(spec, mount, listed).calls;
      }
    }
    CreatesStandTogether(deletes, creates, updates);
  }

  lemma CreatesStandTogether(deletes: seq<Call>, creates: seq<Call>, updates: seq<Call>)
    requires DistinctNew(creates)
    requires (forall j :: 0 <= j < |deletes| ==> deletes[j].Delete?) &&
             (forall j :: 0 <= j < |updates| ==> updates[j].Update?)
    ensures var calls := deletes + creates + updates;
            forall j, k :: 0 <= j < k < |calls| && calls[j].Create? && calls[k].Create? ==>
                calls[j].v.key != calls[k].v.key
  {
    var calls := deletes + creates + updates;
    var d := |deletes|;
    forall j | 0 <= j < |calls| && calls[j].Create?
      ensures d <= j < d + |creates| && calls[j] == creates[j - d]
    {
    }
  }

  /** A call spares a sensitive variable: it neither deletes it nor takes its flag away. */
  predicate Spares(c: Call, id: nat, key: string) {
    match c
    case Delete(i) => i != id
    case Create(_) => true
    case Update(i, k, _, _, sensitive) => i == id ==> k == key && sensitive
  }

  lemma {:induction false} SparedStaysSensitive(r: Remote, calls: seq<Call>, id: nat)
    requires ValidRemote(r) && id in r.vars && r.vars[id].sensitive
    requires forall c :: c in calls ==> Spares(c, id, r.vars[id].key)
    ensures var s := ApplyAll(r, calls);
            ValidRemote(s) && s.next >= r.next && id in s.vars && s.vars[id].sensitive &&
                s.vars[id].key == r.vars[id].key
  {
    if calls != [] {
      assert calls[|calls| - 1] in calls;
      SparedStaysSensitive(r, calls[..|calls| - 1], id);
    }
  }

  /** One call of CheckVariables, which performs the first `steps` calls of its plan. */
  datatype Round = Round(spec: seq<Setting>, mount: map<string, string>, listed: seq<Listed>, steps: nat)

  function AfterRound(r: Remote, round: Round): Remote {
    var calls := Plan(round.spec, round.mount, round.listed).calls;
    ApplyAll(r, if round.steps <= |calls| then calls[..round.steps] else calls)
  }

  predicate ValidRound(r: Remote, round: Round) { DistinctSettings(round.spec) && Lists(round.listed, r) }

  function AfterRounds(r: Remote, rounds: seq<Round>): Remote {
    if rounds == [] then r else AfterRound(AfterRounds(r, rounds[..|rounds| - 1]), rounds[|rounds| - 1])
  }

  /** Every round lists what the ones before it left. */
  predicate ValidRounds(r: Remote, rounds: seq<Round>) {
    rounds == [] || (ValidRounds(r, rounds[..|rounds| - 1]) &&
                     ValidRound(AfterRounds(r, rounds[..|rounds| - 1]), rounds[|rounds| - 1]))
  }

  /** A round, complete or broken off, keeps the keys distinct and a wanted sensitive variable sensitive. */
  lemma RoundKeeps(r: Remote, round: Round)
    requires ValidRemote(r) && DistinctKeys(r) && ValidRound(r, round)
    ensures ValidRemote(AfterRound(r, round)) && DistinctKeys(AfterRound(r, round))
    ensures forall id :: id in r.vars && r.vars[id].sensitive && Wanted(round.spec, r.vars[id].key).Some? ==>
              id in AfterRound(r, round).vars && StaysSensitive(r.vars[id], AfterRound(r, round).vars[id])
  {
    var all := Plan(round.spec, round.mount, round.listed).calls;
    var calls := if round.steps <= |all| then all[..round.steps] else all;
    PlanIsProper(round.spec, round.mount, round.listed, r);
    PlanCalls(round.spec, round.mount, round.listed, r);
    assert forall c :: c in calls ==> c in all;
    ProperKeepsKeysDistinct(r, calls);
    forall id | id in r.vars && r.vars[id].sensitive && Wanted(round.spec, r.vars[id].key).Some?
      ensures id in AfterRound(r, round).vars && StaysSensitive(r.vars[id], AfterRound(r, round).vars[id])
    {
      PlanSpares(round.spec, round.mount, round.listed, r, id, calls);
      SparedStaysSensitive(r, calls, id);
    }
  }

  predicate StaysSensitive(before: Setting, after: Setting) { after.sensitive && after.key == before.key }

  lemma PlanSpares(spec: seq<Setting>, mount: map<string, string>, listed: seq<Listed>, r: Remote, id: nat,
      calls: seq<Call>)
    requires DistinctSettings(spec) && Lists(listed, r) && DistinctKeys(r)
    requires forall c :: c in calls ==> PlanCall(spec, mount, listed, c)
    requires id in r.vars && r.vars[id].sensitive && Wanted(spec, r.vars[id].key).Some?
    ensures forall c :: c in calls ==> Spares(c, id, r.vars[id].key)
  {
    FindsTheOne(listed, r, id);
    forall c | c in calls ensures Spares(c, id, r.vars[id].key) {
      assert PlanCall(spec, mount, listed, c);
      if c.Update? {
        UpdatesOfKept(spec, mount, listed, r, c);
      }
    }
  }

  /** A remote variable that is sensitive never loses the flag while its key stays in the spec,
      over any sequence of rounds, whatever else they change and wherever they break off. */
  lemma {:induction false} SensitiveForever(r: Remote, rounds: seq<Round>, id: nat)
    requires ValidRemote(r) && DistinctKeys(r) && ValidRounds(r, rounds)
    requires id in r.vars && r.vars[id].sensitive
    requires forall i :: 0 <= i < |rounds| ==> Wanted(rounds[i].spec, r.vars[id].key).Some?
    ensures var s := AfterRounds(r, rounds);
            ValidRemote(s) && DistinctKeys(s) && id in s.vars && StaysSensitive(r.vars[id], s.vars[id])
  {
    if rounds != [] {
      SensitiveForever(r, rounds[..|rounds| - 1], id);
      RoundKeeps(AfterRounds(r, rounds[..|rounds| - 1]), rounds[|rounds| - 1]);
    }
  }

  /****** From the Workspace object ******/

  /** A variable as the object's spec writes it, its value already looked up. */
  datatype SpecVariable = SpecVariable(key: string, value: string, sensitive: bool, environment: bool, hcl: bool)

  /** The value without one trailing newline. */
  function TrimNewline(s: string): string {
    if s != "" && s[|s| - 1] == '\n' then s[..|s| - 1] else s
  }

  function ToSetting(v: SpecVariable): Setting {
    Setting(v.key, TrimNewline(v.value), v.sensitive, if v.environment then Env else Terraform, v.hcl)
  }

  function ToSettings(vs: seq<SpecVariable>): seq<Setting> { seq(|vs|, i requires 0 <= i < |vs| => ToSetting(vs[i])) }

  /** Field by field, the setting is what the spec writes; of its value just one newline at the end is left out. */
  predicate Restates(s: Setting, v: SpecVariable) {
    && s.key == v.key && s.sensitive == v.sensitive && s.hcl == v.hcl && (s.category == Env <==> v.environment)
    && (v.value == s.value + "\n" || (v.value == s.value && (s.value == "" || s.value[|s.value| - 1] != '\n')))
  }

  lemma SettingRestates(v: SpecVariable, s: Setting)
    ensures s == ToSetting(v) <==> Restates(s, v)
  {
    if v.value != "" && v.value[|v.value| - 1] == '\n' {
      assert v.value == v.value[..|v.value| - 1] + "\n";
      assert (s.value + "\n")[..|s.value|] == s.value;
    }
  }
}
