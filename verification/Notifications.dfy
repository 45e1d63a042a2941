/**
 Making the notifications of a workspace agree with the spec (workspacehelper/tfc_org.go).

 A remote notification that fully matches no entry of the spec is deleted.  Then the list is read again,
 and an entry of the spec is added if no remote notification has its name: names only, not the rest.
 */
module Notifications {
  import opened Outcomes

  datatype User = User(id: string)

  datatype Notification = Notification(
    name: string, kind: string, enabled: bool, url: string, token: string,
    triggers: seq<string>, recipients: seq<string>, users: seq<string>)

  /** A notification as the server holds it. */
  datatype Held = Held(
    name: string, destination: string, enabled: bool, url: string, token: string,
    triggers: seq<string>, emailAddresses: seq<string>, emailUsers: seq<User>)

  function Users(ids: seq<string>): seq<User> { seq(|ids|, i requires 0 <= i < |ids| => User(ids[i])) }

  /** What is created for an entry of the spec, and what a full match with it is. */
  function Made(n: Notification): Held {
    Held(n.name, n.kind, n.enabled, n.url, n.token, n.triggers, n.recipients, Users(n.users))
  }

  /** Field by field, the server's entry says what the spec's says. */
  predicate SaysTheSame(h: Held, n: Notification) {
    && h.name == n.name && h.destination == n.kind && h.enabled == n.enabled && h.url == n.url && h.token == n.token
    && h.triggers == n.triggers && h.emailAddresses == n.recipients
    && |h.emailUsers| == |n.users| && forall i :: 0 <= i < |n.users| ==> h.emailUsers[i].id == n.users[i]
  }

  /** What is created says the same as the spec, and what says the same is a full match. */
  lemma MadeSaysTheSame(n: Notification, h: Held)
    ensures h == Made(n) <==> SaysTheSame(h, n)
  {
    assert h.emailUsers == Users(n.users) <==>
           |h.emailUsers| == |n.users| && forall i :: 0 <= i < |n.users| ==> h.emailUsers[i].id == n.users[i];
  }

  datatype Remote = Remote(held: map<nat, Held>, next: nat)

  datatype Listed = Listed(id: nat, shown: Held)

  datatype Call = Delete(id: nat) | Create(n: Held)

  function Apply(r: Remote, c: Call): Remote {
    match c
    case Delete(id) => r.(held := r.held - {id})
    case Create(n) => Remote(r.held[r.next := n], r.next + 1)
  }

  function ApplyAll(r: Remote, calls: seq<Call>): Remote {
    if calls == [] then r else Apply(ApplyAll(r, calls[..|calls| - 1]), calls[|calls| - 1])
  }

  predicate ValidRemote(r: Remote) { forall id :: id in r.held ==> id < r.next }

  predicate Lists(listed: seq<Listed>, r: Remote) {
    && (forall l :: l in listed ==> l.id in r.held && l.shown == r.held[l.id])
    && (forall id :: id in r.held ==> Listed(id, r.held[id]) in listed)
  }

  predicate Matched(spec: seq<Notification>, h: Held) { exists n :: n in spec && Made(n) == h }

  predicate Holds(r: Remote, h: Held) { exists id :: id in r.held && r.held[id] == h }

  predicate Named(r: Remote, name: string) { exists id :: id in r.held && r.held[id].name == name }

  predicate Shown(listed: seq<Listed>, name: string) { exists l :: l in listed && l.shown.name == name }

  function Deletes(spec: seq<Notification>, listed: seq<Listed>): seq<Call> {
    if listed == [] then []
    else
      var last := listed[|listed| - 1];
      var before := Deletes(spec, listed[..|listed| - 1]);
      if Matched(spec, last.shown) then before else before + [Delete(last.id)]
  }

  function Creates(spec: seq<Notification>, relisted: seq<Listed>): seq<Call> {
    if spec == [] then []
    else
      var last := spec[|spec| - 1];
      var before := Creates(spec[..|spec| - 1], relisted);
      if Shown(relisted, last.name) then before else before + [Create(Made(last))]
  }

  /** Both listings of a complete call: the second is taken when the deletes are done. */
  predicate Listings(spec: seq<Notification>, listed: seq<Listed>, relisted: seq<Listed>, r: Remote) {
    Lists(listed, r) && Lists(relisted, ApplyAll(r, Deletes(spec, listed)))
  }

  function Plan(spec: seq<Notification>, listed: seq<Listed>, relisted: seq<Listed>): seq<Call> {
    Deletes(spec, listed) + Creates(spec, relisted)
  }

  /** Every remote notification fully matches an entry of the spec, and every entry has a match. */
  predicate Mirrors(spec: seq<Notification>, r: Remote) {
    && (forall id :: id in r.held ==> Matched(spec, r.held[id]))
    && (forall n :: n in spec ==> Holds(r, Made(n)))
  }

  predicate DistinctNames(spec: seq<Notification>) {
    forall m, n :: m in spec && n in spec && m.name == n.name ==> m == n
  }

  /** No entry of the spec is hidden: one without a full match shares its name with no remote notification
      that fully matches another entry. */
  predicate NoneHidden(spec: seq<Notification>, r: Remote) {
    forall n :: n in spec ==> Holds(r, Made(n)) || !NamesakeKept(spec, r, n.name)
  }

  predicate NamesakeKept(spec: seq<Notification>, r: Remote, name: string) {
    exists id :: id in r.held && r.held[id].name == name && Matched(spec, r.held[id])
  }

  /****** What a call achieves ******/

  lemma {:induction false} ApplyConcat(r: Remote, a: seq<Call>, b: seq<Call>)
    ensures ApplyAll(r, a + b) == ApplyAll(ApplyAll(r, a), b)
  {
    if b == [] {
      assert a + b == a;
    } else {
      ApplyConcat(r, a, b[..|b| - 1]);
      assert (a + b)[..|a + b| - 1] == a + b[..|b| - 1];
    }
  }

  lemma {:induction false} DeletesEffect(spec: seq<Notification>, listed: seq<Listed>, r: Remote)
    ensures var s := ApplyAll(r, Deletes(spec, listed));
            && s.next == r.next
            && (forall id :: id in s.held ==> id in r.held && s.held[id] == r.held[id])
            && (forall id :: id in r.held ==>
                  (id !in s.held <==> exists l :: l in listed && l.id == id && !Matched(spec, l.shown)))
  {
    if listed != [] {
      var before, last := listed[..|listed| - 1], listed[|listed| - 1];
      DeletesEffect(spec, before, r);
      assert forall l :: l in listed <==> l in before || l == last;
      var d := Deletes(spec, before);
      ApplyConcat(r, d, if Matched(spec, last.shown) then [] else [Delete(last.id)]);
      assert ApplyAll(ApplyAll(r, d), [Delete(last.id)]) == Apply(ApplyAll(ApplyAll(r, d), []), Delete(last.id));
    }
  }

  /** The delete pass keeps exactly the full matches. */
  lemma KeptByDeletes(spec: seq<Notification>, listed: seq<Listed>, r: Remote)
    requires Lists(listed, r)
    ensures var s := ApplyAll(r, Deletes(spec, listed));
            && s.next == r.next
            && (forall id :: id in s.held <==> id in r.held && Matched(spec, r.held[id]))
            && (forall id :: id in s.held ==> s.held[id] == r.held[id])
  {
    DeletesEffect(spec, listed, r);
    forall id | id in r.held && !Matched(spec, r.held[id])
      ensures id !in ApplyAll(r, Deletes(spec, listed)).held
    {
      assert Listed(id, r.held[id]) in listed;
    }
  }

  /** After the delete pass, and if names are distinct in the spec, comparing names is as good as comparing all. */
  lemma NameOnlyTestIsFull(spec: seq<Notification>, listed: seq<Listed>, r: Remote, n: Notification)
    requires Lists(listed, r) && DistinctNames(spec) && n in spec
    ensures var s := ApplyAll(r, Deletes(spec, listed)); Named(s, n.name) <==> Holds(s, Made(n))
  {
    KeptByDeletes(spec, listed, r);
    var s := ApplyAll(r, Deletes(spec, listed));
    if Named(s, n.name) {
      var id :| id in s.held && s.held[id].name == n.name;
      var m :| m in spec && Made(m) == r.held[id];
      assert m == n && s.held[id] == Made(n);
    }
    if Holds(s, Made(n)) {
      var id :| id in s.held && s.held[id] == Made(n);
      assert s.held[id].name == n.name;
    }
  }

  lemma {:induction false} CreatesWhich(spec: seq<Notification>, relisted: seq<Listed>)
    ensures forall c :: c in Creates(spec, relisted) ==> c.Create? && Matched(spec, c.n) && !Shown(relisted, c.n.name)
    ensures forall n :: n in spec && !Shown(relisted, n.name) ==> Create(Made(n)) in Creates(spec, relisted)
  {
    if spec != [] {
      var before, last := spec[..|spec| - 1], spec[|spec| - 1];
      CreatesWhich(before, relisted);
      assert forall n :: n in spec <==> n in before || n == last;
      forall c | c in Creates(spec, relisted)
        ensures c.Create? && Matched(spec, c.n) && !Shown(relisted, c.n.name)
      {
        if c in Creates(before, relisted) {
          var n :| n in before && Made(n) == c.n;
        } else {
          assert c == Create(Made(last));
        }
      }
    }
  }

  lemma {:induction false} ApplyCreates(r: Remote, calls: seq<Call>)
    requires ValidRemote(r) && forall c :: c in calls ==> c.Create?
    ensures var s := ApplyAll(r, calls);
            && s.next == r.next + |calls|
            && (forall id :: id in s.held <==> id in r.held || r.next <= id < s.next)
            && (forall id :: id in r.held ==> s.held[id] == r.held[id])
            && (forall id :: r.next <= id < s.next ==> s.held[id] == calls[id - r.next].n)
  {
    if calls != [] {
      assert calls[|calls| - 1] in calls;
      ApplyCreates(r, calls[..|calls| - 1]);
    }
  }

  lemma ShownExactlyIfNamed(relisted: seq<Listed>, s: Remote, name: string)
    requires Lists(relisted, s)
    ensures Shown(relisted, name) <==> Named(s, name)
  {
    if Named(s, name) {
      var id :| id in s.held && s.held[id].name == name;
      assert Listed(id, s.held[id]) in relisted;
    }
  }

  /** After a complete call: the full matches from before, and one new notification for each entry of the spec
      whose name none of them has. */
  lemma PlanEffect(spec: seq<Notification>, listed: seq<Listed>, relisted: seq<Listed>, r: Remote)
    requires ValidRemote(r) && Listings(spec, listed, relisted, r)
    ensures var t := ApplyAll(r, Plan(spec, listed, relisted));
            && ValidRemote(t)
            && (forall id :: id in t.held ==> Matched(spec, t.held[id]))
            && (forall n :: n in spec ==> (Holds(t, Made(n)) <==> Holds(r, Made(n)) || !NamesakeKept(spec, r, n.name)))
  {
    var s := ApplyAll(r, Deletes(spec, listed));
    var calls := Creates(spec, relisted);
    ApplyConcat(r, Deletes(spec, listed), calls);
    KeptByDeletes(spec, listed, r);
    CreatesWhich(spec, relisted);
    ApplyCreates(s, calls);
    var t := ApplyAll(s, calls);
    forall id | id in t.held
      ensures Matched(spec, t.held[id])
    {
      if id !in s.held { assert calls[id - s.next] in calls; }
    }
    forall n | n in spec
      ensures Holds(t, Made(n)) <==> Holds(r, Made(n)) || !NamesakeKept(spec, r, n.name)
    {
      EntryFound(spec, listed, relisted, r, s, t, n);
    }
  }

  lemma EntryFound(spec: seq<Notification>, listed: seq<Listed>, relisted: seq<Listed>, r: Remote, s: Remote,
      t: Remote, n: Notification)
    requires ValidRemote(r) && Listings(spec, listed, relisted, r) && n in spec
    requires s == ApplyAll(r, Deletes(spec, listed)) && t == ApplyAll(s, Creates(spec, relisted))
    ensures Holds(t, Made(n)) <==> Holds(r, Made(n)) || !NamesakeKept(spec, r, n.name)
  {
    KeptByDeletes(spec, listed, r);
    ShownExactlyIfNamed(relisted, s, n.name);
    assert Named(s, n.name) <==> NamesakeKept(spec, r, n.name) by {
      if NamesakeKept(spec, r, n.name) {
        var k :| k in r.held && r.held[k].name == n.name && Matched(spec, r.held[k]);
        assert s.held[k].name == n.name;
      }
    }
    if Holds(r, Made(n)) {
      MatchIsKept(spec, relisted, r, s, t, n);
    } else if !NamesakeKept(spec, r, n.name) {
      MissingIsAdded(spec, relisted, s, t, n);
    } else {
      HiddenIsNotAdded(spec, relisted, r, s, t, n);
    }
  }

  predicate AreKept(spec: seq<Notification>, r: Remote, s: Remote) {
    && (forall id :: id in s.held ==> id in r.held && s.held[id] == r.held[id])
    && (forall id :: id in r.held && Matched(spec, r.held[id]) ==> id in s.held)
  }

  lemma MatchIsKept(spec: seq<Notification>, relisted: seq<Listed>, r: Remote, s: Remote, t: Remote, n: Notification)
    requires ValidRemote(s) && AreKept(spec, r, s) && t == ApplyAll(s, Creates(spec, relisted)) && n in spec
    requires Holds(r, Made(n))
    ensures Holds(t, Made(n))
  {
    CreatesWhich(spec, relisted);
    ApplyCreates(s, Creates(spec, relisted));
    var id :| id in r.held && r.held[id] == Made(n);
    assert Matched(spec, r.held[id]) && t.held[id] == Made(n);
  }

  lemma MissingIsAdded(spec: seq<Notification>, relisted: seq<Listed>, s: Remote, t: Remote, n: Notification)
    requires ValidRemote(s) && t == ApplyAll(s, Creates(spec, relisted)) && n in spec && !Shown(relisted, n.name)
    ensures Holds(t, Made(n))
  {
    var calls := Creates(spec, relisted);
    CreatesWhich(spec, relisted);
    CreatedIsThere(calls, s, Made(n));
  }

  lemma CreatedIsThere(calls: seq<Call>, s: Remote, h: Held)
    requires ValidRemote(s) && Create(h) in calls && forall c :: c in calls ==> c.Create?
    ensures Holds(ApplyAll(s, calls), h)
  {
    ApplyCreates(s, calls);
    var j :| 0 <= j < |calls| && calls[j] == Create(h);
    var id := s.next + j;
    assert ApplyAll(s, calls).held[id] == calls[id - s.next].n;
  }

  lemma HiddenIsNotAdded(spec: seq<Notification>, relisted: seq<Listed>, r: Remote, s: Remote, t: Remote,
      n: Notification)
    requires ValidRemote(s) && AreKept(spec, r, s) && t == ApplyAll(s, Creates(spec, relisted)) &&
             Shown(relisted, n.name)
    requires !Holds(r, Made(n))
    ensures !Holds(t, Made(n))
  {
    var calls := Creates(spec, relisted);
    CreatesWhich(spec, relisted);
    ApplyCreates(s, calls);
    forall id | id in t.held
      ensures t.held[id] != Made(n)
    {
      if id !in s.held {
        var c := calls[id - s.next];
        assert c in calls && t.held[id] == c.n;
      }
    }
  }

  /** A complete call makes the remote notifications mirror the spec exactly when no entry is hidden. */
  lemma ConvergesExactlyIfNoneHidden(spec: seq<Notification>, listed: seq<Listed>, relisted: seq<Listed>, r: Remote)
    requires ValidRemote(r) && Listings(spec, listed, relisted, r)
    ensures Mirrors(spec, ApplyAll(r, Plan(spec, listed, relisted))) <==> NoneHidden(spec, r)
  {
    PlanEffect(spec, listed, relisted, r);
  }

  /** In particular it always does when the names in the spec are distinct. */
  lemma DistinctNamesHideNone(spec: seq<Notification>, r: Remote)
    requires DistinctNames(spec)
    ensures NoneHidden(spec, r)
  {
    forall n | n in spec && NamesakeKept(spec, r, n.name)
      ensures Holds(r, Made(n))
    {
      var id :| id in r.held && r.held[id].name == n.name && Matched(spec, r.held[id]);
      var m :| m in spec && Made(m) == r.held[id];
      assert m == n;
    }
  }

  /** Once the notifications mirror the spec, another call changes nothing. */
  lemma NoCallsWhenMirrored(spec: seq<Notification>, listed: seq<Listed>, relisted: seq<Listed>, r: Remote)
    requires Listings(spec, listed, relisted, r) && Mirrors(spec, r)
    ensures Plan(spec, listed, relisted) == []
  {
    NoDeletes(spec, listed);
    forall n | n in spec
      ensures Shown(relisted, n.name)
    {
      var id :| id in r.held && r.held[id] == Made(n);
      assert Listed(id, r.held[id]) in relisted;
    }
    NoCreates(spec, relisted);
  }

  lemma {:induction false} NoDeletes(spec: seq<Notification>, listed: seq<Listed>)
    requires forall l :: l in listed ==> Matched(spec, l.shown)
    ensures Deletes(spec, listed) == []
  {
    if listed != [] {
      assert listed[|listed| - 1] in listed;
      NoDeletes(spec, listed[..|listed| - 1]);
    }
  }

  lemma {:induction false} NoCreates(spec: seq<Notification>, relisted: seq<Listed>)
    requires forall n :: n in spec ==> Shown(relisted, n.name)
    ensures Creates(spec, relisted) == []
  {
    if spec != [] {
      assert spec[|spec| - 1] in spec;
      NoCreates(spec[..|spec| - 1], relisted);
    }
  }

  /****** The code ******/

  /** The comparison of one remote notification with one entry: equality of all fields, found out step by step. */
  method CompareNotifications(h: Held, n: Notification) returns (same: bool)
    ensures same <==> h == Made(n)
    ensures same <==> SaysTheSame(h, n)
  {
    MadeSaysTheSame(n, h);
    if h.name != n.name {
      return false;
    }
    if h.token != n.token || h.url != n.url || h.destination != n.kind || h.enabled != n.enabled {
      return false;
    }
    if h.emailAddresses != n.recipients {
      return false;
    }
    var userIDs: seq<string> := [];
    for i := 0 to |h.emailUsers|
      invariant |userIDs| == i && forall j :: 0 <= j < i ==> userIDs[j] == h.emailUsers[j].id
    {
      userIDs := userIDs + [h.emailUsers[i].id];
    }
    if h.triggers != n.triggers {
      return false;
    }
    same := userIDs == n.users;
    assert same <==> h.emailUsers == Users(n.users);
  }

  method FindMatch(h: Held, spec: seq<Notification>) returns (found: bool)
    ensures found <==> Matched(spec, h)
  {
    found := false;
    for i := 0 to |spec|
      invariant !found && forall j :: 0 <= j < i ==> Made(spec[j]) != h
    {
      var same := CompareNotifications(h, spec[i]);
      if same {
        assert spec[i] in spec;
        return true;
      }
    }
  }

  method FindName(name: string, listed: seq<Listed>) returns (found: bool)
    ensures found <==> Shown(listed, name)
  {
    found := false;
    for i := 0 to |listed|
      invariant !found && forall j :: 0 <= j < i ==> listed[j].shown.name != name
    {
      if listed[i].shown.name == name {
        assert listed[i] in listed;
        return true;
      }
    }
  }

  class NotificationClient {
    var remote: Remote

    constructor (remote: Remote)
      ensures this.remote == remote
    {
      this.remote := remote;
    }

    method Send(c: Call) returns (ok: bool, ghost done: seq<Call>)
      modifies this
      ensures done <= [c] && (ok ==> done == [c]) && remote == ApplyAll(old(remote), done)
    {
      var o: Outcome := *;
      done := [];
      if o.Effective() {
        done := [c];
        assert ApplyAll(remote, [c]) == Apply(ApplyAll(remote, []), c);
        remote := Apply(remote, c);
      }
      ok := o.Done?;
    }

    method SendAll(calls: seq<Call>) returns (ok: bool, ghost done: seq<Call>)
      modifies this
      ensures done <= calls && (ok ==> done == calls) && remote == ApplyAll(old(remote), done)
    {
      done := [];
      for i := 0 to |calls|
        invariant done == calls[..i] && remote == ApplyAll(old(remote), done)
      {
        var sent, c := Send(calls[i]);
        ApplyConcat(old(remote), done, c);
        done := done + c;
        if !sent {
          return false, done;
        }
      }
      ok := true;
    }

    method List() returns (ok: bool, listed: seq<Listed>)
      ensures Lists(listed, remote)
    {
      ok, listed := *, [];
      var ids := remote.held.Keys;
      while ids != {}
        invariant ids <= remote.held.Keys
        invariant forall l :: l in listed ==> l.id in remote.held && l.shown == remote.held[l.id]
        invariant forall id :: id in remote.held && id !in ids ==> Listed(id, remote.held[id]) in listed
        decreases ids
      {
        var id :| id in ids;
        listed := listed + [Listed(id, remote.held[id])];
        ids := ids - {id};
      }
    }

    /** Deletes what matches nothing, reads the list again, and adds what is missing by name. */
    method CheckNotifications(spec: seq<Notification>)
      returns (ok: bool, ghost listed: seq<Listed>, ghost relisted: seq<Listed>, ghost done: seq<Call>)
      modifies this
      ensures Lists(listed, old(remote)) && remote == ApplyAll(old(remote), done)
      ensures done <= Deletes(spec, listed) ||
              (Listings(spec, listed, relisted, old(remote)) && done <= Plan(spec, listed, relisted))
      ensures ok ==> Listings(spec, listed, relisted, old(remote)) && done == Plan(spec, listed, relisted)
    {
      var shown;
      ok, shown := List();
      listed, relisted, done := shown, shown, [];
      if !ok {
        return;
      }
      if |shown| == 0 && |spec| == 0 {
        assert Deletes(spec, shown) == [] && Creates(spec, shown) == [];
        return;
      }
      var toRemove := FindExtra(spec, shown);
      ok, done := SendAll(toRemove);
      if !ok {
        return;
      }
      var again;
      ok, again := List();
      relisted := again;
      if !ok {
        return;
      }
      var toAdd := FindMissing(spec, again);
      ghost var c;
      ok, c := SendAll(toAdd);
      ApplyConcat(old(remote), done, c);
      done := done + c;
    }
  }

  /** The first pair of nested loops. */
  method FindExtra(spec: seq<Notification>, listed: seq<Listed>) returns (toRemove: seq<Call>)
    ensures toRemove == Deletes(spec, listed)
  {
    toRemove := [];
    for i := 0 to |listed|
      invariant toRemove == Deletes(spec, listed[..i])
    {
      assert listed[..i + 1][..i] == listed[..i];
      var found := FindMatch(listed[i].shown, spec);
      if !found {
        toRemove := toRemove + [Delete(listed[i].id)];
      }
    }
    assert listed[..|listed|] == listed;
  }

  /** The second pair of nested loops. */
  method FindMissing(spec: seq<Notification>, listed: seq<Listed>) returns (toAdd: seq<Call>)
    ensures toAdd == Creates(spec, listed)
  {
    toAdd := [];
    for i := 0 to |spec|
      invariant toAdd == Creates(spec[..i], listed)
    {
      assert spec[..i + 1][..i] == spec[..i];
      var found := FindName(spec[i].name, listed);
      if !found {
        toAdd := toAdd + [Create(Made(spec[i]))];
      }
    }
    assert spec[..|spec|] == spec;
  }
}
