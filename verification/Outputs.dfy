/**
 Publishing the outputs of a workspace: from the state to the status and the Secret
 (workspacehelper/tfc_output.go, workspacehelper/k8s_configmap.go).

 The outputs come out of a map in any order.  What is published must not depend on it, or every look at an
 unchanged state would cause a write.
 */
module Outputs {
  import opened Options
  import opened Outcomes
  import opened Rendering

  datatype StateOutput = StateOutput(sensitive: bool, value: Value)

  datatype OutputStatus = OutputStatus(key: string, value: string)

  /** The text of an output, if it is to be published. */
  function Shown(o: StateOutput): Option<string> {
    if o.sensitive || Render(o.value) == "" then None else Some(Render(o.value))
  }

  /** All that is to be published of a state. */
  function Visible(state: map<string, StateOutput>): map<string, string> {
    map k | k in state && Shown(state[k]).Some? :: Shown(state[k]).value
  }

  function OutputsToMap(outputs: seq<OutputStatus>): map<string, string> {
    if outputs == [] then map[]
    else
      var last := outputs[|outputs| - 1];
      OutputsToMap(outputs[..|outputs| - 1])[last.key := last.value]
  }

  predicate DistinctOutputs(outputs: seq<OutputStatus>) {
    forall i, j :: 0 <= i < j < |outputs| ==> outputs[i].key != outputs[j].key
  }

  predicate Ascending(outputs: seq<OutputStatus>) {
    forall i, j :: 0 <= i < j < |outputs| ==> Before(outputs[i].key, outputs[j].key)
  }

  /** The one list that stands for a map: sorted by key. */
  predicate Canonical(outputs: seq<OutputStatus>, visible: map<string, string>) {
    Ascending(outputs) && OutputsToMap(outputs) == visible
  }

  /****** The order of strings ******/

  lemma {:induction false} BeforeIsIrreflexive(a: string)
    ensures !Before(a, a)
  {
    if a != "" {
      BeforeIsIrreflexive(a[1..]);
    }
  }

  lemma {:induction false} BeforeIsTransitive(a: string, b: string, c: string)
    requires Before(a, b) && Before(b, c)
    ensures Before(a, c)
  {
    if a != "" && a[0] == b[0] == c[0] {
      BeforeIsTransitive(a[1..], b[1..], c[1..]);
    }
  }

  lemma {:induction false} BeforeIsTotal(a: string, b: string)
    ensures Before(a, b) || a == b || Before(b, a)
  {
    if a != "" && b != "" && a[0] == b[0] {
      BeforeIsTotal(a[1..], b[1..]);
      assert a == [a[0]] + a[1..] && b == [b[0]] + b[1..];
    }
  }

  /****** A canonical list is unique ******/

  lemma {:induction false} NotInMap(outputs: seq<OutputStatus>, key: string)
    requires forall i :: 0 <= i < |outputs| ==> outputs[i].key != key
    ensures key !in OutputsToMap(outputs)
  {
    if outputs != [] {
      NotInMap(outputs[..|outputs| - 1], key);
    }
  }

  lemma {:induction false} MapHasAll(outputs: seq<OutputStatus>)
    requires DistinctOutputs(outputs)
    ensures forall o :: o in outputs <==> o.key in OutputsToMap(outputs) && OutputsToMap(outputs)[o.key] == o.value
    ensures |OutputsToMap(outputs)| == |outputs|
  {
    if outputs != [] {
      var before, last := outputs[..|outputs| - 1], outputs[|outputs| - 1];
      MapHasAll(before);
      assert forall o :: o in outputs <==> o in before || o == last;
      NotInMap(before, last.key);
    }
  }

  lemma AscendingIsDistinct(outputs: seq<OutputStatus>)
    requires Ascending(outputs)
    ensures DistinctOutputs(outputs)
  {
    forall i, j | 0 <= i < j < |outputs| ensures outputs[i].key != outputs[j].key {
      BeforeIsIrreflexive(outputs[i].key);
    }
  }

  lemma FirstIsLeast(a: seq<OutputStatus>, b: seq<OutputStatus>)
    requires a != [] && Ascending(a) && Ascending(b) && forall o :: o in a <==> o in b
    ensures b != [] && a[0] == b[0]
  {
    assert a[0] in b;
    assert b[0] in a;
    var i :| 0 <= i < |b| && b[i] == a[0];
    var j :| 0 <= j < |a| && a[j] == b[0];
    if i > 0 && j > 0 {
      BeforeIsTransitive(a[0].key, b[0].key, a[0].key);
      BeforeIsIrreflexive(a[0].key);
    }
  }

  lemma {:induction false} SameElementsSameList(a: seq<OutputStatus>, b: seq<OutputStatus>)
    requires Ascending(a) && Ascending(b) && |a| == |b| && forall o :: o in a <==> o in b
    ensures a == b
  {
    if a != [] {
      FirstIsLeast(a, b);
      AscendingIsDistinct(a);
      AscendingIsDistinct(b);
      assert a == [a[0]] + a[1..] && b == [b[0]] + b[1..];
      assert forall o :: o in a[1..] <==> o in a && o != a[0] by { RestHasOthers(a); }
      assert forall o :: o in b[1..] <==> o in b && o != b[0] by { RestHasOthers(b); }
      SameElementsSameList(a[1..], b[1..]);
    }
  }

  lemma RestHasOthers(a: seq<OutputStatus>)
    requires a != [] && DistinctOutputs(a)
    ensures forall o :: o in a[1..] <==> o in a && o != a[0]
  {
    assert a == [a[0]] + a[1..];
    assert forall i :: 0 <= i < |a[1..]| ==> a[1..][i] == a[i + 1] && a[i + 1].key != a[0].key;
  }

  lemma CanonicalIsUnique(a: seq<OutputStatus>, b: seq<OutputStatus>, visible: map<string, string>)
    requires Canonical(a, visible) && Canonical(b, visible)
    ensures a == b
  {
    AscendingIsDistinct(a);
    AscendingIsDistinct(b);
    MapHasAll(a);
    MapHasAll(b);
    SameElementsSameList(a, b);
  }

  /****** Sorting makes any list canonical ******/

  function InsertByKey(o: OutputStatus, outputs: seq<OutputStatus>): seq<OutputStatus> {
    if outputs == [] || Before(o.key, outputs[0].key) then [o] + outputs
    else [outputs[0]] + InsertByKey(o, outputs[1..])
  }

  /** The list in order of key; the standard library's sort.Slice is taken at its word. */
  function SortByKey(outputs: seq<OutputStatus>): seq<OutputStatus> {
    if outputs == [] then [] else InsertByKey(outputs[0], SortByKey(outputs[1..]))
  }

  lemma {:induction false} InsertKeeps(o: OutputStatus, outputs: seq<OutputStatus>)
    ensures multiset(InsertByKey(o, outputs)) == multiset(outputs) + multiset{o}
  {
    if outputs == [] || Before(o.key, outputs[0].key) {
    } else {
      InsertKeeps(o, outputs[1..]);
      assert outputs == [outputs[0]] + outputs[1..];
    }
  }

  lemma {:induction false} SortKeeps(outputs: seq<OutputStatus>)
    ensures multiset(SortByKey(outputs)) == multiset(outputs)
  {
    if outputs != [] {
      SortKeeps(outputs[1..]);
      InsertKeeps(outputs[0], SortByKey(outputs[1..]));
      assert outputs == [outputs[0]] + outputs[1..];
    }
  }

  lemma {:induction false} InsertAscends(o: OutputStatus, outputs: seq<OutputStatus>)
    requires Ascending(outputs) && forall p :: p in outputs ==> p.key != o.key
    ensures Ascending(InsertByKey(o, outputs))
  {
    if outputs != [] {
      var first := outputs[0];
      assert first in outputs;
      if Before(o.key, first.key) {
        forall p | p in outputs ensures Before(o.key, p.key) {
          if p != first { BeforeIsTransitive(o.key, first.key, p.key); }
        }
      } else {
        BeforeIsTotal(o.key, first.key);
        InsertAscends(o, outputs[1..]);
        InsertKeeps(o, outputs[1..]);
        var rest := InsertByKey(o, outputs[1..]);
        forall p | p in rest ensures Before(first.key, p.key) {
          assert p in multiset(rest);
        }
      }
    }
  }

  lemma {:induction false} SortAscends(outputs: seq<OutputStatus>)
    requires DistinctOutputs(outputs)
    ensures Ascending(SortByKey(outputs))
  {
    if outputs != [] {
      SortAscends(outputs[1..]);
      SortKeeps(outputs[1..]);
      forall p | p in SortByKey(outputs[1..]) ensures p.key != outputs[0].key {
        assert p in multiset(outputs[1..]);
      }
      InsertAscends(outputs[0], SortByKey(outputs[1..]));
    }
  }

  lemma SortedIsCanonical(outputs: seq<OutputStatus>)
    requires DistinctOutputs(outputs)
    ensures Canonical(SortByKey(outputs), OutputsToMap(outputs))
  {
    SortAscends(outputs);
    SortKeeps(outputs);
    var sorted := SortByKey(outputs);
    AscendingIsDistinct(sorted);
    assert forall o :: o in sorted <==> o in outputs by {
      assert forall o :: o in sorted <==> o in multiset(sorted);
      assert forall o :: o in outputs <==> o in multiset(outputs);
    }
    SameElementsSameMap(sorted, outputs);
    SameElementsSameMap(outputs, sorted);
  }

  lemma SameElementsSameMap(a: seq<OutputStatus>, b: seq<OutputStatus>)
    requires DistinctOutputs(a) && DistinctOutputs(b) && forall o :: o in a <==> o in b
    ensures forall k :: k in OutputsToMap(a) ==> k in OutputsToMap(b) && OutputsToMap(b)[k] == OutputsToMap(a)[k]
  {
    MapHasAll(a);
    MapHasAll(b);
    forall k | k in OutputsToMap(a)
      ensures k in OutputsToMap(b) && OutputsToMap(b)[k] == OutputsToMap(a)[k]
    {
      assert OutputStatus(k, OutputsToMap(a)[k]) in a;
    }
  }

  /** The filtering loop, for one order of iteration. */
  function Listing(visible: map<string, string>, order: seq<string>): (outputs: seq<OutputStatus>)
    ensures forall o :: o in outputs ==> o.key in order
  {
    if order == [] then []
    else
      var k := order[|order| - 1];
      var before := Listing(visible, order[..|order| - 1]);
      if k in visible then before + [OutputStatus(k, visible[k])] else before
  }

  ghost predicate Orders(order: seq<string>, keys: set<string>) {
    && (forall k :: k in order <==> k in keys)
    && (forall i, j :: 0 <= i < j < |order| ==> order[i] != order[j])
  }

  lemma ListingShowsVisible(visible: map<string, string>, order: seq<string>, keys: set<string>)
    requires Orders(order, keys)
    ensures DistinctOutputs(Listing(visible, order))
    ensures forall k :: k in OutputsToMap(Listing(visible, order)) <==> k in keys && k in visible
    ensures forall k :: k in keys && k in visible ==> OutputsToMap(Listing(visible, order))[k] == visible[k]
  {
    ListingIsDistinct(visible, order);
    ListingShows(visible, order);
  }

  lemma {:induction false} ListingIsDistinct(visible: map<string, string>, order: seq<string>)
    requires forall i, j :: 0 <= i < j < |order| ==> order[i] != order[j]
    ensures DistinctOutputs(Listing(visible, order))
  {
    if order != [] {
      var before := order[..|order| - 1];
      ListingIsDistinct(visible, before);
      var l := Listing(visible, before);
      assert forall i :: 0 <= i < |l| ==> l[i] in l;
    }
  }

  lemma {:induction false} ListingShows(visible: map<string, string>, order: seq<string>)
    ensures forall k :: k in OutputsToMap(Listing(visible, order)) <==> k in order && k in visible
    ensures forall k :: k in order && k in visible ==> OutputsToMap(Listing(visible, order))[k] == visible[k]
  {
    if order != [] {
      var before, last := order[..|order| - 1], order[|order| - 1];
      ListingShows(visible, before);
      assert order == before + [last];
      if last in visible {
        AppendShows(Listing(visible, before), OutputStatus(last, visible[last]));
      }
    }
  }

  lemma AppendShows(l: seq<OutputStatus>, o: OutputStatus)
    ensures OutputsToMap(l + [o]) == OutputsToMap(l)[o.key := o.value]
  {
    assert (l + [o])[..|l|] == l;
  }

  /** Whatever the order of iteration, the same list is published, and it shows exactly what is visible. */
  lemma PublishedListIsCanonical(state: map<string, StateOutput>, order: seq<string>)
    requires Orders(order, state.Keys)
    ensures Canonical(SortByKey(Listing(Visible(state), order)), Visible(state))
  {
    var visible := Visible(state);
    ListingShowsVisible(visible, order, state.Keys);
    SortedIsCanonical(Listing(visible, order));
    assert OutputsToMap(Listing(visible, order)) == visible;
  }

  lemma OrderDoesNotMatter(state: map<string, StateOutput>, order: seq<string>, other: seq<string>)
    requires Orders(order, state.Keys) && Orders(other, state.Keys)
    ensures SortByKey(Listing(Visible(state), order)) == SortByKey(Listing(Visible(state), other))
  {
    PublishedListIsCanonical(state, order);
    PublishedListIsCanonical(state, other);
    CanonicalIsUnique(SortByKey(Listing(Visible(state), order)), SortByKey(Listing(Visible(state), other)),
        Visible(state));
  }

  /** The list has an entry for an output exactly if it is not sensitive and has a text, and that text is its value. */
  predicate ShowsExactly(outputs: seq<OutputStatus>, state: map<string, StateOutput>) {
    && (forall o :: o in outputs ==>
          o.key in state && !state[o.key].sensitive && o.value == Render(state[o.key].value) && o.value != "")
    && (forall k :: k in state && !state[k].sensitive && Render(state[k].value) != "" ==>
          OutputStatus(k, Render(state[k].value)) in outputs)
  }

  /** Sensitive outputs are never published, and all others are that have a text. */
  lemma PublishedShowsExactly(outputs: seq<OutputStatus>, state: map<string, StateOutput>)
    requires DistinctOutputs(outputs)
    ensures OutputsToMap(outputs) == Visible(state) <==> ShowsExactly(outputs, state)
  {
    MapHasAll(outputs);
    if ShowsExactly(outputs, state) {
      assert forall k :: k in OutputsToMap(outputs) ==> OutputStatus(k, OutputsToMap(outputs)[k]) in outputs;
    }
  }

  /****** The code ******/

  method GetOutputsFromState(state: map<string, StateOutput>)
      returns (outputs: seq<OutputStatus>, ghost order: seq<string>)
    ensures Orders(order, state.Keys) && outputs == Listing(Visible(state), order)
    ensures DistinctOutputs(outputs) && ShowsExactly(outputs, state)
  {
    outputs, order := [], [];
    var keys := state.Keys;
    while keys != {}
      invariant keys <= state.Keys && Orders(order, state.Keys - keys) && outputs == Listing(Visible(state), order)
      decreases keys
    {
      var key :| key in keys;
      assert (order + [key])[..|order|] == order;
      var value := state[key];
      if !value.sensitive {
        var statusValue := Render(value.value);
        if statusValue != "" {
          outputs := outputs + [OutputStatus(key, statusValue)];
        }
      }
      order := order + [key];
      keys := keys - {key};
    }
    ListingShowsVisible(Visible(state), order, state.Keys);
    assert OutputsToMap(outputs) == Visible(state);
    PublishedShowsExactly(outputs, state);
  }

  /** The outputs to publish; `state` is what the current state version holds, if it can be read. */
  method CheckOutputs(hasRun: bool, state: Option<map<string, StateOutput>>)
      returns (outputs: seq<OutputStatus>, ok: bool)
    ensures !hasRun ==> ok && outputs == []
    ensures hasRun ==> ok == state.Some?
    ensures hasRun && ok ==> Canonical(outputs, Visible(state.value)) && ShowsExactly(outputs, state.value)
  {
    if !hasRun {
      return [], true;
    }
    match state {
      case None => return [], false;
      case Some(current) =>
        var listing, order := GetOutputsFromState(current);
        PublishedListIsCanonical(current, order);
        outputs, ok := SortByKey(listing), true;
        AscendingIsDistinct(outputs);
        PublishedShowsExactly(outputs, current);
    }
  }

  /** The list that stands for what is visible of a state. */
  method ListCanonically(visible: map<string, string>) returns (outputs: seq<OutputStatus>)
    ensures Canonical(outputs, visible)
  {
    var order: seq<string>, keys := [], visible.Keys;
    while keys != {}
      invariant keys <= visible.Keys && Orders(order, visible.Keys - keys)
      decreases keys
    {
      var key :| key in keys;
      order, keys := order + [key], keys - {key};
    }
    ListingShowsVisible(visible, order, visible.Keys);
    SortedIsCanonical(Listing(visible, order));
    assert OutputsToMap(Listing(visible, order)) == visible;
    return SortByKey(Listing(visible, order));
  }

  class SecretClient {
    var secret: Option<map<string, string>>

    constructor (secret: Option<map<string, string>>)
      ensures this.secret == secret
    {
      this.secret := secret;
    }

    /** Creates or updates the Secret; it may fail with or without effect. */
    method Write(data: map<string, string>) returns (ok: bool)
      modifies this
      ensures secret == Some(data) || secret == old(secret)
      ensures ok ==> secret == Some(data)
    {
      var o: Outcome := *;
      if o.Effective() {
        secret := Some(data);
      }
      ok := o.Done?;
    }

    /** The Secret is written only if it does not hold the outputs already. */
    method UpsertSecretOutputs(outputs: seq<OutputStatus>) returns (ok: bool, ghost wrote: bool)
      modifies this
      ensures ok ==> secret == Some(OutputsToMap(outputs))
      ensures secret == old(secret) || secret == Some(OutputsToMap(outputs))
      ensures old(secret) == Some(OutputsToMap(outputs)) ==> !wrote
      ensures !wrote ==> secret == old(secret)
    {
      wrote := false;
      var found: bool := *;
      if !found {
        return false, false;
      }
      var data := OutputsToMapLoop(outputs);
      if secret != Some(data) {
        wrote := true;
        ok := Write(data);
        return;
      }
      ok := true;
    }
  }

  method OutputsToMapLoop(outputs: seq<OutputStatus>) returns (data: map<string, string>)
    ensures data == OutputsToMap(outputs)
  {
    data := map[];
    for i := 0 to |outputs|
      invariant data == OutputsToMap(outputs[..i])
    {
      assert outputs[..i + 1][..i] == outputs[..i];
      data := data[outputs[i].key := outputs[i].value];
    }
    assert outputs[..|outputs|] == outputs;
  }
}
