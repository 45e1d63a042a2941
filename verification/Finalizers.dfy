/**
 The list of finalizers (workspacehelper/helper.go).

 `remove` takes an element out of a slice by shifting the rest left in the slice's own array, while it
 ranges over the array at its original length.  So it does not look at the element that follows one it
 removed, and at the end it looks at leftovers beyond the shortened slice.
 */
module Finalizers {
  method Contains(list: seq<string>, s: string) returns (found: bool)
    ensures found <==> s in list
  {
    for i := 0 to |list|
      invariant s !in list[..i]
    {
      if list[i] == s {
        return true;
      }
    }
    return false;
  }

  /** The list without any occurrence of `s`. */
  function Others(list: seq<string>, s: string): seq<string> {
    if list == [] then [] else (if list[0] == s then [] else [list[0]]) + Others(list[1..], s)
  }

  /** What `remove` leaves: the element after a removed one is kept unseen. */
  function Left(list: seq<string>, s: string): seq<string> {
    if list == [] then []
    else if list[0] != s then [list[0]] + Left(list[1..], s)
    else if |list| == 1 then []
    else [list[1]] + Left(list[2..], s)
  }

  /** The slice is indexed out of range: `s` stands last, and before. */
  predicate Panics(list: seq<string>, s: string) {
    list != [] && list[|list| - 1] == s && s in list[..|list| - 1]
  }

  predicate Adjacent(list: seq<string>, s: string) {
    exists i :: 0 <= i < |list| - 1 && list[i] == s && list[i + 1] == s
  }

  lemma AdjacentLater(list: seq<string>, n: nat, s: string)
    requires n <= |list| && (n > 0 && n < |list| ==> !(list[n - 1] == s && list[n] == s))
    requires forall i :: 0 <= i < n - 1 ==> !(list[i] == s && list[i + 1] == s)
    ensures Adjacent(list, s) <==> Adjacent(list[n..], s)
  {
    if Adjacent(list, s) {
      var i :| 0 <= i < |list| - 1 && list[i] == s && list[i + 1] == s;
      assert list[n..][i - n] == s && list[n..][i - n + 1] == s;
    }
    if Adjacent(list[n..], s) {
      var i :| 0 <= i < |list[n..]| - 1 && list[n..][i] == s && list[n..][i + 1] == s;
      assert list[i + n] == s && list[i + n + 1] == s;
    }
  }

  lemma {:induction false} OthersHasNone(list: seq<string>, s: string)
    ensures s !in Others(list, s)
  {
    if list != [] {
      OthersHasNone(list[1..], s);
    }
  }

  /** All occurrences are removed, and nothing else, exactly when no two of them are adjacent. */
  lemma {:induction false} LeavesOthersExactlyIfNotAdjacent(list: seq<string>, s: string)
    ensures Left(list, s) == Others(list, s) <==> !Adjacent(list, s)
  {
    if list == [] {
    } else if list[0] != s {
      AdjacentLater(list, 1, s);
      LeavesOthersExactlyIfNotAdjacent(list[1..], s);
      assert ([list[0]] + Left(list[1..], s))[1..] == Left(list[1..], s);
      assert ([list[0]] + Others(list[1..], s))[1..] == Others(list[1..], s);
    } else if |list| == 1 {
      assert list[1..] == [];
    } else if list[1] == s {
      assert Left(list, s)[0] == s;
      OthersHasNone(list, s);
    } else {
      AdjacentLater(list, 2, s);
      LeavesOthersExactlyIfNotAdjacent(list[2..], s);
      assert list[1..][1..] == list[2..];
      assert Others(list, s) == [list[1]] + Others(list[2..], s);
      assert ([list[1]] + Left(list[2..], s))[1..] == Left(list[2..], s);
      assert ([list[1]] + Others(list[2..], s))[1..] == Others(list[2..], s);
    }
  }

  /** A finalizer that occurs at most once is removed without panic, and the others stay in order. */
  lemma RemovesSingle(list: seq<string>, s: string)
    requires forall i, j :: 0 <= i < j < |list| ==> !(list[i] == s && list[j] == s)
    ensures !Panics(list, s) && Left(list, s) == Others(list, s) && s !in Left(list, s)
  {
    LeavesOthersExactlyIfNotAdjacent(list, s);
    OthersHasNone(list, s);
  }

  /** Shifts the elements from `i + 1` to `len` one place left. */
  method Shift(a: array<string>, i: nat, len: nat, ghost slots: seq<string>)
    requires i < len <= a.Length && slots == a[..]
    modifies a
    ensures a[..] == slots[..i] + slots[i + 1..len] + slots[len - 1..]
  {
    for j := i to len - 1
      invariant forall k :: 0 <= k < i || j <= k < a.Length ==> a[k] == slots[k]
      invariant forall k :: i <= k < j ==> a[k] == slots[k + 1]
    {
      a[j] := a[j + 1];
    }
  }

  /** The array after `i` rounds: the shortened slice, of length `len`, is what `remove` leaves of the part
      of the list that was passed, followed by the part not yet seen; beyond it stand copies of the last element. */
  ghost predicate Passed(list: seq<string>, slots: seq<string>, len: nat, i: nat, s: string) {
    && len <= |list| == |slots| && i <= |list|
    && (if i <= len then
          var next := i + (|list| - len);
          slots[i..len] == list[next..] && slots[..i] + Left(list[next..], s) == Left(list, s)
        else slots[..len] == Left(list, s))
    && (forall k :: len <= k < |list| ==> slots[k] == list[|list| - 1])
    && (if len == |list| then s !in list[..i]
        else if i < |list| then s in list[..|list| - 1]
        else !Panics(list, s))
  }

  lemma PassOther(list: seq<string>, slots: seq<string>, len: nat, i: nat, s: string)
    requires Passed(list, slots, len, i, s) && i < |list| && slots[i] != s
    ensures Passed(list, slots, len, i + 1, s)
  {
    if i < len {
      var next := i + (|list| - len);
      assert slots[i..len][0] == list[next..][0] == slots[i];
      assert slots[i + 1..len] == slots[i..len][1..];
      assert list[next + 1..] == list[next..][1..];
      assert slots[..i + 1] == slots[..i] + [slots[i]];
      assert slots[..i] + ([slots[i]] + Left(list[next + 1..], s)) == slots[..i + 1] + Left(list[next + 1..], s);
    } else {
      assert slots[i] == list[|list| - 1];
      if i == len {
        assert Left(list[|list|..], s) == [];
      }
    }
    assert list[..i + 1] == list[..i] + [list[i]];
  }

  lemma PassRemoved(list: seq<string>, slots: seq<string>, len: nat, i: nat, s: string, shifted: seq<string>)
    requires Passed(list, slots, len, i, s) && i < len && slots[i] == s
    requires shifted == slots[..i] + slots[i + 1..len] + slots[len - 1..]
    ensures Passed(list, shifted, len - 1, i + 1, s)
  {
    var next := i + (|list| - len);
    var rest := list[next..];
    assert slots[i..len] == rest && rest[0] == s;
    assert slots[i + 1..len] == rest[1..];
    assert len == |list| ==> list[i] == slots[i];
    if i + 1 < len {
      assert rest[1..][1..] == rest[2..] == list[next + 2..];
      assert shifted[i + 1..len - 1] == rest[2..];
      assert shifted[..i + 1] == slots[..i] + [rest[1]];
      assert slots[..i] + ([rest[1]] + Left(rest[2..], s)) == shifted[..i + 1] + Left(rest[2..], s);
      assert slots[len - 1] == rest[|rest| - 1] == list[|list| - 1];
    } else {
      assert shifted[..len - 1] == slots[..i];
      assert slots[..i] + [] == slots[..i];
      assert rest == [s] && slots[len - 1] == list[|list| - 1];
    }
  }

  lemma PassStart(list: seq<string>, s: string)
    ensures Passed(list, list, |list|, 0, s)
  {
    assert list[0..|list|] == list[0..] == list;
    assert list[..0] + Left(list, s) == Left(list, s);
  }

  lemma PassStuck(list: seq<string>, slots: seq<string>, len: nat, i: nat, s: string)
    requires Passed(list, slots, len, i, s) && i < |list| && slots[i] == s && i + 1 > len
    ensures Panics(list, s)
  {
  }

  lemma PassEnd(list: seq<string>, slots: seq<string>, len: nat, s: string)
    requires Passed(list, slots, len, |list|, s)
    ensures !Panics(list, s) && slots[..len] == Left(list, s)
  {
    if len == |list| {
      assert Left(list[|list|..], s) == [] && slots[..|list|] + [] == slots[..|list|];
      assert list[..|list|] == list;
    }
  }

  /** One round of the loop, on the array behind the slice. */
  method Look(a: array<string>, s: string, len: nat, i: nat, ghost list: seq<string>)
      returns (shorter: nat, panicked: bool)
    requires Passed(list, a[..], len, i, s) && i < a.Length
    modifies a
    ensures panicked ==> Panics(list, s)
    ensures !panicked ==> Passed(list, a[..], shorter, i + 1, s)
  {
    ghost var slots := a[..];
    shorter, panicked := len, false;
    if a[i] == s {
      if i + 1 > len {
        PassStuck(list, slots, len, i, s);
        return len, true;
      }
      Shift(a, i, len, slots);
      PassRemoved(list, slots, len, i, s, a[..]);
      shorter := len - 1;
    } else {
      PassOther(list, slots, len, i, s);
    }
  }

  /** `a` is the array behind the slice; `len` is the length of the slice that is returned. */
  method Remove(a: array<string>, s: string) returns (len: nat, panicked: bool)
    modifies a
    ensures panicked <==> Panics(old(a[..]), s)
    ensures !panicked ==> len <= a.Length && a[..len] == Left(old(a[..]), s)
  {
    ghost var list := a[..];
    PassStart(list, s);
    len, panicked := a.Length, false;
    for i := 0 to a.Length
      invariant Passed(list, a[..], len, i, s)
    {
      len, panicked := Look(a, s, len, i, list);
      if panicked {
        return;
      }
    }
    PassEnd(list, a[..], len, s);
  }
}
