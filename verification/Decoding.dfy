/**
 What a string that holds JSON is printed as (workspacehelper/tfc_output.go): the tree that it holds, in its normal
 form.
 */
module Decoding {
  import opened Options
  import opened Json
  import opened Rendering
  import opened RoundTrip
  import Amounts
  import Quoting
  import Outputs

  /****** The normal form of a tree ******/

  /** The order of strings is that of the first characters in which they differ; a prefix comes first. */
  predicate FirstDifference(a: string, b: string, k: nat) {
    && k <= |a| && k <= |b| && a[..k] == b[..k]
    && if k == |a| then k < |b| else k < |b| && a[k] < b[k]
  }

  lemma {:induction false} BeforeIsFirstDifference(a: string, b: string)
    ensures Before(a, b) <==> exists k: nat :: FirstDifference(a, b, k)
  {
    if a != "" && b != "" && a[0] == b[0] {
      BeforeIsFirstDifference(a[1..], b[1..]);
      assert a == [a[0]] + a[1..] && b == [b[0]] + b[1..];
      if k: nat :| FirstDifference(a[1..], b[1..], k) {
        assert a[..k + 1] == [a[0]] + a[1..][..k] && b[..k + 1] == [b[0]] + b[1..][..k];
        assert FirstDifference(a, b, k + 1);
      }
      if k: nat :| FirstDifference(a, b, k) {
        assert a[1..][..k - 1] == a[..k][1..] == b[..k][1..] == b[1..][..k - 1];
        assert FirstDifference(a[1..], b[1..], k - 1);
      }
    } else if Before(a, b) {
      assert FirstDifference(a, b, 0);
    }
  }

  predicate Ascending(members: seq<Member>) {
    forall i, j :: 0 <= i < j < |members| ==> Before(members[i].name, members[j].name)
  }

  predicate LastOfName(members: seq<Member>, i: nat) {
    i < |members| && forall k :: i < k < |members| ==> members[k].name != members[i].name
  }

  /** The same tree, with the members of every object in the order of their names; of several with one name the last
      counts. */
  ghost predicate IsNormal(n: Json, j: Json)
    decreases j
  {
    match j
    case JArray(items) =>
      n.JArray? && |n.items| == |items| && forall i :: 0 <= i < |items| ==> IsNormal(n.items[i], items[i])
    case JObject(members) => n.JObject? && Ascending(n.members) && AreNormal(n.members, members)
    case _ => n == j
  }

  ghost predicate AreNormal(ns: seq<Member>, members: seq<Member>)
    decreases members
  {
    && (forall i: nat :: LastOfName(members, i) ==>
          exists n :: n in ns && n.name == members[i].name && IsNormal(n.value, members[i].value))
    && (forall n :: n in ns ==> HasMember(members, n.name))
  }

  predicate HasMember(members: seq<Member>, name: string) { exists m :: m in members && m.name == name }

  /****** Inserting ******/

  predicate Sorted(es: seq<Entry>) { forall i, j :: 0 <= i < j < |es| ==> Before(es[i].name, es[j].name) }

  lemma {:induction false} InsertReplaces(e: Entry, es: seq<Entry>)
    requires Sorted(es)
    ensures forall x :: x in Insert(e, es) <==> x == e || (x in es && x.name != e.name)
    ensures Sorted(Insert(e, es))
    decreases |es|
  {
    if es != [] {
      var first, rest := es[0], es[1..];
      assert es == [first] + rest;
      FirstIsAlone(es);
      if e.name == first.name {
        assert Insert(e, es) == [e] + rest;
      } else if Before(e.name, first.name) {
        BeforeAll(e, es);
        assert Insert(e, es) == [e] + es;
      } else {
        InsertReplaces(e, rest);
        var t := Insert(e, rest);
        Outputs.BeforeIsTotal(e.name, first.name);
        assert Insert(e, es) == [first] + t;
        assert forall x :: x in t ==> Before(first.name, x.name);
      }
    }
  }

  lemma FirstIsAlone(es: seq<Entry>)
    requires Sorted(es) && es != []
    ensures forall x :: x in es[1..] ==> Before(es[0].name, x.name) && x.name != es[0].name
  {
    forall x | x in es[1..] ensures Before(es[0].name, x.name) && x.name != es[0].name {
      var k :| 0 <= k < |es[1..]| && es[1..][k] == x;
      assert es[k + 1] == x;
      Outputs.BeforeIsIrreflexive(x.name);
    }
  }

  lemma BeforeAll(e: Entry, es: seq<Entry>)
    requires Sorted(es) && es != [] && Before(e.name, es[0].name)
    ensures forall x :: x in es ==> Before(e.name, x.name) && x.name != e.name
  {
    forall x | x in es ensures Before(e.name, x.name) && x.name != e.name {
      var k :| 0 <= k < |es| && es[k] == x;
      if k > 0 { Outputs.BeforeIsTransitive(e.name, es[0].name, x.name); }
      Outputs.BeforeIsIrreflexive(x.name);
    }
  }

  /****** Decoding keeps the tree ******/

  /** The entries stand for the members. */
  ghost predicate StandFor(es: seq<Entry>, members: seq<Member>) {
    && (forall i: nat :: LastOfName(members, i) ==> StandsFor(es, members[i]))
    && (forall e :: e in es ==> HasMember(members, e.name))
  }

  ghost predicate StandsFor(es: seq<Entry>, m: Member) {
    exists e :: e in es && e.name == m.name && IsNormal(Tree(e.value), m.value)
  }

  lemma StandForMore(es: seq<Entry>, before: seq<Member>, e: Entry, last: Member)
    requires Sorted(es) && StandFor(es, before) && e.name == last.name && IsNormal(Tree(e.value), last.value)
    ensures StandFor(Insert(e, es), before + [last])
  {
    var members, now := before + [last], Insert(e, es);
    InsertReplaces(e, es);
    forall i: nat | LastOfName(members, i) ensures StandsFor(now, members[i]) {
      if i == |before| {
        assert e in now;
      } else {
        assert LastOfName(before, i) by {
          assert forall k :: i < k < |before| ==> members[k] == before[k];
        }
        assert members[|before|].name != members[i].name;
        assert StandsFor(es, before[i]);
        var x :| x in es && x.name == before[i].name && IsNormal(Tree(x.value), before[i].value);
        assert x in now;
      }
    }
    forall x | x in now ensures HasMember(members, x.name) {
      if x == e {
        assert last in members;
      } else {
        var m :| m in before && m.name == x.name;
        assert m in members;
      }
    }
  }

  lemma {:induction false} TreesByIndex(es: seq<Entry>)
    ensures |MemberTrees(es)| == |es|
    ensures forall i :: 0 <= i < |es| ==> MemberTrees(es)[i] == Member(es[i].name, Tree(es[i].value))
    decreases |es|
  {
    if es != [] {
      TreesByIndex(es[1..]);
    }
  }

  lemma StandingIsNormal(es: seq<Entry>, members: seq<Member>)
    requires Sorted(es) && StandFor(es, members)
    ensures Ascending(MemberTrees(es)) && AreNormal(MemberTrees(es), members)
  {
    var ns := MemberTrees(es);
    TreesByIndex(es);
    forall i: nat | LastOfName(members, i)
      ensures exists n :: n in ns && n.name == members[i].name && IsNormal(n.value, members[i].value)
    {
      assert StandsFor(es, members[i]);
      var e :| e in es && e.name == members[i].name && IsNormal(Tree(e.value), members[i].value);
      var k :| 0 <= k < |es| && es[k] == e;
      assert ns[k] in ns;
    }
    forall n | n in ns ensures HasMember(members, n.name) {
      var k :| 0 <= k < |ns| && ns[k] == n;
      assert es[k] in es;
    }
  }

  /** Decoding keeps the tree: its value has just the tree's normal form. */
  lemma {:induction false} DecodingKeepsTheTree(j: Json)
    ensures IsNormal(Tree(FromJson(j)), j)
    decreases Weight(j), 0
  {
    match j
    case JArray(items) => ItemsKeepTheirTrees(items);
    case JObject(members) =>
      MembersKeepTheirTrees(members);
      StandingIsNormal(FromMembers(members), members);
    case _ =>
  }

  lemma {:induction false} ItemsKeepTheirTrees(items: seq<Json>)
    ensures var ns := Trees(FromItems(items));
            |ns| == |items| && forall i :: 0 <= i < |items| ==> IsNormal(ns[i], items[i])
    decreases WeightAll(items), 1 + |items|
  {
    if items != [] {
      DecodingKeepsTheTree(items[0]);
      ItemsKeepTheirTrees(items[1..]);
      var vs := FromItems(items);
      assert vs[1..] == FromItems(items[1..]);
    }
  }

  lemma FromOneMore(before: seq<Member>, last: Member)
    ensures FromMembers(before + [last]) == Insert(Entry(last.name, FromJson(last.value)), FromMembers(before))
  {
    assert (before + [last])[..|before|] == before;
  }

  lemma {:induction false} MembersKeepTheirTrees(members: seq<Member>)
    ensures Sorted(FromMembers(members)) && StandFor(FromMembers(members), members)
    decreases WeightMembers(members), 1 + |members|
  {
    if members != [] {
      var before, last := members[..|members| - 1], members[|members| - 1];
      assert members == before + [last];
      MembersSplit(members);
      DecodingKeepsTheTree(last.value);
      MembersKeepTheirTrees(before);
      FromOneMore(before, last);
      OneMoreStands(FromMembers(before), before, Entry(last.name, FromJson(last.value)), last);
    }
  }

  lemma OneMoreStands(es: seq<Entry>, before: seq<Member>, e: Entry, last: Member)
    requires Sorted(es) && StandFor(es, before) && e.name == last.name && IsNormal(Tree(e.value), last.value)
    ensures Sorted(Insert(e, es)) && StandFor(Insert(e, es), before + [last])
  {
    InsertReplaces(e, es);
    StandForMore(es, before, e, last);
  }

  /****** There is just one normal form ******/

  lemma {:induction false} NormalIsUnique(m: Json, n: Json, j: Json)
    requires IsNormal(m, j) && IsNormal(n, j)
    ensures m == n
    decreases Weight(j), 0
  {
    match j
    case JArray(items) =>
      forall i | 0 <= i < |items| ensures m.items[i] == n.items[i] {
        ItemIsLighter(items, i);
        NormalIsUnique(m.items[i], n.items[i], items[i]);
      }
    case JObject(members) =>
      forall x | x in m.members ensures x in n.members { SameMember(m.members, n.members, members, x); }
      forall x | x in n.members ensures x in m.members { SameMember(n.members, m.members, members, x); }
      AscendingIsUnique(m.members, n.members);
    case _ =>
  }

  /** What the one has, the other has too. */
  lemma {:induction false} SameMember(xs: seq<Member>, ys: seq<Member>, members: seq<Member>, x: Member)
    requires Ascending(xs) && AreNormal(xs, members) && AreNormal(ys, members) && x in xs
    ensures x in ys
    decreases WeightMembers(members), 1
  {
    var i := NormalOf(xs, members, x);
    var y := NormalAt(ys, members, i);
    MemberIsLighter(members, i);
    NormalIsUnique(x.value, y.value, members[i].value);
  }

  lemma NormalAt(ys: seq<Member>, members: seq<Member>, i: nat) returns (y: Member)
    requires AreNormal(ys, members) && LastOfName(members, i)
    ensures y in ys && y.name == members[i].name && IsNormal(y.value, members[i].value)
  {
    y :| y in ys && y.name == members[i].name && IsNormal(y.value, members[i].value);
  }

  lemma NormalOf(xs: seq<Member>, members: seq<Member>, x: Member) returns (i: nat)
    requires Ascending(xs) && AreNormal(xs, members) && x in xs
    ensures LastOfName(members, i) && members[i].name == x.name && IsNormal(x.value, members[i].value)
  {
    i := LastIndex(members, x.name);
    var w := NormalAt(xs, members, i);
    AscendingNames(xs, w, x);
  }

  lemma {:induction false} LastIndex(members: seq<Member>, name: string) returns (i: nat)
    requires HasMember(members, name)
    ensures LastOfName(members, i) && members[i].name == name
    decreases |members|
  {
    var before, last := members[..|members| - 1], members[|members| - 1];
    assert members == before + [last];
    if last.name == name {
      i := |before|;
    } else {
      i := LastIndex(before, name);
      assert forall k :: 0 <= k < |before| ==> members[k] == before[k];
    }
  }

  lemma AscendingNames(xs: seq<Member>, w: Member, x: Member)
    requires Ascending(xs) && w in xs && x in xs && w.name == x.name
    ensures w == x
  {
    Outputs.BeforeIsIrreflexive(x.name);
  }

  lemma {:induction false} ItemIsLighter(items: seq<Json>, i: nat)
    requires i < |items|
    ensures Weight(items[i]) <= WeightAll(items)
    decreases i
  {
    if i > 0 {
      ItemIsLighter(items[1..], i - 1);
    }
  }

  lemma {:induction false} MemberIsLighter(members: seq<Member>, i: nat)
    requires i < |members|
    ensures Weight(members[i].value) <= WeightMembers(members)
    decreases i
  {
    if i > 0 {
      MemberIsLighter(members[1..], i - 1);
    }
  }

  lemma {:induction false} AscendingIsUnique(a: seq<Member>, b: seq<Member>)
    requires Ascending(a) && Ascending(b) && forall x :: x in a <==> x in b
    ensures a == b
    decreases |a|
  {
    if b != [] { assert b[0] in b; }
    if a != [] {
      LeastIsFirst(a, b);
      OthersFollow(a);
      OthersFollow(b);
      assert a == [a[0]] + a[1..] && b == [b[0]] + b[1..];
      AscendingIsUnique(a[1..], b[1..]);
    }
  }

  lemma LeastIsFirst(a: seq<Member>, b: seq<Member>)
    requires a != [] && Ascending(a) && Ascending(b) && forall x :: x in a <==> x in b
    ensures b != [] && a[0] == b[0]
  {
    assert a[0] in b;
    assert b[0] in a;
    var i :| 0 <= i < |b| && b[i] == a[0];
    var j :| 0 <= j < |a| && a[j] == b[0];
    if i > 0 && j > 0 {
      Outputs.BeforeIsTransitive(a[0].name, b[0].name, a[0].name);
      Outputs.BeforeIsIrreflexive(a[0].name);
    }
  }

  lemma OthersFollow(a: seq<Member>)
    requires a != [] && Ascending(a)
    ensures forall x :: x in a[1..] <==> x in a && x != a[0]
  {
    assert a == [a[0]] + a[1..];
    Outputs.BeforeIsIrreflexive(a[0].name);
    assert forall i :: 0 <= i < |a[1..]| ==> a[1..][i] == a[i + 1] && a[i + 1].name != a[0].name;
  }

  /****** Numbers that were read are in plain notation ******/

  ghost predicate PlainNumbers(j: Json) {
    match j
    case JNumber(n) => Numeral(n)
    case JArray(items) => forall i :: 0 <= i < |items| ==> PlainNumbers(items[i])
    case JObject(members) => forall i :: 0 <= i < |members| ==> PlainNumbers(members[i].value)
    case _ => true
  }

  ghost predicate PlainInItems(items: seq<Json>) { forall i :: 0 <= i < |items| ==> PlainNumbers(items[i]) }

  ghost predicate PlainInMembers(members: seq<Member>) {
    forall i :: 0 <= i < |members| ==> PlainNumbers(members[i].value)
  }

  lemma {:induction false} ReadIsPlain(s: string)
    requires ParseValue(s).Parsed?
    ensures PlainNumbers(ParseValue(s).value)
    decreases |s|, 0
  {
    var t := SkipSpace(s);
    if t[0] == '[' {
      var u := SkipSpace(t[1..]);
      if u[0] != ']' { ReadItemsArePlain(u); }
    } else if t[0] == '{' {
      var u := SkipSpace(t[1..]);
      if u[0] != '}' { ReadMembersArePlain(u); }
    } else if ParseValue(s).value.JNumber? {
      Amounts.AnyNumberIsPlain(t);
    }
  }

  lemma {:induction false} ReadItemsArePlain(s: string)
    requires ParseItems(s).Parsed?
    ensures PlainInItems(ParseItems(s).value)
    decreases |s|, 1
  {
    ReadIsPlain(s);
    var t := SkipSpace(ParseValue(s).rest);
    if t[0] == ',' { ReadItemsArePlain(t[1..]); }
  }

  lemma {:induction false} ReadMembersArePlain(s: string)
    requires ParseMembers(s).Parsed?
    ensures PlainInMembers(ParseMembers(s).value)
    decreases |s|, 1
  {
    var u := ParseName(s).rest;
    ReadIsPlain(u);
    var t := SkipSpace(ParseValue(u).rest);
    if t[0] == ',' { ReadMembersArePlain(t[1..]); }
  }

  lemma {:induction false} DecodedNumerals(j: Json)
    requires PlainNumbers(j)
    ensures Numerals(FromJson(j))
    decreases Weight(j), 0
  {
    match j
    case JArray(items) => DecodedItemNumerals(items);
    case JObject(members) => DecodedMemberNumerals(members);
    case _ =>
  }

  lemma {:induction false} DecodedItemNumerals(items: seq<Json>)
    requires PlainInItems(items)
    ensures NumeralsAll(FromItems(items))
    decreases WeightAll(items), 1 + |items|
  {
    if items != [] {
      DecodedNumerals(items[0]);
      DecodedItemNumerals(items[1..]);
      assert FromItems(items)[1..] == FromItems(items[1..]);
    }
  }

  lemma {:induction false} DecodedMemberNumerals(members: seq<Member>)
    requires PlainInMembers(members)
    ensures NumeralsEntries(FromMembers(members))
    decreases WeightMembers(members), 1 + |members|
  {
    if members != [] {
      var before, last := members[..|members| - 1], members[|members| - 1];
      assert members == before + [last];
      MembersSplit(members);
      DecodedNumerals(last.value);
      DecodedMemberNumerals(before);
      FromOneMore(before, last);
      InsertedNumerals(Entry(last.name, FromJson(last.value)), FromMembers(before));
    }
  }

  lemma {:induction false} InsertedNumerals(e: Entry, es: seq<Entry>)
    requires Numerals(e.value) && NumeralsEntries(es)
    ensures NumeralsEntries(Insert(e, es))
    decreases |es|
  {
    if es == [] {
    } else if e.name == es[0].name {
      assert ([e] + es[1..])[1..] == es[1..];
    } else if Before(e.name, es[0].name) {
      assert ([e] + es)[1..] == es;
    } else {
      InsertedNumerals(e, es[1..]);
      assert ([es[0]] + Insert(e, es[1..]))[1..] == Insert(e, es[1..]);
    }
  }

  /****** What becomes of a string ******/

  predicate Container(j: Json) { j.JArray? || j.JObject? }

  lemma HeldIsPrinted(s: string, j: Json)
    requires ParseDocument(s) == Some(j) && Container(j)
    ensures RenderString(s) == Render(FromJson(j)) && Numerals(FromJson(j))
  {
    ReadIsPlain(s);
    DecodedNumerals(j);
  }

  ghost predicate ReadsAsNormal(text: string, j: Json) {
    ParseDocument(text).Some? && IsNormal(ParseDocument(text).value, j)
  }

  /** A string that holds an array or an object is printed as a text that reads back as the normal form of what it
      holds, exactly if nothing in that is printed in Go's way only. */
  lemma HeldTreeReadsBack(s: string, j: Json)
    requires ParseDocument(s) == Some(j) && Container(j)
    ensures ReadsAsNormal(RenderString(s), j) <==> Clean(FromJson(j))
  {
    HeldIsPrinted(s, j);
    DecodingKeepsTheTree(j);
    PublishedTextReadsBack(FromJson(j));
    if ReadsAsNormal(RenderString(s), j) {
      NormalIsUnique(ParseDocument(RenderString(s)).value, Tree(FromJson(j)), j);
    }
  }

  lemma {:induction false} OnlySpace(s: string)
    requires SkipSpace(s) == ""
    ensures forall i :: 0 <= i < |s| ==> Space(s[i])
    decreases |s|
  {
    if s != "" {
      OnlySpace(s[1..]);
      assert s == [s[0]] + s[1..];
    }
  }

  lemma {:induction false} TrimsSkipped(s: string)
    ensures TrimLeft(s) == TrimLeft(SkipSpace(s))
    decreases |s|
  {
    if s != "" && Space(s[0]) { TrimsSkipped(s[1..]); }
  }

  lemma {:induction false} TrimsSpaceAfter(word: string, rest: string)
    requires word != "" && !Blank(word[|word| - 1]) && forall i :: 0 <= i < |rest| ==> Space(rest[i])
    ensures TrimRight(word + rest) == word
    decreases |rest|
  {
    if rest == "" {
      assert word + rest == word;
    } else {
      TrimsSpaceAfter(word, rest[..|rest| - 1]);
      assert (word + rest)[..|word + rest| - 1] == word + rest[..|rest| - 1];
    }
  }

  lemma NullIsTrimmed(s: string)
    requires ParseDocument(s) == Some(JNull)
    ensures Trim(s) == "null"
  {
    var t := SkipSpace(s);
    var rest := ParseValue(s).rest;
    assert t[0] == 'n';
    assert t == "null" + rest;
    TrimsSkipped(s);
    OnlySpace(rest);
    TrimsSpaceAfter("null", rest);
  }

  /** After the first value there is more, and that is not a closing bracket or brace. */
  predicate GoesOn(rest: string) { SkipSpace(rest) != "" && SkipSpace(rest)[0] != ']' && SkipSpace(rest)[0] != '}' }

  /** A string that does not begin with a value, or holds a single one, or goes on with another, is printed as it is. */
  lemma OthersStay(s: string)
    requires || ParseValue(s).Fail? || GoesOn(ParseValue(s).rest)
             || (ParseDocument(s).Some? && !Container(ParseDocument(s).value))
    ensures RenderString(s) == s
  {
    if ParseDocument(s) == Some(JNull) { NullIsTrimmed(s); }
  }

  lemma {:induction false} TrimmingKeeps(s: string, i: nat)
    requires i < |s| && !Blank(s[i])
    ensures |TrimRight(s)| > i
    decreases |s|
  {
    if Blank(s[|s| - 1]) { TrimmingKeeps(s[..|s| - 1], i); }
  }

  /** But a closing bracket too many is not noticed, and all that comes after it is lost. */
  lemma StrayBracketCuts(tail: string)
    ensures ParseDocument("[]]" + tail).None? && RenderString("[]]" + tail) == "[]"
    ensures ParseDocument("null]" + tail).None? && RenderString("null]" + tail) == "null"
  {
    EmptyListIsCut(tail);
    NullIsCut(tail);
  }

  lemma EmptyListIsCut(tail: string)
    ensures ParseDocument("[]]" + tail).None? && RenderString("[]]" + tail) == "[]"
  {
    var s := "[]]" + tail;
    assert s[1..][0] == ']' && s[1..][1..] == "]" + tail;
    assert ParseValue(s) == Parsed(JArray([]), "]" + tail);
    assert Render(Sequence([])) == "[" + "" + "]";
  }

  lemma NullIsCut(tail: string)
    ensures ParseDocument("null]" + tail).None? && RenderString("null]" + tail) == "null"
  {
    var s, rest := "null]" + tail, "]" + tail;
    assert s == "null" + rest;
    OpensWord(s, "null", rest);
    assert TrimLeft(s) == s;
    TrimmingKeeps(s, 4);
  }

  /****** Words and characters ******/

  /** Truth values and null are printed as JSON has them, and read as what they say. */
  lemma WordsAreKept()
    ensures Render(Boolean(true)) == "true" && ParseDocument("true") == Some(JBool(true))
    ensures Render(Boolean(false)) == "false" && ParseDocument("false") == Some(JBool(false))
    ensures forall ofString :: Render(Null(ofString)) == "null"
    ensures ParseDocument("null") == Some(JNull)
  {
    OpensWord("true", "true", "");
    OpensWord("false", "false", "");
    OpensWord("null", "null", "");
  }

  /** The two-character escapes of section 7 of RFC 8259, and no others. */
  lemma ShortEscapes(c: char, rest: string)
    requires c != 'u'
    ensures var r := ParseChar("\\" + [c] + rest);
            if c == '\"' || c == '\\' || c == '/' then r == Parsed(c, rest)
            else if c == 'b' then r == Parsed('\U{0008}', rest)
            else if c == 'f' then r == Parsed('\U{000C}', rest)
            else if c == 'n' then r == Parsed('\U{000A}', rest)
            else if c == 'r' then r == Parsed('\U{000D}', rest)
            else if c == 't' then r == Parsed('\U{0009}', rest)
            else r.Fail?
  {
    var s := "\\" + [c] + rest;
    assert s[0] == '\\' && s[1] == c && s[2..] == rest;
  }

  const UPPER := "0123456789ABCDEF"

  /** A hexadecimal digit, small or capital, stands for its position. */
  lemma HexDigitIsPosition(c: char, k: nat)
    requires k < 16
    ensures HexDigit(c) == Some(k) <==> c == Quoting.LOWER[k] || c == UPPER[k]
  {
  }

  /** Two escapes together stand for a character beyond the Basic Multilingual Plane. */
  lemma PairStandsForOne(c: char, rest: string)
    requires c as int >= 0x1_0000
    ensures var n := c as int - 0x1_0000;
            var low := "\\u" + FourDigits(0xDC00 + n % 0x400) + rest;
            ParseChar("\\u" + FourDigits(0xD800 + n / 0x400) + low) == Parsed(c, rest)
  {
    var n := c as int - 0x1_0000;
    var high, low := 0xD800 + n / 0x400, 0xDC00 + n % 0x400;
    var tail := "\\u" + FourDigits(low) + rest;
    var s := "\\u" + FourDigits(high) + tail;
    PairIsRead(high, low, rest, tail, s);
  }

  lemma PairIsRead(high: nat, low: nat, rest: string, tail: string, s: string)
    requires HighSurrogate(high) && LowSurrogate(low)
    requires tail == "\\u" + FourDigits(low) + rest && s == "\\u" + FourDigits(high) + tail
    ensures ParseChar(s) == Parsed((0x1_0000 + (high - 0xD800) * 0x400 + (low - 0xDC00)) as char, rest)
  {
    var u := s[2..];
    assert u == FourDigits(high) + tail;
    FourDigitsRead(high, u, tail);
    assert u[4] == tail[0] == '\\' && u[5] == tail[1] == 'u';
    assert u[6..] == tail[2..] == FourDigits(low) + rest;
    FourDigitsRead(low, u[6..], rest);
    assert u[10..] == u[6..][4..];
  }

  /** Half of a pair alone is replaced. */
  lemma HalfIsReplaced(unit: nat, rest: string)
    requires (HighSurrogate(unit) || LowSurrogate(unit)) && (rest == "" || rest[0] != '\\')
    ensures ParseChar("\\u" + FourDigits(unit) + rest) == Parsed('\U{FFFD}', rest)
  {
    var s := "\\u" + FourDigits(unit) + rest;
    assert s[2..] == FourDigits(unit) + rest;
    FourDigitsRead(unit, s[2..], rest);
  }

  /** What is printed in Go's way only: a string attribute stands bare, and a null string in a list between quotes. */
  lemma InGosWay(name: string, s: string)
    ensures Render(Object([Entry(name, Str(s))])) == "{" + (Quote(name) + ":" + RenderString(s)) + "}"
    ensures Render(Sequence([Null(true)])) == "[\"null\"]" && Render(Sequence([Null(false)])) == "[null]"
  {
    var e := Entry(name, Str(s));
    assert RenderAttributes([e]) == RenderAttribute(e);
    assert RenderAttribute(e) == Quote(name) + ":" + Render(Str(s));
    QuotedNull();
    assert RenderElements([Null(true)]) == RenderItem(Null(true));
    assert RenderItem(Null(true)) == Quote(Render(Null(true)));
    assert Render(Sequence([Null(true)])) == "[" + "\"null\"" + "]";
    assert RenderElements([Null(false)]) == RenderItem(Null(false));
    assert RenderItem(Null(false)) == Render(Null(false));
    assert Render(Sequence([Null(false)])) == "[" + "null" + "]";
  }

  lemma QuotedNull()
    ensures Quote("null") == "\"null\""
  {
    assert "null"[1..] == "ull" && "ull"[1..] == "ll" && "ll"[1..] == "l" && "l"[1..] == "";
    assert QuoteChars("l") == "l" && QuoteChars("ll") == "ll" && QuoteChars("ull") == "ull";
  }
}
