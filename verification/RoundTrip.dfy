/**
 When the published text of an output is JSON that reads back as the output.

 The text of a value is always parsed from left to right.  Up to the first place where rendering departs
 from JSON the parser sees the tree of the value; there, whatever follows, it sees something else.
 So the round trip holds exactly for the values without such a place.
 */
module RoundTrip {
  import opened Options
  import opened Json
  import opened Rendering

  /****** What is meant by the tree of a value, and by the places where rendering is not JSON ******/

  function Tree(v: Value): Json {
    match v
    case Null(_) => JNull
    case Boolean(b) => JBool(b)
    case Number(n) => JNumber(n)
    case Str(s) => JString(s)
    case Sequence(elements) => JArray(Trees(elements))
    case Map(entries) => JObject(MemberTrees(entries))
    case Object(attributes) => JObject(MemberTrees(attributes))
  }

  function Trees(vs: seq<Value>): seq<Json> {
    if vs == [] then [] else [Tree(vs[0])] + Trees(vs[1..])
  }

  function MemberTrees(es: seq<Entry>): seq<Member> {
    if es == [] then [] else [Member(es[0].name, Tree(es[0].value))] + MemberTrees(es[1..])
  }

  /** The characters whose quoted form in Go reads the same in JSON: JSON has neither `\a`, `\v` and `\x`, nor
      the eight digits in which Go writes what is not printable beyond the Basic Multilingual Plane. */
  predicate Shared(c: char) {
    || c == '\U{0008}' || c == '\U{000C}' || c == '\n' || c == '\r' || c == '\t'
    || (c >= ' ' && (c as int < 0x1_0000 || Printable(c)))
  }

  predicate SharedAll(s: string) { s == "" || (Shared(s[0]) && SharedAll(s[1..])) }

  /** A string that comes out between quotes as itself: it holds no JSON that rendering would rewrite. */
  predicate CleanString(s: string) { RenderString(s) == s && SharedAll(s) }

  predicate CleanItem(v: Value)
    decreases Heft(v), 1
  {
    match v
    case Null(ofString) => !ofString
    case Str(s) => CleanString(s)
    case _ => Clean(v)
  }

  predicate Clean(v: Value)
    decreases Heft(v), 0
  {
    match v
    case Sequence(elements) => CleanItems(elements)
    case Map(entries) => CleanEntries(entries)
    case Object(attributes) => CleanAttributes(attributes)
    case Str(_) => false
    case _ => true
  }

  predicate CleanItems(vs: seq<Value>)
    decreases HeftAll(vs), 2
  {
    vs == [] || (CleanItem(vs[0]) && CleanItems(vs[1..]))
  }

  predicate CleanEntries(es: seq<Entry>)
    decreases HeftEntries(es), 2
  {
    es == [] || (CleanString(es[0].name) && CleanItem(es[0].value) && CleanEntries(es[1..]))
  }

  predicate CleanAttributes(es: seq<Entry>)
    decreases HeftEntries(es), 2
  {
    es == [] || (SharedAll(es[0].name) && Clean(es[0].value) && CleanAttributes(es[1..]))
  }

  /** Numbers are held in plain notation. */
  predicate Digits(s: string) { forall i :: 0 <= i < |s| ==> Digit(s[i]) }

  predicate PlainParts(whole: string, fraction: string) {
    && Digits(whole) && whole != "" && (whole[0] == '0' ==> whole == "0")
    && Digits(fraction) && (fraction != "" ==> fraction[|fraction| - 1] != '0')
  }

  function Decimal(minus: bool, whole: string, fraction: string): string {
    (if minus then "-" else "") + whole + (if fraction == "" then "" else "." + fraction)
  }

  ghost predicate Numeral(n: string) {
    exists minus: bool, whole: string, fraction: string ::
      PlainParts(whole, fraction) && n == Decimal(minus, whole, fraction)
  }

  ghost predicate Numerals(v: Value) {
    match v
    case Number(n) => Numeral(n)
    case Sequence(elements) => NumeralsAll(elements)
    case Map(entries) => NumeralsEntries(entries)
    case Object(attributes) => NumeralsEntries(attributes)
    case _ => true
  }

  ghost predicate NumeralsAll(vs: seq<Value>) { vs == [] || (Numerals(vs[0]) && NumeralsAll(vs[1..])) }

  ghost predicate NumeralsEntries(es: seq<Entry>) {
    es == [] || (Numerals(es[0].value) && NumeralsEntries(es[1..]))
  }

  /****** Reading a text that is followed by more ******/

  /** What comes after a value: the end, a comma or a closing bracket or brace. */
  predicate Ends(rest: string) { rest == "" || rest[0] in ",]}" }

  /** No backslash stands before the first quote. */
  predicate Tame(s: string) { s == "" || s[0] == '\"' || (s[0] != '\\' && Tame(s[1..])) }

  predicate Calm(s: string) { forall i :: 0 <= i < |s| ==> s[i] != '\"' && s[i] != '\\' }

  /** Reading `text` in front of `rest` yields exactly `tree`, or else anything but `tree`. */
  predicate Reads(text: string, rest: string, tree: Json, exact: bool) {
    var r := ParseValue(text + rest);
    if exact then r == Parsed(tree, rest) else !(r.Parsed? && r.value == tree)
  }

  predicate ReadsItems(text: string, rest: string, trees: seq<Json>, exact: bool) {
    var r := ParseItems(text + rest);
    if exact then r == Parsed(trees, rest) else !(r.Parsed? && r.value == trees)
  }

  predicate ReadsMembers(text: string, rest: string, trees: seq<Member>, exact: bool) {
    var r := ParseMembers(text + rest);
    if exact then r == Parsed(trees, rest) else !(r.Parsed? && r.value == trees)
  }

  /****** How a value opens ******/

  lemma OpensString(t: string)
    requires t != "" && t[0] == '\"'
    ensures ParseValue(t) ==
            match ParseChars(t[1..]) case Fail => Fail case Parsed(cs, rest) => Parsed(JString(cs), rest)
  {
  }

  lemma OpensArray(t: string, u: string)
    requires t != "" && t[0] == '[' && t[1..] == u && u != "" && !Space(u[0])
    ensures ParseValue(t) ==
            if u[0] == ']' then Parsed(JArray([]), u[1..])
            else match ParseItems(u) case Fail => Fail case Parsed(items, rest) => Parsed(JArray(items), rest)
  {
    assert SkipSpace(u) == u;
  }

  lemma OpensObject(t: string, u: string)
    requires t != "" && t[0] == '{' && t[1..] == u && u != "" && !Space(u[0])
    ensures ParseValue(t) ==
            if u[0] == '}' then Parsed(JObject([]), u[1..])
            else match ParseMembers(u) case Fail => Fail case Parsed(members, rest) => Parsed(JObject(members), rest)
  {
    assert SkipSpace(u) == u;
  }

  lemma OpensNumber(t: string)
    requires t != "" && (t[0] == '-' || Digit(t[0]))
    ensures ParseValue(t) == ParseNumber(t)
  {
    assert SkipSpace(t) == t;
    var c := t[0];
    assert c != '\"' && c != '[' && c != '{' && c != 'n' && c != 't' && c != 'f';
  }

  lemma OpensWord(t: string, word: string, rest: string)
    requires word in ["null", "true", "false"] && t == word + rest
    ensures ParseValue(t) ==
            Parsed(if word == "null" then JNull else JBool(word == "true"), rest)
  {
    assert t[|word|..] == rest;
    assert t[0] == word[0] && t[1] == word[1];
  }

  lemma OpensWithoutQuote(t: string)
    requires t == "" || (!Space(t[0]) && t[0] != '\"')
    ensures ParseValue(t).Parsed? ==> !ParseValue(t).value.JString?
  {
  }

  /****** Numbers ******/

  lemma {:induction false} TakesDigits(ds: string, rest: string)
    requires Digits(ds) && (rest == "" || !Digit(rest[0]))
    ensures TakeDigits(ds + rest) == (ds, rest)
  {
    var t := ds + rest;
    if ds == "" {
      assert t == rest;
    } else {
      TakesDigits(ds[1..], rest);
      assert t[1..] == ds[1..] + rest;
      assert [ds[0]] + ds[1..] == ds;
    }
  }

  lemma PlainIsStable(minus: bool, whole: string, fraction: string)
    requires PlainParts(whole, fraction)
    ensures Plain(minus, whole, fraction, 0) == Decimal(minus, whole, fraction)
  {
    var digits := whole + fraction;
    if fraction == "" {
      assert digits + Zeros(0) == whole;
    } else {
      assert digits[..|whole|] == whole && digits[|whole|..] == fraction;
    }
    if whole == "0" {
      assert DropLeadingZeros("0") == DropLeadingZeros("0"[1..]) == "";
    }
  }

  lemma EndsPlainly(rest: string)
    requires Ends(rest) && rest != ""
    ensures !Digit(rest[0]) && rest[0] != '.' && rest[0] != 'e' && rest[0] != 'E'
  {
    assert rest[0] == ',' || rest[0] == ']' || rest[0] == '}';
  }

  lemma ParsesFraction(fraction: string, rest: string, tail: string)
    requires Digits(fraction) && Ends(rest)
    requires tail == if fraction == "" then rest else "." + fraction + rest
    ensures ParseFraction(tail) == Parsed(fraction, rest)
  {
    if rest != "" { EndsPlainly(rest); }
    if fraction != "" {
      TakesDigits(fraction, rest);
      Regroup(".", fraction, rest);
      assert ("." + (fraction + rest))[1..] == fraction + rest;
    }
  }

  lemma ParsesWhole(whole: string, tail: string, u: string)
    requires PlainParts(whole, "") && u == whole + tail && (tail == "" || !Digit(tail[0]))
    ensures ParseWhole(u) == Parsed(whole, tail)
  {
    if whole == "0" {
      assert u[1..] == tail;
    } else {
      TakesDigits(whole, tail);
    }
  }

  lemma ParsesParts(s: string, minus: bool, whole: string, t: string, fraction: string, rest: string)
    requires s != "" && minus == (s[0] == '-')
    requires ParseWhole(if minus then s[1..] else s) == Parsed(whole, t)
    requires ParseFraction(t) == Parsed(fraction, rest) && Ends(rest)
    ensures ParseNumber(s) == Parsed(JNumber(Plain(minus, whole, fraction, 0)), rest)
  {
    assert ParseExponent(rest) == Parsed(0, rest);
  }

  lemma ParsesNumber(minus: bool, whole: string, fraction: string, rest: string, t: string)
    requires PlainParts(whole, fraction) && Ends(rest)
    requires t == Decimal(minus, whole, fraction) + rest
    ensures ParseNumber(t) == Parsed(JNumber(Decimal(minus, whole, fraction)), rest)
  {
    var tail := if fraction == "" then rest else "." + fraction + rest;
    var u := if minus then t[1..] else t;
    assert u == whole + tail;
    assert minus <==> t[0] == '-';
    ParsesWhole(whole, tail, u);
    ParsesFraction(fraction, rest, tail);
    ParsesParts(t, minus, whole, tail, fraction, rest);
    PlainIsStable(minus, whole, fraction);
  }

  lemma ReadsNumber(n: string, rest: string)
    requires Numeral(n) && Ends(rest)
    ensures Reads(n, rest, JNumber(n), true)
  {
    var minus: bool, whole: string, fraction: string :| PlainParts(whole, fraction) &&
        n == Decimal(minus, whole, fraction);
    ParsesNumber(minus, whole, fraction, rest, n + rest);
    OpensNumber(n + rest);
  }

  lemma NumeralStart(n: string)
    requires Numeral(n)
    ensures n != "" && (n[0] == '-' || Digit(n[0])) && Calm(n)
  {
    var minus: bool, whole: string, fraction: string :| PlainParts(whole, fraction) &&
        n == Decimal(minus, whole, fraction);
  }

  /****** Quoted strings ******/

  lemma HexReads(n: nat)
    requires n < 16
    ensures HexDigit(Hex(n)) == Some(n)
  {
  }

  lemma DigitsAddUp(n: nat)
    requires n < 0x1_0000
    ensures n == ((n / 0x1000 % 16 * 16 + n / 0x100 % 16) * 16 + n / 0x10 % 16) * 16 + n % 16
  {
  }

  lemma FourDigitsRead(n: nat, v: string, u: string)
    requires n < 0x1_0000 && v == FourDigits(n) + u
    ensures Hex4(v) == Some(n) && v[4..] == u
  {
    var a, b, c, d := n / 0x1000 % 16, n / 0x100 % 16, n / 0x10 % 16, n % 16;
    HexReads(a);
    HexReads(b);
    HexReads(c);
    HexReads(d);
    assert v[0] == Hex(a) && v[1] == Hex(b) && v[2] == Hex(c) && v[3] == Hex(d);
    DigitsAddUp(n);
  }

  lemma ReadsFourDigits(c: char, t: string, u: string)
    requires c as int < 0x1_0000 && t == "\\u" + FourDigits(c as int) + u
    ensures ParseChar(t) == Parsed(c, u)
  {
    assert t[2..] == FourDigits(c as int) + u;
    FourDigitsRead(c as int, t[2..], u);
  }

  lemma ReadsSpecial(c: char, t: string, u: string)
    requires GoEscape(c).Some? && t == ['\\', GoEscape(c).value] + u
    ensures ParseChar(t) == if Shared(c) then Parsed(c, u) else Fail
  {
    assert t[0] == '\\' && t[1] == GoEscape(c).value && t[2..] == u;
  }

  lemma ReadsQuotedChar(c: char, t: string, u: string)
    requires t == QuoteChar(c) + u
    ensures ParseChar(t) == if Shared(c) then Parsed(c, u) else Fail
    ensures t[0] != '\"'
  {
    if GoEscape(c).Some? {
      ReadsSpecial(c, t, u);
    } else if Printable(c) {
      assert t[1..] == u && t[0] == c;
    } else if c < ' ' {
      assert t[0] == '\\' && t[1] == 'x';
    } else if c as int < 0x1_0000 {
      ReadsFourDigits(c, t, u);
    } else {
      assert t[0] == '\\' && t[1] == 'U';
    }
  }

  /** A quoted string reads back as itself exactly when Go and JSON quote all its characters alike. */
  lemma {:induction false} ReadsQuoted(s: string, rest: string, t: string)
    requires t == QuoteChars(s) + "\"" + rest
    ensures ParseChars(t) == if SharedAll(s) then Parsed(s, rest) else Fail
  {
    if s == "" {
      assert t[0] == '\"' && t[1..] == rest;
    } else {
      var u := QuoteChars(s[1..]) + "\"" + rest;
      assert t == QuoteChar(s[0]) + u;
      ReadsQuotedChar(s[0], t, u);
      ReadsQuoted(s[1..], rest, u);
      assert [s[0]] + s[1..] == s;
    }
  }

  lemma ReadsString(s: string, rest: string, t: string)
    requires t == Quote(s) + rest
    ensures ParseValue(t) == if SharedAll(s) then Parsed(JString(s), rest) else Fail
  {
    assert t[1..] == QuoteChars(s) + "\"" + rest;
    ReadsQuoted(s, rest, t[1..]);
    OpensString(t);
  }

  lemma ReadsName(s: string, rest: string, t: string)
    requires t == Quote(s) + ":" + rest
    ensures ParseName(t) == if SharedAll(s) then Parsed(s, rest) else Fail
  {
    var u := ":" + rest;
    assert t[1..] == QuoteChars(s) + "\"" + u;
    ReadsQuoted(s, u, t[1..]);
    assert u[1..] == rest;
    assert SkipSpace(u) == u;
  }

  /****** A bare string never reads as itself ******/

  lemma CharsStep(t: string)
    requires ParseChars(t).Parsed? && !(t != "" && t[0] == '\"')
    ensures ParseChar(t).Parsed? && ParseChars(ParseChar(t).rest).Parsed?
    ensures ParseChars(t).value == [ParseChar(t).value] + ParseChars(ParseChar(t).rest).value
    ensures ParseChars(t).rest == ParseChars(ParseChar(t).rest).rest
  {
  }

  predicate NeedsEscape(c: char) { c == '\"' || c == '\\' }

  lemma EscapedFirst(t: string)
    requires ParseChars(t).Parsed? && ParseChars(t).value != "" && NeedsEscape(ParseChars(t).value[0])
    ensures t != "" && t[0] == '\\' && |ParseChars(t).rest| < |t|
  {
    CharsStep(t);
  }

  /** A quote or a backslash among the characters read comes from a backslash no further left. */
  lemma {:induction false} EscapedAt(t: string, j: nat) returns (q: nat)
    requires ParseChars(t).Parsed? && j < |ParseChars(t).value|
    requires NeedsEscape(ParseChars(t).value[j])
    ensures j <= q < |t| - |ParseChars(t).rest| && t[q] == '\\'
    decreases j
  {
    if j == 0 {
      EscapedFirst(t);
      q := 0;
    } else {
      var u := CharsSplit(t, j);
      var p := EscapedAt(u, j - 1);
      q := |t| - |u| + p;
      assert t[q] == u[p];
    }
  }

  /** What is left of the text after its first character; the `j`-th character is read in there. */
  lemma CharsSplit(t: string, j: nat) returns (u: string)
    requires ParseChars(t).Parsed? && 0 < j < |ParseChars(t).value|
    ensures ParseChars(u).Parsed? && ParseChars(u).rest == ParseChars(t).rest
    ensures j - 1 < |ParseChars(u).value| && ParseChars(u).value[j - 1] == ParseChars(t).value[j]
    ensures |u| < |t| && forall i :: 0 <= i < |u| ==> u[i] == t[|t| - |u| + i]
  {
    CharsStep(t);
    u := ParseChar(t).rest;
    AfterFirst(ParseChar(t).value, ParseChars(u).value, j);
    DroppedAt(t, u);
  }

  lemma AfterFirst(c: char, cs: string, j: nat)
    requires 0 < j <= |cs|
    ensures ([c] + cs)[j] == cs[j - 1]
  {
  }

  lemma DroppedAt(t: string, u: string)
    requires |u| <= |t| && u == t[|t| - |u|..]
    ensures forall i :: 0 <= i < |u| ==> u[i] == t[|t| - |u| + i]
  {
  }

  lemma {:induction false} TameChars(t: string)
    requires Tame(t) && ParseChars(t).Parsed?
    ensures forall q :: 0 <= q < |t| - |ParseChars(t).rest| ==> t[q] != '\\'
  {
    if t[0] != '\"' {
      TameChars(t[1..]);
      assert forall q :: 1 <= q < |t| ==> t[q] == t[1..][q - 1];
    }
  }

  lemma HexStaysWithin(y: string, r: string, h: string, n: nat)
    requires r != "" && HexDigit(r[0]).None? && h == y + r && n <= |h|
    requires forall i :: 0 <= i < n ==> HexDigit(h[i]).Some?
    ensures n <= |y|
  {
    assert h[|y|] == r[0];
  }

  lemma UnicodeStaysWithin(y: string, r: string, t: string)
    requires r != "" && HexDigit(r[0]).None? && r[0] != '\\' && r[0] != 'u' && t == y + r && ParseUnicode(t).Parsed?
    ensures |t| - |ParseUnicode(t).rest| <= |y|
  {
    var n := |t| - |ParseUnicode(t).rest|;
    assert forall i :: 0 <= i < 4 ==> HexDigit(t[i]).Some?;
    HexStaysWithin(y, r, t, 4);
    if n == 10 {
      assert t[|y|] == r[0];
      assert t[4] == '\\' && t[5] == 'u';
      assert t[6..] == y[6..] + r;
      assert forall i :: 0 <= i < 4 ==> t[6..][i] == t[i + 6];
      HexStaysWithin(y[6..], r, t[6..], 4);
    }
  }

  lemma EndIsPlain(r: string)
    requires r != "" && r[0] in ",}"
    ensures HexDigit(r[0]).None? && ShortEscape(r[0]).None? && r[0] != '\\' && r[0] != 'u'
  {
    assert r[0] == ',' || r[0] == '}';
  }

  /** An escape that starts in `y` ends there: it cannot contain the comma or brace that follows. */
  lemma CharStaysWithin(y: string, r: string, t: string)
    requires y != "" && r != "" && r[0] in ",}" && t == y + r && ParseChar(t).Parsed?
    ensures var n := |t| - |ParseChar(t).rest|; 0 < n <= |y| && ParseChar(t).rest == y[n..] + r
  {
    var u := ParseChar(t).rest;
    var n := |t| - |u|;
    EndIsPlain(r);
    if t[0] == '\\' {
      assert t[|y|] == r[0];
      if t[1] == 'u' {
        assert t[2..] == y[2..] + r;
        UnicodeStaysWithin(y[2..], r, t[2..]);
      }
    }
    assert u == t[n..] == y[n..] + r;
  }

  /** The characters read past the end of `y` are not escaped. */
  lemma {:induction false} NoEscapeBeyond(y: string, r: string, t: string, end: nat)
    requires Tame(r) && r != "" && r[0] in ",}" && t == y + r && ParseChars(t).Parsed? &&
             end == |t| - |ParseChars(t).rest|
    ensures forall q :: |y| <= q < end ==> t[q] != '\\'
    decreases |y|
  {
    if y == "" {
      assert t == r;
      TameChars(r);
    } else if y[0] != '\"' {
      CharsStep(t);
      CharStaysWithin(y, r, t);
      var u := ParseChar(t).rest;
      var n := |t| - |u|;
      NoEscapeBeyond(y[n..], r, u, end - n);
      assert u == t[n..];
      forall q | |y| <= q < end ensures t[q] != '\\' {
        assert u[q - n] == t[q] && |y[n..]| <= q - n < end - n;
      }
    }
  }

  function LeadingSpaces(s: string): (n: nat)
    ensures n <= |s|
    ensures n < |s| ==> !Space(s[n])
  {
    if s != "" && Space(s[0]) then 1 + LeadingSpaces(s[1..]) else 0
  }

  lemma {:induction false} SkipsLeadingSpaces(s: string, rest: string)
    ensures SkipSpace(s + rest) == SkipSpace(s[LeadingSpaces(s)..] + rest)
  {
    if s != "" && Space(s[0]) {
      SkipsLeadingSpaces(s[1..], rest);
      assert (s + rest)[1..] == s[1..] + rest;
    }
  }

  /** A string that is read inside itself, after its own first quote at `p`: that quote would have to come
      from a backslash in the string, which would have to come from another further right, and so on
      past its end, where there is none. */
  lemma NoStringHoldsItself(s: string, p: nat, rest: string, u: string)
    requires Tame(rest) && rest != "" && rest[0] in ",}"
    requires p < |s| && s[p] == '\"' && u == s[p + 1..] + rest
    requires ParseChars(u).Parsed?
    ensures ParseChars(u).value != s
  {
    if ParseChars(u).value == s {
      var y := s[p + 1..];
      var end := |u| - |ParseChars(u).rest|;
      NoEscapeBeyond(y, rest, u, end);
      var q := EscapedAt(u, p);
      while q < |y|
        invariant q < end && u[q] == '\\'
        decreases |y| - q
      {
        assert s[p + 1 + q] == u[q];
        var next := EscapedAt(u, p + 1 + q);
        q := next;
      }
      assert false;
    }
  }

  /** Unquoted, no string reads as itself. */
  lemma ReadsBareString(s: string, rest: string)
    requires Tame(rest) && rest != "" && rest[0] in ",}"
    ensures Reads(s, rest, JString(s), false)
  {
    var p := LeadingSpaces(s);
    SkipsLeadingSpaces(s, rest);
    var t := s[p..] + rest;
    assert SkipSpace(t) == t;
    SameAfterSpace(s + rest, t);
    BareStringAt(s, p, rest, t);
  }

  lemma BareStringAt(s: string, p: nat, rest: string, t: string)
    requires Tame(rest) && rest != "" && rest[0] in ",}"
    requires p <= |s| && (p < |s| ==> !Space(s[p])) && t == s[p..] + rest
    ensures ParseValue(t).Parsed? ==> ParseValue(t).value != JString(s)
  {
    if t[0] == '\"' {
      OpensString(t);
      if p < |s| {
        assert t[1..] == s[p + 1..] + rest;
        if ParseChars(t[1..]).Parsed? {
          NoStringHoldsItself(s, p, rest, t[1..]);
        }
      }
    } else {
      OpensWithoutQuote(t);
    }
  }

  lemma SameAfterSpace(s: string, t: string)
    requires SkipSpace(s) == SkipSpace(t)
    ensures ParseValue(s) == ParseValue(t)
  {
  }

  /****** Rendered text has no backslash outside quotes ******/

  lemma {:induction false} TameAfterCalm(s: string, rest: string)
    requires Calm(s) && Tame(rest)
    ensures Tame(s + rest)
  {
    if s == "" {
      assert s + rest == rest;
    } else {
      TameAfterCalm(s[1..], rest);
      assert (s + rest)[1..] == s[1..] + rest;
    }
  }

  lemma TameAfter(c: char, rest: string)
    requires c != '\\' && Tame(rest)
    ensures Tame([c] + rest)
  {
    assert ([c] + rest)[1..] == rest;
  }

  /** Text that starts with a quote is tame whatever follows. */
  lemma EntriesStart(es: seq<Entry>)
    requires es != []
    ensures RenderEntries(es) != "" && RenderEntries(es)[0] == '\"'
    ensures RenderAttributes(es) != "" && RenderAttributes(es)[0] == '\"'
  {
    assert RenderEntry(es[0])[0] == '\"';
    assert RenderAttribute(es[0])[0] == '\"';
  }

  lemma Regroup(a: string, b: string, c: string)
    ensures a + b + c == a + (b + c)
  {
  }

  lemma Wrapped(opening: string, inner: string, closing: string, rest: string)
    ensures opening + inner + closing + rest == opening + (inner + (closing + rest))
  {
    Regroup(opening + inner, closing, rest);
    Regroup(opening, inner, closing + rest);
  }

  lemma TameBraces(inner: string, rest: string)
    requires Tame(rest) && (inner == "" || inner[0] == '\"')
    ensures Tame("{" + inner + "}" + rest)
  {
    TameAfter('}', rest);
    var u := inner + ("}" + rest);
    assert inner == "" ==> u == "}" + rest;
    TameAfter('{', u);
    Wrapped("{", inner, "}", rest);
  }

  lemma {:induction false} TameValue(v: Value, rest: string)
    requires !v.Str? && Numerals(v) && Tame(rest)
    ensures Tame(Render(v) + rest)
    decreases Heft(v), 0
  {
    match v
    case Sequence(elements) =>
      TameAfter(']', rest);
      TameElements(elements, "]" + rest);
      TameAfter('[', RenderElements(elements) + ("]" + rest));
      Wrapped("[", RenderElements(elements), "]", rest);
    case Map(entries) =>
      if entries != [] { EntriesStart(entries); }
      TameBraces(RenderEntries(entries), rest);
    case Object(attributes) =>
      if attributes != [] { EntriesStart(attributes); }
      TameBraces(RenderAttributes(attributes), rest);
    case Number(n) =>
      NumeralStart(n);
      TameAfterCalm(n, rest);
    case _ =>
      TameAfterCalm(Render(v), rest);
  }

  lemma {:induction false} TameItem(v: Value, rest: string)
    requires Numerals(v) && Tame(rest)
    ensures Tame(RenderItem(v) + rest)
    decreases Heft(v), 1
  {
    if !v.IsString() {
      TameValue(v, rest);
    }
  }

  lemma ElementsSplit(vs: seq<Value>)
    requires vs != []
    ensures RenderElements(vs) == RenderItem(vs[0]) + if |vs| == 1 then "" else "," + RenderElements(vs[1..])
  {
    if |vs| > 1 { Regroup(RenderItem(vs[0]), ",", RenderElements(vs[1..])); }
  }

  lemma EntriesSplit(es: seq<Entry>)
    requires es != []
    ensures RenderEntries(es) == RenderEntry(es[0]) + if |es| == 1 then "" else "," + RenderEntries(es[1..])
  {
    if |es| > 1 { Regroup(RenderEntry(es[0]), ",", RenderEntries(es[1..])); }
  }

  lemma AttributesSplit(es: seq<Entry>)
    requires es != []
    ensures RenderAttributes(es) == RenderAttribute(es[0]) + if |es| == 1 then "" else "," + RenderAttributes(es[1..])
  {
    if |es| > 1 { Regroup(RenderAttribute(es[0]), ",", RenderAttributes(es[1..])); }
  }

  lemma TameOthers(last: bool, others: string, rest: string, u: string)
    requires Tame(rest) && (last || Tame(others + rest))
    requires u == (if last then "" else "," + others) + rest
    ensures Tame(u)
  {
    if last {
      assert u == rest;
    } else {
      TameAfter(',', others + rest);
      Regroup(",", others, rest);
    }
  }

  lemma {:induction false} TameElements(vs: seq<Value>, rest: string)
    requires NumeralsAll(vs) && Tame(rest)
    ensures Tame(RenderElements(vs) + rest)
    decreases HeftAll(vs), 2
  {
    if vs == [] {
      assert RenderElements(vs) + rest == rest;
    } else {
      assert HeftAll(vs) == Heft(vs[0]) + HeftAll(vs[1..]);
      ElementsSplit(vs);
      var others, last := RenderElements(vs[1..]), |vs| == 1;
      var u := (if last then "" else "," + others) + rest;
      if !last {
        TameElements(vs[1..], rest);
      }
      TameOthers(last, others, rest, u);
      TameItem(vs[0], u);
      Regroup(RenderItem(vs[0]), if last then "" else "," + others, rest);
    }
  }

  /****** Reading rendered text ******/

  /** What follows the first of several parts: the rest of them, or the closing bracket. */
  function Tail(last: bool, closing: char, others: string, rest: string): string {
    if last then [closing] + rest else "," + others + [closing] + rest
  }

  lemma TailFacts(last: bool, closing: char, others: string, rest: string)
    requires closing in "]}"
    requires Tame(rest) && (last || Tame(others + ([closing] + rest)))
    ensures var tail := Tail(last, closing, others, rest);
            && tail != "" && tail[0] == (if last then closing else ',')
            && Tame(tail) && Ends(tail) && SkipSpace(tail) == tail
            && tail[1..] == (if last then rest else others + [closing] + rest)
  {
    if last {
      TameAfter(closing, rest);
    } else {
      var t := others + ([closing] + rest);
      TameAfter(',', t);
      TailSplits(closing, others, rest);
      assert ([','] + t)[1..] == t;
    }
  }

  lemma TailSplits(closing: char, others: string, rest: string)
    ensures others + [closing] + rest == others + ([closing] + rest)
    ensures Tail(false, closing, others, rest) == [','] + (others + ([closing] + rest))
  {
    Regroup(others, [closing], rest);
    Regroup([','], others, [closing]);
    Regroup([','], others + [closing], rest);
  }

  lemma {:induction false} ReadsRendered(v: Value, rest: string)
    requires !v.Str? && Numerals(v) && Ends(rest) && Tame(rest)
    ensures Reads(Render(v), rest, Tree(v), Clean(v))
    decreases Heft(v), 0
  {
    var t := Render(v) + rest;
    match v
    case Null(_) =>
      OpensWord(t, "null", rest);
    case Boolean(b) =>
      OpensWord(t, if b then "true" else "false", rest);
    case Number(n) =>
      ReadsNumber(n, rest);
    case Sequence(elements) =>
      ReadsSequence(elements, rest, t);
    case Map(entries) =>
      if entries != [] {
        EntriesStart(entries);
        ReadsEntries(entries, rest);
      }
      ReadsBraces(RenderEntries(entries), rest, t, MemberTrees(entries), CleanEntries(entries));
    case Object(attributes) =>
      if attributes != [] {
        EntriesStart(attributes);
        ReadsAttributes(attributes, rest);
      }
      ReadsBraces(RenderAttributes(attributes), rest, t, MemberTrees(attributes), CleanAttributes(attributes));
  }

  lemma ReadsBraces(inner: string, rest: string, t: string, members: seq<Member>, exact: bool)
    requires t == "{" + inner + "}" + rest
    requires if inner == "" then members == [] && exact
             else inner[0] == '\"' && members != [] && ReadsMembers(inner + "}", rest, members, exact)
    ensures if exact then ParseValue(t) == Parsed(JObject(members), rest)
            else !(ParseValue(t).Parsed? && ParseValue(t).value == JObject(members))
  {
    var u := inner + "}" + rest;
    Unwrapped('{', inner, '}', rest, t);
    assert inner != "" ==> u[0] == inner[0];
    OpensObject(t, u);
    if inner == "" {
      assert u[0] == '}' && u[1..] == rest;
    }
  }

  lemma {:induction false} ReadsSequence(vs: seq<Value>, rest: string, t: string)
    requires NumeralsAll(vs) && Tame(rest) && t == "[" + RenderElements(vs) + "]" + rest
    ensures if CleanItems(vs) then ParseValue(t) == Parsed(JArray(Trees(vs)), rest)
            else !(ParseValue(t).Parsed? && ParseValue(t).value == JArray(Trees(vs)))
    decreases HeftAll(vs), 3
  {
    var inner := RenderElements(vs);
    var u := inner + "]" + rest;
    Unwrapped('[', inner, ']', rest, t);
    if vs == [] {
      assert u == "]" + rest && u[1..] == rest;
      OpensArray(t, u);
    } else {
      ElementsStart(vs);
      assert u[0] == inner[0];
      OpensArray(t, u);
      ReadsElements(vs, rest);
    }
  }

  lemma Unwrapped(opening: char, inner: string, closing: char, rest: string, t: string)
    requires t == [opening] + inner + [closing] + rest
    ensures t[0] == opening && t[1..] == inner + [closing] + rest
  {
  }

  lemma ItemStart(v: Value)
    requires Numerals(v)
    ensures var item := RenderItem(v); item != "" && !Space(item[0]) && item[0] != ']'
  {
    if v.Number? {
      NumeralStart(v.numeral);
    }
  }

  /** Elements start with no space and no closing bracket, so the parser goes on to read them. */
  lemma ElementsStart(vs: seq<Value>)
    requires vs != [] && NumeralsAll(vs)
    ensures var t := RenderElements(vs); t != "" && !Space(t[0]) && t[0] != ']'
  {
    ItemStart(vs[0]);
    assert RenderElements(vs)[0] == RenderItem(vs[0])[0];
  }

  lemma {:induction false} ReadsItem(v: Value, rest: string)
    requires Numerals(v) && Ends(rest) && Tame(rest)
    ensures Reads(RenderItem(v), rest, Tree(v), CleanItem(v))
    decreases Heft(v), 1
  {
    if v.IsString() {
      ReadsString(Render(v), rest, RenderItem(v) + rest);
    } else {
      ReadsRendered(v, rest);
    }
  }

  lemma ParseItemsStep(t: string, item: Json, tail: string)
    requires ParseValue(t) == Parsed(item, tail) && SkipSpace(tail) == tail && tail != "" && tail[0] in ",]"
    ensures ParseItems(t) ==
            if tail[0] == ']' then Parsed([item], tail[1..])
            else
              match ParseItems(tail[1..])
              case Fail => Fail
              case Parsed(items, u) => Parsed([item] + items, u)
  {
  }

  lemma ParseItemsFirst(t: string)
    requires ParseItems(t).Parsed?
    ensures ParseValue(t).Parsed? && ParseItems(t).value != [] && ParseItems(t).value[0] == ParseValue(t).value
  {
  }

  /** One element in front of the others. */
  lemma ReadsOneMoreItem(item: string, others: string, last: bool, rest: string,
                         tree: Json, trees: seq<Json>, exact: bool, exactOthers: bool)
    requires Tame(rest) && (last || Tame(others + ("]" + rest)))
    requires Reads(item, Tail(last, ']', others, rest), tree, exact)
    requires if last then trees == [] && exactOthers else ReadsItems(others + "]", rest, trees, exactOthers)
    ensures ReadsItems(item + (if last then "" else "," + others) + "]", rest, [tree] + trees, exact && exactOthers)
  {
    var tail := Tail(last, ']', others, rest);
    var t := item + tail;
    TailFacts(last, ']', others, rest);
    assert item + (if last then "" else "," + others) + "]" + rest == t;
    assert ([tree] + trees)[0] == tree && ([tree] + trees)[1..] == trees;
    if exact {
      ParseItemsStep(t, tree, tail);
      if last {
        assert [tree] + trees == [tree];
      } else {
        assert tail[1..] == others + "]" + rest;
        var r := ParseItems(others + "]" + rest);
        if r.Parsed? {
          assert ([tree] + r.value)[1..] == r.value;
        }
      }
    } else if ParseItems(t).Parsed? {
      ParseItemsFirst(t);
    }
  }

  lemma {:induction false} ReadsElements(vs: seq<Value>, rest: string)
    requires vs != [] && NumeralsAll(vs) && Tame(rest)
    ensures ReadsItems(RenderElements(vs) + "]", rest, Trees(vs), CleanItems(vs))
    decreases HeftAll(vs), 2
  {
    assert HeftAll(vs) == Heft(vs[0]) + HeftAll(vs[1..]);
    ElementsSplit(vs);
    var others, last := RenderElements(vs[1..]), |vs| == 1;
    if !last {
      TameAfter(']', rest);
      TameElements(vs[1..], "]" + rest);
      ReadsElements(vs[1..], rest);
    }
    TailFacts(last, ']', others, rest);
    ReadsItem(vs[0], Tail(last, ']', others, rest));
    ReadsOneMoreItem(RenderItem(vs[0]), others, last, rest, Tree(vs[0]), Trees(vs[1..]), CleanItem(vs[0]),
        CleanItems(vs[1..]));
  }

  lemma ParseMembersStep(t: string, name: string, afterName: string, value: Json, tail: string)
    requires ParseName(t) == Parsed(name, afterName) && ParseValue(afterName) == Parsed(value, tail)
    requires SkipSpace(tail) == tail && tail != "" && tail[0] in ",}"
    ensures ParseMembers(t) ==
            if tail[0] == '}' then Parsed([Member(name, value)], tail[1..])
            else
              match ParseMembers(tail[1..])
              case Fail => Fail
              case Parsed(members, u) => Parsed([Member(name, value)] + members, u)
  {
  }

  lemma ParseMembersFirst(t: string)
    requires ParseMembers(t).Parsed?
    ensures ParseName(t).Parsed? && ParseValue(ParseName(t).rest).Parsed?
    ensures ParseMembers(t).value != []
    ensures ParseMembers(t).value[0] == Member(ParseName(t).value, ParseValue(ParseName(t).rest).value)
  {
  }

  lemma MemberText(named: string, item: string, others: string, last: bool, rest: string)
    ensures named + item + (if last then "" else "," + others) + "}" + rest ==
            named + (item + Tail(last, '}', others, rest))
  {
    var more := if last then "" else "," + others;
    Regroup(named + item, more, "}" + rest);
    assert Tail(last, '}', others, rest) == more + ("}" + rest);
    Regroup(named, item, more + ("}" + rest));
  }

  /** One member in front of the others: its name reads exactly when it is shown as itself, in shared characters. */
  lemma ReadsOneMoreMember(name: string, shown: string, item: string, others: string, last: bool, rest: string,
                           tree: Json, trees: seq<Member>, exact: bool, exactOthers: bool)
    requires Tame(rest) && (last || Tame(others + ("}" + rest)))
    requires Reads(item, Tail(last, '}', others, rest), tree, exact)
    requires if last then trees == [] && exactOthers else ReadsMembers(others + "}", rest, trees, exactOthers)
    ensures ReadsMembers(Quote(shown) + ":" + item + (if last then "" else "," + others) + "}", rest,
                         [Member(name, tree)] + trees, shown == name && SharedAll(shown) && exact && exactOthers)
  {
    var tail := Tail(last, '}', others, rest);
    var t := Quote(shown) + ":" + (item + tail);
    TailFacts(last, '}', others, rest);
    MemberText(Quote(shown) + ":", item, others, last, rest);
    Regroup(Quote(shown), ":", item + tail);
    var members := [Member(name, tree)] + trees;
    assert members[0] == Member(name, tree) && members[1..] == trees;
    ReadsName(shown, item + tail, t);
    if SharedAll(shown) && exact {
      ParseMembersStep(t, shown, item + tail, tree, tail);
      if last {
        assert members == [Member(name, tree)];
      } else {
        assert tail[1..] == others + "}" + rest;
        var r := ParseMembers(others + "}" + rest);
        if r.Parsed? {
          assert ([Member(shown, tree)] + r.value)[1..] == r.value;
          assert ([Member(shown, tree)] + r.value)[0] == Member(shown, tree);
        }
      }
    } else if ParseMembers(t).Parsed? {
      ParseMembersFirst(t);
    }
  }

  lemma {:induction false} ReadsEntries(es: seq<Entry>, rest: string)
    requires es != [] && NumeralsEntries(es) && Tame(rest)
    ensures ReadsMembers(RenderEntries(es) + "}", rest, MemberTrees(es), CleanEntries(es))
    decreases HeftEntries(es), 2
  {
    var e, others, last := es[0], RenderEntries(es[1..]), |es| == 1;
    assert HeftEntries(es) == |e.name| + 1 + Heft(e.value) + HeftEntries(es[1..]);
    EntriesSplit(es);
    if !last {
      EntriesStart(es[1..]);
      ReadsEntries(es[1..], rest);
    }
    TailFacts(last, '}', others, rest);
    ReadsItem(e.value, Tail(last, '}', others, rest));
    ReadsOneMoreMember(e.name, RenderString(e.name), RenderItem(e.value), others, last, rest,
                       Tree(e.value), MemberTrees(es[1..]), CleanItem(e.value), CleanEntries(es[1..]));
  }

  lemma {:induction false} ReadsAttribute(v: Value, tail: string)
    requires Numerals(v) && Tame(tail) && tail != "" && tail[0] in ",}"
    ensures Reads(Render(v), tail, Tree(v), Clean(v))
    decreases Heft(v), 1
  {
    if v.Str? {
      if Embedded(v.s).None? {
        ReadsBareString(v.s, tail);
      } else {
        EmbeddedStart(v.s);
        OpensWithoutQuote(Render(v) + tail);
      }
    } else {
      ReadsRendered(v, tail);
    }
  }

  lemma EmbeddedStart(s: string)
    requires Embedded(s).Some?
    ensures RenderString(s) != "" && RenderString(s)[0] in "[{n"
  {
    var v := FromJson(Embedded(s).value);
    assert RenderString(s) == Render(v);
  }

  lemma {:induction false} ReadsAttributes(es: seq<Entry>, rest: string)
    requires es != [] && NumeralsEntries(es) && Tame(rest)
    ensures ReadsMembers(RenderAttributes(es) + "}", rest, MemberTrees(es), CleanAttributes(es))
    decreases HeftEntries(es), 2
  {
    var e, others, last := es[0], RenderAttributes(es[1..]), |es| == 1;
    assert HeftEntries(es) == |e.name| + 1 + Heft(e.value) + HeftEntries(es[1..]);
    AttributesSplit(es);
    if !last {
      EntriesStart(es[1..]);
      ReadsAttributes(es[1..], rest);
    }
    TailFacts(last, '}', others, rest);
    ReadsAttribute(e.value, Tail(last, '}', others, rest));
    ReadsOneMoreMember(e.name, e.name, Render(e.value), others, last, rest,
                       Tree(e.value), MemberTrees(es[1..]), Clean(e.value), CleanAttributes(es[1..]));
  }

  /** The published text of a value is JSON for that value exactly when the value is clean. */
  lemma PublishedTextReadsBack(v: Value)
    requires !v.Str? && Numerals(v)
    ensures ParseDocument(Render(v)) == Some(Tree(v)) <==> Clean(v)
  {
    ReadsRendered(v, "");
    assert Render(v) + "" == Render(v);
  }

  /** So a list does not read back when one of its strings has a character that is not printable beyond the Basic
      Multilingual Plane, such as the tags that spell out the flags of regions. */
  lemma UnprintableDoesNotReadBack(s: string, c: char)
    requires c in s && c as int >= 0x1_0000 && !Printable(c)
    ensures ParseDocument(Render(Sequence([Str(s)]))) != Some(JArray([JString(s)]))
  {
    var v := Sequence([Str(s)]);
    UnsharedStays(s, c);
    assert !CleanItem(Str(s)) && !CleanItems(v.elements);
    assert Trees(v.elements) == [JString(s)];
    assert NumeralsAll([Str(s)][1..]);
    PublishedTextReadsBack(v);
  }

  lemma {:induction false} UnsharedStays(s: string, c: char)
    requires c in s && !Shared(c)
    ensures !SharedAll(s)
  {
    if s[0] != c {
      UnsharedStays(s[1..], c);
    }
  }
}
