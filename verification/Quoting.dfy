/**
 Go's quoted form of strings, and what it keeps apart (workspacehelper/tfc_output.go): whatever characters they have,
 strings between quotes are never mistaken for others, nor are lists of them.
 */
module Quoting {
  import opened Options
  import opened Json
  import opened Rendering

  /****** The forms ******/

  const SPECIAL := "\"\\\U{0007}\U{0008}\U{000C}\n\r\t\U{000B}"
  const LETTERS := "\"\\abfnrtv"
  const LOWER := "0123456789abcdef"

  /** `n` in hexadecimal digits, the last `digits` of them. */
  function Digits(n: nat, digits: nat): (s: string)
    ensures |s| == digits
  {
    if digits == 0 then "" else Digits(n / 16, digits - 1) + [LOWER[n % 16]]
  }

  lemma HexIsLower(n: nat)
    requires n < 16
    ensures Hex(n) == LOWER[n]
  {
  }

  lemma OneDigit(n: nat)
    ensures Digits(n, 1) == [Hex(n % 16)]
  {
    HexIsLower(n % 16);
    assert Digits(n / 16, 0) == "";
  }

  lemma TwoDigits(n: nat)
    ensures Digits(n, 2) == [Hex(n / 16 % 16), Hex(n % 16)]
  {
    OneDigit(n / 16);
    HexIsLower(n % 16);
  }

  /** Digits in pairs. */
  lemma {:induction false} PairBehind(n: nat, digits: nat)
    ensures Digits(n, digits + 2) == Digits(n / 0x100, digits) + Digits(n, 2)
  {
    var a, b, c := Digits(n / 16 / 16, digits), LOWER[n / 16 % 16], LOWER[n % 16];
    assert n / 16 / 16 == n / 0x100;
    assert Digits(n / 16, digits + 1) == a + [b];
    assert Digits(n, digits + 2) == a + [b] + [c];
    TwoDigits(n);
    HexIsLower(n / 16 % 16);
    HexIsLower(n % 16);
  }

  lemma FourAreDigits(n: nat)
    ensures FourDigits(n) == Digits(n, 4)
  {
    PairBehind(n, 2);
    TwoDigits(n);
    TwoDigits(n / 0x100);
    assert n / 0x100 / 16 == n / 0x1000;
  }

  lemma EightAreDigits(n: nat)
    ensures FourDigits(n / 0x1_0000) + FourDigits(n) == Digits(n, 8)
  {
    FourAreDigits(n);
    FourAreDigits(n / 0x1_0000);
    PairBehind(n, 6);
    PairBehind(n / 0x100, 4);
    PairBehind(n, 2);
    assert n / 0x100 / 0x100 == n / 0x1_0000;
    assert Digits(n / 0x100, 6) == Digits(n / 0x1_0000, 4) + Digits(n / 0x100, 2);
  }

  /** A character with a letter of its own, a printable one, and the others by their numbers. */
  lemma Forms(c: char)
    ensures |SPECIAL| == |LETTERS| == 9
    ensures forall k :: 0 <= k < 9 && c == SPECIAL[k] ==> QuoteChar(c) == ['\\', LETTERS[k]]
    ensures c !in SPECIAL && Printable(c) ==> QuoteChar(c) == [c]
    ensures c !in SPECIAL && !Printable(c) ==> QuoteChar(c) == ByNumber(c as int)
  {
    SpecialHaveLetters(c);
    if c !in SPECIAL && !Printable(c) { OthersAreNumbered(c); }
  }

  function ByNumber(n: nat): string {
    if n < 0x20 then "\\x" + Digits(n, 2) else if n < 0x1_0000 then "\\u" + Digits(n, 4) else "\\U" + Digits(n, 8)
  }

  lemma SpecialHaveLetters(c: char)
    ensures forall k :: 0 <= k < 9 && c == SPECIAL[k] ==> GoEscape(c) == Some(LETTERS[k])
    ensures GoEscape(c).Some? <==> c in SPECIAL
  {
    assert SPECIAL[0] == '\"' && SPECIAL[1] == '\\' && SPECIAL[2] == '\U{0007}' && SPECIAL[3] == '\U{0008}';
    assert SPECIAL[4] == '\U{000C}' && SPECIAL[5] == '\n' && SPECIAL[6] == '\r' && SPECIAL[7] == '\t';
    assert SPECIAL[8] == '\U{000B}';
  }

  lemma OthersAreNumbered(c: char)
    requires GoEscape(c).None? && !Printable(c)
    ensures QuoteChar(c) == ByNumber(c as int)
  {
    var n := c as int;
    if n < 0x20 {
      TwoDigits(n);
      assert n / 16 % 16 == n / 16;
    } else if n < 0x1_0000 {
      FourAreDigits(n);
    } else {
      EightAreDigits(n);
      assert "\\U" + FourDigits(n / 0x1_0000) + FourDigits(n) == "\\U" + (FourDigits(n / 0x1_0000) + FourDigits(n));
    }
  }

  /****** What the forms keep apart ******/

  lemma Cut(a: string, u: string, b: string, v: string)
    requires |a| == |b| && a + u == b + v
    ensures a == b && u == v
  {
    assert a == (a + u)[..|a|] && b == (b + v)[..|b|];
    assert u == (a + u)[|a|..] && v == (b + v)[|b|..];
  }

  function Bound(digits: nat): nat { if digits == 0 then 1 else 16 * Bound(digits - 1) }

  lemma {:induction false} DigitsApart(n: nat, m: nat, digits: nat)
    requires n < Bound(digits) && m < Bound(digits) && Digits(n, digits) == Digits(m, digits)
    ensures n == m
    decreases digits
  {
    if digits > 0 {
      var a, b := Digits(n / 16, digits - 1), Digits(m / 16, digits - 1);
      Cut(a, [LOWER[n % 16]], b, [LOWER[m % 16]]);
      assert [LOWER[n % 16]][0] == [LOWER[m % 16]][0];
      LowerApart(n % 16, m % 16);
      DigitsApart(n / 16, m / 16, digits - 1);
    }
  }

  lemma LowerApart(i: nat, j: nat)
    requires i < 16 && j < 16 && LOWER[i] == LOWER[j]
    ensures i == j
  {
    HexIsLower(i);
    HexIsLower(j);
  }

  lemma LettersApart(i: nat, j: nat)
    requires i < 9 && j < 9
    ensures |SPECIAL| == |LETTERS| == 9
    ensures LETTERS[i] == LETTERS[j] ==> i == j
    ensures LETTERS[i] != 'x' && LETTERS[i] != 'u' && LETTERS[i] != 'U'
  {
    assert LETTERS[0] == '\"' && LETTERS[1] == '\\' && LETTERS[2] == 'a' && LETTERS[3] == 'b' && LETTERS[4] == 'f';
    assert LETTERS[5] == 'n' && LETTERS[6] == 'r' && LETTERS[7] == 't' && LETTERS[8] == 'v';
  }

  function Mark(n: nat): char { if n < 0x20 then 'x' else if n < 0x1_0000 then 'u' else 'U' }

  function Width(n: nat): nat { if n < 0x20 then 2 else if n < 0x1_0000 then 4 else 8 }

  lemma NumberedForm(n: nat)
    ensures ByNumber(n) == ['\\', Mark(n)] + Digits(n, Width(n))
  {
  }

  lemma NumbersApart(n: nat, m: nat, u: string, v: string)
    requires n < 0x11_0000 && m < 0x11_0000 && ByNumber(n) + u == ByNumber(m) + v
    ensures n == m && u == v
  {
    NumberedForm(n);
    NumberedForm(m);
    assert (ByNumber(n) + u)[1] == Mark(n) && (ByNumber(m) + v)[1] == Mark(m);
    assert Mark(n) == Mark(m) && Width(n) == Width(m);
    Cut(ByNumber(n), u, ByNumber(m), v);
    assert ByNumber(n)[2..] == Digits(n, Width(n)) && ByNumber(m)[2..] == Digits(m, Width(m));
    assert Bound(2) == 0x100 && Bound(4) == 0x1_0000 && Bound(8) == 0x1_0000 * 0x1_0000;
    DigitsApart(n, m, Width(n));
  }

  /** A character that stands for itself, one with a letter, or one by its number. */
  predicate Bare(c: char) { c !in SPECIAL && Printable(c) }

  lemma BareForm(c: char, u: string)
    requires Bare(c)
    ensures QuoteChar(c) == [c] && (QuoteChar(c) + u)[0] == c && c != '\\' && c != '\"'
  {
    Forms(c);
    assert SPECIAL[0] == '\"' && SPECIAL[1] == '\\';
  }

  /** The character after the backslash tells which of the others it is. */
  lemma EscapedForm(c: char, u: string)
    requires !Bare(c)
    ensures QuoteChar(c)[0] == (QuoteChar(c) + u)[0] == '\\' && |QuoteChar(c)| >= 2
    ensures if c in SPECIAL then QuoteChar(c) == ['\\', Letter(c)] && (QuoteChar(c) + u)[1] == Letter(c)
            else QuoteChar(c) == ByNumber(c as int) && (QuoteChar(c) + u)[1] == Mark(c as int)
  {
    Forms(c);
    NumberedForm(c as int);
    if c in SPECIAL { var _ := LetterOf(c); }
  }

  function Letter(c: char): char { if GoEscape(c).Some? then GoEscape(c).value else ' ' }

  lemma LetterOf(c: char) returns (k: nat)
    requires c in SPECIAL
    ensures k < 9 && |SPECIAL| == |LETTERS| == 9 && c == SPECIAL[k] && Letter(c) == LETTERS[k]
    ensures QuoteChar(c) == ['\\', Letter(c)]
  {
    SpecialHaveLetters(c);
    Forms(c);
    k :| 0 <= k < |SPECIAL| && SPECIAL[k] == c;
  }

  lemma EscapedApart(c: char, d: char, u: string, v: string)
    requires !Bare(c) && !Bare(d) && QuoteChar(c) + u == QuoteChar(d) + v
    ensures c == d && u == v
  {
    EscapedForm(c, u);
    EscapedForm(d, v);
    if c in SPECIAL {
      var i := LetterOf(c);
      LettersApart(i, i);
      if d in SPECIAL {
        var j := LetterOf(d);
        LettersApart(i, j);
        Cut(QuoteChar(c), u, QuoteChar(d), v);
      }
    } else if d in SPECIAL {
      var j := LetterOf(d);
      LettersApart(j, j);
    } else {
      NumbersApart(c as int, d as int, u, v);
    }
  }

  lemma CharsApart(c: char, d: char, u: string, v: string)
    requires QuoteChar(c) + u == QuoteChar(d) + v
    ensures c == d && u == v
  {
    if Bare(c) { BareForm(c, u); } else { EscapedForm(c, u); }
    if Bare(d) { BareForm(d, v); } else { EscapedForm(d, v); }
    if !Bare(c) && !Bare(d) {
      EscapedApart(c, d, u, v);
    } else {
      Cut(QuoteChar(c), u, QuoteChar(d), v);
    }
  }

  lemma NoQuoteFirst(c: char, u: string)
    ensures (QuoteChar(c) + u)[0] != '\"'
  {
    if Bare(c) { BareForm(c, u); } else { EscapedForm(c, u); }
  }

  lemma FirstOfChars(s: string, u: string)
    requires s != ""
    ensures QuoteChars(s) + "\"" + u == QuoteChar(s[0]) + (QuoteChars(s[1..]) + "\"" + u)
  {
  }

  lemma {:induction false} CharsEndApart(s: string, t: string, u: string, v: string)
    requires QuoteChars(s) + "\"" + u == QuoteChars(t) + "\"" + v
    ensures s == t && u == v
    decreases |s|
  {
    if s != "" { FirstOfChars(s, u); NoQuoteFirst(s[0], QuoteChars(s[1..]) + "\"" + u); }
    if t != "" { FirstOfChars(t, v); NoQuoteFirst(t[0], QuoteChars(t[1..]) + "\"" + v); }
    if s == "" || t == "" {
      EmptyEnds(u);
      EmptyEnds(v);
      Cut("\"", u, "\"", v);
    } else {
      CharsApart(s[0], t[0], QuoteChars(s[1..]) + "\"" + u, QuoteChars(t[1..]) + "\"" + v);
      CharsEndApart(s[1..], t[1..], u, v);
      assert s == [s[0]] + s[1..] && t == [t[0]] + t[1..];
    }
  }

  lemma EmptyEnds(u: string)
    ensures QuoteChars("") + "\"" + u == "\"" + u && (QuoteChars("") + "\"" + u)[0] == '\"'
  {
  }

  /** Strings between quotes are kept apart, and so is what follows them. */
  lemma QuotedApart(s: string, t: string, u: string, v: string)
    requires Quote(s) + u == Quote(t) + v
    ensures s == t && u == v
  {
    var a, b := QuoteChars(s) + "\"" + u, QuoteChars(t) + "\"" + v;
    assert Quote(s) + u == "\"" + a && Quote(t) + v == "\"" + b;
    Cut("\"", a, "\"", b);
    CharsEndApart(s, t, u, v);
  }

  /****** Lists of strings ******/

  function Strings(ss: seq<string>): seq<Value> { if ss == [] then [] else [Str(ss[0])] + Strings(ss[1..]) }

  /** Strings that are printed as they are. */
  predicate AsTheyAre(ss: seq<string>) { forall s :: s in ss ==> RenderString(s) == s }

  /** What follows the first string of a list. */
  function Others(last: bool, others: string): string { if last then "" else "," + others }

  lemma FirstValue(v: Value, vs: seq<Value>)
    ensures RenderElements([v] + vs) == RenderItem(v) + Others(vs == [], RenderElements(vs))
  {
    assert ([v] + vs)[1..] == vs;
    if vs == [] {
      assert RenderItem(v) + "" == RenderItem(v);
    } else {
      assert RenderItem(v) + "," + RenderElements(vs) == RenderItem(v) + ("," + RenderElements(vs));
    }
  }

  lemma FirstOfStrings(ss: seq<string>, closing: string)
    requires ss != [] && AsTheyAre(ss)
    ensures RenderElements(Strings(ss)) + closing ==
            Quote(ss[0]) + (Others(|ss| == 1, RenderElements(Strings(ss[1..]))) + closing)
  {
    assert ss[0] in ss;
    FirstValue(Str(ss[0]), Strings(ss[1..]));
    ItemOfString(ss[0]);
    Regrouped(Quote(ss[0]), Others(|ss| == 1, RenderElements(Strings(ss[1..]))), closing);
  }

  lemma ItemOfString(s: string)
    requires RenderString(s) == s
    ensures RenderItem(Str(s)) == Quote(s)
  {
  }

  lemma Regrouped(a: string, b: string, c: string)
    ensures a + b + c == a + (b + c)
  {
  }

  lemma {:induction false} StringsApart(ss: seq<string>, ts: seq<string>)
    requires AsTheyAre(ss) && AsTheyAre(ts)
    requires RenderElements(Strings(ss)) + "]" == RenderElements(Strings(ts)) + "]"
    ensures ss == ts
    decreases |ss|
  {
    if ss == [] || ts == [] {
      OnlyEmptyEnds(ss);
      OnlyEmptyEnds(ts);
    } else {
      var u, v := RenderElements(Strings(ss[1..])), RenderElements(Strings(ts[1..]));
      FirstOfStrings(ss, "]");
      FirstOfStrings(ts, "]");
      QuotedApart(ss[0], ts[0], Others(|ss| == 1, u) + "]", Others(|ts| == 1, v) + "]");
      OthersApart(|ss| == 1, u, |ts| == 1, v);
      if |ss| > 1 { StringsApart(ss[1..], ts[1..]); }
      assert ss == [ss[0]] + ss[1..] && ts == [ts[0]] + ts[1..];
    }
  }

  lemma OnlyEmptyEnds(ss: seq<string>)
    requires AsTheyAre(ss)
    ensures (RenderElements(Strings(ss)) + "]")[0] == if ss == [] then ']' else '\"'
  {
    if ss != [] { FirstOfStrings(ss, "]"); }
  }

  lemma OthersApart(a: bool, u: string, b: bool, v: string)
    requires Others(a, u) + "]" == Others(b, v) + "]"
    ensures a == b && (!a ==> u + "]" == v + "]")
  {
    assert (Others(a, u) + "]")[0] == if a then ']' else ',';
    assert (Others(b, v) + "]")[0] == if b then ']' else ',';
    if !a {
      assert (Others(a, u) + "]")[1..] == u + "]" && (Others(b, v) + "]")[1..] == v + "]";
    }
  }

  /** Two lists of strings that hold no JSON are printed alike only if they are the same, whatever characters they
      have. */
  lemma ListsOfStringsAreKeptApart(ss: seq<string>, ts: seq<string>)
    requires AsTheyAre(ss) && AsTheyAre(ts)
    ensures Render(Sequence(Strings(ss))) == Render(Sequence(Strings(ts))) <==> ss == ts
  {
    var a, b := RenderElements(Strings(ss)), RenderElements(Strings(ts));
    if "[" + a + "]" == "[" + b + "]" {
      assert "[" + a + "]" == "[" + (a + "]") && "[" + b + "]" == "[" + (b + "]");
      Cut("[", a + "]", "[", b + "]");
      StringsApart(ss, ts);
    }
  }
}
