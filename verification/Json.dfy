/**
 The JSON grammar of RFC 8259 (sections 2 to 7), as the operator meets it in two places: the strings
 that it looks into before printing an output, and the text that it publishes.

 Every parsing function returns the unread rest of its input.  Their contracts bound the weight of
 what was read by the number of characters spent on it, which is what makes rendering terminate.
 */
module Json {
  import opened Options

  datatype Json =
    | JNull
    | JBool(b: bool)
    | JNumber(numeral: string)  // in plain notation: no exponent, no superfluous zeros
    | JString(s: string)
    | JArray(items: seq<Json>)
    | JObject(members: seq<Member>)

  datatype Member = Member(name: string, value: Json)

  datatype Parse<+T> = Fail | Parsed(value: T, rest: string)

  /** How much a tree weighs: one for each node, plus its strings and names with one more for each. */
  function Weight(j: Json): nat {
    match j
    case JString(s) => |s| + 1
    case JArray(items) => 1 + WeightAll(items)
    case JObject(members) => 1 + WeightMembers(members)
    case _ => 1
  }

  function WeightAll(items: seq<Json>): nat {
    if items == [] then 0 else Weight(items[0]) + WeightAll(items[1..])
  }

  function WeightMembers(members: seq<Member>): nat {
    if members == [] then 0
    else |members[0].name| + 1 + Weight(members[0].value) + WeightMembers(members[1..])
  }

  /****** Characters ******/

  predicate Space(c: char) { c == ' ' || c == '\t' || c == '\n' || c == '\r' }

  predicate Digit(c: char) { '0' <= c <= '9' }

  function SkipSpace(s: string): (rest: string)
    ensures |rest| <= |s|
    ensures rest != "" ==> !Space(rest[0])
  {
    if s != "" && Space(s[0]) then SkipSpace(s[1..]) else s
  }

  function HexDigit(c: char): Option<nat> {
    if Digit(c) then Some(c as int - '0' as int)
    else if 'a' <= c <= 'f' then Some(10 + (c as int - 'a' as int))
    else if 'A' <= c <= 'F' then Some(10 + (c as int - 'A' as int))
    else None
  }

  /** The code unit written by four hexadecimal digits. */
  function Hex4(s: string): (unit: Option<nat>)
    ensures unit.Some? ==> |s| >= 4 && unit.value < 0x1_0000
    ensures unit.Some? ==> forall i :: 0 <= i < 4 ==> HexDigit(s[i]).Some?
  {
    if |s| < 4 then None
    else
      match (HexDigit(s[0]), HexDigit(s[1]), HexDigit(s[2]), HexDigit(s[3]))
      case (Some(a), Some(b), Some(c), Some(d)) =>
        assert forall i :: 0 <= i < 4 ==> HexDigit(s[i]).Some?;
        if a < 16 && b < 16 && c < 16 && d < 16 then Some(((a * 16 + b) * 16 + c) * 16 + d) else None
      case _ => None
  }

  predicate HighSurrogate(unit: nat) { 0xD800 <= unit < 0xDC00 }

  predicate LowSurrogate(unit: nat) { 0xDC00 <= unit < 0xE000 }

  const REPLACEMENT: char := '\U{FFFD}'

  /** What `\uXXXX` stands for, read just after the `u`; a surrogate without its other half is replaced. */
  function ParseUnicode(s: string): (r: Parse<char>)
    ensures r.Parsed? ==> |s| - 12 < |r.rest| <= |s| - 4
    ensures r.Parsed? ==> r.rest == s[|s| - |r.rest|..]
    ensures r.Parsed? ==> forall i :: 0 <= i < 4 ==> HexDigit(s[i]).Some?
    ensures r.Parsed? && |r.rest| != |s| - 4 ==>
            |r.rest| == |s| - 10 && s[4] == '\\' && s[5] == 'u' && forall i :: 6 <= i < 10 ==> HexDigit(s[i]).Some?
  {
    match Hex4(s)
    case None => Fail
    case Some(unit) =>
      if !HighSurrogate(unit) && !LowSurrogate(unit) then Parsed(unit as char, s[4..])
      else if HighSurrogate(unit) && |s| >= 10 && s[4] == '\\' && s[5] == 'u' then
        match Hex4(s[6..])
        case Some(low) =>
          if LowSurrogate(low) then
            assert forall i :: 6 <= i < 10 ==> s[i] == s[6..][i - 6];
            Parsed((0x1_0000 + (unit - 0xD800) * 0x400 + (low - 0xDC00)) as char, s[10..])
          else Parsed(REPLACEMENT, s[4..])
        case None => Parsed(REPLACEMENT, s[4..])
      else Parsed(REPLACEMENT, s[4..])
  }

  /****** Strings (section 7) ******/

  /** The character that a two-character escape stands for. */
  function ShortEscape(c: char): Option<char> {
    match c
    case '\"' => Some('\"')
    case '\\' => Some('\\')
    case '/' => Some('/')
    case 'b' => Some('\U{0008}')
    case 'f' => Some('\U{000C}')
    case 'n' => Some('\n')
    case 'r' => Some('\r')
    case 't' => Some('\t')
    case _ => None
  }

  /** One character of a string, escaped or not; the closing quote is not a character. */
  function ParseChar(s: string): (r: Parse<char>)
    ensures r.Parsed? ==> |r.rest| < |s| && r.rest == s[|s| - |r.rest|..]
  {
    if s == "" || s[0] == '\"' || s[0] < ' ' then Fail
    else if s[0] != '\\' then Parsed(s[0], s[1..])
    else if |s| < 2 then Fail
    else if s[1] == 'u' then
      var r := ParseUnicode(s[2..]);
      if r.Parsed? then
        assert s[2..][|s| - 2 - |r.rest|..] == s[|s| - |r.rest|..];
        r
      else Fail
    else
      match ShortEscape(s[1])
      case Some(c) => Parsed(c, s[2..])
      case None => Fail
  }

  /** The characters up to the closing quote, which is consumed too. */
  function ParseChars(s: string): (r: Parse<string>)
    ensures r.Parsed? ==> |r.value| + |r.rest| < |s|
  {
    if s != "" && s[0] == '\"' then Parsed("", s[1..])
    else
      match ParseChar(s)
      case Fail => Fail
      case Parsed(c, t) =>
        match ParseChars(t)
        case Fail => Fail
        case Parsed(cs, rest) => Parsed([c] + cs, rest)
  }

  /****** Numbers (section 6) ******/

  function TakeDigits(s: string): (r: (string, string))
    ensures |r.0| + |r.1| == |s|
    ensures r.1 != "" ==> !Digit(r.1[0])
  {
    if s != "" && Digit(s[0]) then
      var (ds, rest) := TakeDigits(s[1..]);
      ([s[0]] + ds, rest)
    else ("", s)
  }

  function Natural(digits: string): nat
    requires forall i :: 0 <= i < |digits| ==> Digit(digits[i])
  {
    if digits == "" then 0
    else
      var last := digits[|digits| - 1];
      assert Digit(last);
      Natural(digits[..|digits| - 1]) * 10 + (last as int - '0' as int)
  }

  lemma TakenAreDigits(s: string)
    ensures forall i :: 0 <= i < |TakeDigits(s).0| ==> Digit(TakeDigits(s).0[i])
  {
  }

  function Zeros(n: nat): string { seq(n, _ => '0') }

  function DropLeadingZeros(s: string): string {
    if s != "" && s[0] == '0' then DropLeadingZeros(s[1..]) else s
  }

  function DropTrailingZeros(s: string): string {
    if s != "" && s[|s| - 1] == '0' then DropTrailingZeros(s[..|s| - 1]) else s
  }

  /** A decimal written without exponent: the digits `whole`.`fraction`, scaled by ten to the `exponent`. */
  function Plain(minus: bool, whole: string, fraction: string, exponent: int): string {
    var digits := whole + fraction;
    var point := |whole| + exponent;
    var (before, after) :=
      if point <= 0 then ("", Zeros(-point) + digits)
      else if point >= |digits| then (digits + Zeros(point - |digits|), "")
      else (digits[..point], digits[point..]);
    var integer := DropLeadingZeros(before);
    var decimals := DropTrailingZeros(after);
    (if minus then "-" else "") + (if integer == "" then "0" else integer) +
    (if decimals == "" then "" else "." + decimals)
  }

  /** The fraction part, empty when there is none. */
  function ParseFraction(s: string): (r: Parse<string>)
    ensures r.Parsed? ==> |r.rest| <= |s|
  {
    if s != "" && s[0] == '.' then
      var (ds, rest) := TakeDigits(s[1..]);
      if ds == "" then Fail else Parsed(ds, rest)
    else Parsed("", s)
  }

  /** The exponent part, zero when there is none. */
  function ParseExponent(s: string): (r: Parse<int>)
    ensures r.Parsed? ==> |r.rest| <= |s|
  {
    if s != "" && (s[0] == 'e' || s[0] == 'E') then
      var signed := |s| > 1 && (s[1] == '-' || s[1] == '+');
      var t := if signed then s[2..] else s[1..];
      var (ds, rest) := TakeDigits(t);
      TakenAreDigits(t);
      var magnitude: int := Natural(ds);
      if ds == "" then Fail else Parsed(if signed && s[1] == '-' then -magnitude else magnitude, rest)
    else Parsed(0, s)
  }

  /** The digits before the point, which do not start with a superfluous zero. */
  function ParseWhole(s: string): (r: Parse<string>)
    ensures r.Parsed? ==> |r.rest| < |s|
  {
    if s == "" || !Digit(s[0]) then Fail
    else if s[0] == '0' then Parsed("0", s[1..])
    else
      var (ds, rest) := TakeDigits(s);
      Parsed(ds, rest)
  }

  function ParseNumber(s: string): (r: Parse<Json>)
    ensures r.Parsed? ==> r.value.JNumber? && |r.rest| < |s|
  {
    var minus := s != "" && s[0] == '-';
    match ParseWhole(if minus then s[1..] else s)
    case Fail => Fail
    case Parsed(whole, t) =>
      match ParseFraction(t)
      case Fail => Fail
      case Parsed(fraction, u) =>
        match ParseExponent(u)
        case Fail => Fail
        case Parsed(exponent, rest) => Parsed(JNumber(Plain(minus, whole, fraction, exponent)), rest)
  }

  /****** Values (sections 3 to 5) ******/

  /** One of the three literal names. */
  function ParseWord(s: string, word: string, j: Json): (r: Parse<Json>)
    ensures r.Parsed? ==> |word| <= |s| && r == Parsed(j, s[|word|..])
  {
    if word <= s then Parsed(j, s[|word|..]) else Fail
  }

  function ParseValue(s: string): (r: Parse<Json>)
    ensures r.Parsed? ==> Weight(r.value) + |r.rest| <= |s|
    decreases |s|, 0
  {
    var t := SkipSpace(s);
    if t == "" then Fail
    else if t[0] == '\"' then
      match ParseChars(t[1..])
      case Fail => Fail
      case Parsed(cs, rest) => Parsed(JString(cs), rest)
    else if t[0] == '[' then
      var u := SkipSpace(t[1..]);
      if u != "" && u[0] == ']' then Parsed(JArray([]), u[1..])
      else
        match ParseItems(u)
        case Fail => Fail
        case Parsed(items, rest) => Parsed(JArray(items), rest)
    else if t[0] == '{' then
      var u := SkipSpace(t[1..]);
      if u != "" && u[0] == '}' then Parsed(JObject([]), u[1..])
      else
        match ParseMembers(u)
        case Fail => Fail
        case Parsed(members, rest) => Parsed(JObject(members), rest)
    else if t[0] == 'n' then ParseWord(t, "null", JNull)
    else if t[0] == 't' then ParseWord(t, "true", JBool(true))
    else if t[0] == 'f' then ParseWord(t, "false", JBool(false))
    else ParseNumber(t)
  }

  /** One or more values with commas between them, and the closing bracket. */
  function ParseItems(s: string): (r: Parse<seq<Json>>)
    ensures r.Parsed? ==> WeightAll(r.value) + |r.rest| < |s|
    decreases |s|, 1
  {
    match ParseValue(s)
    case Fail => Fail
    case Parsed(item, rest) =>
      var t := SkipSpace(rest);
      if t != "" && t[0] == ']' then Parsed([item], t[1..])
      else if t != "" && t[0] == ',' then
        match ParseItems(t[1..])
        case Fail => Fail
        case Parsed(items, u) => Parsed([item] + items, u)
      else Fail
  }

  /** A name and the colon after it. */
  function ParseName(s: string): (r: Parse<string>)
    ensures r.Parsed? ==> |r.value| + 3 + |r.rest| <= |s|
  {
    var t := SkipSpace(s);
    if t == "" || t[0] != '\"' then Fail
    else
      match ParseChars(t[1..])
      case Fail => Fail
      case Parsed(name, rest) =>
        var u := SkipSpace(rest);
        if u != "" && u[0] == ':' then Parsed(name, u[1..]) else Fail
  }

  /** One or more members with commas between them, and the closing brace. */
  function ParseMembers(s: string): (r: Parse<seq<Member>>)
    ensures r.Parsed? ==> WeightMembers(r.value) + |r.rest| < |s|
    decreases |s|, 1
  {
    match ParseName(s)
    case Fail => Fail
    case Parsed(name, afterName) =>
      match ParseValue(afterName)
      case Fail => Fail
      case Parsed(value, rest) =>
        var t := SkipSpace(rest);
        if t != "" && t[0] == '}' then Parsed([Member(name, value)], t[1..])
        else if t != "" && t[0] == ',' then
          match ParseMembers(t[1..])
          case Fail => Fail
          case Parsed(members, u) => Parsed([Member(name, value)] + members, u)
        else Fail
  }

  /** A complete JSON text (section 2): one value and nothing after it but space. */
  function ParseDocument(s: string): (doc: Option<Json>)
    ensures doc.Some? ==> Weight(doc.value) <= |s|
  {
    match ParseValue(s)
    case Parsed(j, rest) => if SkipSpace(rest) == "" then Some(j) else None
    case Fail => None
  }
}
