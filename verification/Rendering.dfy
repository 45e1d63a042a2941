/**
 How an output value becomes text (workspacehelper/tfc_output.go, convertValueToString).

 A string that holds a JSON array, object or null is parsed and what it holds is rendered in its place,
 so rendering recurses through values and through the strings inside them.
 */
module Rendering {
  import opened Options
  import opened Json

  /** A value of a Terraform output.  Lists, sets and tuples print alike, and are kept in iteration order;
      so are the entries of a map and the attributes of an object, which both come sorted by name. */
  datatype Value =
    | Null(ofString: bool)  // a null knows its type
    | Boolean(b: bool)
    | Number(numeral: string)
    | Str(s: string)
    | Sequence(elements: seq<Value>)
    | Map(entries: seq<Entry>)
    | Object(attributes: seq<Entry>)
  {
    /** The test that decides on quotes. */
    predicate IsString() { Str? || this == Null(true) }
  }

  datatype Entry = Entry(name: string, value: Value)

  /****** Weights ******/

  function Heft(v: Value): nat {
    match v
    case Str(s) => |s| + 1
    case Sequence(elements) => 1 + HeftAll(elements)
    case Map(entries) => 1 + HeftEntries(entries)
    case Object(attributes) => 1 + HeftEntries(attributes)
    case _ => 1
  }

  function HeftAll(vs: seq<Value>): nat {
    if vs == [] then 0 else Heft(vs[0]) + HeftAll(vs[1..])
  }

  function HeftEntries(es: seq<Entry>): nat {
    if es == [] then 0 else |es[0].name| + 1 + Heft(es[0].value) + HeftEntries(es[1..])
  }

  /****** From JSON to values ******/

  /** Lexicographic order on strings. */
  predicate Before(a: string, b: string) {
    if b == "" then false
    else if a == "" then true
    else a[0] < b[0] || (a[0] == b[0] && Before(a[1..], b[1..]))
  }

  /** The entries with one more, in order of name; a later member replaces an earlier one of its name. */
  function Insert(e: Entry, es: seq<Entry>): (r: seq<Entry>)
    ensures HeftEntries(r) <= |e.name| + 1 + Heft(e.value) + HeftEntries(es)
  {
    if es == [] then [e]
    else if e.name == es[0].name then
      assert ([e] + es[1..])[1..] == es[1..];
      [e] + es[1..]
    else if Before(e.name, es[0].name) then
      assert ([e] + es)[1..] == es;
      [e] + es
    else
      var t := Insert(e, es[1..]);
      assert ([es[0]] + t)[1..] == t;
      [es[0]] + t
  }

  /** The value that a JSON tree decodes to when its type is the one the tree implies. */
  function FromJson(j: Json): (v: Value)
    ensures Heft(v) <= Weight(j)
  {
    match j
    case JNull => Null(false)
    case JBool(b) => Boolean(b)
    case JNumber(n) => Number(n)
    case JString(s) => Str(s)
    case JArray(items) => Sequence(FromItems(items))
    case JObject(members) => Object(FromMembers(members))
  }

  function FromItems(items: seq<Json>): (vs: seq<Value>)
    ensures HeftAll(vs) <= WeightAll(items)
  {
    if items == [] then []
    else
      var vs := FromItems(items[1..]);
      assert ([FromJson(items[0])] + vs)[1..] == vs;
      [FromJson(items[0])] + vs
  }

  function FromMembers(members: seq<Member>): (es: seq<Entry>)
    ensures HeftEntries(es) <= WeightMembers(members)
  {
    if members == [] then []
    else
      var last := members[|members| - 1];
      MembersSplit(members);
      Insert(Entry(last.name, FromJson(last.value)), FromMembers(members[..|members| - 1]))
  }

  lemma MembersSplit(ms: seq<Member>)
    requires ms != []
    ensures WeightMembers(ms) ==
            WeightMembers(ms[..|ms| - 1]) + |ms[|ms| - 1].name| + 1 + Weight(ms[|ms| - 1].value)
  {
    if |ms| > 1 {
      MembersSplit(ms[1..]);
      assert ms[1..][..|ms| - 2] == ms[..|ms| - 1][1..];
    }
  }

  /****** Strings that hold JSON ******/

  predicate Blank(c: char) { Space(c) || c == '\U{000B}' || c == '\U{000C}' || c == '\U{0085}' || c == '\U{00A0}' }

  function TrimLeft(s: string): string { if s != "" && Blank(s[0]) then TrimLeft(s[1..]) else s }

  function TrimRight(s: string): string {
    if s != "" && Blank(s[|s| - 1]) then TrimRight(s[..|s| - 1]) else s
  }

  function Trim(s: string): string { TrimRight(TrimLeft(s)) }

  /** The array, object or null that a string holds, if it holds one.  The decoder behind this test only
      asks whether another value follows, so a stray closing bracket or brace after the first does not
      trouble it; and a string that reads `null` and nothing else is left alone. */
  function Embedded(s: string): (j: Option<Json>)
    ensures j.Some? ==> Weight(j.value) <= |s|
  {
    match ParseValue(s)
    case Fail => None
    case Parsed(j, rest) =>
      var t := SkipSpace(rest);
      if t != "" && t[0] != ']' && t[0] != '}' then None
      else if j.JArray? || j.JObject? then Some(j)
      else if j.JNull? && Trim(s) != "null" then Some(j)
      else None
  }

  /****** Rendering ******/

  function Hex(n: nat): char
    requires n < 16
  {
    if n < 10 then (n + '0' as int) as char else (n - 10 + 'a' as int) as char
  }

  /** The characters beyond ASCII that Go takes for printable.  Which ones they are is a matter of the Unicode
      version; nothing below depends on it. */
  const PRINTABLE_BEYOND_ASCII: set<char>

  predicate Printable(c: char) { if c < '\U{0080}' then ' ' <= c < '\U{007F}' else c in PRINTABLE_BEYOND_ASCII }

  /** The four lowest hexadecimal digits of a number. */
  function FourDigits(n: nat): (digits: string)
    ensures |digits| == 4
  {
    [Hex(n / 0x1000 % 16), Hex(n / 0x100 % 16), Hex(n / 0x10 % 16), Hex(n % 16)]
  }

  /** The escape that Go has for a character, if there is a special one. */
  function GoEscape(c: char): Option<char> {
    match c
    case '\"' => Some('\"')
    case '\\' => Some('\\')
    case '\U{0007}' => Some('a')
    case '\U{0008}' => Some('b')
    case '\U{000C}' => Some('f')
    case '\n' => Some('n')
    case '\r' => Some('r')
    case '\t' => Some('t')
    case '\U{000B}' => Some('v')
    case _ => None
  }

  /** One character between Go's double quotes.  What is not printable comes out as a number of two, four or
      eight digits. */
  function QuoteChar(c: char): (q: string)
    ensures q != ""
  {
    if GoEscape(c).Some? then ['\\', GoEscape(c).value]
    else if Printable(c) then [c]
    else if c < ' ' then ['\\', 'x', Hex(c as int / 16), Hex(c as int % 16)]
    else if c as int < 0x1_0000 then "\\u" + FourDigits(c as int)
    else "\\U" + FourDigits(c as int / 0x1_0000) + FourDigits(c as int)
  }

  function QuoteChars(s: string): string {
    if s == "" then "" else QuoteChar(s[0]) + QuoteChars(s[1..])
  }

  /** Go's quoted form of a string, the `%q` of its formatting functions. */
  function Quote(s: string): string { "\"" + QuoteChars(s) + "\"" }

  function Render(v: Value): string
    decreases Heft(v), 1
  {
    match v
    case Null(_) => "null"
    case Boolean(b) => if b then "true" else "false"
    case Number(numeral) => numeral
    case Str(s) => RenderString(s)
    case Sequence(elements) => "[" + RenderElements(elements) + "]"
    case Map(entries) => "{" + RenderEntries(entries) + "}"
    case Object(attributes) => "{" + RenderAttributes(attributes) + "}"
  }

  /** A string prints as itself, unless it holds JSON: then what it holds is printed. */
  function RenderString(s: string): string
    decreases |s| + 1, 0
  {
    match Embedded(s)
    case None => s
    case Some(j) => Render(FromJson(j))
  }

  /** A value inside a list or a map: strings, and null strings, are quoted. */
  function RenderItem(v: Value): string
    decreases Heft(v), 2
  {
    if v.IsString() then Quote(Render(v)) else Render(v)
  }

  function RenderElements(vs: seq<Value>): string
    decreases HeftAll(vs), 3
  {
    if vs == [] then ""
    else if |vs| == 1 then RenderItem(vs[0])
    else RenderItem(vs[0]) + "," + RenderElements(vs[1..])
  }

  function RenderEntry(e: Entry): string
    decreases |e.name| + 1 + Heft(e.value), 3
  {
    Quote(RenderString(e.name)) + ":" + RenderItem(e.value)
  }

  function RenderEntries(es: seq<Entry>): string
    decreases HeftEntries(es), 4
  {
    if es == [] then ""
    else if |es| == 1 then RenderEntry(es[0])
    else RenderEntry(es[0]) + "," + RenderEntries(es[1..])
  }

  /** An attribute of an object.  The test for quotes looks at the object, not at the attribute, so a
      string attribute is printed bare. */
  function RenderAttribute(e: Entry): string
    decreases |e.name| + 1 + Heft(e.value), 3
  {
    Quote(e.name) + ":" + Render(e.value)
  }

  function RenderAttributes(es: seq<Entry>): string
    decreases HeftEntries(es), 4
  {
    if es == [] then ""
    else if |es| == 1 then RenderAttribute(es[0])
    else RenderAttribute(es[0]) + "," + RenderAttributes(es[1..])
  }
}
