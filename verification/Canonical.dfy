/** The canonical bytes the host compares (sections 3.2.2 and 3.2.3 of RFC 8785), as text.

    A string is a sequence of Unicode scalar values, and an object keeps its members in the order they were read. */
module Canonical {
  import opened Doubles

  /** A number that was read as an integer; a float with a whole value; or any other finite float, which its
      canonical text names, since different floats have different texts and each text reads back as its float. */
  datatype Numeral = Integer(value: int) | Float(value: int) | Fraction(digits: string)

  datatype Json =
    | Null
    | Bool(value: bool)
    | Number(numeral: Numeral)
    | Text(text: string)
    | Array(items: seq<Json>)
    | Object(members: seq<Member>)

  datatype Member = Member(key: string, value: Json)

  const MAX_SAFE: int := 0x1F_FFFF_FFFF_FFFF

  predicate DistinctKeys(ms: seq<Member>) {
    forall i, j :: 0 <= i < j < |ms| ==> ms[i].key != ms[j].key
  }

  function Abs(n: int): nat { if n < 0 then -n else n }

  predicate IsDigit(c: char) { '0' <= c <= '9' }

  predicate NumberChar(c: char) { IsDigit(c) || c in {'-', '+', '.', 'e'} }

  /** The text of a float that is not whole: a decimal point, or a negative exponent. */
  predicate FractionText(t: string) {
    t != "" && (forall i :: 0 <= i < |t| ==> NumberChar(t[i])) && '+' !in t && ('.' in t || 'e' in t)
  }

  predicate AdmittedNumeral(n: Numeral) {
    match n
    case Integer(v) => -MAX_SAFE <= v <= MAX_SAFE
    case Float(v) => IsDouble(Abs(v))
    case Fraction(digits) => FractionText(digits)
  }

  /** What the host admits: no duplicate key, and no integer of more than 53 bits that was read as one. */
  predicate Admitted(j: Json) {
    match j
    case Number(n) => AdmittedNumeral(n)
    case Array(items) => forall i :: 0 <= i < |items| ==> Admitted(items[i])
    case Object(members) => DistinctKeys(members) && forall i :: 0 <= i < |members| ==> Admitted(members[i].value)
    case _ => true
  }

  // ---- Numbers ----

  function Digit(d: nat): char
    requires d < 10
  {
    "0123456789"[d]
  }

  function Digits(n: nat): (s: string)
    ensures s != ""
  {
    if n < 10 then [Digit(n)] else Digits(n / 10) + [Digit(n % 10)]
  }

  function Signed(n: int, magnitude: string): string {
    if n < 0 then "-" + magnitude else magnitude
  }

  /** Without the zeros it ends in. */
  function Stripped(s: string): string {
    if s != "" && s[|s| - 1] == '0' then Stripped(s[..|s| - 1]) else s
  }

  function Exponential(s: nat): string {
    var digits := Digits(s);
    var rest := Stripped(digits[1..]);
    [digits[0]] + (if rest == "" then "" else "." + rest) + "e+" + Digits(|digits| - 1)
  }

  /** A whole float below 10^21 is written out, a larger one with an exponent. */
  function Magnitude(s: nat): string {
    if s < EXPONENT_FROM then Digits(s) else Exponential(s)
  }

  function NumberText(n: Numeral): string {
    match n
    case Integer(v) => Signed(v, Digits(Abs(v)))
    case Float(v) => Signed(v, Magnitude(Spelled(Abs(v))))
    case Fraction(digits) => digits
  }

  // ---- Strings ----

  function Hex(d: nat): char
    requires d < 16
  {
    "0123456789abcdef"[d]
  }

  function Escape(c: char): string {
    match c
    case '\"' => "\\\""
    case '\\' => "\\\\"
    case '\U{08}' => "\\b"
    case '\t' => "\\t"
    case '\n' => "\\n"
    case '\U{0C}' => "\\f"
    case '\r' => "\\r"
    case _ => if c < ' ' then "\\u00" + [Hex(c as int / 16), Hex(c as int % 16)] else [c]
  }

  function Escaped(s: string): string {
    if s == "" then "" else Escape(s[0]) + Escaped(s[1..])
  }

  function Quoted(s: string): string { "\"" + Escaped(s) + "\"" }

  // ---- Member order: by UTF-16 code units ----

  function Units(c: char): seq<nat> {
    var n := c as int;
    if n < 0x1_0000 then [n] else [0xD800 + (n - 0x1_0000) / 0x400, 0xDC00 + (n - 0x1_0000) % 0x400]
  }

  function Utf16(s: string): seq<nat> {
    if s == "" then [] else Units(s[0]) + Utf16(s[1..])
  }

  predicate Before(a: seq<nat>, b: seq<nat>) {
    b != [] && (a == [] || a[0] < b[0] || (a[0] == b[0] && Before(a[1..], b[1..])))
  }

  predicate KeyBefore(a: string, b: string) { Before(Utf16(a), Utf16(b)) }

  // ---- Values ----

  datatype Pair = Pair(key: string, printed: string)

  function Insert(p: Pair, ps: seq<Pair>): seq<Pair> {
    if ps == [] || KeyBefore(p.key, ps[0].key) then [p] + ps else [ps[0]] + Insert(p, ps[1..])
  }

  function Sorted(ps: seq<Pair>): seq<Pair> {
    if ps == [] then [] else Insert(ps[0], Sorted(ps[1..]))
  }

  function JoinItems(ss: seq<string>): string {
    if ss == [] then "" else if |ss| == 1 then ss[0] else ss[0] + "," + JoinItems(ss[1..])
  }

  function PairText(p: Pair): string { Quoted(p.key) + ":" + p.printed }

  function PairTexts(ps: seq<Pair>): seq<string> {
    seq(|ps|, i requires 0 <= i < |ps| => PairText(ps[i]))
  }

  function Canon(j: Json): string {
    match j
    case Null => "null"
    case Bool(b) => if b then "true" else "false"
    case Number(n) => NumberText(n)
    case Text(s) => Quoted(s)
    case Array(items) => "[" + JoinItems(Printed(j)) + "]"
    case Object(members) => "{" + JoinItems(PairTexts(Sorted(Pairs(j)))) + "}"
  }

  function Printed(j: Json): seq<string>
    requires j.Array?
    decreases j, 0
  {
    seq(|j.items|, i requires 0 <= i < |j.items| => Canon(j.items[i]))
  }

  function Pairs(j: Json): seq<Pair>
    requires j.Object?
    decreases j, 0
  {
    seq(|j.members|, i requires 0 <= i < |j.members| => Pair(j.members[i].key, Canon(j.members[i].value)))
  }
}
