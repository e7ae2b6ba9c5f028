/** A reader of JSON text, and what it makes of canonical bytes: the value that was written, as the worker and a reload
    find it, with its members in the order of their keys. */
module CanonicalReader {
  import opened Basics
  import opened Canonical
  import opened CanonicalText
  import opened CanonicalEqual
  import opened Doubles

  // ---- Numbers ----

  function DigitValue(c: char): nat {
    if '0' <= c <= '9' then c as int - '0' as int else 0
  }

  /** What a string of decimal digits is worth. */
  function Worth(s: string): nat {
    if s == "" then 0 else 10 * Worth(s[..|s| - 1]) + DigitValue(s[|s| - 1])
  }

  function Scaled(n: nat, k: nat): nat { if k == 0 then n else 10 * Scaled(n, k - 1) }

  function IndexOfE(t: string): (k: nat)
    ensures k <= |t| && (forall i :: 0 <= i < k ==> t[i] != 'e') && (k < |t| ==> t[k] == 'e')
  {
    if t == "" || t[0] == 'e' then 0 else 1 + IndexOfE(t[1..])
  }

  /** A significand without its point, and the power of ten it is scaled by. */
  function ReadExponential(t: string): nat {
    var k := IndexOfE(t);
    var digits := if k > 1 && t[1] == '.' then [t[0]] + t[2..k] else t[..k];
    var exponent := if k + 2 <= |t| then Worth(t[k + 2..]) else 0;
    Scaled(Worth(digits), if exponent + 1 >= |digits| then exponent + 1 - |digits| else 0)
  }

  function ReadMagnitude(t: string, negative: bool): Numeral {
    if '+' in t then Float(if negative then 0 - Nearest(ReadExponential(t)) else Nearest(ReadExponential(t)))
    else Integer(if negative then 0 - Worth(t) else Worth(t))
  }

  /** An integer without point or exponent is an integer; any other number is the float nearest to it. */
  function ReadNumeral(t: string): Numeral {
    if '+' !in t && ('.' in t || 'e' in t) then Fraction(t)
    else if t != "" && t[0] == '-' then ReadMagnitude(t[1..], true)
    else ReadMagnitude(t, false)
  }

  lemma {:induction false} DigitsWorth(n: nat)
    ensures Worth(Digits(n)) == n
  {
    var s := Digits(n);
    assert DigitValue(Digit(n % 10)) == n % 10;
    if n >= 10 {
      DigitsWorth(n / 10);
      assert s[..|s| - 1] == Digits(n / 10) && s[|s| - 1] == Digit(n % 10);
    } else {
      assert s == [Digit(n)] && s[..0] == "";
    }
  }

  lemma {:induction false} StrippedWorth(a: string, u: string)
    ensures |Stripped(u)| <= |u|
    ensures Scaled(Worth(a + Stripped(u)), |u| - |Stripped(u)|) == Worth(a + u)
  {
    if u != "" && u[|u| - 1] == '0' {
      var v := u[..|u| - 1];
      StrippedWorth(a, v);
      assert (a + u)[..|a + u| - 1] == a + v && (a + u)[|a + u| - 1] == '0';
    }
  }

  lemma IndexIs(g: string, x: string)
    requires 'e' !in g
    ensures var t := g + "e+" + x; IndexOfE(t) == |g| && t[..|g|] == g && t[|g| + 2..] == x
  {
    var t := g + "e+" + x;
    assert t[|g|] == 'e';
    assert forall i :: 0 <= i < |g| ==> t[i] == g[i] && g[i] in g;
  }

  /** The parts that the reader finds of a number written with an exponent. */
  lemma ExponentialParts(s: nat)
    ensures var t, k := Exponential(s), IndexOfE(Exponential(s));
            && k == |Significand(s)| && k + 2 <= |t| && t[..k] == Significand(s) && Worth(t[k + 2..]) == |Digits(s)| - 1
  {
    SignificandShape(s);
    DigitsShape(s);
    hide *;
    IndexIs(Significand(s), Digits(|Digits(s)| - 1));
    DigitsWorth(|Digits(s)| - 1);
  }

  lemma ReadExponentialIs(t: string, k: nat, digits: string, e: nat)
    requires k == IndexOfE(t) && k + 2 <= |t| && Worth(t[k + 2..]) == e && e + 1 >= |digits|
    requires digits == if k > 1 && t[1] == '.' then [t[0]] + t[2..k] else t[..k]
    ensures ReadExponential(t) == Scaled(Worth(digits), e + 1 - |digits|)
  {
    hide Worth, Scaled, IndexOfE;
  }

  lemma ExponentialRead(s: nat)
    ensures ReadExponential(Exponential(s)) == s
  {
    hide *;
    ExponentialParts(s);
    DigitsShape(s);
    DigitsWorth(s);
    var d, t, k := Digits(s), Exponential(s), IndexOfE(Exponential(s));
    SignificandDigits(s, t, k);
    StrippedWorth([d[0]], d[1..]);
    assert [d[0]] + d[1..] == d;
    ReadExponentialIs(t, k, [d[0]] + Stripped(d[1..]), |d| - 1);
  }

  lemma SignificandDigits(s: nat, t: string, k: nat)
    requires t == Exponential(s) && k == |Significand(s)| && k <= |t| && t[..k] == Significand(s)
    ensures (if k > 1 && t[1] == '.' then [t[0]] + t[2..k] else t[..k]) == [Digits(s)[0]] + Stripped(Digits(s)[1..])
  {
    var g, rest := Significand(s), Stripped(Digits(s)[1..]);
    hide Digits, Stripped, Exponential;
    assert forall i :: 0 <= i < k ==> t[i] == t[..k][i] == g[i];
    if rest != "" {
      assert g == [Digits(s)[0]] + "." + rest;
      assert t[2..k] == g[2..] == rest;
    }
  }

  lemma MagnitudeRead(s: nat, negative: bool)
    ensures ReadMagnitude(Magnitude(s), negative) ==
            var n: int := if s < EXPONENT_FROM then s else Nearest(s);
            var v: int := if negative then 0 - n else n;
            if s < EXPONENT_FROM then Integer(v) else Float(v)
  {
    MagnitudeShape(s);
    if s < EXPONENT_FROM { DigitsWorth(s); } else { ExponentialRead(s); }
    hide Nearest, Digits, Exponential;
  }

  lemma WholeRead(v: int, m: string)
    requires m != "" && IsDigit(m[0]) && ('+' in m || ('.' !in m && 'e' !in m))
    ensures ReadNumeral(Signed(v, m)) == ReadMagnitude(m, v < 0)
  {
    var t := Signed(v, m);
    if v < 0 {
      assert t == ['-'] + m && t[1..] == m;
      assert forall c :: c in t <==> c == '-' || c in m;
    }
  }

  /** The reader takes a number's text for the number that comes back from it. */
  lemma NumberRead(n: Numeral)
    requires AdmittedNumeral(n)
    ensures ReadNumeral(NumberText(n)) == RereadNumeral(n)
  {
    if !n.Fraction? {
      WholeText(n);
      var s := Shown(n);
      MagnitudeShape(s);
      MagnitudeRead(s, n.value < 0);
      if n.Integer? { assert s < EXPONENT_FROM; }
      hide Magnitude, Nearest, Spelled, ReadMagnitude, NumberText;
      WholeRead(n.value, Magnitude(s));
    }
  }

  // ---- Strings ----

  function HexValue(c: char): Option<nat> {
    if '0' <= c <= '9' then Some(c as int - '0' as int)
    else if 'a' <= c <= 'f' then Some(c as int - 'a' as int + 10)
    else None
  }

  /** The character of four hexadecimal digits, if it is one on its own. */
  function ReadHex(s: string): Option<char>
    requires |s| == 4
  {
    var a, b, c, d := HexValue(s[0]), HexValue(s[1]), HexValue(s[2]), HexValue(s[3]);
    if a.None? || b.None? || c.None? || d.None? then None
    else
      var n := 4096 * a.value + 256 * b.value + 16 * c.value + d.value;
      if n < 0xD800 || 0xE000 <= n < 0x1_0000 then Some(n as char) else None
  }

  function ReadShort(c: char): Option<char> {
    match c
    case '\"' => Some('\"')
    case '\\' => Some('\\')
    case 'b' => Some('\U{08}')
    case 't' => Some('\t')
    case 'n' => Some('\n')
    case 'f' => Some('\U{0C}')
    case 'r' => Some('\r')
    case _ => None
  }

  /** One character of a string, and what follows it. */
  function ReadChar(s: string): (r: Option<(char, string)>)
    requires s != "" && s[0] != '\"'
    ensures r.Some? ==> |r.value.1| < |s|
  {
    if s[0] != '\\' then Some((s[0], s[1..]))
    else if |s| >= 6 && s[1] == 'u' then
      var c := ReadHex(s[2..6]);
      if c.None? then None else Some((c.value, s[6..]))
    else if |s| >= 2 then
      var c := ReadShort(s[1]);
      if c.None? then None else Some((c.value, s[2..]))
    else None
  }

  /** A string up to its closing quote. */
  function ReadText(s: string): (r: Option<(string, string)>)
    ensures r.Some? ==> |r.value.1| < |s|
    decreases |s|
  {
    if s == "" then None
    else if s[0] == '\"' then Some(("", s[1..]))
    else
      var c := ReadChar(s);
      if c.None? then None
      else
        var rest := ReadText(c.value.1);
        if rest.None? then None else Some(([c.value.0] + rest.value.0, rest.value.1))
  }

  lemma HexRead(d: nat)
    requires d < 16
    ensures HexValue(Hex(d)) == Some(d)
  {
  }

  lemma CharRead(c: char, u: string)
    ensures (Escape(c) + u) != "" && (Escape(c) + u)[0] != '\"'
    ensures ReadChar(Escape(c) + u) == Some((c, u))
  {
    EscapeShape(c);
    var s := Escape(c) + u;
    if Plain(c) {
      assert s[1..] == u;
    } else if Short(c) {
      assert s[2..] == u && s[1] == Escape(c)[1] && ReadShort(s[1]) == Some(c);
    } else {
      HexRead(c as int / 16);
      HexRead(c as int % 16);
      assert s[6..] == u && s[2..6] == ['0', '0', Hex(c as int / 16), Hex(c as int % 16)];
      assert c as int == 16 * (c as int / 16) + c as int % 16;
    }
  }

  lemma {:induction false} TextRead(s: string, x: string)
    ensures ReadText(Escaped(s) + "\"" + x) == Some((s, x))
  {
    hide Escape;
    if s == "" {
      assert Escaped(s) + "\"" + x == "\"" + x;
    } else {
      var u := Escaped(s[1..]) + "\"" + x;
      CharRead(s[0], u);
      assert Escaped(s) + "\"" + x == Escape(s[0]) + u;
      TextRead(s[1..], x);
      assert [s[0]] + s[1..] == s;
    }
  }

  // ---- Values ----

  function NumberLength(s: string): (n: nat)
    ensures n <= |s|
  {
    if s != "" && NumberChar(s[0]) then 1 + NumberLength(s[1..]) else 0
  }

  predicate Starts(s: string, word: string) { |s| >= |word| && s[..|word|] == word }

  function ReadValue(s: string): (r: Option<(Json, string)>)
    ensures r.Some? ==> |r.value.1| < |s|
    decreases |s|, 1
  {
    if s == "" then None
    else if Starts(s, "null") then Some((Null, s[4..]))
    else if Starts(s, "true") then Some((Bool(true), s[4..]))
    else if Starts(s, "false") then Some((Bool(false), s[5..]))
    else if s[0] == '\"' then
      var t := ReadText(s[1..]);
      if t.None? then None else Some((Text(t.value.0), t.value.1))
    else if s[0] == '[' then
      if |s| > 1 && s[1] == ']' then Some((Array([]), s[2..]))
      else
        var items := ReadItems(s[1..]);
        if items.None? then None else Some((Array(items.value.0), items.value.1))
    else if s[0] == '{' then
      if |s| > 1 && s[1] == '}' then Some((Object([]), s[2..]))
      else
        var members := ReadMembers(s[1..]);
        if members.None? then None else Some((Object(members.value.0), members.value.1))
    else
      var n := NumberLength(s);
      if n == 0 then None else Some((Number(ReadNumeral(s[..n])), s[n..]))
  }

  function ReadItems(s: string): (r: Option<(seq<Json>, string)>)
    ensures r.Some? ==> |r.value.1| < |s|
    decreases |s|, 2
  {
    var v := ReadValue(s);
    if v.None? || v.value.1 == "" then None
    else if v.value.1[0] == ']' then Some(([v.value.0], v.value.1[1..]))
    else if v.value.1[0] != ',' then None
    else
      var more := ReadItems(v.value.1[1..]);
      if more.None? then None else Some(([v.value.0] + more.value.0, more.value.1))
  }

  function ReadMember(s: string): (r: Option<(Member, string)>)
    ensures r.Some? ==> |r.value.1| < |s|
    decreases |s|, 2
  {
    if s == "" || s[0] != '\"' then None
    else
      var key := ReadText(s[1..]);
      if key.None? || key.value.1 == "" || key.value.1[0] != ':' then None
      else
        var v := ReadValue(key.value.1[1..]);
        if v.None? then None else Some((Member(key.value.0, v.value.0), v.value.1))
  }

  function ReadMembers(s: string): (r: Option<(seq<Member>, string)>)
    ensures r.Some? ==> |r.value.1| < |s|
    decreases |s|, 3
  {
    var m := ReadMember(s);
    if m.None? || m.value.1 == "" then None
    else if m.value.1[0] == '}' then Some(([m.value.0], m.value.1[1..]))
    else if m.value.1[0] != ',' then None
    else
      var more := ReadMembers(m.value.1[1..]);
      if more.None? then None else Some(([m.value.0] + more.value.0, more.value.1))
  }

  // ---- Canonical bytes, read ----

  /** The value that comes back: numbers as they are reread, and members in the order of their keys. */
  function Arranged(j: Json): Json
    decreases j
  {
    match j
    case Number(n) => Number(RereadNumeral(n))
    case Array(items) => Array(seq(|items|, i requires 0 <= i < |items| => Arranged(items[i])))
    case Object(members) => Object(ArrangedMembers(j))
    case _ => j
  }

  function ArrangedMembers(j: Json): (ms: seq<Member>)
    requires j.Object?
    ensures |ms| == |Sorted(Pairs(j))|
    decreases j, 0
  {
    var ps := Sorted(Pairs(j));
    seq(|ps|, i requires 0 <= i < |ps| =>
      Member(ps[i].key, if ps[i].key in Keys(j.members) then Arranged(j.members[IndexOf(j.members, ps[i].key)].value) else Null))
  }

  /** Before anything that can follow a value, the text is read as this one, and the rest is left. */
  ghost predicate Reads(t: string, r: Json) {
    forall x: string :: Ends(x) ==> ReadValue(t + x) == Some((r, x))
  }

  lemma {:induction false} NumberCut(t: string, x: string)
    requires (forall i :: 0 <= i < |t| ==> NumberChar(t[i])) && Ends(x)
    ensures NumberLength(t + x) == |t|
  {
    if t == "" {
      assert t + x == x;
    } else {
      assert (t + x)[1..] == t[1..] + x;
      NumberCut(t[1..], x);
    }
  }

  lemma NumberValue(t: string, x: string)
    requires t != "" && (forall i :: 0 <= i < |t| ==> NumberChar(t[i])) && Ends(x)
    ensures ReadValue(t + x) == Some((Number(ReadNumeral(t)), x))
  {
    NumberCut(t, x);
    var s := t + x;
    assert s[0] == t[0] && NumberChar(s[0]) && s[..|t|] == t && s[|t|..] == x;
    hide ReadNumeral, NumberLength;
    WordStarts(s);
  }

  lemma NumberReads(n: Numeral, x: string)
    requires AdmittedNumeral(n) && Ends(x)
    ensures ReadValue(NumberText(n) + x) == Some((Number(RereadNumeral(n)), x))
  {
    NumberShape(n);
    NumberRead(n);
    hide *;
    NumberValue(NumberText(n), x);
  }

  /** What starts with a number's character starts no word. */
  lemma WordStarts(s: string)
    requires s != "" && s[0] !in {'n', 't', 'f'}
    ensures !Starts(s, "null") && !Starts(s, "true") && !Starts(s, "false")
  {
    assert |s| >= 4 ==> s[..4][0] == s[0];
    assert |s| >= 5 ==> s[..5][0] == s[0];
  }

  lemma WordReads(word: string, x: string)
    requires word in {"null", "true", "false"}
    ensures ReadValue(word + x) == Some((if word == "null" then Null else Bool(word == "true"), x))
  {
    var s := word + x;
    assert s[..|word|] == word && s[|word|..] == x;
    assert word != "null" ==> !Starts(s, "null") by { if word != "null" { assert s[0] == word[0]; assert |s| >= 4 ==> s[..4][0] == s[0]; } }
    assert word == "false" ==> !Starts(s, "true") by { if word == "false" { assert s[0] == 'f'; assert |s| >= 4 ==> s[..4][0] == s[0]; } }
  }

  lemma TextReads(t: string, x: string)
    ensures ReadValue(Quoted(t) + x) == Some((Text(t), x))
  {
    var s := Quoted(t) + x;
    assert s[1..] == Escaped(t) + "\"" + x;
    TextRead(t, x);
    WordStarts(s);
  }

  ghost predicate AllRead(ss: seq<string>, rs: seq<Json>) {
    |rs| == |ss| && forall i :: 0 <= i < |ss| ==> Reads(ss[i], rs[i])
  }

  lemma RestRead(ss: seq<string>, rs: seq<Json>)
    requires AllRead(ss, rs) && ss != []
    ensures Reads(ss[0], rs[0]) && AllRead(ss[1..], rs[1..]) && rs == [rs[0]] + rs[1..]
  {
    hide Reads;
  }

  lemma ReadsBefore(t: string, r: Json, x: string)
    requires Reads(t, r) && Ends(x)
    ensures ReadValue(t + x) == Some((r, x))
  {
    hide ReadValue;
  }

  /** The first of several items, with what follows it. */
  lemma FirstItem(ss: seq<string>, x: string) returns (rest: string)
    requires ss != []
    ensures JoinItems(ss) + "]" + x == ss[0] + rest && rest != "" && Ends(rest)
    ensures if |ss| == 1 then rest == "]" + x else rest[0] == ',' && rest[1..] == JoinItems(ss[1..]) + "]" + x
  {
    var y := "]" + x;
    hide JoinItems;
    assert JoinItems(ss) + "]" + x == JoinItems(ss) + y;
    JoinSplits(ss, y);
    rest := After(ss, y);
    if |ss| > 1 {
      AfterRest(ss, y);
      assert JoinItems(ss[1..]) + y == JoinItems(ss[1..]) + "]" + x;
    }
  }

  lemma {:induction false} ItemsRead(ss: seq<string>, rs: seq<Json>, x: string)
    requires ss != [] && AllRead(ss, rs)
    ensures ReadItems(JoinItems(ss) + "]" + x) == Some((rs, x))
    decreases |ss|
  {
    hide *;
    var rest := FirstItem(ss, x);
    RestRead(ss, rs);
    ReadsBefore(ss[0], rs[0], rest);
    if |ss| == 1 {
      ItemEnds(ss[0] + rest, rs[0], rest);
      SameCount(ss, rs);
      assert rest[1..] == x;
      assert rs == [rs[0]];
    } else {
      ItemsRead(ss[1..], rs[1..], x);
      ItemFollowed(ss[0] + rest, rs[0], rest, rs[1..], x);
    }
  }

  lemma SameCount(ss: seq<string>, rs: seq<Json>)
    requires AllRead(ss, rs)
    ensures |rs| == |ss|
  {
  }

  lemma ItemEnds(s: string, v: Json, rest: string)
    requires ReadValue(s) == Some((v, rest)) && rest != "" && rest[0] == ']'
    ensures ReadItems(s) == Some(([v], rest[1..]))
  {
    hide ReadValue;
  }

  lemma ItemFollowed(s: string, v: Json, rest: string, more: seq<Json>, x: string)
    requires ReadValue(s) == Some((v, rest)) && rest != "" && rest[0] == ',' && ReadItems(rest[1..]) == Some((more, x))
    ensures ReadItems(s) == Some(([v] + more, x))
  {
    hide ReadValue;
  }

  lemma MemberReads(p: Pair, r: Json, x: string)
    requires Reads(p.printed, r) && Ends(x)
    ensures ReadMember(PairText(p) + x) == Some((Member(p.key, r), x))
  {
    var y := ":" + p.printed + x;
    PairSplits(p, x);
    TextRead(p.key, y);
    assert ReadValue(p.printed + x) == Some((r, x));
    hide ReadValue, ReadText, Reads, PairText, Escaped;
  }

  lemma PairSplits(p: Pair, x: string)
    ensures var s, y := PairText(p) + x, ":" + p.printed + x;
            && s != "" && s[0] == '\"' && s[1..] == Escaped(p.key) + "\"" + y
            && y != "" && y[0] == ':' && y[1..] == p.printed + x
  {
    hide Escaped;
  }

  /** The first of several members, with what follows it. */
  lemma FirstMember(ps: seq<Pair>, x: string) returns (rest: string)
    requires ps != []
    ensures JoinItems(PairTexts(ps)) + "}" + x == PairText(ps[0]) + rest && rest != "" && Ends(rest)
    ensures if |ps| == 1 then rest == "}" + x else rest[0] == ',' && rest[1..] == JoinItems(PairTexts(ps[1..])) + "}" + x
  {
    var ss, y := PairTexts(ps), "}" + x;
    hide PairText, JoinItems;
    assert JoinItems(ss) + "}" + x == JoinItems(ss) + y;
    JoinSplits(ss, y);
    rest := After(ss, y);
    assert ss[1..] == PairTexts(ps[1..]);
    if |ps| > 1 {
      AfterRest(ss, y);
      assert JoinItems(ss[1..]) + y == JoinItems(ss[1..]) + "}" + x;
    }
  }

  ghost predicate PairsMatch(ps: seq<Pair>, ms: seq<Member>) {
    |ms| == |ps| && forall i :: 0 <= i < |ps| ==> ms[i].key == ps[i].key && Reads(ps[i].printed, ms[i].value)
  }

  lemma {:induction false} MembersRead(ps: seq<Pair>, ms: seq<Member>, x: string)
    requires ps != [] && PairsMatch(ps, ms)
    ensures ReadMembers(JoinItems(PairTexts(ps)) + "}" + x) == Some((ms, x))
    decreases |ps|
  {
    hide ReadMember, Reads, PairText, JoinItems, PairTexts;
    var rest := FirstMember(ps, x);
    MemberReads(ps[0], ms[0].value, rest);
    assert ms[0] == Member(ps[0].key, ms[0].value);
    if |ps| == 1 {
      assert rest[1..] == x && ms == [ms[0]];
    } else {
      MembersRead(ps[1..], ms[1..], x);
      assert ms == [ms[0]] + ms[1..];
    }
  }

  lemma ItemsOpen(j: Json)
    requires j.Array? && j.items != [] && Admitted(j)
    ensures JoinItems(Printed(j)) != "" && JoinItems(Printed(j))[0] != ']'
  {
    CanonOpens(j.items[0]);
    JoinStarts(Printed(j), "");
    assert JoinItems(Printed(j)) + "" == JoinItems(Printed(j));
  }

  /** Reading canonical bytes gives the value back: as it is reread, with its members in the order of their keys. */
  lemma {:induction false} CanonRead(j: Json, x: string)
    requires Admitted(j) && Ends(x)
    ensures ReadValue(Canon(j) + x) == Some((Arranged(j), x))
    decreases j, 2
  {
    match j {
      case Null => WordReads("null", x);
      case Bool(b) => WordReads(if b then "true" else "false", x);
      case Number(n) => NumberReads(n, x);
      case Text(t) => TextReads(t, x);
      case Array(items) => ArrayRead(j, x);
      case Object(members) => ObjectRead(j, x);
    }
  }

  lemma {:induction false} CanonReads(j: Json)
    requires Admitted(j)
    ensures Reads(Canon(j), Arranged(j))
    decreases j, 3
  {
    forall x: string | Ends(x) ensures ReadValue(Canon(j) + x) == Some((Arranged(j), x)) { CanonRead(j, x); }
  }

  lemma {:induction false} ArrayRead(j: Json, x: string)
    requires j.Array? && Admitted(j) && Ends(x)
    ensures ReadValue(Canon(j) + x) == Some((Arranged(j), x))
    decreases j, 0
  {
    var inside := JoinItems(Printed(j));
    var s := Canon(j) + x;
    assert s == "[" + (inside + "]" + x) && s[0] == '[' && s[1..] == inside + "]" + x;
    WordStarts(s);
    if j.items == [] {
      assert Printed(j) == [] && inside == "" && s[2..] == x && s[1] == ']';
      assert Arranged(j) == Array([]);
    } else {
      ItemsOpen(j);
      forall i | 0 <= i < |j.items| ensures Reads(Printed(j)[i], Arranged(j).items[i]) { CanonReads(j.items[i]); }
      assert AllRead(Printed(j), Arranged(j).items);
      assert s[1] == inside[0];
      hide Canon, Printed, JoinItems, ReadItems, Reads, AllRead;
      ItemsRead(Printed(j), Arranged(j).items, x);
      assert Arranged(j) == Array(Arranged(j).items);
    }
    hide ReadItems, Canon, Printed, JoinItems;
  }

  /** Each pair of an object's text is read as the member it was written from. */
  lemma {:induction false} PairsRead(j: Json)
    requires j.Object? && Admitted(j)
    ensures PairsMatch(Sorted(Pairs(j)), ArrangedMembers(j))
    decreases j, 0
  {
    var ps, ms := Sorted(Pairs(j)), ArrangedMembers(j);
    forall i | 0 <= i < |ps| ensures ms[i].key == ps[i].key && Reads(ps[i].printed, ms[i].value) {
      SortedMembers(Pairs(j), ps[i]);
      var k := PairSource(j, ps[i]);
      assert IndexOf(j.members, ps[i].key) == k;
      hide Reads, Canon, Sorted;
      CanonReads(j.members[k].value);
    }
  }

  lemma ObjectOf(inside: string, ms: seq<Member>, x: string)
    requires inside != "" && inside[0] == '\"' && ReadMembers(inside + "}" + x) == Some((ms, x))
    ensures ReadValue("{" + inside + "}" + x) == Some((Object(ms), x))
  {
    var s := "{" + inside + "}" + x;
    assert s[1..] == inside + "}" + x && s[1] == inside[0];
    WordStarts(s);
    hide ReadMembers;
  }

  lemma EmptyObject(x: string)
    ensures ReadValue("{}" + x) == Some((Object([]), x))
  {
    var s := "{}" + x;
    assert s[2..] == x && s[1] == '}';
    WordStarts(s);
  }

  lemma {:induction false} ObjectRead(j: Json, x: string)
    requires j.Object? && Admitted(j) && Ends(x)
    ensures ReadValue(Canon(j) + x) == Some((Arranged(j), x))
    decreases j, 1
  {
    var ps, ms := Sorted(Pairs(j)), ArrangedMembers(j);
    var inside := JoinItems(PairTexts(ps));
    PairsRead(j);
    assert Canon(j) + x == "{" + inside + "}" + x;
    assert Arranged(j) == Object(ms);
    if ps == [] {
      EmptyText(ps);
      EmptyObject(x);
      assert "{" + inside + "}" + x == "{}" + x;
    } else {
      MembersOpen(ps);
      hide *;
      MembersRead(ps, ms, x);
      ObjectOf(inside, ms, x);
    }
  }

  lemma EmptyText(ps: seq<Pair>)
    requires ps == []
    ensures JoinItems(PairTexts(ps)) == ""
  {
    assert PairTexts(ps) == [];
  }

  lemma MembersOpen(ps: seq<Pair>)
    requires ps != []
    ensures JoinItems(PairTexts(ps)) != "" && JoinItems(PairTexts(ps))[0] == '\"'
  {
    JoinSplits(PairTexts(ps), "");
    assert JoinItems(PairTexts(ps)) + "" == JoinItems(PairTexts(ps));
    assert PairTexts(ps)[0] == PairText(ps[0]);
  }

  // ---- Nothing but the order of members has changed, and that is the order of their keys ----

  predicate Reordered(a: Json, b: Json)
    decreases a
  {
    match (a, b)
    case (Array(x), Array(y)) => |x| == |y| && forall i :: 0 <= i < |x| ==> Reordered(x[i], y[i])
    case (Object(x), Object(y)) =>
      && |x| == |y| && Keys(x) == Keys(y)
      && forall i :: 0 <= i < |x| ==> Reordered(x[i].value, y[IndexOf(y, x[i].key)].value)
    case _ => a == b
  }

  lemma {:induction false} SortedLength(ps: seq<Pair>)
    ensures |Sorted(ps)| == |ps|
  {
    if ps != [] {
      SortedLength(ps[1..]);
      InsertLength(ps[0], Sorted(ps[1..]));
    }
  }

  lemma {:induction false} InsertLength(p: Pair, ps: seq<Pair>)
    ensures |Insert(p, ps)| == |ps| + 1
  {
    if ps != [] && !KeyBefore(p.key, ps[0].key) { InsertLength(p, ps[1..]); }
  }

  /** An arranged member is the value of its key. */
  lemma ArrangedAt(j: Json, k: nat)
    requires j.Object? && Admitted(j) && k < |ArrangedMembers(j)|
    ensures var m := ArrangedMembers(j)[k];
            m.key in Keys(j.members) && m.value == Arranged(j.members[IndexOf(j.members, m.key)].value)
  {
    var i := PairSource(j, Sorted(Pairs(j))[k]);
    assert j.members[i].key == ArrangedMembers(j)[k].key;
  }

  lemma ArrangedKeys(j: Json)
    requires j.Object? && Admitted(j)
    ensures |ArrangedMembers(j)| == |j.members| && Keys(ArrangedMembers(j)) == Keys(j.members)
  {
    SortedLength(Pairs(j));
    var ms := ArrangedMembers(j);
    forall k | 0 <= k < |ms| ensures ms[k].key in Keys(j.members) { ArrangedAt(j, k); }
    forall i | 0 <= i < |j.members| ensures j.members[i].key in Keys(ms) {
      var p := Pairs(j)[i];
      SortedMembers(Pairs(j), p);
      var k :| 0 <= k < |Sorted(Pairs(j))| && Sorted(Pairs(j))[k] == p;
      assert ms[k].key == j.members[i].key;
    }
  }

  /** What is read back is the value as it is reread, up to the order of members. */
  lemma {:induction false} ArrangedReorders(j: Json)
    requires Admitted(j)
    ensures Reordered(Reread(j), Arranged(j))
    decreases j
  {
    if j.Array? {
      forall i | 0 <= i < |j.items| ensures Reordered(Reread(j).items[i], Arranged(j).items[i]) { ArrangedReorders(j.items[i]); }
    } else if j.Object? {
      var x, y := Reread(j).members, ArrangedMembers(j);
      RereadKeys(j.members);
      ArrangedKeys(j);
      forall i | 0 <= i < |x| ensures Reordered(x[i].value, y[IndexOf(y, x[i].key)].value) {
        ArrangedAt(j, IndexOf(y, x[i].key));
        assert x[i].key == j.members[i].key && IndexOf(j.members, j.members[i].key) == i;
        ArrangedReorders(j.members[i].value);
      }
    }
  }

  /** The members come in strictly ascending order of their keys. */
  lemma ArrangedAscends(j: Json, i: nat, k: nat)
    requires j.Object? && Admitted(j) && i < k < |ArrangedMembers(j)|
    ensures KeyBefore(ArrangedMembers(j)[i].key, ArrangedMembers(j)[k].key)
  {
    PairsDistinct(j);
    SortedAscending(Pairs(j));
  }

  /** The order of keys: the first unit in which they differ decides, and a key comes before its continuations. */
  lemma {:induction false} BeforeIff(a: seq<nat>, b: seq<nat>)
    ensures Before(a, b) <==> exists n: nat :: Differs(a, b, n)
  {
    if b != [] && a != [] && a[0] == b[0] {
      BeforeIff(a[1..], b[1..]);
      if n: nat :| Differs(a[1..], b[1..], n) {
        forall i | 0 <= i < n + 1 ensures a[i] == b[i] { if i > 0 { assert a[1..][i - 1] == b[1..][i - 1]; } }
        assert Differs(a, b, n + 1);
      }
      if n: nat :| Differs(a, b, n) {
        forall i | 0 <= i < n - 1 ensures a[1..][i] == b[1..][i] { assert a[i + 1] == b[i + 1]; }
        assert Differs(a[1..], b[1..], n - 1);
      }
    } else if Before(a, b) {
      assert Differs(a, b, 0);
    }
  }

  /** The two agree before place `n`, where `a` ends or is smaller. */
  predicate Differs(a: seq<nat>, b: seq<nat>, n: nat) {
    && n <= |a| && n < |b|
    && (forall i :: 0 <= i < n ==> a[i] == b[i])
    && (n < |a| ==> a[n] < b[n])
  }

  /** A character's units: itself, or the pair of surrogates that stand for it. */
  lemma UnitsAre(c: char)
    ensures var u, n := Units(c), c as int;
            if n < 0x1_0000 then u == [n]
            else |u| == 2 && 0xD800 <= u[0] < 0xDC00 && 0xDC00 <= u[1] < 0xE000
                 && n == 0x1_0000 + 0x400 * (u[0] - 0xD800) + (u[1] - 0xDC00)
  {
  }
}
