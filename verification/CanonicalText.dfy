/** Canonical text is self-delimiting: of two values written before a separator, equal text means equal values. */
module CanonicalText {
  import opened Canonical
  import opened Doubles

  /** What can follow a value: nothing, a separator or a closing bracket. */
  predicate Ends(x: string) {
    x == "" || x[0] == ',' || x[0] == ']' || x[0] == '}'
  }

  /** A value's text starts with none of these. */
  predicate Opens(s: string) {
    s != "" && !Ends(s)
  }

  /** No two continuations make these texts look alike, unless they are the same text. */
  ghost predicate Apart(s: string, t: string) {
    forall x: string, y: string :: Ends(x) && Ends(y) && s + x == t + y ==> s == t
  }

  lemma Cut(s: string, x: string, t: string, y: string)
    requires s + x == t + y && |s| == |t|
    ensures s == t && x == y
  {
    assert s == (s + x)[..|s|] && t == (t + y)[..|t|];
    assert x == (s + x)[|s|..] && y == (t + y)[|t|..];
  }

  // ---- Numbers ----

  predicate AllDigits(s: string) { forall i :: 0 <= i < |s| ==> IsDigit(s[i]) }

  lemma {:induction false} DigitsShape(n: nat)
    ensures Digits(n) != "" && AllDigits(Digits(n))
  {
    if n >= 10 { DigitsShape(n / 10); }
  }

  lemma DigitInjective(a: nat, b: nat)
    requires a < 10 && b < 10 && Digit(a) == Digit(b)
    ensures a == b
  {
  }

  lemma {:induction false} DigitsInjective(a: nat, b: nat)
    requires Digits(a) == Digits(b)
    ensures a == b
  {
    DigitsShape(a / 10);
    DigitsShape(b / 10);
    var s, t := Digits(a), Digits(b);
    assert s[|s| - 1] == Digit(a % 10) && t[|t| - 1] == Digit(b % 10);
    DigitInjective(a % 10, b % 10);
    if a >= 10 && b >= 10 {
      assert Digits(a / 10) == s[..|s| - 1] && Digits(b / 10) == t[..|t| - 1];
      DigitsInjective(a / 10, b / 10);
    }
  }

  lemma {:induction false} StrippedPadded(s: string, t: string)
    requires |s| == |t| && Stripped(s) == Stripped(t)
    ensures s == t
  {
    if s != "" {
      var n := |s| - 1;
      StrippedShorter(s[..n]);
      StrippedShorter(t[..n]);
      assert s == s[..n] + [s[n]] && t == t[..n] + [t[n]];
      if s[n] == '0' && t[n] == '0' { StrippedPadded(s[..n], t[..n]); }
    }
  }

  lemma {:induction false} StrippedShorter(s: string)
    ensures |Stripped(s)| <= |s| && forall i :: 0 <= i < |Stripped(s)| ==> Stripped(s)[i] == s[i]
  {
    if s != "" { StrippedShorter(s[..|s| - 1]); }
  }

  /** The digits before the exponent. */
  function Significand(s: nat): string {
    var rest := Stripped(Digits(s)[1..]);
    [Digits(s)[0]] + (if rest == "" then "" else "." + rest)
  }

  lemma SignificandShape(s: nat)
    ensures 'e' !in Significand(s) && '+' !in Significand(s) && Exponential(s) == Significand(s) + "e+" + Digits(|Digits(s)| - 1)
    ensures forall i :: 0 <= i < |Significand(s)| ==> NumberChar(Significand(s)[i])
  {
    DigitsShape(s);
    StrippedShorter(Digits(s)[1..]);
  }

  /** Text before an `e` that holds none ends there. */
  lemma CutAtE(s: string, x: string, t: string, y: string)
    requires 'e' !in s && 'e' !in t && s + "e+" + x == t + "e+" + y
    ensures s == t && x == y
  {
    var u, v := s + "e+" + x, t + "e+" + y;
    assert u[|s|] == 'e' && v[|t|] == 'e';
    assert forall i :: 0 <= i < |s| ==> u[i] == s[i] && s[i] in s;
    assert forall i :: 0 <= i < |t| ==> v[i] == t[i] && t[i] in t;
    assert |s| == |t|;
    Cut(s, "e+" + x, t, "e+" + y) by { assert s + ("e+" + x) == u && t + ("e+" + y) == v; }
    assert ("e+" + x)[2..] == x && ("e+" + y)[2..] == y;
  }

  /** The significand gives back every digit but the zeros at the end. */
  lemma SignificandInjective(s: nat, t: nat)
    requires Significand(s) == Significand(t) && |Digits(s)| == |Digits(t)|
    ensures Digits(s) == Digits(t)
  {
    var a, b := Digits(s), Digits(t);
    hide Digits, Stripped;
    assert Significand(s)[0] == a[0] && Significand(t)[0] == b[0];
    var c, d := Stripped(a[1..]), Stripped(b[1..]);
    assert c != "" ==> Significand(s)[2..] == c;
    assert d != "" ==> Significand(t)[2..] == d;
    StrippedPadded(a[1..], b[1..]);
    assert a == [a[0]] + a[1..] && b == [b[0]] + b[1..];
  }

  lemma ExponentialInjective(s: nat, t: nat)
    requires Exponential(s) == Exponential(t)
    ensures s == t
  {
    SignificandShape(s);
    SignificandShape(t);
    hide Exponential, Significand, Digits;
    CutAtE(Significand(s), Digits(|Digits(s)| - 1), Significand(t), Digits(|Digits(t)| - 1));
    DigitsInjective(|Digits(s)| - 1, |Digits(t)| - 1);
    SignificandInjective(s, t);
    DigitsInjective(s, t);
  }

  /** Written out, a number has neither point nor exponent; with an exponent, it has a plus sign. */
  lemma MagnitudeShape(s: nat)
    ensures var m := Magnitude(s);
            && m != "" && IsDigit(m[0]) && (forall i :: 0 <= i < |m| ==> NumberChar(m[i]))
            && (if s < EXPONENT_FROM then '.' !in m && 'e' !in m && '+' !in m else '+' in m)
  {
    DigitsShape(s);
    if s >= EXPONENT_FROM {
      SignificandShape(s);
      DigitsShape(|Digits(s)| - 1);
      assert Exponential(s)[|Significand(s)| + 1] == '+';
    }
  }

  lemma MagnitudeInjective(s: nat, t: nat)
    requires Magnitude(s) == Magnitude(t)
    ensures s == t
  {
    MagnitudeShape(s);
    MagnitudeShape(t);
    if s < EXPONENT_FROM && t < EXPONENT_FROM {
      DigitsInjective(s, t);
    } else if s >= EXPONENT_FROM && t >= EXPONENT_FROM {
      ExponentialInjective(s, t);
    }
  }

  lemma SignedInjective(n: int, s: string, m: int, t: string)
    requires s != "" && t != "" && IsDigit(s[0]) && IsDigit(t[0]) && Signed(n, s) == Signed(m, t)
    ensures s == t && (n < 0 <==> m < 0)
  {
    assert n < 0 ==> Signed(n, s)[0] == '-' && Signed(n, s)[1..] == s;
    assert m < 0 ==> Signed(m, t)[0] == '-' && Signed(m, t)[1..] == t;
  }

  /** The integer that the text of a whole number spells. */
  function Shown(n: Numeral): nat
    requires !n.Fraction?
  {
    if n.Integer? then Abs(n.value) else Spelled(Abs(n.value))
  }

  lemma WholeText(n: Numeral)
    requires AdmittedNumeral(n) && !n.Fraction?
    ensures NumberText(n) == Signed(n.value, Magnitude(Shown(n)))
    ensures Nearest(Shown(n)) == Abs(n.value)
  {
    if n.Float? {
      SpelledReadsBack(Abs(n.value));
    } else {
      SmallIsDouble(Abs(n.value));
    }
  }

  lemma WholeTextShape(n: Numeral)
    requires AdmittedNumeral(n) && !n.Fraction?
    ensures var t := NumberText(n);
            && t != "" && (forall i :: 0 <= i < |t| ==> NumberChar(t[i]))
            && ('+' in t || ('.' !in t && 'e' !in t))
  {
    WholeText(n);
    MagnitudeShape(Shown(n));
    var m, t := Magnitude(Shown(n)), NumberText(n);
    if n.value < 0 { assert t == ['-'] + m; }
    if '+' in m { var i :| 0 <= i < |m| && m[i] == '+'; assert t[if n.value < 0 then i + 1 else i] == '+'; }
  }

  lemma NumberShape(n: Numeral)
    requires AdmittedNumeral(n)
    ensures NumberText(n) != "" && forall i :: 0 <= i < |NumberText(n)| ==> NumberChar(NumberText(n)[i])
  {
    if !n.Fraction? { WholeTextShape(n); }
  }

  /** What the worker's comparison makes of two numbers. */
  predicate SameNumber(a: Numeral, b: Numeral) {
    match (a, b)
    case (Fraction(x), Fraction(y)) => x == y
    case (Fraction(_), _) => false
    case (_, Fraction(_)) => false
    case _ => a.value == b.value
  }

  lemma WholesAgree(a: Numeral, b: Numeral)
    requires AdmittedNumeral(a) && AdmittedNumeral(b) && !a.Fraction? && !b.Fraction?
    ensures NumberText(a) == NumberText(b) <==> a.value == b.value
  {
    WholeText(a);
    WholeText(b);
    MagnitudeShape(Shown(a));
    MagnitudeShape(Shown(b));
    if a.Integer? { SpelledSmall(Abs(a.value)); }
    if b.Integer? { SpelledSmall(Abs(b.value)); }
    hide Magnitude, NumberText, Nearest, Spelled;
    if NumberText(a) == NumberText(b) {
      SignedInjective(a.value, Magnitude(Shown(a)), b.value, Magnitude(Shown(b)));
      MagnitudeInjective(Shown(a), Shown(b));
    }
  }

  /** Two numbers have the same canonical text exactly when they have the same value. */
  lemma NumberTextsAgree(a: Numeral, b: Numeral)
    requires AdmittedNumeral(a) && AdmittedNumeral(b)
    ensures NumberText(a) == NumberText(b) <==> SameNumber(a, b)
  {
    if !a.Fraction? && !b.Fraction? {
      WholesAgree(a, b);
    } else {
      if !a.Fraction? { WholeTextShape(a); }
      if !b.Fraction? { WholeTextShape(b); }
    }
  }

  lemma Overlap(s: string, x: string, t: string, y: string)
    requires s + x == t + y && |s| < |t|
    ensures x != "" && x[0] == t[|s|]
  {
    assert (s + x)[|s|] == t[|s|];
  }

  lemma NumbersApart(s: string, t: string)
    requires forall i :: 0 <= i < |s| ==> NumberChar(s[i])
    requires forall i :: 0 <= i < |t| ==> NumberChar(t[i])
    ensures Apart(s, t)
  {
    forall x: string, y: string | Ends(x) && Ends(y) && s + x == t + y ensures s == t {
      if |s| < |t| {
        Overlap(s, x, t, y);
      } else if |t| < |s| {
        Overlap(t, y, s, x);
      } else {
        Cut(s, x, t, y);
      }
    }
  }

  // ---- Strings ----

  predicate Plain(c: char) {
    c !in {'\"', '\\', '\U{08}', '\t', '\n', '\U{0C}', '\r'} && c >= ' '
  }

  predicate Short(c: char) { c in {'\"', '\\', '\U{08}', '\t', '\n', '\U{0C}', '\r'} }

  /** An escape is one character other than a quote or backslash, a backslash pair, or a backslash and `u00XX`. */
  lemma EscapeShape(c: char)
    ensures Plain(c) ==> Escape(c) == [c]
    ensures Short(c) ==> |Escape(c)| == 2 && Escape(c)[0] == '\\' && Escape(c)[1] != 'u'
    ensures !Plain(c) && !Short(c) ==>
              c < ' ' && Escape(c) == ['\\', 'u', '0', '0', Hex(c as int / 16), Hex(c as int % 16)]
  {
  }

  lemma ShortInjective(c: char, d: char)
    requires Short(c) && Short(d) && Escape(c)[1..] == Escape(d)[1..]
    ensures c == d
  {
    assert Escape(c)[1..][0] == Escape(c)[1] && Escape(d)[1..][0] == Escape(d)[1];
  }

  lemma HexInjective(a: nat, b: nat)
    requires a < 16 && b < 16 && Hex(a) == Hex(b)
    ensures a == b
  {
  }

  lemma EscapeUnique(c: char, u: string, d: char, v: string)
    requires Escape(c) + u == Escape(d) + v
    ensures c == d && u == v
  {
    EscapeShape(c);
    EscapeShape(d);
    var s, t := Escape(c) + u, Escape(d) + v;
    assert s[0] == t[0];
    if Plain(c) || Plain(d) {
    } else {
      assert s[1] == t[1];
      if Short(c) && Short(d) {
        Cut(Escape(c), u, Escape(d), v);
        ShortInjective(c, d);
      } else if !Short(c) && !Short(d) {
        Cut(Escape(c), u, Escape(d), v);
        assert Escape(c)[4] == Escape(d)[4] && Escape(c)[5] == Escape(d)[5];
        HexInjective(c as int / 16, d as int / 16);
        HexInjective(c as int % 16, d as int % 16);
        assert c as int == d as int;
      }
    }
    if Plain(c) && Plain(d) { Cut(Escape(c), u, Escape(d), v); }
    if c == d { Cut(Escape(c), u, Escape(d), v); }
  }

  lemma EscapeNotQuote(c: char, u: string)
    ensures Escape(c) != "" && (Escape(c) + u)[0] != '\"'
  {
    EscapeShape(c);
  }

  lemma EscapedSplits(s: string, x: string)
    requires s != ""
    ensures Escaped(s) + "\"" + x == Escape(s[0]) + (Escaped(s[1..]) + "\"" + x)
    ensures (Escaped(s) + "\"" + x)[0] != '\"'
  {
    EscapeNotQuote(s[0], Escaped(s[1..]) + "\"" + x);
  }

  lemma {:induction false} EscapedUnique(s: string, x: string, t: string, y: string)
    requires Escaped(s) + "\"" + x == Escaped(t) + "\"" + y
    ensures s == t && x == y
  {
    hide Escape;
    if s != "" { EscapedSplits(s, x); }
    if t != "" { EscapedSplits(t, y); }
    if s != "" && t != "" {
      EscapeUnique(s[0], Escaped(s[1..]) + "\"" + x, t[0], Escaped(t[1..]) + "\"" + y);
      EscapedUnique(s[1..], x, t[1..], y);
      assert s == [s[0]] + s[1..] && t == [t[0]] + t[1..];
    } else {
      assert (Escaped("") + "\"" + x)[0] == '\"' && (Escaped("") + "\"" + y)[0] == '\"';
      assert (Escaped("") + "\"" + x)[1..] == x && (Escaped("") + "\"" + y)[1..] == y;
    }
  }

  lemma QuotedUnique(s: string, x: string, t: string, y: string)
    requires Quoted(s) + x == Quoted(t) + y
    ensures s == t && x == y
  {
    assert (Quoted(s) + x)[1..] == Escaped(s) + "\"" + x;
    assert (Quoted(t) + y)[1..] == Escaped(t) + "\"" + y;
    EscapedUnique(s, x, t, y);
  }

  // ---- Lists ----

  ghost predicate AllApart(ss: seq<string>, tt: seq<string>) {
    && (forall i :: 0 <= i < |ss| ==> Opens(ss[i]))
    && (forall i :: 0 <= i < |tt| ==> Opens(tt[i]))
    && (forall i, j :: 0 <= i < |ss| && 0 <= j < |tt| ==> Apart(ss[i], tt[j]))
  }

  /** What follows the first text of a list. */
  function After(ss: seq<string>, x: string): string
    requires ss != []
  {
    if |ss| == 1 then x else "," + JoinItems(ss[1..]) + x
  }

  lemma JoinSplits(ss: seq<string>, x: string)
    requires ss != []
    ensures JoinItems(ss) + x == ss[0] + After(ss, x)
  {
  }

  lemma JoinStarts(ss: seq<string>, x: string)
    requires ss != [] && Opens(ss[0])
    ensures JoinItems(ss) + x != "" && !Closes(JoinItems(ss) + x)
  {
    JoinSplits(ss, x);
  }

  predicate Closes(x: string) { x != "" && (x[0] == ']' || x[0] == '}') }

  lemma FirstsAgree(ss: seq<string>, x: string, tt: seq<string>, y: string)
    requires ss != [] && tt != [] && Apart(ss[0], tt[0]) && Closes(x) && Closes(y)
    requires JoinItems(ss) + x == JoinItems(tt) + y
    ensures ss[0] == tt[0] && After(ss, x) == After(tt, y)
  {
    JoinSplits(ss, x);
    JoinSplits(tt, y);
    assert Ends(After(ss, x)) && Ends(After(tt, y));
    Cut(ss[0], After(ss, x), tt[0], After(tt, y));
  }

  lemma AfterRest(ss: seq<string>, x: string)
    requires |ss| > 1
    ensures After(ss, x) != "" && After(ss, x)[0] == ',' && After(ss, x)[1..] == JoinItems(ss[1..]) + x
  {
  }

  lemma {:induction false} ListUnique(ss: seq<string>, x: string, tt: seq<string>, y: string)
    requires AllApart(ss, tt) && Closes(x) && Closes(y)
    requires JoinItems(ss) + x == JoinItems(tt) + y
    ensures ss == tt && x == y
  {
    hide Apart;
    if ss == [] || tt == [] {
      assert JoinItems([]) + x == x && JoinItems([]) + y == y;
      if ss != [] { JoinStarts(ss, x); }
      if tt != [] { JoinStarts(tt, y); }
    } else {
      FirstsAgree(ss, x, tt, y);
      if |ss| > 1 { AfterRest(ss, x); }
      if |tt| > 1 { AfterRest(tt, y); }
      if |ss| > 1 && |tt| > 1 { ListUnique(ss[1..], x, tt[1..], y); }
      assert ss == [ss[0]] + ss[1..] && tt == [tt[0]] + tt[1..];
    }
  }
}
