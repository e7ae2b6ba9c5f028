/** The host compares canonical bytes, the worker compares structure: they agree on every admitted value. */
module CanonicalEqual {
  import opened Basics
  import opened Canonical
  import opened CanonicalText
  import opened Doubles

  function Keys(ms: seq<Member>): set<string> {
    set i | 0 <= i < |ms| :: ms[i].key
  }

  function IndexOf(ms: seq<Member>, key: string): (i: nat)
    requires key in Keys(ms)
    ensures i < |ms| && ms[i].key == key
  {
    if ms[0].key == key then 0
    else
      assert exists i :: 1 <= i < |ms| && ms[i].key == key;
      assert forall i :: 1 <= i < |ms| ==> ms[1..][i - 1] == ms[i];
      1 + IndexOf(ms[1..], key)
  }

  /** The worker's comparison. */
  predicate Equal(a: Json, b: Json) {
    match (a, b)
    case (Null, Null) => true
    case (Bool(x), Bool(y)) => x == y
    case (Number(x), Number(y)) => SameNumber(x, y)
    case (Text(x), Text(y)) => x == y
    case (Array(x), Array(y)) => |x| == |y| && forall i :: 0 <= i < |x| ==> Equal(x[i], y[i])
    case (Object(x), Object(y)) =>
      Keys(x) == Keys(y) && forall i :: 0 <= i < |x| ==> Equal(x[i].value, y[IndexOf(y, x[i].key)].value)
    case _ => false
  }

  // ---- The member order is total ----

  lemma UnitsUnique(c: char, u: seq<nat>, d: char, v: seq<nat>)
    requires Units(c) + u == Units(d) + v
    ensures c == d && u == v
  {
    var s, t := Units(c) + u, Units(d) + v;
    assert s[0] == t[0];
    if c as int >= 0x1_0000 && d as int >= 0x1_0000 {
      assert s[1] == t[1];
      assert s[2..] == u && t[2..] == v;
      assert c as int == d as int;
    } else {
      assert c as int < 0x1_0000 ==> s[1..] == u;
      assert d as int < 0x1_0000 ==> t[1..] == v;
      assert c as int < 0xD800 || c as int >= 0xE000;
      assert d as int < 0xD800 || d as int >= 0xE000;
      assert c as int == d as int;
    }
  }

  lemma {:induction false} Utf16Unique(s: string, t: string)
    requires Utf16(s) == Utf16(t)
    ensures s == t
  {
    if s != "" && t != "" {
      UnitsUnique(s[0], Utf16(s[1..]), t[0], Utf16(t[1..]));
      Utf16Unique(s[1..], t[1..]);
      assert s == [s[0]] + s[1..] && t == [t[0]] + t[1..];
    }
  }

  lemma {:induction false} BeforeTotal(a: seq<nat>, b: seq<nat>)
    ensures a == b || Before(a, b) || Before(b, a)
  {
    if a != [] && b != [] && a[0] == b[0] {
      BeforeTotal(a[1..], b[1..]);
      assert a == [a[0]] + a[1..] && b == [b[0]] + b[1..];
    }
  }

  lemma {:induction false} BeforeTransitive(a: seq<nat>, b: seq<nat>, c: seq<nat>)
    requires Before(a, b) && Before(b, c)
    ensures Before(a, c)
  {
    if a != [] && a[0] == b[0] && b[0] == c[0] { BeforeTransitive(a[1..], b[1..], c[1..]); }
  }

  lemma {:induction false} BeforeIrreflexive(a: seq<nat>)
    ensures !Before(a, a)
  {
    if a != [] { BeforeIrreflexive(a[1..]); }
  }

  // ---- Sorting ----

  predicate DistinctPairs(ps: seq<Pair>) {
    forall i, j :: 0 <= i < j < |ps| ==> ps[i].key != ps[j].key
  }

  predicate Ascending(ps: seq<Pair>) {
    forall i, j :: 0 <= i < j < |ps| ==> KeyBefore(ps[i].key, ps[j].key)
  }

  lemma {:induction false} InsertMembers(p: Pair, ps: seq<Pair>, q: Pair)
    ensures q in Insert(p, ps) <==> q == p || q in ps
  {
    if ps != [] && !KeyBefore(p.key, ps[0].key) {
      InsertMembers(p, ps[1..], q);
      assert ps == [ps[0]] + ps[1..];
    }
  }

  lemma {:induction false} SortedMembers(ps: seq<Pair>, q: Pair)
    ensures q in Sorted(ps) <==> q in ps
  {
    if ps != [] {
      SortedMembers(ps[1..], q);
      InsertMembers(ps[0], Sorted(ps[1..]), q);
      assert ps == [ps[0]] + ps[1..];
    }
  }

  lemma {:induction false} InsertAscending(p: Pair, ps: seq<Pair>)
    requires Ascending(ps) && forall q :: q in ps ==> q.key != p.key
    ensures Ascending(Insert(p, ps))
  {
    if ps == [] {
    } else if KeyBefore(p.key, ps[0].key) {
      forall i | 0 <= i < |ps| ensures KeyBefore(p.key, ps[i].key) {
        if i > 0 { BeforeTransitive(Utf16(p.key), Utf16(ps[0].key), Utf16(ps[i].key)); }
      }
    } else {
      assert ps[0] in ps;
      BeforeTotal(Utf16(p.key), Utf16(ps[0].key));
      if Utf16(p.key) == Utf16(ps[0].key) { Utf16Unique(p.key, ps[0].key); }
      InsertAscending(p, ps[1..]);
      var rest := Insert(p, ps[1..]);
      forall i | 0 <= i < |rest| ensures KeyBefore(ps[0].key, rest[i].key) {
        InsertMembers(p, ps[1..], rest[i]);
      }
    }
  }

  lemma {:induction false} SortedAscending(ps: seq<Pair>)
    requires DistinctPairs(ps)
    ensures Ascending(Sorted(ps))
  {
    if ps != [] {
      SortedAscending(ps[1..]);
      forall q | q in Sorted(ps[1..]) ensures q.key != ps[0].key {
        SortedMembers(ps[1..], q);
        var i :| 0 <= i < |ps[1..]| && ps[1..][i] == q;
        assert ps[i + 1] == q;
      }
      InsertAscending(ps[0], Sorted(ps[1..]));
    }
  }

  lemma FirstOfSame(ps: seq<Pair>, qs: seq<Pair>)
    requires Ascending(ps) && Ascending(qs) && (forall p :: p in ps <==> p in qs) && ps != [] && qs != []
    ensures ps[0] == qs[0]
  {
    assert ps[0] in qs && qs[0] in ps;
    var i :| 0 <= i < |qs| && qs[i] == ps[0];
    var j :| 0 <= j < |ps| && ps[j] == qs[0];
    if i > 0 && j > 0 {
      BeforeTransitive(Utf16(ps[0].key), Utf16(qs[0].key), Utf16(ps[0].key));
      BeforeIrreflexive(Utf16(ps[0].key));
    }
  }

  /** An ascending list is determined by its elements. */
  lemma {:induction false} AscendingUnique(ps: seq<Pair>, qs: seq<Pair>)
    requires Ascending(ps) && Ascending(qs) && forall p :: p in ps <==> p in qs
    ensures ps == qs
  {
    assert (ps != [] ==> ps[0] in ps) && (qs != [] ==> qs[0] in qs);
    if ps != [] && qs != [] {
      FirstOfSame(ps, qs);
      forall p ensures p in ps[1..] <==> p in qs[1..] { RestMembers(ps, p); RestMembers(qs, p); }
      AscendingUnique(ps[1..], qs[1..]);
      assert ps == [ps[0]] + ps[1..] && qs == [qs[0]] + qs[1..];
    }
  }

  lemma RestMembers(ps: seq<Pair>, p: Pair)
    requires Ascending(ps) && ps != []
    ensures p in ps[1..] <==> p in ps && p != ps[0]
  {
    assert ps == [ps[0]] + ps[1..];
    BeforeIrreflexive(Utf16(ps[0].key));
    assert forall i :: 1 <= i < |ps| ==> KeyBefore(ps[0].key, ps[i].key) && ps[i] == ps[1..][i - 1];
  }

  // ---- Self-delimiting values ----

  datatype Kind = NullKind | BoolKind | NumberKind | TextKind | ArrayKind | ObjectKind

  function KindOf(j: Json): Kind {
    match j
    case Null => NullKind
    case Bool(_) => BoolKind
    case Number(_) => NumberKind
    case Text(_) => TextKind
    case Array(_) => ArrayKind
    case Object(_) => ObjectKind
  }

  function KindOfFirst(c: char): Kind {
    if c == 'n' then NullKind
    else if c == 't' || c == 'f' then BoolKind
    else if c == '\"' then TextKind
    else if c == '[' then ArrayKind
    else if c == '{' then ObjectKind
    else NumberKind
  }

  lemma CanonOpens(j: Json)
    requires Admitted(j)
    ensures Opens(Canon(j)) && KindOfFirst(Canon(j)[0]) == KindOf(j)
  {
    if j.Number? { NumberShape(j.numeral); assert NumberChar(Canon(j)[0]); }
  }

  lemma TextsApart(s: string, t: string)
    ensures Apart(Quoted(s), Quoted(t))
  {
    forall x: string, y: string | Ends(x) && Ends(y) && Quoted(s) + x == Quoted(t) + y ensures Quoted(s) == Quoted(t) {
      QuotedUnique(s, x, t, y);
    }
  }

  lemma PairTextUnique(p: Pair, x: string, q: Pair, y: string)
    requires Apart(p.printed, q.printed) && Ends(x) && Ends(y) && PairText(p) + x == PairText(q) + y
    ensures p == q
  {
    hide Quoted;
    assert PairText(p) + x == Quoted(p.key) + (":" + p.printed + x);
    assert PairText(q) + y == Quoted(q.key) + (":" + q.printed + y);
    QuotedUnique(p.key, ":" + p.printed + x, q.key, ":" + q.printed + y);
    assert (":" + p.printed + x)[1..] == p.printed + x && (":" + q.printed + y)[1..] == q.printed + y;
  }

  lemma PairsApart(p: Pair, q: Pair)
    requires Apart(p.printed, q.printed)
    ensures Opens(PairText(p)) && Apart(PairText(p), PairText(q))
    ensures PairText(p) == PairText(q) ==> p == q
  {
    assert PairText(p)[0] == '\"';
    forall x: string, y: string | Ends(x) && Ends(y) && PairText(p) + x == PairText(q) + y ensures p == q {
      PairTextUnique(p, x, q, y);
    }
    if PairText(p) == PairText(q) { PairTextUnique(p, "", q, ""); }
  }

  /** A bracketed list of texts. */
  lemma ListsApart(open: string, close: string, ss: seq<string>, tt: seq<string>)
    requires AllApart(ss, tt) && Closes(close) && |close| == 1
    ensures Apart(open + JoinItems(ss) + close, open + JoinItems(tt) + close)
    ensures open + JoinItems(ss) + close == open + JoinItems(tt) + close ==> ss == tt
  {
    forall x: string, y: string | open + JoinItems(ss) + close + x == open + JoinItems(tt) + close + y ensures ss == tt {
      assert open + JoinItems(ss) + close + x == open + (JoinItems(ss) + (close + x));
      assert open + JoinItems(tt) + close + y == open + (JoinItems(tt) + (close + y));
      Cut(open, JoinItems(ss) + (close + x), open, JoinItems(tt) + (close + y));
      ListUnique(ss, close + x, tt, close + y);
    }
    assert open + JoinItems(ss) + close + "" == open + JoinItems(ss) + close;
    assert open + JoinItems(tt) + close + "" == open + JoinItems(tt) + close;
  }

  /** The pair at each place of an object's canonical text comes from one of its members. */
  lemma PairSource(j: Json, p: Pair) returns (i: nat)
    requires j.Object? && p in Sorted(Pairs(j))
    ensures i < |j.members| && p == Pair(j.members[i].key, Canon(j.members[i].value))
  {
    SortedMembers(Pairs(j), p);
    i :| 0 <= i < |Pairs(j)| && Pairs(j)[i] == p;
  }

  lemma {:induction false} ItemsApart(a: Json, b: Json)
    requires a.Array? && b.Array? && Admitted(a) && Admitted(b)
    ensures AllApart(Printed(a), Printed(b))
    decreases a, 0
  {
    forall i | 0 <= i < |a.items| ensures Opens(Printed(a)[i]) { CanonOpens(a.items[i]); }
    forall i | 0 <= i < |b.items| ensures Opens(Printed(b)[i]) { CanonOpens(b.items[i]); }
    forall i, k | 0 <= i < |a.items| && 0 <= k < |b.items| ensures Apart(Printed(a)[i], Printed(b)[k]) {
      CanonApart(a.items[i], b.items[k]);
    }
  }

  lemma {:induction false} MembersApart(a: Json, b: Json)
    requires a.Object? && b.Object? && Admitted(a) && Admitted(b)
    ensures AllApart(PairTexts(Sorted(Pairs(a))), PairTexts(Sorted(Pairs(b))))
    ensures PairTexts(Sorted(Pairs(a))) == PairTexts(Sorted(Pairs(b))) ==> Sorted(Pairs(a)) == Sorted(Pairs(b))
    decreases a, 0
  {
    var ps, qs := Sorted(Pairs(a)), Sorted(Pairs(b));
    forall i, k | 0 <= i < |ps| && 0 <= k < |qs|
      ensures Apart(PairText(ps[i]), PairText(qs[k])) && (PairText(ps[i]) == PairText(qs[k]) ==> ps[i] == qs[k])
    {
      var m := PairSource(a, ps[i]);
      var n := PairSource(b, qs[k]);
      CanonApart(a.members[m].value, b.members[n].value);
      PairsApart(ps[i], qs[k]);
    }
    forall i | 0 <= i < |ps| ensures Opens(PairTexts(ps)[i]) { }
    forall i | 0 <= i < |qs| ensures Opens(PairTexts(qs)[i]) { }
    if PairTexts(ps) == PairTexts(qs) {
      assert |PairTexts(ps)| == |ps| && |PairTexts(qs)| == |qs|;
      forall i | 0 <= i < |ps| ensures ps[i] == qs[i] { assert PairTexts(ps)[i] == PairTexts(qs)[i]; }
    }
  }

  /** Followed by a separator, two values with the same text are written the same. */
  lemma {:induction false} CanonApart(a: Json, b: Json)
    requires Admitted(a) && Admitted(b)
    ensures Apart(Canon(a), Canon(b))
    decreases a, 1
  {
    CanonOpens(a);
    CanonOpens(b);
    if KindOf(a) != KindOf(b) {
      forall x: string, y: string | Ends(x) && Ends(y) ensures Canon(a) + x != Canon(b) + y {
        assert (Canon(a) + x)[0] == Canon(a)[0] && (Canon(b) + y)[0] == Canon(b)[0];
      }
    } else {
      match a {
        case Null =>
        case Bool(_) =>
          forall x: string, y: string | Ends(x) && Ends(y) && Canon(a) + x == Canon(b) + y ensures Canon(a) == Canon(b) {
            assert (Canon(a) + x)[0] == (Canon(b) + y)[0];
          }
        case Number(_) =>
          NumberShape(a.numeral);
          NumberShape(b.numeral);
          NumbersApart(Canon(a), Canon(b));
        case Text(_) => TextsApart(a.text, b.text);
        case Array(_) =>
          ItemsApart(a, b);
          ListsApart("[", "]", Printed(a), Printed(b));
        case Object(_) =>
          MembersApart(a, b);
          ListsApart("{", "}", PairTexts(Sorted(Pairs(a))), PairTexts(Sorted(Pairs(b))));
      }
    }
  }

  // ---- Canonical bytes are equal exactly when the structures are ----

  lemma PairsDistinct(j: Json)
    requires j.Object? && Admitted(j)
    ensures DistinctPairs(Pairs(j))
  {
  }

  lemma {:induction false} SameTextIsEqual(a: Json, b: Json)
    requires Admitted(a) && Admitted(b) && Canon(a) == Canon(b)
    ensures Equal(a, b)
    decreases a
  {
    CanonOpens(a);
    CanonOpens(b);
    match a {
      case Null =>
      case Bool(_) =>
      case Number(_) => NumberTextsAgree(a.numeral, b.numeral);
      case Text(_) => QuotedUnique(a.text, "", b.text, "") by { assert Quoted(a.text) + "" == Quoted(b.text) + ""; }
      case Array(_) =>
        ItemsApart(a, b);
        ListsApart("[", "]", Printed(a), Printed(b));
        assert |Printed(a)| == |a.items| && |Printed(b)| == |b.items|;
        forall i | 0 <= i < |a.items| ensures Equal(a.items[i], b.items[i]) {
          assert Printed(a)[i] == Printed(b)[i];
          SameTextIsEqual(a.items[i], b.items[i]);
        }
      case Object(_) =>
        MembersApart(a, b);
        ListsApart("{", "}", PairTexts(Sorted(Pairs(a))), PairTexts(Sorted(Pairs(b))));
        SameMembers(a, b);
        SameMembers(b, a);
        forall i | 0 <= i < |a.members|
          ensures Equal(a.members[i].value, b.members[IndexOf(b.members, a.members[i].key)].value)
        {
          SameTextIsEqual(a.members[i].value, b.members[IndexOf(b.members, a.members[i].key)].value);
        }
    }
  }

  /** Objects with the same sorted pairs have each other's keys, with the same text. */
  lemma SameMembers(a: Json, b: Json)
    requires a.Object? && b.Object? && Admitted(b) && Sorted(Pairs(a)) == Sorted(Pairs(b))
    ensures Keys(a.members) <= Keys(b.members)
    ensures forall i :: 0 <= i < |a.members| ==>
              Canon(a.members[i].value) == Canon(b.members[IndexOf(b.members, a.members[i].key)].value)
  {
    forall i | 0 <= i < |a.members|
      ensures a.members[i].key in Keys(b.members)
      ensures Canon(a.members[i].value) == Canon(b.members[IndexOf(b.members, a.members[i].key)].value)
    {
      var p := Pairs(a)[i];
      SortedMembers(Pairs(a), p);
      var k := PairSource(b, p);
      assert IndexOf(b.members, p.key) == k;
    }
  }

  lemma {:induction false} EqualIsSameText(a: Json, b: Json)
    requires Admitted(a) && Admitted(b) && Equal(a, b)
    ensures Canon(a) == Canon(b)
    decreases a
  {
    match a {
      case Null =>
      case Bool(_) =>
      case Number(_) => NumberTextsAgree(a.numeral, b.numeral);
      case Text(_) =>
      case Array(_) =>
        forall i | 0 <= i < |a.items| ensures Printed(a)[i] == Printed(b)[i] { EqualIsSameText(a.items[i], b.items[i]); }
        assert Printed(a) == Printed(b);
      case Object(_) =>
        forall i | 0 <= i < |a.members| ensures Pairs(a)[i] == Pairs(b)[IndexOf(b.members, a.members[i].key)] {
          EqualIsSameText(a.members[i].value, b.members[IndexOf(b.members, a.members[i].key)].value);
        }
        SamePairs(a, b);
    }
  }

  lemma SamePairs(a: Json, b: Json)
    requires a.Object? && b.Object? && Admitted(a) && Admitted(b) && Keys(a.members) == Keys(b.members)
    requires forall i :: 0 <= i < |a.members| ==> Pairs(a)[i] == Pairs(b)[IndexOf(b.members, a.members[i].key)]
    ensures Sorted(Pairs(a)) == Sorted(Pairs(b))
  {
    PairsDistinct(a);
    PairsDistinct(b);
    SortedAscending(Pairs(a));
    SortedAscending(Pairs(b));
    forall p ensures p in Sorted(Pairs(a)) <==> p in Sorted(Pairs(b)) {
      SortedMembers(Pairs(a), p);
      SortedMembers(Pairs(b), p);
      if p in Pairs(b) {
        var k :| 0 <= k < |Pairs(b)| && Pairs(b)[k] == p;
        assert b.members[k].key in Keys(a.members);
        var i := IndexOf(a.members, p.key);
        assert IndexOf(b.members, p.key) == k;
        assert Pairs(a)[i] == p;
      }
    }
    AscendingUnique(Sorted(Pairs(a)), Sorted(Pairs(b)));
  }

  /** Bytes and structure agree on every two values the host reads. */
  lemma CanonicalIffEqual(a: Json, b: Json)
    requires Admitted(a) && Admitted(b)
    ensures Canon(a) == Canon(b) <==> Equal(a, b)
  {
    if Canon(a) == Canon(b) { SameTextIsEqual(a, b); }
    if Equal(a, b) { EqualIsSameText(a, b); }
  }

  // ---- A value sent to the worker as canonical bytes, and read back ----

  function WithSign(v: int, magnitude: nat): int { if v < 0 then 0 - magnitude else magnitude }

  /** A whole float that was written out comes back as the integer its digits spell; one written with an exponent,
      and any other float, as the float that text reads as. */
  function RereadNumeral(n: Numeral): Numeral {
    match n
    case Float(v) =>
      var s := Spelled(Abs(v));
      if s < EXPONENT_FROM then Integer(WithSign(v, s)) else Float(WithSign(v, Nearest(s)))
    case _ => n
  }

  function Reread(j: Json): Json {
    match j
    case Number(n) => Number(RereadNumeral(n))
    case Array(items) => Array(seq(|items|, i requires 0 <= i < |items| => Reread(items[i])))
    case Object(members) =>
      Object(seq(|members|, i requires 0 <= i < |members| => Member(members[i].key, Reread(members[i].value))))
    case _ => j
  }

  /** No number that is written out is spelled as another integer. */
  predicate Faithful(j: Json) {
    match j
    case Number(n) => n.Float? ==> Spelled(Abs(n.value)) == Abs(n.value) || Spelled(Abs(n.value)) >= EXPONENT_FROM
    case Array(items) => forall i :: 0 <= i < |items| ==> Faithful(items[i])
    case Object(members) => forall i :: 0 <= i < |members| ==> Faithful(members[i].value)
    case _ => true
  }

  /** A number equals another one reread exactly when it equals it and is written faithfully. */
  lemma RereadNumber(v: Numeral, e: Numeral)
    requires AdmittedNumeral(v) && AdmittedNumeral(e)
    ensures SameNumber(v, RereadNumeral(e)) <==> SameNumber(v, e) && Faithful(Number(v))
  {
    if e.Float? { SpelledReadsBack(Abs(e.value)); }
    if v.Integer? {
      SpelledSmall(Abs(v.value));
      SmallIsDouble(Abs(v.value));
    }
    if e.Integer? { SpelledSmall(Abs(e.value)); }
    hide Spelled, Nearest;
  }

  lemma RereadKeys(ms: seq<Member>)
    ensures var ns := seq(|ms|, i requires 0 <= i < |ms| => Member(ms[i].key, Reread(ms[i].value)));
            && Keys(ns) == Keys(ms)
            && (DistinctKeys(ms) ==> forall k :: k in Keys(ms) ==> IndexOf(ns, k) == IndexOf(ms, k))
  {
    var ns := seq(|ms|, i requires 0 <= i < |ms| => Member(ms[i].key, Reread(ms[i].value)));
    forall k ensures k in Keys(ns) <==> k in Keys(ms) {
      if k in Keys(ms) { var i :| 0 <= i < |ms| && ms[i].key == k; assert ns[i].key == k; }
      if k in Keys(ns) { var i :| 0 <= i < |ns| && ns[i].key == k; assert ms[i].key == k; }
    }
    forall k | DistinctKeys(ms) && k in Keys(ms) ensures IndexOf(ns, k) == IndexOf(ms, k) {
      assert ns[IndexOf(ns, k)].key == ms[IndexOf(ns, k)].key;
    }
  }

  /** The worker, which rereads the expectation, finds a value equal to it exactly when the host does and the value's
      own numbers are faithful. */
  lemma {:induction false} WorkerEqualIff(v: Json, expected: Json)
    requires Admitted(v) && Admitted(expected)
    ensures Equal(v, Reread(expected)) <==> Equal(v, expected) && Faithful(v)
    decreases v
  {
    if v.Number? && expected.Number? {
      RereadNumber(v.numeral, expected.numeral);
    } else if v.Array? && expected.Array? {
      if |v.items| == |expected.items| {
        forall i | 0 <= i < |v.items|
          ensures Equal(v.items[i], Reread(expected).items[i]) <==> Equal(v.items[i], expected.items[i]) && Faithful(v.items[i])
        {
          WorkerEqualIff(v.items[i], expected.items[i]);
        }
      }
    } else if v.Object? && expected.Object? {
      RereadKeys(expected.members);
      if Keys(v.members) == Keys(expected.members) {
        forall i | 0 <= i < |v.members|
          ensures var k := IndexOf(expected.members, v.members[i].key);
                  Equal(v.members[i].value, Reread(expected).members[k].value)
                  <==> Equal(v.members[i].value, expected.members[k].value) && Faithful(v.members[i].value)
        {
          WorkerEqualIff(v.members[i].value, expected.members[IndexOf(expected.members, v.members[i].key)].value);
        }
      }
    }
  }

  // ---- A value that is stored as canonical bytes, and read back ----

  /** What a caller can see before storing a value: no whole float in it has more than 53 bits and less than 22 digits. */
  predicate Reloads(j: Json) {
    match j
    case Number(n) => n.Float? ==> Abs(n.value) < TWO_53 || EXPONENT_FROM <= Abs(n.value)
    case Array(items) => forall i :: 0 <= i < |items| ==> Reloads(items[i])
    case Object(members) => forall i :: 0 <= i < |members| ==> Reloads(members[i].value)
    case _ => true
  }

  lemma ReloadsNumber(n: Numeral)
    requires AdmittedNumeral(n)
    ensures AdmittedNumeral(RereadNumeral(n)) <==> Reloads(Number(n))
    ensures Reloads(Number(n)) && n.Float? ==>
              RereadNumeral(n) == if Abs(n.value) < TWO_53 then Integer(n.value) else n
  {
    if n.Float? {
      var v := Abs(n.value);
      SpelledReadsBack(v);
      SpelledLarge(v);
      if v < TWO_53 { SpelledSmall(v); } else { SpelledWide(v); }
    }
    hide Spelled, Nearest;
  }

  lemma RereadDistinct(ms: seq<Member>)
    ensures var ns := seq(|ms|, i requires 0 <= i < |ms| => Member(ms[i].key, Reread(ms[i].value)));
            DistinctKeys(ms) ==> DistinctKeys(ns)
  {
  }

  /** The host admits what it stored, read back, exactly when no such float is in it. */
  lemma {:induction false} ReloadsIff(j: Json)
    requires Admitted(j)
    ensures Admitted(Reread(j)) <==> Reloads(j)
  {
    match j {
      case Number(n) => ReloadsNumber(n);
      case Array(items) =>
        forall i | 0 <= i < |items| ensures Admitted(Reread(j).items[i]) <==> Reloads(items[i]) { ReloadsIff(items[i]); }
      case Object(members) =>
        RereadDistinct(members);
        forall i | 0 <= i < |members| ensures Admitted(Reread(j).members[i].value) <==> Reloads(members[i].value) {
          ReloadsIff(members[i].value);
        }
      case _ =>
    }
  }

  lemma NumberStays(n: Numeral)
    requires AdmittedNumeral(n) && Reloads(Number(n))
    ensures NumberText(RereadNumeral(n)) == NumberText(n) && RereadNumeral(RereadNumeral(n)) == RereadNumeral(n)
  {
    ReloadsNumber(n);
    if n.Float? && Abs(n.value) < TWO_53 { SpelledSmall(Abs(n.value)); }
    hide Spelled, Nearest, Digits;
  }

  /** Then its bytes, and so its digest, are those that were stored, and it never changes again however often it is
      stored and read back. */
  lemma {:induction false} ReloadStays(j: Json)
    requires Admitted(j) && Reloads(j)
    ensures Canon(Reread(j)) == Canon(j) && Reread(Reread(j)) == Reread(j)
  {
    var r := Reread(j);
    match j {
      case Number(n) => NumberStays(n);
      case Array(items) =>
        forall i | 0 <= i < |items| ensures Canon(r.items[i]) == Canon(items[i]) && Reread(r.items[i]) == r.items[i] {
          ReloadStays(items[i]);
        }
        assert Printed(r) == Printed(j);
        assert Reread(r).items == r.items;
      case Object(members) =>
        forall i | 0 <= i < |members|
          ensures Canon(r.members[i].value) == Canon(members[i].value) && Reread(r.members[i].value) == r.members[i].value
        {
          ReloadStays(members[i].value);
        }
        assert Pairs(r) == Pairs(j);
        assert Reread(r).members == r.members;
      case _ =>
    }
  }

  lemma {:induction false} EqualReloads(a: Json, b: Json)
    requires Admitted(a) && Admitted(b) && Equal(a, b) && Reloads(b)
    ensures Reloads(a)
    decreases a
  {
    if a.Array? {
      forall i | 0 <= i < |a.items| ensures Reloads(a.items[i]) { EqualReloads(a.items[i], b.items[i]); }
    } else if a.Object? {
      forall i | 0 <= i < |a.members| ensures Reloads(a.members[i].value) {
        EqualReloads(a.members[i].value, b.members[IndexOf(b.members, a.members[i].key)].value);
      }
    }
  }

  /** The values that some stored expectation can equal at all are exactly those that themselves reload. */
  lemma ExpectableIff(v: Json)
    requires Admitted(v)
    ensures (exists e :: Admitted(e) && Reloads(e) && Canon(v) == Canon(Reread(e))) <==> Reloads(v)
  {
    if Reloads(v) { ReloadStays(v); }
    if e :| Admitted(e) && Reloads(e) && Canon(v) == Canon(Reread(e)) {
      ReloadStays(e);
      CanonicalIffEqual(v, e);
      EqualReloads(v, e);
    }
  }

  /** 2^69 is admitted; it is stored as 590295810358705700000, an integer that the host does not admit. */
  lemma LargeFloatDoesNotReload(v: int)
    requires v == TWO_69
    ensures var j := Number(Float(v));
            && Admitted(j) && Reread(j) == Number(Integer(590295810358705700000))
            && !Admitted(Reread(j)) && !Reloads(j)
  {
    TwoTo69(v);
    hide Spelled, Nearest;
  }

  // ---- Checks ----

  datatype Check = Check(path: string, keys: seq<string>, equals: Json)

  /** A check as `_load` reads it back from the stored scope. */
  function Loaded(c: Check): Check { c.(equals := Reread(c.equals)) }

  predicate Loads(checks: seq<Check>) {
    forall i :: 0 <= i < |checks| ==> Reloads(checks[i].equals)
  }

  function AllLoaded(checks: seq<Check>): seq<Check> {
    seq(|checks|, i requires 0 <= i < |checks| => Loaded(checks[i]))
  }

  /** The value a list of keys leads to, if every key is there. */
  function Found(j: Json, keys: seq<string>): Option<Json>
    decreases |keys|
  {
    if keys == [] then Some(j)
    else if j.Object? && keys[0] in Keys(j.members)
    then Found(j.members[IndexOf(j.members, keys[0])].value, keys[1..])
    else None
  }

  predicate HostPasses(files: map<string, Json>, c: Check)
    requires c.path in files
  {
    var v := Found(files[c.path], c.keys);
    v.Some? && Canon(v.value) == Canon(c.equals)
  }

  /** The worker is sent the canonical bytes of the check, and rereads its expectation. */
  predicate WorkerPasses(files: map<string, Json>, c: Check)
    requires c.path in files
  {
    var v := Found(files[c.path], c.keys);
    v.Some? && Equal(v.value, Reread(c.equals))
  }

  lemma {:induction false} FoundAdmitted(j: Json, keys: seq<string>)
    requires Admitted(j)
    ensures Found(j, keys).Some? ==> Admitted(Found(j, keys).value)
    decreases |keys|
  {
    if keys != [] && j.Object? && keys[0] in Keys(j.members) {
      FoundAdmitted(j.members[IndexOf(j.members, keys[0])].value, keys[1..]);
    }
  }

  /** What preparation demands: admitted files, and admitted expectations of them. */
  predicate Checkable(files: map<string, Json>, checks: seq<Check>) {
    && (forall p :: p in files ==> Admitted(files[p]))
    && (forall i :: 0 <= i < |checks| ==> checks[i].path in files && Admitted(checks[i].equals))
  }

  /** A check that was loaded passes in the worker exactly when it passes on the host, and exactly when the check that
      was approved does. */
  lemma SameVerdict(files: map<string, Json>, c: Check)
    requires c.path in files && Admitted(files[c.path]) && Admitted(c.equals) && Reloads(c.equals)
    ensures WorkerPasses(files, Loaded(c)) <==> HostPasses(files, Loaded(c))
    ensures HostPasses(files, Loaded(c)) <==> HostPasses(files, c)
  {
    FoundAdmitted(files[c.path], c.keys);
    ReloadsIff(c.equals);
    ReloadStays(c.equals);
    var v := Found(files[c.path], c.keys);
    if v.Some? { CanonicalIffEqual(v.value, Reread(c.equals)); }
  }

  /** Whatever a loaded check finds equal is faithful, so that one more reread of the expectation changes nothing. */
  lemma PassedIsFaithful(files: map<string, Json>, c: Check)
    requires c.path in files && Admitted(files[c.path]) && Admitted(c.equals) && Reloads(c.equals)
    requires HostPasses(files, Loaded(c))
    ensures Faithful(Found(files[c.path], c.keys).value) && Reloads(Found(files[c.path], c.keys).value)
  {
    FoundAdmitted(files[c.path], c.keys);
    SameVerdict(files, c);
    var v := Found(files[c.path], c.keys).value;
    CanonicalIffEqual(v, c.equals);
    EqualReloads(v, c.equals);
    ReloadStays(c.equals);
    WorkerEqualIff(v, c.equals);
  }

  /** `_load`, as far as it reads the checks: it fails when canonical bytes of an expectation cannot be made again. */
  method Load(checks: seq<Check>) returns (loaded: Option<seq<Check>>)
    requires forall i :: 0 <= i < |checks| ==> Admitted(checks[i].equals)
    ensures loaded.Some? <==> Loads(checks)
    ensures loaded.Some? ==> loaded.value == AllLoaded(checks)
    ensures loaded.Some? ==> forall i :: 0 <= i < |checks| ==> Canon(loaded.value[i].equals) == Canon(checks[i].equals)
  {
    var read: seq<Check> := [];
    for i := 0 to |checks|
      invariant |read| == i
      invariant forall k :: 0 <= k < i ==> Reloads(checks[k].equals) && read[k] == Loaded(checks[k])
      invariant forall k :: 0 <= k < i ==> Canon(read[k].equals) == Canon(checks[k].equals)
    {
      var c := Loaded(checks[i]);
      ReloadsIff(checks[i].equals);
      if !Admitted(c.equals) { return None; }
      ReloadStays(checks[i].equals);
      read := read + [c];
    }
    return Some(read);
  }

  /** Following a check's keys, one at a time. */
  method Follow(root: Json, keys: seq<string>) returns (value: Json, found: bool)
    ensures found <==> Found(root, keys).Some?
    ensures found ==> value == Found(root, keys).value
  {
    value, found := root, true;
    for i := 0 to |keys|
      invariant found
      invariant Found(root, keys) == Found(value, keys[i..])
    {
      if !value.Object? || keys[i] !in Keys(value.members) {
        found := false;
        break;
      }
      assert keys[i..][1..] == keys[i + 1..];
      value := value.members[IndexOf(value.members, keys[i])].value;
    }
  }

  /** The host's `evaluate`. */
  method Evaluate(files: map<string, Json>, checks: seq<Check>) returns (passed: seq<bool>)
    requires Checkable(files, checks)
    ensures |passed| == |checks| && forall i :: 0 <= i < |checks| ==> passed[i] == HostPasses(files, checks[i])
  {
    passed := [];
    for i := 0 to |checks|
      invariant |passed| == i && forall k :: 0 <= k < i ==> passed[k] == HostPasses(files, checks[k])
    {
      var value, found := Follow(files[checks[i].path], checks[i].keys);
      passed := passed + [found && Canon(value) == Canon(checks[i].equals)];
    }
  }

  /** The worker's test loop, over the checks as it reads them back. */
  method WorkerTest(files: map<string, Json>, checks: seq<Check>) returns (passed: seq<bool>)
    requires Checkable(files, checks)
    ensures |passed| == |checks| && forall i :: 0 <= i < |checks| ==> passed[i] == WorkerPasses(files, checks[i])
  {
    passed := [];
    for i := 0 to |checks|
      invariant |passed| == i && forall k :: 0 <= k < i ==> passed[k] == WorkerPasses(files, checks[k])
    {
      var value, found := Follow(files[checks[i].path], checks[i].keys);
      passed := passed + [found && Equal(value, Reread(checks[i].equals))];
    }
  }

  /** The dispatcher's comparison of the two lists, over the stored checks: whenever the scope can be loaded at all,
      they are the same, and are the verdicts of the checks that were approved. */
  method Compare(files: map<string, Json>, checks: seq<Check>) returns (agree: Option<bool>, passed: seq<bool>)
    requires Checkable(files, checks)
    ensures agree == if Loads(checks) then Some(true) else None
    ensures agree.Some? ==> |passed| == |checks| && forall i :: 0 <= i < |checks| ==> passed[i] == HostPasses(files, checks[i])
  {
    var loaded := Load(checks);
    if loaded == None { return None, []; }
    LoadedCheckable(files, checks);
    var expected := Evaluate(files, loaded.value);
    var reported := WorkerTest(files, loaded.value);
    forall i | 0 <= i < |checks| ensures expected[i] == reported[i] == HostPasses(files, checks[i]) {
      SameVerdict(files, checks[i]);
    }
    agree, passed := Some(expected == reported), expected;
  }

  lemma LoadedCheckable(files: map<string, Json>, checks: seq<Check>)
    requires Checkable(files, checks) && Loads(checks)
    ensures Checkable(files, AllLoaded(checks))
  {
    forall i | 0 <= i < |checks| ensures Admitted(AllLoaded(checks)[i].equals) { ReloadsIff(checks[i].equals); }
  }
}
