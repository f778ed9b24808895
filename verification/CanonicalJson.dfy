/** The key-sorted JSON text that binds an approval card to one call, over UTF-16 code units. */
module CanonicalJson {
  import Money

  type Unit = u: int | 0 <= u < 0x1_0000
  type Text = seq<Unit>

  const SPACE: Unit := 0x20
  const QUOTE: Unit := 0x22
  const COMMA: Unit := 0x2C
  const MINUS: Unit := 0x2D
  const COLON: Unit := 0x3A
  const OPEN_LIST: Unit := 0x5B
  const BACKSLASH: Unit := 0x5C
  const CLOSE_LIST: Unit := 0x5D
  const LOWER_U: Unit := 0x75
  const OPEN_RECORD: Unit := 0x7B
  const CLOSE_RECORD: Unit := 0x7D

  datatype Member = Member(key: Text, value: Json)

  /** A tree of JSON values; `Absent` is the source language's undefined. */
  datatype Json =
    | Absent
    | Null
    | Bool(truth: bool)
    | Number(value: int)
    | String(text: Text)
    | List(items: seq<Json>)
    | Record(members: seq<Member>)

  /** No record has one key twice. */
  ghost predicate Proper(v: Json) {
    match v
    case List(items) => forall i :: 0 <= i < |items| ==> Proper(items[i])
    case Record(ms) =>
      && (forall i :: 0 <= i < |ms| ==> Proper(ms[i].value))
      && (forall i, j :: 0 <= i < j < |ms| ==> ms[i].key != ms[j].key)
    case _ => true
  }

  predicate Void(v: Json) {
    v.Absent? || v.Null?
  }

  ghost function Keys(ms: seq<Member>): set<Text> {
    set i | 0 <= i < |ms| :: ms[i].key
  }

  /** Two values that mean the same call: lists in order, records as key-to-value maps in any
      order, and an absent value standing for null. */
  ghost predicate Same(v: Json, w: Json) {
    match v
    case Absent => Void(w)
    case Null => Void(w)
    case List(items) =>
      w.List? && |items| == |w.items| && forall i :: 0 <= i < |items| ==> Same(items[i], w.items[i])
    case Record(ms) =>
      && w.Record? && Keys(ms) == Keys(w.members)
      && forall i, j :: 0 <= i < |ms| && 0 <= j < |w.members| && ms[i].key == w.members[j].key ==>
           Same(ms[i].value, w.members[j].value)
    case _ => v == w
  }

  // ---- Strings: section 7 of RFC 8259, lone surrogates escaped ----------------------------

  predicate High(u: Unit) {
    0xD800 <= u < 0xDC00
  }

  predicate Low(u: Unit) {
    0xDC00 <= u < 0xE000
  }

  predicate Paired(s: Text) {
    |s| >= 2 && High(s[0]) && Low(s[1])
  }

  function HexDigit(d: int): Unit
    requires 0 <= d < 16
  {
    if d < 10 then 0x30 + d else 0x57 + d
  }

  function Hex(u: Unit): Text {
    [HexDigit(u / 4096), HexDigit(u / 256 % 16), HexDigit(u / 16 % 16), HexDigit(u % 16)]
  }

  /** The letter of a two-unit escape, or 0. */
  function Letter(u: Unit): Unit {
    if u == QUOTE || u == BACKSLASH then u
    else if u == 8 then 0x62
    else if u == 9 then 0x74
    else if u == 10 then 0x6E
    else if u == 12 then 0x66
    else if u == 13 then 0x72
    else 0
  }

  function Escape(u: Unit): Text {
    if Letter(u) != 0 then [BACKSLASH, Letter(u)]
    else if u < 0x20 || High(u) || Low(u) then [BACKSLASH, LOWER_U] + Hex(u)
    else [u]
  }

  function Taken(s: Text): nat {
    if Paired(s) then 2 else 1
  }

  function Code(s: Text): Text
    requires s != []
  {
    if Paired(s) then s[..2] else Escape(s[0])
  }

  function Escaped(s: Text): Text {
    if s == [] then [] else Code(s) + Escaped(s[Taken(s)..])
  }

  function Quote(s: Text): Text {
    [QUOTE] + Escaped(s) + [QUOTE]
  }

  // ---- Sorted records ---------------------------------------------------------------------

  datatype Entry = Entry(key: Text, text: Text)

  /** The order of Array.prototype.sort: code unit by code unit. */
  predicate Below(a: Text, b: Text) {
    if b == [] then false
    else if a == [] then true
    else if a[0] != b[0] then a[0] < b[0]
    else Below(a[1..], b[1..])
  }

  function Insert(e: Entry, s: seq<Entry>): (r: seq<Entry>)
    ensures multiset(r) == multiset(s) + multiset{e}
  {
    if s == [] then [e]
    else if Below(e.key, s[0].key) then [e] + s
    else
      assert s == [s[0]] + s[1..];
      [s[0]] + Insert(e, s[1..])
  }

  function Sort(s: seq<Entry>): (r: seq<Entry>)
    ensures multiset(r) == multiset(s)
  {
    if s == [] then [] else
      assert s == [s[0]] + s[1..];
      Insert(s[0], Sort(s[1..]))
  }

  // ---- The printer ------------------------------------------------------------------------

  function Digits(n: nat): Text {
    var s := Money.Print(n);
    seq(|s|, i requires 0 <= i < |s| => 0x30 + Money.Value(s[i]))
  }

  function Commas(parts: seq<Text>): Text {
    if parts == [] then [] else [COMMA] + parts[0] + Commas(parts[1..])
  }

  function Joined(parts: seq<Text>): Text {
    if parts == [] then [] else parts[0] + Commas(parts[1..])
  }

  function Field(e: Entry): Text {
    Quote(e.key) + [COLON] + e.text
  }

  function Fields(es: seq<Entry>): seq<Text> {
    seq(|es|, i requires 0 <= i < |es| => Field(es[i]))
  }

  function Items(v: Json): seq<Text>
    requires v.List?
    decreases v, 0
  {
    seq(|v.items|, i requires 0 <= i < |v.items| => Print(v.items[i]))
  }

  function Entries(v: Json): seq<Entry>
    requires v.Record?
    decreases v, 0
  {
    seq(|v.members|, i requires 0 <= i < |v.members| => Entry(v.members[i].key, Print(v.members[i].value)))
  }

  /** canonical. */
  function Print(v: Json): Text
    decreases v, 1
  {
    match v
    case Absent => [0x6E, 0x75, 0x6C, 0x6C]
    case Null => [0x6E, 0x75, 0x6C, 0x6C]
    case Bool(truth) => if truth then [0x74, 0x72, 0x75, 0x65] else [0x66, 0x61, 0x6C, 0x73, 0x65]
    case Number(n) => if n < 0 then [MINUS] + Digits(-n) else Digits(n)
    case String(s) => Quote(s)
    case List(_) => [OPEN_LIST] + Joined(Items(v)) + [CLOSE_LIST]
    case Record(_) => [OPEN_RECORD] + Joined(Fields(Sort(Entries(v)))) + [CLOSE_RECORD]
  }

  /** The text payloadFingerprint hashes. */
  function PreImage(tool: Text, input: Json): Text {
    tool + [SPACE] + Print(input)
  }

  // ---- Cutting and regrouping texts -------------------------------------------------------

  lemma Cut(a: Text, x: Text, b: Text, y: Text)
    requires |a| == |b| && a + x == b + y
    ensures a == b && x == y
  {
    assert (a + x)[..|a|] == a && (b + y)[..|b|] == b;
    assert (a + x)[|a|..] == x && (b + y)[|b|..] == y;
  }

  lemma Regroup(a: Text, b: Text, c: Text)
    ensures a + b + c == a + (b + c)
  {
  }

  // ---- A quoted string is read back whole -------------------------------------------------

  lemma HexUnique(u: Unit, w: Unit)
    requires Hex(u) == Hex(w)
    ensures u == w
  {
    var a, b := Hex(u), Hex(w);
    assert a[0] == b[0] && a[1] == b[1] && a[2] == b[2] && a[3] == b[3];
    HexParts(u);
    HexParts(w);
  }

  lemma HexParts(u: int)
    requires 0 <= u
    ensures u == u / 4096 * 4096 + u / 256 % 16 * 256 + u / 16 % 16 * 16 + u % 16
  {
    assert u / 16 / 16 == u / 256 && u / 256 / 16 == u / 4096;
  }

  lemma EscapeUnique(u: Unit, w: Unit, x: Text, y: Text)
    requires Escape(u) + x == Escape(w) + y
    ensures u == w && x == y
  {
    var a, b := Escape(u) + x, Escape(w) + y;
    assert a[0] == b[0];
    if a[0] == BACKSLASH {
      assert a[1] == b[1];
      if a[1] == LOWER_U {
        assert a[2..6] == Hex(u) && b[2..6] == Hex(w);
        HexUnique(u, w);
      }
    }
    assert a[|Escape(u)|..] == x && b[|Escape(w)|..] == y;
  }

  lemma CodeUnique(s: Text, t: Text, x: Text, y: Text)
    requires s != [] && t != [] && Code(s) + x == Code(t) + y
    ensures Taken(s) == Taken(t) && s[..Taken(s)] == t[..Taken(t)] && x == y
  {
    var a, b := Code(s) + x, Code(t) + y;
    assert a[0] == b[0];
    if Paired(s) || Paired(t) {
      assert High(a[0]) && Paired(s) && Paired(t);
      assert a[..2] == s[..2] && b[..2] == t[..2];
      assert a[2..] == x && b[2..] == y;
    } else {
      EscapeUnique(s[0], t[0], x, y);
    }
  }

  lemma EscapedSplit(s: Text, z: Text)
    requires s != []
    ensures Escaped(s) + z == Code(s) + (Escaped(s[Taken(s)..]) + z)
    ensures Code(s) != [] && Code(s)[0] != QUOTE && (Escaped(s) + z)[0] == Code(s)[0]
  {
    Regroup(Code(s), Escaped(s[Taken(s)..]), z);
  }

  lemma {:induction false} EscapedUnique(s: Text, t: Text, x: Text, y: Text)
    requires Escaped(s) + ([QUOTE] + x) == Escaped(t) + ([QUOTE] + y)
    ensures s == t && x == y
    decreases |s|
  {
    var x', y' := [QUOTE] + x, [QUOTE] + y;
    if s != [] { EscapedSplit(s, x'); }
    if t != [] { EscapedSplit(t, y'); }
    assert Escaped([]) + x' == x' && Escaped([]) + y' == y';
    if s == [] {
      Cut([QUOTE], x, [QUOTE], y);
    } else {
      var k, l := Taken(s), Taken(t);
      CodeUnique(s, t, Escaped(s[k..]) + x', Escaped(t[l..]) + y');
      EscapedUnique(s[k..], t[l..], x, y);
      assert s == s[..k] + s[k..] && t == t[..l] + t[l..];
    }
  }

  lemma QuoteSplit(s: Text, x: Text)
    ensures Quote(s) + x == [QUOTE] + (Escaped(s) + ([QUOTE] + x))
  {
  }

  lemma QuoteUnique(s: Text, t: Text, x: Text, y: Text)
    requires Quote(s) + x == Quote(t) + y
    ensures s == t && x == y
  {
    QuoteSplit(s, x);
    QuoteSplit(t, y);
    Cut([QUOTE], Escaped(s) + ([QUOTE] + x), [QUOTE], Escaped(t) + ([QUOTE] + y));
    EscapedUnique(s, t, x, y);
  }

  // ---- Numbers ----------------------------------------------------------------------------

  /** What may follow a value: nothing, a comma or a closing bracket. */
  predicate Ends(x: Text) {
    x == [] || x[0] == COMMA || x[0] == CLOSE_LIST || x[0] == CLOSE_RECORD
  }

  predicate IsDigit(u: Unit) {
    0x30 <= u <= 0x39
  }

  /** How many digits a text starts with. */
  function DigitRun(t: Text): nat {
    if t != [] && IsDigit(t[0]) then 1 + DigitRun(t[1..]) else 0
  }

  lemma {:induction false} DigitRunStops(a: Text, x: Text)
    requires Ends(x) && forall i :: 0 <= i < |a| ==> IsDigit(a[i])
    ensures DigitRun(a + x) == |a|
    decreases |a|
  {
    if a == [] {
      assert a + x == x;
    } else {
      assert (a + x)[1..] == a[1..] + x;
      DigitRunStops(a[1..], x);
    }
  }

  lemma DigitsUnique(m: nat, n: nat, x: Text, y: Text)
    requires Ends(x) && Ends(y) && Digits(m) + x == Digits(n) + y
    ensures m == n && x == y
  {
    DigitRunStops(Digits(m), x);
    DigitRunStops(Digits(n), y);
    Cut(Digits(m), x, Digits(n), y);
    DigitsInjective(m, n);
  }

  lemma DigitsInjective(m: nat, n: nat)
    requires Digits(m) == Digits(n)
    ensures m == n
  {
    var s, t := Money.Print(m), Money.Print(n);
    assert |s| == |Digits(m)| && |t| == |Digits(n)|;
    forall i | 0 <= i < |s| ensures s[i] == t[i] {
      assert Digits(m)[i] == Digits(n)[i];
      Money.DigitValue(s[i]);
      Money.DigitValue(t[i]);
    }
    assert s == t;
    Money.ParsePrint(m);
    Money.ParsePrint(n);
  }

  // ---- Lists of parts ---------------------------------------------------------------------

  /** Whatever value-like texts follow, `a` and `b` cannot be confused. */
  ghost predicate Apart(a: Text, b: Text) {
    forall x, y :: Ends(x) && Ends(y) && a + x == b + y ==> a == b && x == y
  }

  ghost predicate AllApart(p: seq<Text>, q: seq<Text>) {
    forall i, j :: 0 <= i < |p| && 0 <= j < |q| ==> Apart(p[i], q[j])
  }

  predicate Closing(c: Unit) {
    c == CLOSE_LIST || c == CLOSE_RECORD
  }

  lemma CommasSplit(p: seq<Text>, z: Text)
    requires p != []
    ensures Commas(p) + z == [COMMA] + (p[0] + (Commas(p[1..]) + z)) && (Commas(p) + z)[0] == COMMA
  {
    Regroup([COMMA] + p[0], Commas(p[1..]), z);
    Regroup([COMMA], p[0], Commas(p[1..]) + z);
  }

  lemma {:induction false} CommasUnique(p: seq<Text>, q: seq<Text>, c: Unit, x: Text, y: Text)
    requires AllApart(p, q) && Closing(c)
    requires Commas(p) + ([c] + x) == Commas(q) + ([c] + y)
    ensures p == q && x == y
    decreases |p|
  {
    var x', y' := [c] + x, [c] + y;
    if p != [] { CommasSplit(p, x'); }
    if q != [] { CommasSplit(q, y'); }
    assert Commas([]) + x' == x' && Commas([]) + y' == y';
    assert x'[0] == c == y'[0] && (Commas(p) + x')[0] == (Commas(q) + y')[0];
    if p == [] {
      Cut([c], x, [c], y);
    } else {
      var u, w := Commas(p[1..]) + x', Commas(q[1..]) + y';
      Cut([COMMA], p[0] + u, [COMMA], q[0] + w);
      assert Apart(p[0], q[0]) && Ends(u) && Ends(w);
      CommasUnique(p[1..], q[1..], c, x, y);
      assert p == [p[0]] + p[1..] && q == [q[0]] + q[1..];
    }
  }

  predicate Opens(p: Text) {
    p != [] && !Closing(p[0])
  }

  lemma JoinedUnique(p: seq<Text>, q: seq<Text>, c: Unit, x: Text, y: Text)
    requires AllApart(p, q) && Closing(c)
    requires forall i :: 0 <= i < |p| ==> Opens(p[i])
    requires forall i :: 0 <= i < |q| ==> Opens(q[i])
    requires Joined(p) + ([c] + x) == Joined(q) + ([c] + y)
    ensures p == q && x == y
  {
    var a, b := Joined(p) + ([c] + x), Joined(q) + ([c] + y);
    assert a[0] == b[0];
    assert p != [] ==> a[0] == p[0][0];
    assert q != [] ==> b[0] == q[0][0];
    assert p == [] <==> q == [];
    assert [COMMA] + a == Commas(p) + ([c] + x) || p == [];
    assert [COMMA] + b == Commas(q) + ([c] + y) || q == [];
    if p != [] {
      CommasUnique(p, q, c, x, y);
    } else {
      assert a[1..] == x && b[1..] == y;
    }
  }

  // ---- Printing alike means the same ------------------------------------------------------

  lemma PrintOpens(v: Json)
    ensures Opens(Print(v))
  {
    if v.Number? { assert IsDigit(Digits(if v.value < 0 then -v.value else v.value)[0]); }
  }

  /** Where two printed values agree up to what follows them, they are the same value and the same
      text follows. */
  lemma {:induction false} PrintUnique(v: Json, w: Json, x: Text, y: Text)
    requires Proper(v) && Proper(w) && Ends(x) && Ends(y)
    requires Print(v) + x == Print(w) + y
    ensures Print(v) == Print(w) && x == y && Same(v, w)
    decreases v
  {
    SameKind(v, w, x, y);
    match v {
      case Absent => assert (Print(v) + x)[4..] == x && (Print(w) + y)[4..] == y;
      case Null => assert (Print(v) + x)[4..] == x && (Print(w) + y)[4..] == y;
      case Bool(_) => assert (Print(v) + x)[|Print(v)|..] == x && (Print(w) + y)[|Print(w)|..] == y;
      case Number(n) => NumberUnique(n, w.value, x, y);
      case String(s) => QuoteUnique(s, w.text, x, y);
      case List(_) => ListUnique(v, w, x, y);
      case Record(_) => RecordUnique(v, w, x, y);
    }
  }

  lemma SameKind(v: Json, w: Json, x: Text, y: Text)
    requires Print(v) + x == Print(w) + y
    ensures Void(v) <==> Void(w)
    ensures v.Bool? <==> w.Bool?
    ensures v.Bool? && w.Bool? ==> v == w
    ensures v.Number? <==> w.Number?
    ensures v.String? <==> w.String?
    ensures v.List? <==> w.List?
    ensures v.Record? <==> w.Record?
  {
    PrintOpens(v);
    PrintOpens(w);
    assert (Print(v) + x)[0] == (Print(w) + y)[0];
    FirstUnit(v);
    FirstUnit(w);
  }

  lemma FirstUnit(v: Json)
    ensures Print(v) != []
    ensures var u := Print(v)[0];
            match v
            case Absent => u == 0x6E
            case Null => u == 0x6E
            case Bool(truth) => u == if truth then 0x74 else 0x66
            case Number(n) => u == MINUS || IsDigit(u)
            case String(_) => u == QUOTE
            case List(_) => u == OPEN_LIST
            case Record(_) => u == OPEN_RECORD
  {
    PrintOpens(v);
    if v.Number? { assert IsDigit(Digits(if v.value < 0 then -v.value else v.value)[0]); }
  }

  lemma NumberUnique(m: int, n: int, x: Text, y: Text)
    requires Ends(x) && Ends(y) && Print(Number(m)) + x == Print(Number(n)) + y
    ensures m == n && x == y
  {
    SignFirst(m, x);
    SignFirst(n, y);
    if m < 0 {
      Regroup([MINUS], Digits(-m), x);
      Regroup([MINUS], Digits(-n), y);
      Cut([MINUS], Digits(-m) + x, [MINUS], Digits(-n) + y);
      DigitsUnique(-m, -n, x, y);
    } else {
      DigitsUnique(m, n, x, y);
    }
  }

  lemma SignFirst(n: int, x: Text)
    ensures Print(Number(n)) + x != [] && ((Print(Number(n)) + x)[0] == MINUS <==> n < 0)
  {
    if n >= 0 { assert IsDigit(Digits(n)[0]); }
  }

  lemma {:induction false} ListUnique(v: Json, w: Json, x: Text, y: Text)
    requires v.List? && w.List? && Proper(v) && Proper(w) && Ends(x) && Ends(y)
    requires Print(v) + x == Print(w) + y
    ensures Print(v) == Print(w) && x == y && Same(v, w)
    decreases v, 0
  {
    var p, q := Items(v), Items(w);
    assert (Print(v) + x)[1..] == Joined(p) + ([CLOSE_LIST] + x);
    assert (Print(w) + y)[1..] == Joined(q) + ([CLOSE_LIST] + y);
    forall i, j | 0 <= i < |p| && 0 <= j < |q| ensures Apart(p[i], q[j]) {
      forall a, b | Ends(a) && Ends(b) && p[i] + a == q[j] + b ensures p[i] == q[j] && a == b {
        PrintUnique(v.items[i], w.items[j], a, b);
      }
    }
    forall i | 0 <= i < |p| ensures Opens(p[i]) { PrintOpens(v.items[i]); }
    forall i | 0 <= i < |q| ensures Opens(q[i]) { PrintOpens(w.items[i]); }
    JoinedUnique(p, q, CLOSE_LIST, x, y);
    forall i | 0 <= i < |p| ensures Same(v.items[i], w.items[i]) {
      assert p[i] == q[i];
      PrintUnique(v.items[i], w.items[i], [], []);
    }
  }

  lemma FieldUnique(d: Entry, e: Entry, x: Text, y: Text)
    requires Apart(d.text, e.text) && Ends(x) && Ends(y) && Field(d) + x == Field(e) + y
    ensures d == e && x == y
  {
    FieldSplit(d, x);
    FieldSplit(e, y);
    QuoteUnique(d.key, e.key, [COLON] + (d.text + x), [COLON] + (e.text + y));
    Cut([COLON], d.text + x, [COLON], e.text + y);
  }

  lemma FieldSplit(d: Entry, x: Text)
    ensures Field(d) + x == Quote(d.key) + ([COLON] + (d.text + x))
  {
    Regroup(Quote(d.key) + [COLON], d.text, x);
    Regroup(Quote(d.key), [COLON], d.text + x);
  }

  lemma FieldApart(d: Entry, e: Entry)
    requires Apart(d.text, e.text)
    ensures Apart(Field(d), Field(e))
    ensures Field(d) == Field(e) ==> d == e
  {
    forall x, y | Ends(x) && Ends(y) && Field(d) + x == Field(e) + y
      ensures d == e && x == y
    {
      FieldUnique(d, e, x, y);
    }
    if Field(d) == Field(e) { FieldUnique(d, e, [], []); }
  }

  /** A sorted entry is one of the record's members, printed. */
  lemma EntryOrigin(v: Json, e: Entry) returns (k: int)
    requires v.Record? && e in Sort(Entries(v))
    ensures 0 <= k < |v.members| && e == Entry(v.members[k].key, Print(v.members[k].value))
  {
    assert e in multiset(Sort(Entries(v)));
    assert e in Entries(v);
    k :| 0 <= k < |v.members| && Entries(v)[k] == e;
  }

  lemma EntrySorted(v: Json, k: int)
    requires v.Record? && 0 <= k < |v.members|
    ensures Entry(v.members[k].key, Print(v.members[k].value)) in Sort(Entries(v))
  {
    assert Entries(v)[k] in multiset(Entries(v));
    assert Entries(v)[k] in multiset(Sort(Entries(v)));
  }

  ghost predicate EntriesApart(d: seq<Entry>, e: seq<Entry>) {
    forall i, j :: 0 <= i < |d| && 0 <= j < |e| ==> Apart(d[i].text, e[j].text)
  }

  lemma FieldsUnique(d: seq<Entry>, e: seq<Entry>, c: Unit, x: Text, y: Text)
    requires EntriesApart(d, e) && Closing(c)
    requires Joined(Fields(d)) + ([c] + x) == Joined(Fields(e)) + ([c] + y)
    ensures d == e && x == y
  {
    forall i, j | 0 <= i < |d| && 0 <= j < |e|
      ensures Apart(Fields(d)[i], Fields(e)[j]) && (Fields(d)[i] == Fields(e)[j] ==> d[i] == e[j])
    {
      FieldApart(d[i], e[j]);
    }
    JoinedUnique(Fields(d), Fields(e), c, x, y);
    assert |d| == |Fields(d)| == |Fields(e)| == |e|;
    assert forall i :: 0 <= i < |d| ==> Fields(d)[i] == Fields(e)[i];
  }

  lemma Bracketed(open: Unit, inner: Text, c: Unit, x: Text)
    ensures [open] + inner + [c] + x == [open] + (inner + ([c] + x))
  {
  }

  lemma {:induction false} RecordUnique(v: Json, w: Json, x: Text, y: Text)
    requires v.Record? && w.Record? && Proper(v) && Proper(w) && Ends(x) && Ends(y)
    requires Print(v) + x == Print(w) + y
    ensures Print(v) == Print(w) && x == y && Same(v, w)
    decreases v, 1
  {
    var d, e := Sort(Entries(v)), Sort(Entries(w));
    Bracketed(OPEN_RECORD, Joined(Fields(d)), CLOSE_RECORD, x);
    Bracketed(OPEN_RECORD, Joined(Fields(e)), CLOSE_RECORD, y);
    Cut([OPEN_RECORD], Joined(Fields(d)) + ([CLOSE_RECORD] + x), [OPEN_RECORD], Joined(Fields(e)) + ([CLOSE_RECORD] + y));
    RecordApart(v, w);
    FieldsUnique(d, e, CLOSE_RECORD, x, y);
    EntriesSame(v, w);
    forall i, j | 0 <= i < |v.members| && 0 <= j < |w.members| && v.members[i].key == w.members[j].key
      ensures Same(v.members[i].value, w.members[j].value)
    {
      PrintUnique(v.members[i].value, w.members[j].value, [], []);
    }
  }

  lemma {:induction false} RecordApart(v: Json, w: Json)
    requires v.Record? && w.Record? && Proper(v) && Proper(w)
    ensures EntriesApart(Sort(Entries(v)), Sort(Entries(w)))
    decreases v, 0
  {
    var d, e := Sort(Entries(v)), Sort(Entries(w));
    forall i, j | 0 <= i < |d| && 0 <= j < |e| ensures Apart(d[i].text, e[j].text) {
      var k := EntryOrigin(v, d[i]);
      var l := EntryOrigin(w, e[j]);
      forall a, b | Ends(a) && Ends(b) && d[i].text + a == e[j].text + b ensures d[i].text == e[j].text && a == b {
        PrintUnique(v.members[k].value, w.members[l].value, a, b);
      }
    }
  }

  /** Records with the same sorted entries have the same keys and print the same value at each. */
  lemma EntriesSame(v: Json, w: Json)
    requires v.Record? && w.Record? && Proper(w) && Sort(Entries(v)) == Sort(Entries(w))
    ensures Keys(v.members) == Keys(w.members)
    ensures forall i, j :: 0 <= i < |v.members| && 0 <= j < |w.members| && v.members[i].key == w.members[j].key ==>
              Print(v.members[i].value) == Print(w.members[j].value)
  {
    forall i | 0 <= i < |v.members|
      ensures v.members[i].key in Keys(w.members)
      ensures forall j :: 0 <= j < |w.members| && v.members[i].key == w.members[j].key ==>
                Print(v.members[i].value) == Print(w.members[j].value)
    {
      EntrySorted(v, i);
      var k := EntryOrigin(w, Entry(v.members[i].key, Print(v.members[i].value)));
      assert w.members[k].key == v.members[i].key;
    }
    forall j | 0 <= j < |w.members| ensures w.members[j].key in Keys(v.members) {
      EntrySorted(w, j);
      var k := EntryOrigin(v, Entry(w.members[j].key, Print(w.members[j].value)));
      assert v.members[k].key == w.members[j].key;
    }
  }

  // ---- The same prints alike --------------------------------------------------------------

  lemma {:induction false} BelowTotal(a: Text, b: Text)
    ensures a == b || Below(a, b) || Below(b, a)
    decreases |a|
  {
    if a != [] && b != [] && a[0] == b[0] {
      BelowTotal(a[1..], b[1..]);
      assert a == [a[0]] + a[1..] && b == [b[0]] + b[1..];
    }
  }

  lemma {:induction false} BelowAsymmetric(a: Text, b: Text)
    requires Below(a, b)
    ensures !Below(b, a) && a != b
    decreases |a|
  {
    if a != [] && a[0] == b[0] { BelowAsymmetric(a[1..], b[1..]); }
  }

  lemma {:induction false} BelowTransitive(a: Text, b: Text, c: Text)
    requires Below(a, b) && Below(b, c)
    ensures Below(a, c)
    decreases |a|
  {
    if a != [] && a[0] == b[0] && b[0] == c[0] { BelowTransitive(a[1..], b[1..], c[1..]); }
  }

  ghost predicate Sorted(s: seq<Entry>) {
    forall i, j :: 0 <= i < j < |s| ==> Below(s[i].key, s[j].key)
  }

  lemma {:induction false} InsertSorted(e: Entry, s: seq<Entry>)
    requires Sorted(s) && forall i :: 0 <= i < |s| ==> s[i].key != e.key
    ensures Sorted(Insert(e, s))
    decreases |s|
  {
    if s != [] {
      if Below(e.key, s[0].key) {
        forall j | 0 <= j < |s| ensures Below(e.key, s[j].key) {
          if j > 0 { BelowTransitive(e.key, s[0].key, s[j].key); }
        }
      } else {
        BelowTotal(e.key, s[0].key);
        InsertSorted(e, s[1..]);
        var r := Insert(e, s[1..]);
        forall j | 0 <= j < |r| ensures Below(s[0].key, r[j].key) {
          assert r[j] in multiset(r);
          assert r[j] == e || r[j] in s[1..];
        }
      }
    }
  }

  lemma {:induction false} SortSorts(s: seq<Entry>)
    requires forall i, j :: 0 <= i < j < |s| ==> s[i].key != s[j].key
    ensures Sorted(Sort(s))
    decreases |s|
  {
    if s != [] {
      SortSorts(s[1..]);
      var r := Sort(s[1..]);
      forall i | 0 <= i < |r| ensures r[i].key != s[0].key {
        assert r[i] in multiset(r);
        assert r[i] in s[1..];
      }
      InsertSorted(s[0], r);
    }
  }

  /** Only one order of a set of entries is sorted. */
  lemma {:induction false} SortedUnique(s: seq<Entry>, t: seq<Entry>)
    requires Sorted(s) && Sorted(t) && forall e :: e in s <==> e in t
    ensures s == t
    decreases |s|
  {
    assert t != [] ==> t[0] in t;
    if s != [] {
      assert s[0] in s && s[0] in t;
      assert t[0] in t && t[0] in s;
      LeastFirst(s, t[0]);
      LeastFirst(t, s[0]);
      if s[0] != t[0] { BelowAsymmetric(s[0].key, t[0].key); }
      forall e ensures e in s[1..] <==> e in t[1..] {
        RestOfSorted(s, e);
        RestOfSorted(t, e);
      }
      SortedUnique(s[1..], t[1..]);
      assert s == [s[0]] + s[1..] && t == [t[0]] + t[1..];
    }
  }

  lemma LeastFirst(s: seq<Entry>, e: Entry)
    requires Sorted(s) && e in s
    ensures e == s[0] || Below(s[0].key, e.key)
  {
  }

  lemma RestOfSorted(s: seq<Entry>, e: Entry)
    requires Sorted(s) && s != []
    ensures e in s[1..] <==> e in s && e != s[0]
  {
    if e in s[1..] {
      var i :| 0 <= i < |s| - 1 && s[1..][i] == e;
      BelowAsymmetric(s[0].key, s[i + 1].key);
    }
  }

  lemma {:induction false} SamePrints(v: Json, w: Json)
    requires Proper(v) && Proper(w) && Same(v, w)
    ensures Print(v) == Print(w)
    decreases v
  {
    match v {
      case List(items) =>
        forall i | 0 <= i < |items| ensures Items(v)[i] == Items(w)[i] { SamePrints(items[i], w.items[i]); }
        assert Items(v) == Items(w);
      case Record(ms) =>
        forall i, j | 0 <= i < |ms| && 0 <= j < |w.members| && ms[i].key == w.members[j].key
          ensures Entries(v)[i] == Entries(w)[j]
        {
          SamePrints(ms[i].value, w.members[j].value);
        }
        SameEntries(v, w);
      case _ =>
    }
  }

  lemma SameEntries(v: Json, w: Json)
    requires v.Record? && w.Record? && Proper(v) && Proper(w) && Keys(v.members) == Keys(w.members)
    requires forall i, j :: 0 <= i < |v.members| && 0 <= j < |w.members| && v.members[i].key == w.members[j].key ==>
               Entries(v)[i] == Entries(w)[j]
    ensures Sort(Entries(v)) == Sort(Entries(w))
  {
    SortSorts(Entries(v));
    SortSorts(Entries(w));
    forall e ensures e in Sort(Entries(v)) <==> e in Sort(Entries(w)) {
      if e in Sort(Entries(v)) {
        var k := EntryOrigin(v, e);
        assert v.members[k].key in Keys(w.members);
        var l :| 0 <= l < |w.members| && w.members[l].key == v.members[k].key;
        assert Entries(v)[k] == Entries(w)[l];
        EntrySorted(w, l);
      }
      if e in Sort(Entries(w)) {
        var l := EntryOrigin(w, e);
        assert w.members[l].key in Keys(v.members);
        var k :| 0 <= k < |v.members| && v.members[k].key == w.members[l].key;
        assert Entries(v)[k] == Entries(w)[l];
        EntrySorted(v, k);
      }
    }
    SortedUnique(Sort(Entries(v)), Sort(Entries(w)));
  }

  /** Two inputs print alike exactly when they are the same call. */
  lemma PrintsAlikeExactly(v: Json, w: Json)
    requires Proper(v) && Proper(w)
    ensures Print(v) == Print(w) <==> Same(v, w)
  {
    if Print(v) == Print(w) { PrintUnique(v, w, [], []); }
    if Same(v, w) { SamePrints(v, w); }
  }

  // ---- The fingerprint's pre-image --------------------------------------------------------

  /** Reading a printed value: outside strings, inside one, after its backslash, or impossible. */
  datatype Mode = Outside | Inside | Escaping | Bad

  function Next(m: Mode, u: Unit): Mode {
    match m
    case Outside => if u == QUOTE then Inside else if u == SPACE || u == BACKSLASH then Bad else Outside
    case Inside => if u == QUOTE then Outside else if u == BACKSLASH then Escaping else Inside
    case Escaping => if u == SPACE then Bad else Inside
    case Bad => Bad
  }

  function Scan(m: Mode, t: Text): Mode
    decreases |t|
  {
    if t == [] then m else Scan(Next(m, t[0]), t[1..])
  }

  lemma {:induction false} ScanAppend(m: Mode, a: Text, b: Text)
    ensures Scan(m, a + b) == Scan(Scan(m, a), b)
    decreases |a|
  {
    if a == [] {
      assert a + b == b;
    } else {
      assert (a + b)[1..] == a[1..] + b;
      ScanAppend(Next(m, a[0]), a[1..], b);
    }
  }

  lemma {:induction false} BadStays(t: Text)
    ensures Scan(Bad, t) == Bad
    decreases |t|
  {
    if t != [] { BadStays(t[1..]); }
  }

  predicate Plain(u: Unit) {
    u != QUOTE && u != SPACE && u != BACKSLASH
  }

  lemma {:induction false} PlainStays(m: Mode, t: Text)
    requires m == Outside || m == Inside
    requires forall i :: 0 <= i < |t| ==> t[i] != QUOTE && t[i] != BACKSLASH && (t[i] != SPACE || m == Inside)
    ensures Scan(m, t) == m
    decreases |t|
  {
    if t != [] { PlainStays(m, t[1..]); }
  }

  lemma CodeScans(s: Text)
    requires s != []
    ensures Scan(Inside, Code(s)) == Inside
  {
    var c := Code(s);
    if c[0] == BACKSLASH {
      assert c == [BACKSLASH] + c[1..];
      assert Scan(Inside, c) == Scan(Escaping, c[1..]) == Scan(Inside, c[1..][1..]);
      PlainStays(Inside, c[1..][1..]);
    } else {
      PlainStays(Inside, c);
    }
  }

  lemma {:induction false} EscapedScans(s: Text)
    ensures Scan(Inside, Escaped(s)) == Inside
    decreases |s|
  {
    if s != [] {
      CodeScans(s);
      EscapedScans(s[Taken(s)..]);
      ScanAppend(Inside, Code(s), Escaped(s[Taken(s)..]));
    }
  }

  lemma QuoteScans(s: Text)
    ensures Scan(Outside, Quote(s)) == Outside
  {
    EscapedScans(s);
    ScanAppend(Outside, [QUOTE] + Escaped(s), [QUOTE]);
    ScanAppend(Outside, [QUOTE], Escaped(s));
    assert Scan(Outside, [QUOTE]) == Scan(Inside, []) && Scan(Inside, [QUOTE]) == Scan(Outside, []);
  }

  lemma {:induction false} CommasScan(p: seq<Text>)
    requires forall i :: 0 <= i < |p| ==> Scan(Outside, p[i]) == Outside
    ensures Scan(Outside, Commas(p)) == Outside
    decreases |p|
  {
    if p != [] {
      CommasScan(p[1..]);
      PlainStays(Outside, [COMMA]);
      ScanAppend(Outside, [COMMA], p[0]);
      ScanAppend(Outside, [COMMA] + p[0], Commas(p[1..]));
    }
  }

  lemma BracketsScan(open: Unit, p: seq<Text>, c: Unit)
    requires Plain(open) && Plain(c)
    requires forall i :: 0 <= i < |p| ==> Scan(Outside, p[i]) == Outside
    ensures Scan(Outside, [open] + Joined(p) + [c]) == Outside
  {
    if p != [] {
      CommasScan(p[1..]);
      ScanAppend(Outside, p[0], Commas(p[1..]));
    }
    PlainStays(Outside, [open]);
    PlainStays(Outside, [c]);
    ScanAppend(Outside, [open], Joined(p));
    ScanAppend(Outside, [open] + Joined(p), [c]);
  }

  lemma FieldScans(e: Entry)
    requires Scan(Outside, e.text) == Outside
    ensures Scan(Outside, Field(e)) == Outside
  {
    QuoteScans(e.key);
    PlainStays(Outside, [COLON]);
    ScanAppend(Outside, Quote(e.key), [COLON]);
    ScanAppend(Outside, Quote(e.key) + [COLON], e.text);
  }

  /** Every printed value closes its strings, and has spaces and backslashes only inside them. */
  lemma {:induction false} PrintScans(v: Json)
    ensures Scan(Outside, Print(v)) == Outside
    decreases v
  {
    match v {
      case String(s) => QuoteScans(s);
      case List(items) =>
        forall i | 0 <= i < |items| ensures Scan(Outside, Items(v)[i]) == Outside { PrintScans(items[i]); }
        BracketsScan(OPEN_LIST, Items(v), CLOSE_LIST);
      case Record(_) =>
        FieldsScan(v);
        BracketsScan(OPEN_RECORD, Fields(Sort(Entries(v))), CLOSE_RECORD);
      case _ => SimpleScans(v);
    }
  }

  lemma SimpleScans(v: Json)
    requires !v.String? && !v.List? && !v.Record?
    ensures Scan(Outside, Print(v)) == Outside
  {
    PlainStays(Outside, Print(v));
  }

  lemma {:induction false} FieldsScan(v: Json)
    requires v.Record?
    ensures forall i :: 0 <= i < |Sort(Entries(v))| ==> Scan(Outside, Fields(Sort(Entries(v)))[i]) == Outside
    decreases v, 0
  {
    var es := Sort(Entries(v));
    forall i | 0 <= i < |es| ensures Scan(Outside, Fields(es)[i]) == Outside {
      var k := EntryOrigin(v, es[i]);
      PrintScans(v.members[k].value);
      FieldScans(es[i]);
    }
  }

  /** No text reads whole both from outside a string and from inside one. */
  lemma {:induction false} NotBothWays(m: Mode, n: Mode, t: Text)
    requires (m == Inside && n == Outside) || (m == Outside && n == Inside)
    ensures !(Scan(m, t) == Outside && Scan(n, t) == Outside)
    decreases |t|
  {
    if t != [] {
      if t[0] == BACKSLASH || t[0] == SPACE {
        BadStays(t[1..]);
      } else {
        NotBothWays(Next(m, t[0]), Next(n, t[0]), t[1..]);
      }
    }
  }

  /** A printed value is never the end of another, after a space. */
  lemma NoSpaceBefore(v: Json, w: Json, a: Text)
    ensures Print(v) != a + [SPACE] + Print(w)
  {
    var b := Print(w);
    ScanAppend(Outside, a + [SPACE], b);
    ScanAppend(Outside, a, [SPACE]);
    var m := Scan(Outside, a);
    assert Scan(m, [SPACE]) == Scan(Next(m, SPACE), []) == Next(m, SPACE);
    PrintScans(v);
    PrintScans(w);
    BadStays(b);
    NotBothWays(Inside, Outside, b);
  }

  lemma ToolsAlike(t: Text, v: Json, u: Text, w: Json)
    requires PreImage(t, v) == PreImage(u, w) && |t| <= |u|
    ensures t == u
  {
    var p, q := Print(v), Print(w);
    CutTool(t, p, u, q);
    if |t| < |u| { NoSpaceBefore(v, w, u[|t| + 1..]); }
  }

  lemma CutTool(t: Text, p: Text, u: Text, q: Text)
    requires t + [SPACE] + p == u + [SPACE] + q && |t| <= |u|
    ensures if |t| < |u| then p == u[|t| + 1..] + [SPACE] + q else t == u
  {
    var k := |t|;
    assert (t + [SPACE] + p)[k + 1..] == p;
    if k < |u| {
      assert (u + [SPACE] + q)[k + 1..] == u[k + 1..] + [SPACE] + q;
    } else {
      assert (t + [SPACE] + p)[..k] == t && (u + [SPACE] + q)[..k] == u;
    }
  }

  /** The hashed text decides the tool and the input, whatever characters the tool's name holds. */
  lemma PreImageBinds(t: Text, v: Json, u: Text, w: Json)
    requires Proper(v) && Proper(w)
    ensures PreImage(t, v) == PreImage(u, w) <==> t == u && Same(v, w)
  {
    PrintsAlikeExactly(v, w);
    if PreImage(t, v) == PreImage(u, w) {
      if |t| <= |u| { ToolsAlike(t, v, u, w); } else { ToolsAlike(u, w, t, v); }
      Cut(t + [SPACE], Print(v), u + [SPACE], Print(w));
    }
  }
}
