/** The canonical text read back by the rules of RFC 8259 alone: what is printed is JSON, says the value
    it was printed from with its keys in ascending order, and is well-formed UTF-16. */
module JsonReading {
  import opened Basics
  import opened CanonicalJson
  import Money
  import P = Paging

  // ---- Strings: section 7 -----------------------------------------------------------------

  function HexValue(u: Unit): Option<nat> {
    if 0x30 <= u <= 0x39 then Some(u - 0x30)
    else if 0x41 <= u <= 0x46 then Some(u - 0x41 + 10)
    else if 0x61 <= u <= 0x66 then Some(u - 0x61 + 10)
    else None
  }

  /** What stands behind a backslash, other than a hexadecimal escape. */
  function Short(u: Unit): Option<Unit> {
    match u
    case 0x22 => Some(0x22)   // quotation mark
    case 0x5C => Some(0x5C)   // reverse solidus
    case 0x2F => Some(0x2F)   // solidus
    case 0x62 => Some(0x08)   // backspace
    case 0x66 => Some(0x0C)   // form feed
    case 0x6E => Some(0x0A)   // line feed
    case 0x72 => Some(0x0D)   // carriage return
    case 0x74 => Some(0x09)   // tab
    case _ => None
  }

  function FourHex(t: Text): Option<Unit>
    requires |t| == 4
  {
    var a, b, c, d := HexValue(t[0]), HexValue(t[1]), HexValue(t[2]), HexValue(t[3]);
    if a.None? || b.None? || c.None? || d.None? || a.value > 15 || b.value > 15 || c.value > 15 || d.value > 15 then None
    else Some(a.value * 4096 + b.value * 256 + c.value * 16 + d.value)
  }

  /** The text between the quotation marks, read back. */
  function Unescape(t: Text): Option<Text>
    decreases |t|
  {
    if t == [] then Some([])
    else if t[0] == 0x22 || t[0] < 0x20 then None
    else if t[0] != 0x5C then Prefixed([t[0]], Unescape(t[1..]))
    else if |t| >= 6 && t[1] == 0x75 then
      var u := FourHex(t[2..6]);
      if u.None? then None else Prefixed([u.value], Unescape(t[6..]))
    else if |t| >= 2 && Short(t[1]).Some? then Prefixed([Short(t[1]).value], Unescape(t[2..]))
    else None
  }

  function Prefixed(a: Text, b: Option<Text>): Option<Text> {
    if b.None? then None else Some(a + b.value)
  }

  lemma HexReads(u: Unit)
    ensures FourHex(Hex(u)) == Some(u)
  {
    HexDigitReads(u / 4096);
    HexDigitReads(u / 256 % 16);
    HexDigitReads(u / 16 % 16);
    HexDigitReads(u % 16);
    HexParts(u);
  }

  lemma HexDigitReads(d: int)
    requires 0 <= d < 16
    ensures HexValue(HexDigit(d)) == Some(d)
  {
  }

  lemma EscapeReads(u: Unit, rest: Text)
    ensures Unescape(Escape(u) + rest) == Prefixed([u], Unescape(rest))
  {
    var t := Escape(u) + rest;
    if Letter(u) != 0 {
      assert t[0] == BACKSLASH && t[1] == Letter(u) && t[2..] == rest;
    } else if u < 0x20 || High(u) || Low(u) {
      HexReads(u);
      assert t[0] == BACKSLASH && t[1] == LOWER_U && t[2..6] == Hex(u) && t[6..] == rest;
    } else {
      assert t[0] == u && t[1..] == rest;
    }
  }

  lemma {:induction false} EscapedReads(s: Text)
    ensures Unescape(Escaped(s)) == Some(s)
    decreases |s|
  {
    if s != [] {
      var rest := s[Taken(s)..];
      EscapedReads(rest);
      if Paired(s) {
        assert Escape(s[0]) != [s[0]];
        var t := Code(s) + Escaped(rest);
        assert t[0] == s[0] && t[1] == s[1] && t[1..][1..] == Escaped(rest);
        assert Unescape(t[1..]) == Prefixed([s[1]], Some(rest));
        assert s == [s[0]] + ([s[1]] + rest);
      } else {
        EscapeReads(s[0], Escaped(rest));
        assert s == [s[0]] + rest;
      }
    }
  }

  /** The quoted text of a string. */
  predicate SaysString(t: Text, s: Text) {
    |t| >= 2 && t[0] == 0x22 && t[|t| - 1] == 0x22 && Unescape(t[1..|t| - 1]) == Some(s)
  }

  lemma QuoteReads(s: Text)
    ensures SaysString(Quote(s), s)
  {
    EscapedReads(s);
    assert Quote(s)[1..|Quote(s)| - 1] == Escaped(s);
  }

  // ---- Numbers: section 6 -----------------------------------------------------------------

  /** A decimal numeral without a leading zero. */
  function ReadNat(t: Text): Option<nat>
    decreases |t|
  {
    if t == [] || !IsDigit(t[|t| - 1]) then None
    else if |t| == 1 then Some(t[0] - 0x30)
    else
      var before := ReadNat(t[..|t| - 1]);
      if before.None? || before.value == 0 then None else Some(10 * before.value + t[|t| - 1] - 0x30)
  }

  predicate SaysNumber(t: Text, n: int) {
    if n < 0 then t != [] && t[0] == 0x2D && ReadNat(t[1..]) == Some(-n) else ReadNat(t) == Some(n)
  }

  lemma {:induction false} DigitsRead(n: nat)
    ensures ReadNat(Digits(n)) == Some(n)
    decreases n
  {
    var t := Digits(n);
    if n < 10 {
      assert t == [0x30 + n];
    } else {
      DigitsRead(n / 10);
      assert t[..|t| - 1] == Digits(n / 10);
      assert t[|t| - 1] == 0x30 + n % 10;
    }
  }

  lemma NumberReads(n: int)
    ensures SaysNumber(Print(Number(n)), n)
  {
    if n < 0 {
      DigitsRead(-n);
      assert ([MINUS] + Digits(-n))[1..] == Digits(-n);
    } else {
      DigitsRead(n);
    }
  }

  // ---- Values: sections 3 to 5 ------------------------------------------------------------

  /** Less in the order of code units: at the first difference, or by being a proper prefix. */
  predicate Earlier(a: Text, b: Text) {
    exists i :: 0 <= i <= |a| && EarlierAt(a, b, i)
  }

  predicate EarlierAt(a: Text, b: Text, i: int) {
    && 0 <= i <= |a| && i < |b| && a[..i] == b[..i] && (i == |a| || a[i] < b[i])
  }

  /** Each member once, in ascending order of keys. */
  ghost predicate Ascending(ms: seq<Member>, order: seq<nat>) {
    && |order| == |ms| && (forall j :: 0 <= j < |order| ==> order[j] < |ms|)
    && forall j, k :: 0 <= j < k < |order| ==> order[j] < |ms| && order[k] < |ms| && Earlier(ms[order[j]].key, ms[order[k]].key)
  }

  /** A name, a colon and a value. */
  predicate SaysName(t: Text, name: Text, key: Text, value: Text) {
    t == name + [0x3A] + value && SaysString(name, key)
  }

  /** The text is JSON for the value, without whitespace, every record in ascending order of keys. */
  ghost predicate SaysValue(t: Text, v: Json)
    decreases v, 1
  {
    match v
    case Absent => t == [0x6E, 0x75, 0x6C, 0x6C]
    case Null => t == [0x6E, 0x75, 0x6C, 0x6C]
    case Bool(b) => t == if b then [0x74, 0x72, 0x75, 0x65] else [0x66, 0x61, 0x6C, 0x73, 0x65]
    case Number(n) => SaysNumber(t, n)
    case String(s) => SaysString(t, s)
    case List(items) =>
      exists parts: seq<Text> :: |parts| == |items| && t == [0x5B] + Joined(parts) + [0x5D]
                                 && forall i :: 0 <= i < |items| ==> SaysValue(parts[i], items[i])
    case Record(_) =>
      exists order: seq<nat>, parts: seq<Text>, names: seq<Text>, values: seq<Text> ::
        t == [0x7B] + Joined(parts) + [0x7D] && SaysMembers(v, order, parts, names, values)
  }

  /** The parts are the record's members, in this order. */
  ghost predicate SaysMembers(v: Json, order: seq<nat>, parts: seq<Text>, names: seq<Text>, values: seq<Text>)
    requires v.Record?
    decreases v, 0
  {
    && Ascending(v.members, order) && |parts| == |names| == |values| == |v.members|
    && forall j :: 0 <= j < |v.members| ==>
         && order[j] < |v.members| && SaysName(parts[j], names[j], v.members[order[j]].key, values[j])
         && SaysValue(values[j], v.members[order[j]].value)
  }

  lemma {:induction false} BelowIsEarlier(a: Text, b: Text)
    requires Below(a, b)
    ensures Earlier(a, b)
    decreases |a|
  {
    if a == [] || a[0] != b[0] {
      assert EarlierAt(a, b, 0);
    } else {
      BelowIsEarlier(a[1..], b[1..]);
      var i :| 0 <= i <= |a[1..]| && EarlierAt(a[1..], b[1..], i);
      assert a[..i + 1] == [a[0]] + a[1..][..i] && b[..i + 1] == [b[0]] + b[1..][..i];
      assert EarlierAt(a, b, i + 1);
    }
  }

  ghost predicate Places(v: Json, order: seq<nat>)
    requires v.Record?
  {
    && |Sort(Entries(v))| == |order| == |v.members|
    && forall j :: 0 <= j < |order| ==> PlaceAt(v, order, j)
  }

  predicate PlaceAt(v: Json, order: seq<nat>, j: int)
    requires v.Record? && 0 <= j < |order|
  {
    order[j] < |v.members| && j < |Sort(Entries(v))|
    && Sort(Entries(v))[j] == Entry(v.members[order[j]].key, Print(v.members[order[j]].value))
  }

  /** The places of the sorted entries among the members. */
  lemma SortedOrder(v: Json) returns (order: seq<nat>)
    requires v.Record? && Proper(v)
    ensures Places(v, order) && Ascending(v.members, order)
  {
    var es := Sort(Entries(v));
    assert |multiset(es)| == |multiset(Entries(v))|;
    order := [];
    while |order| < |es|
      invariant |order| <= |es|
      invariant forall j :: 0 <= j < |order| ==> PlaceAt(v, order, j)
    {
      var k := EntryOrigin(v, es[|order|]);
      OnePlaceMore(v, order, k);
      order := order + [k];
    }
    PlacesAscend(v, order);
  }

  lemma OnePlaceMore(v: Json, order: seq<nat>, k: nat)
    requires v.Record? && |order| < |Sort(Entries(v))| && k < |v.members|
    requires Sort(Entries(v))[|order|] == Entry(v.members[k].key, Print(v.members[k].value))
    requires forall j :: 0 <= j < |order| ==> PlaceAt(v, order, j)
    ensures forall j :: 0 <= j < |order| + 1 ==> PlaceAt(v, order + [k], j)
  {
    forall j | 0 <= j < |order| + 1 ensures PlaceAt(v, order + [k], j) {
      if j < |order| { assert PlaceAt(v, order, j); }
    }
  }

  lemma PlacesAscend(v: Json, order: seq<nat>)
    requires v.Record? && Proper(v) && Places(v, order)
    ensures Ascending(v.members, order)
  {
    SortSorts(Entries(v));
    forall j | 0 <= j < |order| ensures order[j] < |v.members| { assert PlaceAt(v, order, j); }
    forall j, k | 0 <= j < k < |order| ensures Earlier(v.members[order[j]].key, v.members[order[k]].key) {
      assert PlaceAt(v, order, j) && PlaceAt(v, order, k);
      BelowIsEarlier(v.members[order[j]].key, v.members[order[k]].key);
    }
  }

  /** What is printed is JSON that says the value, keys ascending. */
  lemma {:induction false} PrintSays(v: Json)
    requires Proper(v)
    ensures SaysValue(Print(v), v)
    decreases v
  {
    match v {
      case Number(n) => NumberReads(n);
      case String(s) => QuoteReads(s);
      case List(items) =>
        var parts := Items(v);
        forall i | 0 <= i < |items| ensures SaysValue(parts[i], items[i]) { PrintSays(items[i]); }
      case Record(ms) => RecordSays(v);
      case _ =>
    }
  }

  function NamesOf(es: seq<Entry>): seq<Text> {
    seq(|es|, j requires 0 <= j < |es| => Quote(es[j].key))
  }

  function ValuesOf(es: seq<Entry>): seq<Text> {
    seq(|es|, j requires 0 <= j < |es| => es[j].text)
  }

  lemma {:induction false} RecordSays(v: Json)
    requires v.Record? && Proper(v)
    ensures SaysValue(Print(v), v)
    decreases v, 0
  {
    var es := Sort(Entries(v));
    var order := SortedOrder(v);
    forall j | 0 <= j < |v.members|
      ensures order[j] < |v.members| && SaysName(Fields(es)[j], NamesOf(es)[j], v.members[order[j]].key, ValuesOf(es)[j])
      ensures SaysValue(ValuesOf(es)[j], v.members[order[j]].value)
    {
      assert PlaceAt(v, order, j);
      QuoteReads(es[j].key);
      PrintSays(v.members[order[j]].value);
    }
    assert SaysMembers(v, order, Fields(es), NamesOf(es), ValuesOf(es));
  }

  // ---- Well-formed text -------------------------------------------------------------------

  lemma WellFormedAppend(a: Text, b: Text)
    requires P.WellFormedUtf16(a) && P.WellFormedUtf16(b)
    ensures P.WellFormedUtf16(a + b)
  {
    var t := a + b;
    forall i | 0 <= i < |t| && High(t[i]) ensures i + 1 < |t| && Low(t[i + 1]) {
      if i < |a| { assert High(a[i]); } else { assert High(b[i - |a|]); }
    }
    forall i | 0 <= i < |t| && Low(t[i]) ensures P.SplitsPair(t, i) {
      if i < |a| { assert P.SplitsPair(a, i); } else { assert P.SplitsPair(b, i - |a|); }
    }
  }

  predicate NoSurrogate(t: Text) {
    forall i :: 0 <= i < |t| ==> !High(t[i]) && !Low(t[i])
  }

  lemma PlainIsWellFormed(t: Text)
    requires NoSurrogate(t)
    ensures P.WellFormedUtf16(t)
  {
  }

  lemma {:induction false} EscapedWellFormed(s: Text)
    ensures P.WellFormedUtf16(Escaped(s))
    decreases |s|
  {
    if s != [] {
      EscapedWellFormed(s[Taken(s)..]);
      if !Paired(s) { PlainIsWellFormed(Code(s)); }
      WellFormedAppend(Code(s), Escaped(s[Taken(s)..]));
    }
  }

  lemma QuoteWellFormed(s: Text)
    ensures P.WellFormedUtf16(Quote(s))
  {
    EscapedWellFormed(s);
    WellFormedAppend([QUOTE], Escaped(s));
    WellFormedAppend([QUOTE] + Escaped(s), [QUOTE]);
  }

  lemma {:induction false} CommasWellFormed(parts: seq<Text>)
    requires forall i :: 0 <= i < |parts| ==> P.WellFormedUtf16(parts[i])
    ensures P.WellFormedUtf16(Commas(parts))
    decreases |parts|
  {
    if parts != [] {
      CommasWellFormed(parts[1..]);
      WellFormedAppend([COMMA], parts[0]);
      WellFormedAppend([COMMA] + parts[0], Commas(parts[1..]));
    }
  }

  lemma BracketedWellFormed(open: Unit, parts: seq<Text>, c: Unit)
    requires NoSurrogate([open]) && NoSurrogate([c]) && forall i :: 0 <= i < |parts| ==> P.WellFormedUtf16(parts[i])
    ensures P.WellFormedUtf16([open] + Joined(parts) + [c])
  {
    if parts != [] {
      CommasWellFormed(parts[1..]);
      WellFormedAppend(parts[0], Commas(parts[1..]));
    }
    WellFormedAppend([open], Joined(parts));
    WellFormedAppend([open] + Joined(parts), [c]);
  }

  /** The printed text holds no lone surrogate, whatever strings and keys the value holds, so its UTF-8
      encoding loses nothing. */
  lemma {:induction false} PrintIsWellFormed(v: Json)
    ensures P.WellFormedUtf16(Print(v))
    decreases v
  {
    match v {
      case String(s) => QuoteWellFormed(s);
      case List(items) =>
        forall i | 0 <= i < |items| ensures P.WellFormedUtf16(Items(v)[i]) { PrintIsWellFormed(items[i]); }
        BracketedWellFormed(OPEN_LIST, Items(v), CLOSE_LIST);
      case Record(_) =>
        FieldsWellFormed(v);
        BracketedWellFormed(OPEN_RECORD, Fields(Sort(Entries(v))), CLOSE_RECORD);
      case _ => PlainIsWellFormed(Print(v));
    }
  }

  lemma {:induction false} FieldsWellFormed(v: Json)
    requires v.Record?
    ensures forall i :: 0 <= i < |Sort(Entries(v))| ==> P.WellFormedUtf16(Fields(Sort(Entries(v)))[i])
    decreases v, 0
  {
    var es := Sort(Entries(v));
    forall i | 0 <= i < |es| ensures P.WellFormedUtf16(Fields(es)[i]) {
      var k := EntryOrigin(v, es[i]);
      PrintIsWellFormed(v.members[k].value);
      QuoteWellFormed(es[i].key);
      WellFormedAppend(Quote(es[i].key), [COLON]);
      WellFormedAppend(Quote(es[i].key) + [COLON], es[i].text);
    }
  }
}
