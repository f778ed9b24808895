/** The walk over a failed call's error value: a finite graph of objects, cycles included, whose
    fields may also hold JSON text. */
module SignalWalk {
  import opened Basics

  datatype Key =
    | Type | UpstreamType | GatewayType
    | Message | ApiErrorMessage | UpstreamMessage | ErrorDescription
    | StatusCode | Status | UpstreamStatusCode
    | Error | Data | Details | Cause | Response | ResponseBody | ResponseBodySnippet
    | OtherKey(name: string)

  /** A value: `Nothing` is null or undefined, `Flag` any other value the walk ignores, `Ref` an
      object with an identity, `Obj` an object freshly parsed from text. */
  datatype Value = Nothing | Flag | Number(n: real) | Text(s: string) | Ref(id: nat) | Obj(fields: Fields)
  datatype Fields = End | Field(key: Key, value: Value, rest: Fields)

  /** The objects by identity, and the JSON reader (None where it yields nothing). */
  datatype Graph = Graph(heap: seq<Fields>, parse: string -> Option<Value>)

  const TYPE_KEYS: seq<Key> := [Type, UpstreamType, GatewayType]
  const MESSAGE_KEYS: seq<Key> := [Message, ApiErrorMessage, UpstreamMessage, ErrorDescription]
  const STATUS_KEYS: seq<Key> := [StatusCode, Status, UpstreamStatusCode]
  const CARRIERS: seq<Key> := [Error, Data, Details, Cause, Response, ResponseBody, ResponseBodySnippet]

  function Lookup(f: Fields, key: Key): Option<Value> {
    match f
    case End => None
    case Field(k, v, rest) => if k == key then Some(v) else Lookup(rest, key)
  }

  function ReadString(f: Fields, key: Key): Option<string> {
    match Lookup(f, key)
    case Some(Text(s)) => if s == "" then None else Some(s)
    case _ => None
  }

  function ReadNumber(f: Fields, key: Key): Option<real> {
    match Lookup(f, key)
    case Some(Number(n)) => Some(n)
    case _ => None
  }

  // ---- What the walk is for ---------------------------------------------------------------

  predicate IsObject(v: Value) {
    v.Ref? || v.Obj?
  }

  function FieldsOf(g: Graph, v: Value): Fields {
    if v.Obj? then v.fields else if v.Ref? && v.id < |g.heap| then g.heap[v.id] else End
  }

  /** `w` hangs from `v`: under a carrier field, or as what its text says. */
  predicate Carries(g: Graph, v: Value, w: Value) {
    if v.Text? then g.parse(v.s) == Some(w)
    else IsObject(v) && exists k :: k in CARRIERS && Lookup(FieldsOf(g, v), k) == Some(w)
  }

  ghost predicate IsPath(g: Graph, path: seq<Value>) {
    |path| > 0 && forall i :: 0 < i < |path| ==> Carries(g, path[i - 1], path[i])
  }

  ghost predicate PathTo(g: Graph, root: Value, v: Value, path: seq<Value>) {
    IsPath(g, path) && path[0] == root && path[|path| - 1] == v
  }

  ghost predicate Reachable(g: Graph, root: Value, v: Value) {
    exists path :: PathTo(g, root, v, path)
  }

  datatype Signal = TypeIs(text: string) | MessageIs(text: string) | StatusIs(status: real)

  predicate Offers(g: Graph, v: Value, x: Signal) {
    IsObject(v) && match x
                   case TypeIs(s) => exists k :: k in TYPE_KEYS && ReadString(FieldsOf(g, v), k) == Some(s)
                   case MessageIs(s) => exists k :: k in MESSAGE_KEYS && ReadString(FieldsOf(g, v), k) == Some(s)
                   case StatusIs(n) => exists k :: k in STATUS_KEYS && ReadNumber(FieldsOf(g, v), k) == Some(n)
  }

  /** Some reachable object shows this signal. */
  ghost predicate Shown(g: Graph, root: Value, x: Signal) {
    exists v :: Reachable(g, root, v) && Offers(g, v, x)
  }

  datatype Signals = Signals(types: seq<string>, messages: seq<string>, statuses: seq<real>)

  predicate Holds(s: Signals, x: Signal) {
    match x
    case TypeIs(t) => t in s.types
    case MessageIs(t) => t in s.messages
    case StatusIs(n) => n in s.statuses
  }

  // ---- Termination ------------------------------------------------------------------------

  function Weight(v: Value): (w: nat)
    ensures w >= 1
  {
    match v
    case Text(s) => |s| + 1
    case Obj(f) => 1 + FieldsWeight(f)
    case _ => 1
  }

  function FieldsWeight(f: Fields): nat {
    match f
    case End => 0
    case Field(_, v, rest) => Weight(v) + FieldsWeight(rest)
  }

  function QueueWeight(q: seq<Value>): nat {
    if q == [] then 0 else Weight(q[0]) + QueueWeight(q[1..])
  }

  /** JSON text is never shorter than what it says: a nested string has its quotes around it, an
      object its braces. */
  ghost predicate ReadsSmaller(g: Graph) {
    forall s, v :: g.parse(s) == Some(v) ==> Weight(v) <= |s|
  }

  ghost function Unseen(g: Graph, seen: set<nat>): set<nat> {
    set id: nat | id < |g.heap| && id !in seen
  }

  lemma {:induction false} QueueWeightAppend(a: seq<Value>, b: seq<Value>)
    ensures QueueWeight(a + b) == QueueWeight(a) + QueueWeight(b)
    decreases |a|
  {
    if a == [] {
      assert a + b == b;
    } else {
      assert (a + b)[1..] == a[1..] + b;
      QueueWeightAppend(a[1..], b);
    }
  }

  function Carried(f: Fields, keys: seq<Key>): seq<Value> {
    if keys == [] then [] else
      (match Lookup(f, keys[0]) case Some(v) => [v] case None => []) + Carried(f, keys[1..])
  }

  /** What one field adds to the weight carried under some keys. */
  function Share(key: Key, v: Value, keys: seq<Key>): nat {
    if key in keys then Weight(v) else 0
  }

  lemma {:induction false} CarriedField(key: Key, v: Value, rest: Fields, keys: seq<Key>)
    requires Distinct(keys)
    ensures QueueWeight(Carried(Field(key, v, rest), keys)) <= Share(key, v, keys) + QueueWeight(Carried(rest, keys))
    decreases |keys|
  {
    if keys != [] {
      var f := Field(key, v, rest);
      CarriedField(key, v, rest, keys[1..]);
      HeadWeight(f, keys);
      HeadWeight(rest, keys);
    }
  }

  lemma HeadWeight(f: Fields, keys: seq<Key>)
    requires keys != []
    ensures QueueWeight(Carried(f, keys)) ==
            (match Lookup(f, keys[0]) case Some(v) => Weight(v) case None => 0) + QueueWeight(Carried(f, keys[1..]))
  {
    match Lookup(f, keys[0])
    case Some(v) =>
      assert QueueWeight([v]) == Weight(v) + QueueWeight([]);
      QueueWeightAppend([v], Carried(f, keys[1..]));
    case None =>
      assert Carried(f, keys) == Carried(f, keys[1..]);
  }

  predicate Distinct(keys: seq<Key>) {
    forall i, j :: 0 <= i < j < |keys| ==> keys[i] != keys[j]
  }

  /** The carried fields of an object weigh no more than all its fields. */
  lemma {:induction false} CarriedWeight(f: Fields, keys: seq<Key>)
    requires Distinct(keys)
    ensures QueueWeight(Carried(f, keys)) <= FieldsWeight(f)
    decreases f
  {
    match f {
      case End => NothingCarried(keys);
      case Field(key, v, rest) =>
        CarriedWeight(rest, keys);
        CarriedField(key, v, rest, keys);
    }
  }

  lemma {:induction false} NothingCarried(keys: seq<Key>)
    ensures Carried(End, keys) == []
    decreases |keys|
  {
    if keys != [] { NothingCarried(keys[1..]); }
  }

  // ---- Reading one object -----------------------------------------------------------------

  lemma {:induction false} CarriedMeans(f: Fields, keys: seq<Key>, w: Value)
    ensures w in Carried(f, keys) <==> exists k :: k in keys && Lookup(f, k) == Some(w)
    decreases |keys|
  {
    if keys != [] {
      CarriedMeans(f, keys[1..], w);
      assert forall k :: k in keys <==> k == keys[0] || k in keys[1..];
      if Lookup(f, keys[0]) == Some(w) { assert keys[0] in keys; }
    }
  }

  lemma CarriersDistinct()
    ensures Distinct(CARRIERS)
  {
  }

  method ReadStrings(f: Fields, keys: seq<Key>) returns (r: seq<string>)
    ensures forall s :: s in r <==> exists k :: k in keys && ReadString(f, k) == Some(s)
  {
    r := [];
    for i := 0 to |keys|
      invariant forall s :: s in r <==> exists k :: k in keys[..i] && ReadString(f, k) == Some(s)
    {
      assert keys[..i + 1] == keys[..i] + [keys[i]];
      var value := ReadString(f, keys[i]);
      if value.Some? { r := r + [value.value]; }
    }
    assert keys[..|keys|] == keys;
  }

  method ReadNumbers(f: Fields, keys: seq<Key>) returns (r: seq<real>)
    ensures forall n :: n in r <==> exists k :: k in keys && ReadNumber(f, k) == Some(n)
  {
    r := [];
    for i := 0 to |keys|
      invariant forall n :: n in r <==> exists k :: k in keys[..i] && ReadNumber(f, k) == Some(n)
    {
      assert keys[..i + 1] == keys[..i] + [keys[i]];
      var value := ReadNumber(f, keys[i]);
      if value.Some? { r := r + [value.value]; }
    }
    assert keys[..|keys|] == keys;
  }

  method ReadCarried(f: Fields, keys: seq<Key>) returns (r: seq<Value>)
    ensures r == Carried(f, keys)
  {
    r := [];
    for i := 0 to |keys|
      invariant r + Carried(f, keys[i..]) == Carried(f, keys)
    {
      var value := Lookup(f, keys[i]);
      CarriedFrom(f, keys, i);
      if value.Some? {
        assert r + ([value.value] + Carried(f, keys[i + 1..])) == r + [value.value] + Carried(f, keys[i + 1..]);
        r := r + [value.value];
      }
    }
    assert keys[|keys|..] == [];
  }

  lemma CarriedFrom(f: Fields, keys: seq<Key>, i: nat)
    requires i < |keys|
    ensures Carried(f, keys[i..]) == match Lookup(f, keys[i])
                                     case Some(v) => [v] + Carried(f, keys[i + 1..])
                                     case None => Carried(f, keys[i + 1..])
  {
    assert keys[i..][0] == keys[i] && keys[i..][1..] == keys[i + 1..];
  }

  method ReadObject(g: Graph, v: Value) returns (s: Signals)
    requires IsObject(v)
    ensures forall x :: Holds(s, x) <==> Offers(g, v, x)
  {
    var f := FieldsOf(g, v);
    var types := ReadStrings(f, TYPE_KEYS);
    var messages := ReadStrings(f, MESSAGE_KEYS);
    var statuses := ReadNumbers(f, STATUS_KEYS);
    s := Signals(types, messages, statuses);
  }

  function Joined(a: Signals, b: Signals): (r: Signals)
    ensures forall x :: Holds(r, x) <==> Holds(a, x) || Holds(b, x)
  {
    Signals(a.types + b.types, a.messages + b.messages, a.statuses + b.statuses)
  }

  // ---- The walk ---------------------------------------------------------------------------

  /** What has been visited is closed but for what is queued, and what has been collected is what
      the visited show. */
  ghost predicate Covered(g: Graph, root: Value, visited: set<Value>, queue: seq<Value>) {
    && (root in visited || root in queue)
    && (forall v, w :: v in visited && Carries(g, v, w) ==> w in visited || w in queue)
  }

  ghost predicate Founded(g: Graph, root: Value, visited: set<Value>, queue: seq<Value>) {
    && (forall v :: v in visited ==> Reachable(g, root, v))
    && (forall v :: v in queue ==> Reachable(g, root, v))
  }

  ghost predicate Collected(g: Graph, visited: set<Value>, s: Signals) {
    forall x :: Holds(s, x) <==> exists v :: v in visited && Offers(g, v, x)
  }

  lemma ReachableStep(g: Graph, root: Value, v: Value, w: Value)
    requires Reachable(g, root, v) && Carries(g, v, w)
    ensures Reachable(g, root, w)
  {
    var path :| PathTo(g, root, v, path);
    assert PathTo(g, root, w, path + [w]);
  }

  lemma {:induction false} PathCovered(g: Graph, root: Value, visited: set<Value>, path: seq<Value>)
    requires Covered(g, root, visited, []) && IsPath(g, path) && path[0] == root
    ensures path[|path| - 1] in visited
    decreases |path|
  {
    if |path| > 1 {
      var before := path[..|path| - 1];
      assert IsPath(g, before);
      PathCovered(g, root, visited, before);
      assert Carries(g, path[|path| - 2], path[|path| - 1]);
    }
  }

  lemma AllVisited(g: Graph, root: Value, visited: set<Value>, s: Signals, x: Signal)
    requires Covered(g, root, visited, []) && Founded(g, root, visited, []) && Collected(g, visited, s)
    ensures Holds(s, x) <==> Shown(g, root, x)
  {
    if Shown(g, root, x) {
      var v :| Reachable(g, root, v) && Offers(g, v, x);
      var path :| PathTo(g, root, v, path);
      PathCovered(g, root, visited, path);
    }
  }

  /** Visiting `node` and queueing what hangs from it keeps the account. */
  lemma Visited(g: Graph, root: Value, visited: set<Value>, queue: seq<Value>, node: Value, rest: seq<Value>, more: seq<Value>)
    requires queue == [node] + rest && Covered(g, root, visited, queue) && Founded(g, root, visited, queue)
    requires forall w :: w in more <==> Carries(g, node, w)
    ensures Covered(g, root, visited + {node}, rest + more) && Founded(g, root, visited + {node}, rest + more)
  {
    forall w | w in more ensures Reachable(g, root, w) { ReachableStep(g, root, node, w); }
  }

  lemma Skipped(g: Graph, root: Value, visited: set<Value>, queue: seq<Value>, node: Value, rest: seq<Value>)
    requires queue == [node] + rest && Covered(g, root, visited, queue) && Founded(g, root, visited, queue)
    requires node in visited || forall w :: !Carries(g, node, w)
    ensures Covered(g, root, visited + {node}, rest) && Founded(g, root, visited + {node}, rest)
  {
  }

  lemma HangsFrom(g: Graph, node: Value, more: seq<Value>)
    requires IsObject(node) && more == Carried(FieldsOf(g, node), CARRIERS)
    ensures forall w :: w in more <==> Carries(g, node, w)
    ensures (node.Ref? && node.id < |g.heap|) || QueueWeight(more) < Weight(node)
  {
    forall w ensures w in more <==> Carries(g, node, w) { CarriedMeans(FieldsOf(g, node), CARRIERS, w); }
    CarriersDistinct();
    CarriedWeight(FieldsOf(g, node), CARRIERS);
  }

  /** What one unseen node shows and what hangs from it. */
  method Visit(g: Graph, node: Value) returns (found: Signals, more: seq<Value>)
    requires ReadsSmaller(g)
    ensures forall x :: Holds(found, x) <==> Offers(g, node, x)
    ensures forall w :: w in more <==> Carries(g, node, w)
    ensures (node.Ref? && node.id < |g.heap|) || QueueWeight(more) < Weight(node)
  {
    found, more := Signals([], [], []), [];
    if node.Text? {
      var parsed := g.parse(node.s);
      if parsed.Some? { more := [parsed.value]; }
      assert parsed.Some? ==> QueueWeight(more) == Weight(parsed.value) + QueueWeight([]);
    } else if IsObject(node) {
      found := ReadObject(g, node);
      more := ReadCarried(FieldsOf(g, node), CARRIERS);
      HangsFrom(g, node, more);
    }
  }

  lemma CollectedMore(g: Graph, visited: set<Value>, s: Signals, node: Value, found: Signals)
    requires Collected(g, visited, s) && forall x :: Holds(found, x) <==> Offers(g, node, x)
    ensures Collected(g, visited + {node}, Joined(s, found))
  {
  }

  lemma CollectedSame(g: Graph, visited: set<Value>, s: Signals, node: Value)
    requires Collected(g, visited, s) && (node in visited || !IsObject(node))
    ensures Collected(g, visited + {node}, s)
  {
  }

  /** A value the walk passes over. */
  predicate Idle(node: Value, seen: set<nat>) {
    node.Nothing? || node.Flag? || node.Number? || (node.Ref? && node.id in seen)
  }

  /** collectSignals: ends on every finite graph, and collects exactly the types, messages and
      statuses of the objects reachable through the carrier fields and through JSON text. */
  method CollectSignals(g: Graph, root: Value) returns (s: Signals)
    requires ReadsSmaller(g)
    ensures forall x :: Holds(s, x) <==> Shown(g, root, x)
  {
    s := Signals([], [], []);
    var seen: set<nat> := {};
    var queue := [root];
    ghost var visited: set<Value> := {};
    assert PathTo(g, root, root, [root]);
    while queue != []
      invariant Covered(g, root, visited, queue) && Founded(g, root, visited, queue)
      invariant Collected(g, visited, s)
      invariant forall id :: id in seen <==> Ref(id) in visited
      decreases Unseen(g, seen), QueueWeight(queue)
    {
      var node, rest := queue[0], queue[1..];
      assert queue == [node] + rest;
      if Idle(node, seen) {
        Skipped(g, root, visited, queue, node, rest);
        CollectedSame(g, visited, s, node);
        queue := rest;
      } else {
        var found, more := Visit(g, node);
        Visited(g, root, visited, queue, node, rest, more);
        CollectedMore(g, visited, s, node, found);
        QueueWeightAppend(rest, more);
        assert node.Ref? && node.id < |g.heap| ==> node.id in Unseen(g, seen);
        if node.Ref? { seen := seen + {node.id}; }
        s, queue := Joined(s, found), rest + more;
      }
      visited := visited + {node};
    }
    forall x ensures Holds(s, x) <==> Shown(g, root, x) { AllVisited(g, root, visited, s, x); }
  }

  /** The fields that are read, one by one: a type, a message or a status under any of its names shows
      its signal, and whatever hangs under any of the seven carriers is reached. */
  lemma NamedFieldsCount(g: Graph, root: Value, v: Value, key: Key, s: string, n: real, w: Value)
    requires Reachable(g, root, v) && IsObject(v) && s != ""
    ensures (key == Type || key == UpstreamType || key == GatewayType) && Lookup(FieldsOf(g, v), key) == Some(Text(s)) ==>
              Shown(g, root, TypeIs(s))
    ensures (key == Message || key == ApiErrorMessage || key == UpstreamMessage || key == ErrorDescription) ==>
              Lookup(FieldsOf(g, v), key) == Some(Text(s)) ==> Shown(g, root, MessageIs(s))
    ensures (key == StatusCode || key == Status || key == UpstreamStatusCode) && Lookup(FieldsOf(g, v), key) == Some(Number(n)) ==>
              Shown(g, root, StatusIs(n))
    ensures (key == Error || key == Data || key == Details || key == Cause || key == Response || key == ResponseBody || key == ResponseBodySnippet) ==>
              Lookup(FieldsOf(g, v), key) == Some(w) ==> Reachable(g, root, w)
  {
    KeysAre(key);
    if key in TYPE_KEYS && Lookup(FieldsOf(g, v), key) == Some(Text(s)) { assert Offers(g, v, TypeIs(s)); }
    if key in MESSAGE_KEYS && Lookup(FieldsOf(g, v), key) == Some(Text(s)) { assert Offers(g, v, MessageIs(s)); }
    if key in STATUS_KEYS && Lookup(FieldsOf(g, v), key) == Some(Number(n)) { assert Offers(g, v, StatusIs(n)); }
    if key in CARRIERS && Lookup(FieldsOf(g, v), key) == Some(w) { ReachableStep(g, root, v, w); }
  }

  lemma KeysAre(key: Key)
    ensures key in TYPE_KEYS <==> key == Type || key == UpstreamType || key == GatewayType
    ensures key in MESSAGE_KEYS <==> key == Message || key == ApiErrorMessage || key == UpstreamMessage || key == ErrorDescription
    ensures key in STATUS_KEYS <==> key == StatusCode || key == Status || key == UpstreamStatusCode
    ensures key in CARRIERS <==>
            key == Error || key == Data || key == Details || key == Cause || key == Response || key == ResponseBody || key == ResponseBodySnippet
  {
  }

  /** And what text says is reached through it. */
  lemma TextIsRead(g: Graph, root: Value, s: string, w: Value)
    requires Reachable(g, root, Text(s)) && g.parse(s) == Some(w)
    ensures Reachable(g, root, w)
  {
    ReachableStep(g, root, Text(s), w);
  }

  // ---- What the signals decide ------------------------------------------------------------

  const EXCEEDED_TYPE := "budget_exceeded"
  const EXCEEDED_SENTENCE := "Budget has been exceeded!"
  const REFUSED_TYPE := "budget_admission_refused"

  predicate Includes(s: string, part: string) {
    exists i :: 0 <= i <= |s| && part <= s[i..]
  }

  /** A reachable object carries the marker: its type, or its sentence inside a message. */
  ghost predicate ShowsMarker(g: Graph, root: Value, kind: string, sentence: string) {
    Shown(g, root, TypeIs(kind)) || exists m :: Shown(g, root, MessageIs(m)) && Includes(m, sentence)
  }

  predicate Marked(s: Signals, kind: string, sentence: string) {
    kind in s.types || exists m :: m in s.messages && Includes(m, sentence)
  }

  lemma MarkedMeans(g: Graph, root: Value, s: Signals, kind: string, sentence: string)
    requires forall x :: Holds(s, x) <==> Shown(g, root, x)
    ensures Marked(s, kind, sentence) <==> ShowsMarker(g, root, kind, sentence)
  {
    TypesMean(g, root, s, kind);
    assert forall m :: m in s.messages <==> Holds(s, MessageIs(m));
  }

  lemma TypesMean(g: Graph, root: Value, s: Signals, kind: string)
    requires forall x :: Holds(s, x) <==> Shown(g, root, x)
    ensures kind in s.types <==> Shown(g, root, TypeIs(kind))
  {
    assert kind in s.types <==> Holds(s, TypeIs(kind));
  }

  lemma StatusesMean(g: Graph, root: Value, s: Signals)
    requires forall x :: Holds(s, x) <==> Shown(g, root, x)
    ensures forall n :: n in s.statuses <==> Shown(g, root, StatusIs(n))
    ensures s.statuses == [] <==> forall n :: !Shown(g, root, StatusIs(n))
  {
    forall n ensures n in s.statuses <==> Shown(g, root, StatusIs(n)) {
      assert n in s.statuses <==> Holds(s, StatusIs(n));
    }
    if s.statuses != [] { assert s.statuses[0] in s.statuses && Shown(g, root, StatusIs(s.statuses[0])); }
  }

  /** No status is reachable, or a 400 or a 429 is. */
  ghost predicate StatusFits(g: Graph, root: Value) {
    || (forall n :: !Shown(g, root, StatusIs(n)))
    || Shown(g, root, StatusIs(400.0)) || Shown(g, root, StatusIs(429.0))
  }

  /** isBudgetExceeded: a marker is reachable, and if any status is, so is a 400 or a 429. */
  method IsBudgetExceeded(g: Graph, root: Value, ownError: bool) returns (b: bool)
    requires ReadsSmaller(g)
    ensures b <==> ownError || (ShowsMarker(g, root, EXCEEDED_TYPE, EXCEEDED_SENTENCE) && StatusFits(g, root))
  {
    if ownError { return true; }
    var s := CollectSignals(g, root);
    MarkedMeans(g, root, s, EXCEEDED_TYPE, EXCEEDED_SENTENCE);
    StatusesMean(g, root, s);
    if !Marked(s, EXCEEDED_TYPE, EXCEEDED_SENTENCE) { return false; }
    if |s.statuses| > 0 && !(400.0 in s.statuses || 429.0 in s.statuses) { return false; }
    b := true;
  }

  /** isBudgetAdmissionRefused: the refusal's type is reachable and every reachable status is 400. */
  method IsBudgetAdmissionRefused(g: Graph, root: Value) returns (b: bool)
    requires ReadsSmaller(g)
    ensures b <==> Shown(g, root, TypeIs(REFUSED_TYPE)) && forall n :: Shown(g, root, StatusIs(n)) ==> n == 400.0
  {
    var s := CollectSignals(g, root);
    TypesMean(g, root, s, REFUSED_TYPE);
    StatusesMean(g, root, s);
    b := REFUSED_TYPE in s.types && forall n :: n in s.statuses ==> n == 400.0;
  }
}
