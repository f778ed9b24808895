/** A gateway request: one accepted admission reply, one physical send, one settlement receipt.
    Hooks, retries, reconnects, cancellation and closing may come in any order. Times are
    milliseconds of the monotonic clock. */
module OneShot {
  import opened Basics
  import opened UsageGrammar

  const REQUEST_LIFETIME := 5000
  const RPC_TIMEOUT := 3000

  datatype Phase = Captured | Armed | Burned | Closed

  /** Which key pays: the installation's, or an agent's key file. */
  datatype Selector = Installation | AgentKey(revision: string)

  /** The fields a reply must echo exactly. */
  datatype Echo = Echo(
    nonce: string, requestHash: string, profileHash: string, endpointHash: string, keyFingerprint: string, alias: string)

  datatype Reply =
    | Allowed(echo: Echo, wellFormed: bool, selector: Selector, validForMs: int)
    | Denial
    | Malformed

  /** What of a request never changes. */
  datatype Card = Card(echo: Echo, embeddings: bool, expectedPhases: nat)

  /** How far admission and the hooks have come. */
  datatype Gate = Gate(
    preSeen: bool, awaiting: Option<int>, allow: bool, selector: Selector, keyLoaded: bool,
    deployed: nat, policy: bool, held: bool)

  /** The right to dispatch and to settle. */
  datatype Life = Life(
    deadline: int, phase: Phase, dispatched: bool, terminal: bool, closed: bool, cancelled: bool, wireUsage: Option<Usage>)

  datatype Request = Request(card: Card, gate: Gate, life: Life)

  const CLOSED_GATE := Gate(false, None, false, Installation, false, 0, false, false)

  function Ingress(card: Card, now: int): Request {
    Request(card, CLOSED_GATE, Life(now + REQUEST_LIFETIME, Captured, false, false, false, false, None))
  }

  predicate Fresh(l: Life, now: int) {
    !l.closed && !l.terminal && now < l.deadline
  }

  // ---- What can happen --------------------------------------------------------------------

  datatype Event =
    | PreCall(now: int, acceptable: bool)                     // pre-call hook up to the admission RPC
    | ReplyArrives(reply: Reply, now: int, keyFile: bool)     // the rest of the pre-call hook
    | Deploy(now: int, expected: bool)                        // deployment hook
    | BeforeHttp(now: int, guarded: bool)                     // event hook of every client
    | Acquire(now: int)                                       // the same hook opens its policy lock
    | CheckLocked(now: int, valid: bool)                      // and reads the locked rows, or fails
    | Transport(now: int, checked: bool, wireKey: bool)       // the one-shot transport
    | StreamEnds(usage: Option<Usage>)                        // wire evidence finished
    | SettleHook                                              // success or streaming hook
    | Disconnect
    | Close

  /** What an observer outside the request sees. */
  datatype Output = Nothing | Accepted(started: int, validForMs: int) | Sent(now: int) | Receipt(usage: Usage)

  /** A reply is acceptable when it is allowed, well formed, echoes this very request, names a key
      this path may use, and is valid for at most the RPC timeout. */
  predicate Acceptable(card: Card, reply: Reply) {
    && reply.Allowed? && reply.wellFormed && reply.echo == card.echo
    && (card.embeddings ==> reply.selector.Installation?)
    && 1 <= reply.validForMs <= RPC_TIMEOUT
  }

  function Accept(r: Request, reply: Reply, started: int, now: int, keyFile: bool): (Request, Output) {
    if !Acceptable(r.card, reply) then (r, Nothing)
    else
      var g := r.gate.(selector := reply.selector, allow := true);
      if r.life.closed || r.life.terminal || !r.life.phase.Captured? then (r.(gate := g), Nothing)
      else
        // The agent's key file is read only if the request is still fresh once armed.
        var l := r.life.(deadline := Min(r.life.deadline, started + reply.validForMs), phase := Armed);
        var loads := reply.selector.AgentKey? && keyFile && Fresh(l, now);
        (Request(r.card, g.(keyLoaded := g.keyLoaded || loads), l), Accepted(started, reply.validForMs))
  }

  /** With an agent's key selected, the wire must carry exactly that key. */
  predicate CredentialOk(g: Gate, wireKey: bool) {
    g.selector.Installation? || (g.keyLoaded && wireKey)
  }

  function Step(r: Request, e: Event): (Request, Output) {
    var g, l := r.gate, r.life;
    match e
    case PreCall(now, acceptable) =>
      if g.preSeen then (r, Nothing)
      else (r.(gate := g.(preSeen := true, awaiting := if acceptable then Some(now) else None)), Nothing)
    case ReplyArrives(reply, now, keyFile) =>
      if g.awaiting.None? then (r, Nothing)
      else Accept(r.(gate := g.(awaiting := None)), reply, g.awaiting.value, now, keyFile)
    case Deploy(now, expected) =>
      if Fresh(l, now) && g.preSeen && g.allow && !l.dispatched && expected && g.deployed < r.card.expectedPhases
      then (r.(gate := g.(deployed := g.deployed + 1)), Nothing)
      else (r, Nothing)
    case BeforeHttp(now, guarded) =>
      if guarded && Fresh(l, now) && !l.dispatched && l.phase.Armed? && !g.policy
      then (r.(gate := g.(policy := true)), Nothing)
      else (r, Nothing)
    case Acquire(now) =>
      if g.policy && !g.held && g.allow && !l.dispatched && Fresh(l, now) then (r.(gate := g.(held := true)), Nothing) else (r, Nothing)
    case CheckLocked(now, valid) =>
      if valid && Fresh(l, now) then (r, Nothing) else (r.(gate := g.(held := false)), Nothing)
    case Transport(now, checked, wireKey) =>
      if checked && g.policy && g.held && CredentialOk(g, wireKey) && Fresh(l, now) && l.phase.Armed? && !l.dispatched
      then (r.(gate := g.(held := false), life := l.(dispatched := true, phase := Burned)), Sent(now))
      else (r, Nothing)
    case StreamEnds(usage) => (if l.dispatched then r.(life := l.(wireUsage := usage)) else r, Nothing)
    case SettleHook =>
      if l.terminal || l.closed || l.cancelled || !g.allow || !l.dispatched || l.wireUsage.None? then (r, Nothing)
      else (r.(life := l.(terminal := true)), Receipt(l.wireUsage.value))
    case Disconnect => (r.(life := l.(cancelled := true)), Nothing)
    case Close => (r.(gate := g.(held := false, keyLoaded := false), life := l.(closed := true, phase := Closed)), Nothing)
  }

  /** All a step can do to the right to dispatch and settle, and what it then shows. */
  predicate Moves(l: Life, m: Life, o: Output) {
    match o
    case Accepted(started, validity) =>
      l.phase.Captured? && !l.closed && !l.terminal && m == l.(deadline := Min(l.deadline, started + validity), phase := Armed)
    case Sent(now) => Fresh(l, now) && l.phase.Armed? && !l.dispatched && m == l.(dispatched := true, phase := Burned)
    case Receipt(u) =>
      l.dispatched && !l.terminal && !l.closed && !l.cancelled && l.wireUsage == Some(u) && m == l.(terminal := true)
    case Nothing =>
      || m == l || m == l.(cancelled := true) || m == l.(closed := true, phase := Closed)
      || (l.dispatched && m == l.(wireUsage := m.wireUsage))
  }

  lemma StepMoves(r: Request, e: Event)
    ensures Moves(r.life, Step(r, e).0.life, Step(r, e).1)
  {
  }

  /** The states and outputs of a run. */
  ghost predicate IsRun(rs: seq<Request>, outs: seq<Output>, events: seq<Event>) {
    |rs| == |events| + 1 && |outs| == |events| && forall i :: 0 <= i < |events| ==> Step(rs[i], events[i]) == (rs[i + 1], outs[i])
  }

  // ---- The history a request has ----------------------------------------------------------

  datatype Kind = Acceptances | Sends | Receipts

  predicate OfKind(o: Output, kind: Kind) {
    match kind
    case Acceptances => o.Accepted?
    case Sends => o.Sent?
    case Receipts => o.Receipt?
  }

  /** Exactly position `i` of the history is of this kind. */
  predicate OnlyAt(outs: seq<Output>, i: int, kind: Kind) {
    forall k :: 0 <= k < |outs| ==> (OfKind(outs[k], kind) <==> k == i)
  }

  /** The state records its history: where the accepted reply, the send and the receipt are, -1
      standing for "not yet". */
  ghost predicate Records(l0: Life, l: Life, outs: seq<Output>, a: int, s: int, q: int) {
    && -1 <= a < |outs| && -1 <= s < |outs| && -1 <= q < |outs|
    && OnlyAt(outs, a, Acceptances) && OnlyAt(outs, s, Sends) && OnlyAt(outs, q, Receipts)
    && (s >= 0 ==> 0 <= a < s) && (q >= 0 ==> 0 <= s < q)
    && (l.phase.Captured? ==> a < 0 && l.deadline == l0.deadline)
    && (l.phase.Armed? ==> a >= 0 && OfKind(outs[a], Acceptances) && l.deadline == Min(l0.deadline, outs[a].started + outs[a].validForMs))
    && (s >= 0 ==> OfKind(outs[a], Acceptances) && OfKind(outs[s], Sends)
                   && outs[s].now < l0.deadline && outs[s].now < outs[a].started + outs[a].validForMs)
    && (l.dispatched <==> s >= 0) && (l.terminal <==> q >= 0)
    && (l.closed <==> l.phase.Closed?)
  }

  lemma OnlyAtStep(outs: seq<Output>, i: int, kind: Kind, o: Output)
    requires OnlyAt(outs, i, kind) && -1 <= i < |outs|
    requires OfKind(o, kind) ==> i < 0
    ensures OnlyAt(outs + [o], if OfKind(o, kind) then |outs| else i, kind)
  {
    var all := outs + [o];
    assert all[|outs|] == o && forall k :: 0 <= k < |outs| ==> all[k] == outs[k];
  }

  lemma RecordsStep(l0: Life, l: Life, outs: seq<Output>, a: int, s: int, q: int, m: Life, o: Output)
    requires Records(l0, l, outs, a, s, q) && Moves(l, m, o)
    ensures Records(l0, m, outs + [o],
              if o.Accepted? then |outs| else a, if o.Sent? then |outs| else s, if o.Receipt? then |outs| else q)
  {
    var all := outs + [o];
    assert all[|outs|] == o && forall k :: 0 <= k < |outs| ==> all[k] == outs[k];
    OnlyAtStep(outs, a, Acceptances, o);
    OnlyAtStep(outs, s, Sends, o);
    OnlyAtStep(outs, q, Receipts, o);
  }

  lemma {:induction false} HistoryOf(rs: seq<Request>, outs: seq<Output>, events: seq<Event>, n: nat) returns (a: int, s: int, q: int)
    requires IsRun(rs, outs, events) && n <= |events|
    requires rs[0].life == Life(rs[0].life.deadline, Captured, false, false, false, false, None)
    ensures Records(rs[0].life, rs[n].life, outs[..n], a, s, q)
    decreases n
  {
    if n == 0 { return -1, -1, -1; }
    a, s, q := HistoryOf(rs, outs, events, n - 1);
    var o := outs[n - 1];
    StepMoves(rs[n - 1], events[n - 1]);
    RecordsStep(rs[0].life, rs[n - 1].life, outs[..n - 1], a, s, q, rs[n].life, o);
    assert outs[..n] == outs[..n - 1] + [o];
    if o.Accepted? { a := n - 1; }
    if o.Sent? { s := n - 1; }
    if o.Receipt? { q := n - 1; }
  }

  /** Over any run: at most one reply is accepted, at most one physical send happens, after that
      reply and strictly before both the request's lifetime and the reply's validity end, and at
      most one receipt is sent, after the send. */
  lemma OneSendOneReceipt(card: Card, ingress: int, rs: seq<Request>, outs: seq<Output>, events: seq<Event>, i: nat, j: nat)
    requires IsRun(rs, outs, events) && rs[0] == Ingress(card, ingress) && i < |outs| && j < |outs|
    ensures outs[i].Accepted? && outs[j].Accepted? ==> i == j
    ensures outs[i].Sent? && outs[j].Sent? ==> i == j
    ensures outs[i].Receipt? && outs[j].Receipt? ==> i == j
    ensures outs[i].Sent? ==> outs[i].now < ingress + REQUEST_LIFETIME
    ensures outs[i].Sent? ==> exists k :: 0 <= k < i && outs[k].Accepted? && outs[i].now < outs[k].started + outs[k].validForMs
    ensures outs[i].Receipt? ==> exists k :: 0 <= k < i && outs[k].Sent?
  {
    var a, s, q := HistoryOf(rs, outs, events, |events|);
    assert outs[..|events|] == outs;
    assert OfKind(outs[i], Acceptances) == outs[i].Accepted? && OfKind(outs[j], Acceptances) == outs[j].Accepted?;
    assert OfKind(outs[i], Sends) == outs[i].Sent? && OfKind(outs[j], Sends) == outs[j].Sent?;
    assert OfKind(outs[i], Receipts) == outs[i].Receipt? && OfKind(outs[j], Receipts) == outs[j].Receipt?;
  }

  /** After a close nothing is sent and no receipt leaves; after a disconnect no receipt leaves. */
  lemma {:induction false} NothingAfterClose(rs: seq<Request>, outs: seq<Output>, events: seq<Event>, i: nat, j: nat)
    requires IsRun(rs, outs, events) && i <= j < |outs|
    requires rs[i].life.closed || rs[i].life.cancelled
    ensures !outs[j].Receipt?
    ensures rs[i].life.closed ==> !outs[j].Sent?
  {
    StaysStopped(rs, outs, events, i, j);
    StepMoves(rs[j], events[j]);
    assert Step(rs[j], events[j]) == (rs[j + 1], outs[j]);
  }

  lemma {:induction false} StaysStopped(rs: seq<Request>, outs: seq<Output>, events: seq<Event>, i: nat, j: nat)
    requires IsRun(rs, outs, events) && i <= j <= |events|
    ensures rs[i].life.closed ==> rs[j].life.closed
    ensures rs[i].life.cancelled ==> rs[j].life.cancelled
    decreases j
  {
    if i < j {
      StaysStopped(rs, outs, events, i, j - 1);
      StepMoves(rs[j - 1], events[j - 1]);
    }
  }

  // ---- The object the source keeps --------------------------------------------------------

  class RequestState {
    const card: Card
    var deadline: int
    var phase: Phase
    var dispatched: bool
    var preSeen: bool
    var awaiting: Option<int>
    var allow: bool
    var selector: Selector
    var keyLoaded: bool
    var deployed: nat
    var policy: bool
    var held: bool
    var terminal: bool
    var closed: bool
    var cancelled: bool
    var wireUsage: Option<Usage>

    function View(): Request
      reads this
    {
      Request(card, Gate(preSeen, awaiting, allow, selector, keyLoaded, deployed, policy, held), ViewLife())
    }

    function ViewLife(): Life
      reads this
    {
      Life(deadline, phase, dispatched, terminal, closed, cancelled, wireUsage)
    }

    constructor (card: Card, now: int)
      ensures View() == Ingress(card, now)
    {
      this.card := card;
      deadline, phase, dispatched, preSeen, awaiting, allow := now + REQUEST_LIFETIME, Captured, false, false, None, false;
      selector, keyLoaded, deployed, policy, held := Installation, false, 0, false, false;
      terminal, closed, cancelled, wireUsage := false, false, false, None;
    }

    /** Consumes the right to dispatch; false is a refusal that consumes nothing. */
    method Burn(now: int) returns (ok: bool)
      modifies this`dispatched, this`phase
      ensures ok <==> old(Fresh(ViewLife(), now) && phase.Armed? && !dispatched)
      ensures ok ==> dispatched && phase.Burned?
      ensures !ok ==> dispatched == old(dispatched) && phase == old(phase)
    {
      if closed || terminal || now >= deadline { return false; }
      if !phase.Armed? || dispatched { return false; }
      dispatched, phase := true, Burned;
      return true;
    }

    method PreCallHook(now: int, acceptable: bool) returns (out: Output)
      modifies this`preSeen, this`awaiting
      ensures (View(), out) == Step(old(View()), PreCall(now, acceptable))
    {
      if preSeen { return Nothing; }
      preSeen := true;
      awaiting := if acceptable then Some(now) else None;
      return Nothing;
    }

    method AcceptReply(reply: Reply, now: int, keyFile: bool) returns (out: Output)
      modifies this
      ensures (View(), out) == Step(old(View()), ReplyArrives(reply, now, keyFile))
    {
      if awaiting.None? { return Nothing; }
      var started := awaiting.value;
      awaiting := None;
      out := Admit(reply, started, now, keyFile);
    }

    method Admit(reply: Reply, started: int, now: int, keyFile: bool) returns (out: Output)
      modifies this
      ensures (View(), out) == Accept(old(View()), reply, started, now, keyFile)
    {
      if !reply.Allowed? || !reply.wellFormed || reply.echo != card.echo { return Nothing; }
      if card.embeddings && reply.selector.AgentKey? { return Nothing; }
      if reply.validForMs < 1 || reply.validForMs > RPC_TIMEOUT { return Nothing; }
      selector, allow := reply.selector, true;
      if closed || terminal || !phase.Captured? { return Nothing; }
      deadline, phase := Min(deadline, started + reply.validForMs), Armed;
      if reply.selector.AgentKey? && keyFile && now < deadline { keyLoaded := true; }
      return Accepted(started, reply.validForMs);
    }

    method DeploymentHook(now: int, expected: bool) returns (out: Output)
      modifies this`deployed
      ensures (View(), out) == Step(old(View()), Deploy(now, expected))
    {
      if closed || terminal || now >= deadline { return Nothing; }
      if !preSeen || !allow || dispatched { return Nothing; }
      if !expected || deployed >= card.expectedPhases { return Nothing; }
      deployed := deployed + 1;
      return Nothing;
    }

    method BeforeHttpHook(now: int, guarded: bool) returns (out: Output)
      modifies this`policy
      ensures (View(), out) == Step(old(View()), BeforeHttp(now, guarded))
    {
      if !guarded || closed || terminal || now >= deadline { return Nothing; }
      // A reconnect or retry fails here: the first attempt burned the shared right.
      if dispatched || !phase.Armed? || policy { return Nothing; }
      policy := true;
      return Nothing;
    }

    /** The lock is taken in steps, and anything may happen to the request between them. */
    method AcquireLock(now: int) returns (out: Output)
      modifies this`held
      ensures (View(), out) == Step(old(View()), Acquire(now))
    {
      if !policy || held || !allow || dispatched { return Nothing; }
      if closed || terminal || now >= deadline { return Nothing; }
      held := true;
      return Nothing;
    }

    /** Rows that no longer allow the call, or a request no longer fresh, give the lock back. */
    method CheckLockedRows(now: int, valid: bool) returns (out: Output)
      modifies this`held
      ensures (View(), out) == Step(old(View()), CheckLocked(now, valid))
    {
      if !valid || closed || terminal || now >= deadline { held := false; }
      return Nothing;
    }

    method HandleRequest(now: int, checked: bool, wireKey: bool) returns (out: Output)
      modifies this`dispatched, this`phase, this`held
      ensures (View(), out) == Step(old(View()), Transport(now, checked, wireKey))
    {
      if !checked || !policy || !held { return Nothing; }
      if selector.AgentKey? && (!keyLoaded || !wireKey) { return Nothing; }
      // No await between consuming the right and the physical transport.
      var ok := Burn(now);
      if !ok { return Nothing; }
      held := false;
      return Sent(now);
    }

    /** The watched response ended; only a dispatched request has one. */
    method RecordUsage(usage: Option<Usage>) returns (out: Output)
      modifies this`wireUsage
      ensures (View(), out) == Step(old(View()), StreamEnds(usage))
    {
      if dispatched { wireUsage := usage; }
      return Nothing;
    }

    method ClientDisconnects() returns (out: Output)
      modifies this`cancelled
      ensures (View(), out) == Step(old(View()), Disconnect)
    {
      cancelled := true;
      return Nothing;
    }

    method SettleOnce() returns (out: Output)
      modifies this`terminal
      ensures (View(), out) == Step(old(View()), SettleHook)
    {
      if terminal || closed || cancelled || !allow || !dispatched { return Nothing; }
      if wireUsage.None? { return Nothing; }
      terminal := true;
      return Receipt(wireUsage.value);
    }

    method CloseRequest() returns (out: Output)
      modifies this`closed, this`phase, this`held, this`keyLoaded
      ensures (View(), out) == Step(old(View()), Close)
    {
      closed, phase, held, keyLoaded := true, Closed, false, false;
      return Nothing;
    }
  }
}
