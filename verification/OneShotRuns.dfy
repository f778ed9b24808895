/** Where a request's rights come from, over whole runs: the reply that armed it is a reply to it, the
    send holds a lock and the selected key, and the receipt is of the usage on record. */
module OneShotRuns {
  import opened Basics
  import opened UsageGrammar
  import opened OneShot

  ghost predicate RunOf(card: Card, ingress: int, rs: seq<Request>, outs: seq<Output>, events: seq<Event>) {
    IsRun(rs, outs, events) && rs[0] == Ingress(card, ingress)
  }

  /** An allowed, well-formed reply that echoes this request field by field, is valid for 1 to 3000
      ms, and names the installation's key where the request is for embeddings. */
  predicate ReplyTo(card: Card, e: Event) {
    && e.ReplyArrives? && e.reply.Allowed? && e.reply.wellFormed
    && e.reply.echo.nonce == card.echo.nonce && e.reply.echo.requestHash == card.echo.requestHash
    && e.reply.echo.profileHash == card.echo.profileHash && e.reply.echo.endpointHash == card.echo.endpointHash
    && e.reply.echo.keyFingerprint == card.echo.keyFingerprint && e.reply.echo.alias == card.echo.alias
    && 1 <= e.reply.validForMs <= 3000
    && (card.embeddings ==> e.reply.selector == Installation)
  }

  // ---- Admission --------------------------------------------------------------------------

  /** Before the one reply has been taken nothing is admitted. */
  predicate OneReply(g: Gate) {
    && (!g.preSeen ==> g.awaiting == None && !g.allow)
    && (g.awaiting.Some? ==> !g.allow)
    && (!g.allow ==> !g.keyLoaded && g.selector == Installation)
  }

  lemma StepAdmits(r: Request, e: Event)
    requires OneReply(r.gate) && (r.gate.allow || r.life.phase.Captured? || r.life.phase.Closed?)
    ensures var t := Step(r, e).0;
            && t.card == r.card && OneReply(t.gate) && (t.gate.allow || t.life.phase.Captured? || t.life.phase.Closed?)
            && (r.gate.allow ==> t.gate.allow && t.gate.selector == r.gate.selector && (t.gate.keyLoaded ==> r.gate.keyLoaded))
            && (t.gate.allow && !r.gate.allow ==>
                  ReplyTo(r.card, e) && t.gate.selector == e.reply.selector && (t.gate.keyLoaded ==> e.keyFile))
            && (t.gate.awaiting.Some? && t.gate.awaiting != r.gate.awaiting ==> e == PreCall(t.gate.awaiting.value, true))
  {
  }

  /** What admitted the request: event `k`. */
  predicate AdmittedBy(card: Card, g: Gate, events: seq<Event>, k: int) {
    0 <= k < |events| && ReplyTo(card, events[k]) && g.selector == events[k].reply.selector && (g.keyLoaded ==> events[k].keyFile)
  }

  ghost predicate Awaited(g: Gate, events: seq<Event>, n: int) {
    g.awaiting.Some? ==> exists h :: 0 <= h < n <= |events| && events[h] == PreCall(g.awaiting.value, true)
  }

  lemma {:induction false} AdmissionSource(card: Card, ingress: int, rs: seq<Request>, outs: seq<Output>, events: seq<Event>, n: nat) returns (k: int)
    requires RunOf(card, ingress, rs, outs, events) && n <= |events|
    ensures rs[n].card == card && OneReply(rs[n].gate) && Awaited(rs[n].gate, events, n)
    ensures rs[n].gate.allow || rs[n].life.phase.Captured? || rs[n].life.phase.Closed?
    ensures rs[n].gate.allow ==> k < n && AdmittedBy(card, rs[n].gate, events, k)
    decreases n
  {
    k := -1;
    if n > 0 {
      k := AdmissionSource(card, ingress, rs, outs, events, n - 1);
      assert Step(rs[n - 1], events[n - 1]) == (rs[n], outs[n - 1]);
      StepAdmits(rs[n - 1], events[n - 1]);
      if rs[n].gate.allow && !rs[n - 1].gate.allow { k := n - 1; }
    }
  }

  /** Over any run every accepted reply is a reply to this very request, to the admission its pre-call
      hook asked for at the time the reply is counted from. */
  lemma AcceptedIsAReplyToIt(card: Card, ingress: int, rs: seq<Request>, outs: seq<Output>, events: seq<Event>, i: nat)
    requires RunOf(card, ingress, rs, outs, events) && i < |events| && outs[i].Accepted?
    ensures ReplyTo(card, events[i]) && outs[i].validForMs == events[i].reply.validForMs
    ensures exists h :: 0 <= h < i && events[h] == PreCall(outs[i].started, true)
  {
    var k := AdmissionSource(card, ingress, rs, outs, events, i);
    assert Step(rs[i], events[i]) == (rs[i + 1], outs[i]);
    StepAdmits(rs[i], events[i]);
  }

  /** Conversely a request that is still captured and awaits its admission accepts such a reply, and is
      then armed until the earlier of its own lifetime and the reply's validity. */
  lemma ReplyIsAccepted(r: Request, started: int, e: Event)
    requires r.life.phase == Captured && !r.life.closed && !r.life.terminal && r.gate.awaiting == Some(started)
    requires ReplyTo(r.card, e)
    ensures var (t, out) := Step(r, e);
            && out == Accepted(started, e.reply.validForMs)
            && t.life.phase == Armed && t.life.deadline == Min(r.life.deadline, started + e.reply.validForMs)
            && t.gate.allow && t.gate.selector == e.reply.selector && t.gate.awaiting == None
            && (e.reply.selector.AgentKey? && e.keyFile && e.now < t.life.deadline ==> t.gate.keyLoaded)
  {
  }

  // ---- The lock ---------------------------------------------------------------------------

  /** Gives the policy lock back. */
  predicate Releases(e: Event) {
    e == Close || (e.CheckLocked? && !e.valid)
  }

  predicate LockedBy(events: seq<Event>, j: int, l: int, n: int) {
    && 0 <= j < l < n <= |events| && events[j].BeforeHttp? && events[j].guarded && events[l].Acquire?
    && forall m :: l < m < n ==> !Releases(events[m])
  }

  lemma StepLocks(r: Request, e: Event)
    ensures var t := Step(r, e).0;
            && (t.gate.policy && !r.gate.policy ==> e.BeforeHttp? && e.guarded && r.life.phase.Armed?)
            && (r.gate.policy ==> t.gate.policy)
            && (t.gate.held && !r.gate.held ==> e.Acquire? && r.gate.policy)
            && (t.gate.held && r.gate.held ==> !Releases(e))
  {
  }

  lemma {:induction false} LockSource(card: Card, ingress: int, rs: seq<Request>, outs: seq<Output>, events: seq<Event>, n: nat) returns (j: int, l: int)
    requires RunOf(card, ingress, rs, outs, events) && n <= |events|
    ensures rs[n].gate.policy ==> 0 <= j < n && events[j].BeforeHttp? && events[j].guarded
    ensures rs[n].gate.held ==> LockedBy(events, j, l, n)
    ensures rs[n].gate.held ==> rs[n].gate.policy
    decreases n
  {
    j, l := -1, -1;
    if n > 0 {
      j, l := LockSource(card, ingress, rs, outs, events, n - 1);
      assert Step(rs[n - 1], events[n - 1]) == (rs[n], outs[n - 1]);
      StepLocks(rs[n - 1], events[n - 1]);
      if rs[n].gate.policy && !rs[n - 1].gate.policy { j := n - 1; }
      if rs[n].gate.held && !rs[n - 1].gate.held { l := n - 1; }
    }
  }

  /** Over any run a physical send is of an admitted request, through the checked transport, with the
      lock taken by its guarded hook and not given back since; and where the reply named an agent's
      key, with that key read and on the wire. */
  lemma SentIsOfThisRequest(card: Card, ingress: int, rs: seq<Request>, outs: seq<Output>, events: seq<Event>, i: nat)
    requires RunOf(card, ingress, rs, outs, events) && i < |events| && outs[i].Sent?
    ensures events[i].Transport? && events[i].checked && events[i].now == outs[i].now
    ensures exists k :: 0 <= k < i && ReplyTo(card, events[k])
                        && (events[k].reply.selector.AgentKey? ==> events[k].keyFile && events[i].wireKey)
    ensures exists j, l :: 0 <= j < l < i && LockedBy(events, j, l, i)
  {
    var k := AdmissionSource(card, ingress, rs, outs, events, i);
    var j, l := LockSource(card, ingress, rs, outs, events, i);
    assert Step(rs[i], events[i]) == (rs[i + 1], outs[i]);
    assert rs[i].life.phase.Armed? && rs[i].gate.held;
    assert AdmittedBy(card, rs[i].gate, events, k) && LockedBy(events, j, l, i);
  }

  // ---- The receipt ------------------------------------------------------------------------

  predicate RecordedBy(u: Usage, events: seq<Event>, k: int, n: int) {
    0 <= k < n <= |events| && events[k] == StreamEnds(Some(u)) && forall m :: k < m < n ==> !events[m].StreamEnds?
  }

  lemma {:induction false} UsageSource(card: Card, ingress: int, rs: seq<Request>, outs: seq<Output>, events: seq<Event>, n: nat) returns (k: int)
    requires RunOf(card, ingress, rs, outs, events) && n <= |events|
    ensures rs[n].life.wireUsage.Some? ==> rs[n].life.dispatched && RecordedBy(rs[n].life.wireUsage.value, events, k, n)
    decreases n
  {
    k := -1;
    if n > 0 {
      k := UsageSource(card, ingress, rs, outs, events, n - 1);
      assert Step(rs[n - 1], events[n - 1]) == (rs[n], outs[n - 1]);
      if events[n - 1].StreamEnds? { k := n - 1; }
    }
  }

  /** Over any run a receipt is of the usage the watched stream last ended with. */
  lemma ReceiptIsOfTheRecord(card: Card, ingress: int, rs: seq<Request>, outs: seq<Output>, events: seq<Event>, i: nat)
    requires RunOf(card, ingress, rs, outs, events) && i < |events| && outs[i].Receipt?
    ensures events[i] == SettleHook && exists k :: 0 <= k < i && RecordedBy(outs[i].usage, events, k, i)
  {
    var k := UsageSource(card, ingress, rs, outs, events, i);
    assert Step(rs[i], events[i]) == (rs[i + 1], outs[i]);
  }

  // ---- The ordinary course ----------------------------------------------------------------

  /** Everything in order: admitted at `admitted`, deployed, guarded, locked, sent, ended, settled. */
  function OrdinaryCourse(started: int, reply: Reply, now: int, u: Usage): seq<Event> {
    [PreCall(started, true), ReplyArrives(reply, now, true), Deploy(now, true), BeforeHttp(now, true), Acquire(now),
     CheckLocked(now, true), Transport(now, true, true), StreamEnds(Some(u)), SettleHook]
  }

  /** A request that everything goes well for is accepted, sent and settled, each once. */
  lemma OrdinaryRequestSettles(card: Card, ingress: int, rs: seq<Request>, outs: seq<Output>, started: int, reply: Reply, now: int, u: Usage)
    requires RunOf(card, ingress, rs, outs, OrdinaryCourse(started, reply, now, u))
    requires ReplyTo(card, ReplyArrives(reply, now, true)) && card.expectedPhases >= 1
    requires now < ingress + 5000 && now < started + reply.validForMs
    ensures outs[1] == Accepted(started, reply.validForMs) && outs[6] == Sent(now) && outs[8] == Receipt(u)
    ensures rs[3].gate.deployed == 1 && rs[9].life.terminal
  {
    var es := OrdinaryCourse(started, reply, now, u);
    assert Step(rs[0], es[0]) == (rs[1], outs[0]);
    assert Step(rs[1], es[1]) == (rs[2], outs[1]);
    assert Step(rs[2], es[2]) == (rs[3], outs[2]);
    assert Step(rs[3], es[3]) == (rs[4], outs[3]);
    assert Step(rs[4], es[4]) == (rs[5], outs[4]);
    assert Step(rs[5], es[5]) == (rs[6], outs[5]);
    assert Step(rs[6], es[6]) == (rs[7], outs[6]);
    assert Step(rs[7], es[7]) == (rs[8], outs[7]);
    assert Step(rs[8], es[8]) == (rs[9], outs[8]);
  }

  /** A phase is counted exactly when it is the next one expected, of a fresh, admitted request that
      has not been sent; never more than the path has. */
  lemma DeployedExactly(r: Request, now: int, expected: bool)
    ensures var t := Step(r, Deploy(now, expected)).0;
            && t.life == r.life
            && (t.gate.deployed == r.gate.deployed + 1 <==>
                  expected && r.gate.preSeen && r.gate.allow && !r.life.dispatched && r.gate.deployed < r.card.expectedPhases
                  && !r.life.closed && !r.life.terminal && now < r.life.deadline)
            && t == r.(gate := r.gate.(deployed := t.gate.deployed)) && (t.gate.deployed == r.gate.deployed || t.gate.deployed == r.gate.deployed + 1)
  {
  }
}
