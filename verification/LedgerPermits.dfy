/** Dispatch permits and owner jobs over whole runs of the ledger. */
module LedgerPermits {
  import opened Basics
  import opened BudgetLedger

  // ---- At most one permit consumed per invocation ------------------------------------------

  ghost predicate DistinctInvocations(attempts: seq<Attempt>) {
    forall j, k :: 0 <= j < k < |attempts| ==> attempts[j].invocation != attempts[k].invocation
  }

  /** Every permit ever minted belongs to a charged attempt, and no attempt has two. */
  ghost predicate OnePermitEach(s: State) {
    && DistinctInvocations(s.attempts)
    && (forall p :: 0 <= p < |s.permits| ==>
          s.permits[p].attempt < |s.attempts| && Financial(s.attempts[s.permits[p].attempt]))
    && (forall p, q :: 0 <= p < q < |s.permits| ==> s.permits[p].attempt != s.permits[q].attempt)
  }

  /** What no step takes back: rows keep their invocation and stay charged, a permit keeps its
      attempt and stays burned. */
  predicate Follows(s: State, t: State) {
    && |s.attempts| <= |t.attempts| && |s.permits| <= |t.permits|
    && (forall k :: 0 <= k < |s.attempts| ==>
          t.attempts[k].invocation == s.attempts[k].invocation && (Financial(s.attempts[k]) ==> Financial(t.attempts[k])))
    && (forall p :: 0 <= p < |s.permits| ==>
          t.permits[p].attempt == s.permits[p].attempt && (!s.permits[p].live ==> !t.permits[p].live))
  }

  lemma WorkFollows(s: State, op: Operation)
    ensures Follows(s, Work(s, op).0) && Work(s, op).0.permits == s.permits
  {
    match op
    case PrepareIntent(i) =>
    case AdmitTicket(t, o, r, authority) => AdmitFollows(s, t, o, r, authority);
    case MarkUnknown(k) =>
    case Settle(r) => SettleFollows(s, r);
    case RecordGrant(k, b, q, g) =>
  }

  lemma AdmitFollows(s: State, ticket: Hash, o: Observation, r: Recovery, authority: Authority)
    ensures var t := AdmitWork(s, ticket, o, r, authority).0; Follows(s, t) && t.permits == s.permits
  {
    var found := FindTicket(s.attempts, ticket);
    if found.Some? { AdmittedFromPrepared(s, found.value, o, r, authority); }
  }

  lemma SettleFollows(s: State, r: TerminalReceipt)
    ensures var t := SettleWork(s, r).0; Follows(s, t) && t.permits == s.permits
  {
  }

  lemma AdmittedFromPrepared(s: State, k: nat, o: Observation, r: Recovery, authority: Authority)
    requires k < |s.attempts|
    ensures s.attempts[k].state.Prepared? || Decide(s, s.attempts[k], o, r, authority).Leave?
  {
  }

  lemma StepFollows(s: State, e: Event)
    ensures Follows(s, Apply(s, e).0)
  {
    if e.Transaction? { WorkFollows(s, e.op); }
  }

  lemma WorkKeepsInvocations(s: State, op: Operation)
    requires DistinctInvocations(s.attempts)
    ensures DistinctInvocations(Work(s, op).0.attempts)
  {
    WorkFollows(s, op);
  }

  /** An admission is of a prepared attempt, so of one no permit was ever minted for. */
  lemma AdmissionIsFirst(s: State, op: Operation)
    requires Work(s, op).1.Allowed?
    ensures Work(s, op).1.attempt < |s.attempts|
    ensures s.attempts[Work(s, op).1.attempt].state.Prepared?
    ensures Work(s, op).0.attempts[Work(s, op).1.attempt].state.Admitted?
  {
  }

  lemma StepKeepsOnePermit(s: State, e: Event)
    requires OnePermitEach(s)
    ensures OnePermitEach(Apply(s, e).0)
  {
    StepFollows(s, e);
    match e
    case Consume(p) =>
    case Elsewhere(t) =>
    case Transaction(op, fate) =>
      WorkFollows(s, op);
      WorkKeepsInvocations(s, op);
      var (t, out) := Work(s, op);
      FollowsKeepsOnePermit(s, t);
      if out.Allowed? {
        AdmissionIsFirst(s, op);
        MintKeepsOnePermit(t, out);
      }
  }

  lemma FollowsKeepsOnePermit(s: State, t: State)
    requires OnePermitEach(s) && Follows(s, t) && t.permits == s.permits && DistinctInvocations(t.attempts)
    ensures OnePermitEach(t)
    ensures forall p, k :: 0 <= p < |t.permits| && 0 <= k < |s.attempts| && !Financial(s.attempts[k]) ==> t.permits[p].attempt != k
  {
  }

  lemma MintKeepsOnePermit(t: State, out: Outcome)
    requires OnePermitEach(t) && out.Allowed? && out.attempt < |t.attempts| && Financial(t.attempts[out.attempt])
    requires forall p :: 0 <= p < |t.permits| ==> t.permits[p].attempt != out.attempt
    ensures OnePermitEach(Mint(t, out))
  {
  }

  lemma {:induction false} RunFollows(s: State, events: seq<Event>, i: nat)
    requires OnePermitEach(s) && i <= |events|
    ensures Follows(s, Run(s, events)[i]) && OnePermitEach(Run(s, events)[i])
    decreases |events|
  {
    if i > 0 {
      StepFollows(s, events[0]);
      StepKeepsOnePermit(s, events[0]);
      RunFollows(Apply(s, events[0]).0, events[1..], i - 1);
    }
  }

  lemma {:induction false} RunSuffix(s: State, events: seq<Event>, i: nat, j: nat)
    requires i <= j <= |events|
    ensures Run(s, events)[j] == Run(Run(s, events)[i], events[i..])[j - i]
    decreases |events|
  {
    if i > 0 {
      RunSuffix(Apply(s, events[0]).0, events[1..], i - 1, j - 1);
      assert events[1..][i - 1..] == events[i..];
    } else {
      assert events[0..] == events;
    }
  }

  lemma {:induction false} RunStep(s: State, events: seq<Event>, i: nat)
    requires i < |events|
    ensures Run(s, events)[i + 1] == Apply(Run(s, events)[i], events[i]).0
    decreases |events|
  {
    if i > 0 { RunStep(Apply(s, events[0]).0, events[1..], i - 1); }
  }

  /** The invocation whose permit event `i` of the run burns, if it burns one. */
  ghost function BurnedInvocation(s: State, events: seq<Event>, i: nat): Option<Hash>
    requires i < |events|
  {
    var at := Run(s, events)[i];
    var out := Apply(at, events[i]).1;
    if events[i].Consume? && out.Burned? && out.attempt < |at.attempts| then Some(at.attempts[out.attempt].invocation) else None
  }

  /** Across all interleavings, ticket retries and lost acknowledgements, two successful permit
      reads are for two different invocations. */
  lemma OnePermitPerInvocation(s: State, events: seq<Event>, i: nat, j: nat)
    requires OnePermitEach(s) && i < j < |events|
    requires BurnedInvocation(s, events, i).Some? && BurnedInvocation(s, events, j).Some?
    ensures BurnedInvocation(s, events, i) != BurnedInvocation(s, events, j)
  {
    var a, b, c := Run(s, events)[i], Run(s, events)[i + 1], Run(s, events)[j];
    var p, q := events[i].permit, events[j].permit;
    RunFollows(s, events, i);
    RunStep(s, events, i);
    StepKeepsOnePermit(a, events[i]);
    RunSuffix(s, events, i + 1, j);
    RunFollows(b, events[i + 1..], j - (i + 1));
    assert !b.permits[p].live && !c.permits[p].live;
    assert p != q;
    assert c.permits[p].attempt == a.permits[p].attempt;
  }

  /** Nothing is ever burned for an attempt the ledger has not admitted. */
  lemma BurnedWasAdmitted(s: State, events: seq<Event>, i: nat)
    requires OnePermitEach(s) && i < |events| && events[i].Consume?
    requires Apply(Run(s, events)[i], events[i]).1.Burned?
    ensures var k := Apply(Run(s, events)[i], events[i]).1.attempt;
            k < |Run(s, events)[i].attempts| && Financial(Run(s, events)[i].attempts[k])
  {
    RunFollows(s, events, i);
  }

  /** A ledger without attempts and permits starts such a run, and has no owner jobs. */
  lemma EmptyLedgerStarts(s: State)
    requires s.attempts == [] && s.permits == []
    ensures OnePermitEach(s) && JobsBounded(s)
  {
  }

  // ---- Owner jobs -------------------------------------------------------------------------

  ghost predicate JobsBounded(s: State) {
    && (forall k :: 0 <= k < |s.attempts| ==> s.attempts[k].binding < |s.bindings|)
    && (forall m, agent :: OutstandingJobs(s.attempts, s.bindings, m, agent, s.clock) <= OWNER_JOB_OUTSTANDING_MAX)
  }

  /** Rows that are outstanding only if they were before do not raise the count: in particular an
      expired prepared attempt, no longer counted, never counts again. */
  lemma {:induction false} CountFalls(
    x: seq<Attempt>, bx: seq<Binding>, nx: int, y: seq<Attempt>, bs: seq<Binding>, ny: int, m: nat, agent: Agent)
    requires |x| == |y|
    requires forall k :: 0 <= k < |x| ==> Outstanding(y[k], bs, m, agent, ny) ==> Outstanding(x[k], bx, m, agent, nx)
    ensures OutstandingJobs(y, bs, m, agent, ny) <= OutstandingJobs(x, bx, m, agent, nx)
    decreases |x|
  {
    if x != [] { CountFalls(x[..|x| - 1], bx, nx, y[..|y| - 1], bs, ny, m, agent); }
  }

  lemma PrepareKeepsJobs(s: State, i: Intent)
    requires JobsBounded(s)
    ensures JobsBounded(PrepareWork(s, i).0)
  {
    var t := PrepareWork(s, i).0;
    if t != s {
      forall m, agent ensures OutstandingJobs(t.attempts, t.bindings, m, agent, t.clock) <= OWNER_JOB_OUTSTANDING_MAX {
        assert t.attempts[..|s.attempts|] == s.attempts;
      }
    }
  }

  lemma WorkKeepsJobs(s: State, op: Operation)
    requires JobsBounded(s) && !op.PrepareIntent?
    ensures JobsBounded(Work(s, op).0)
  {
    var t := Work(s, op).0;
    WorkKeepsRows(s, op);
    forall m, agent ensures OutstandingJobs(t.attempts, t.bindings, m, agent, t.clock) <= OWNER_JOB_OUTSTANDING_MAX {
      WorkCountFalls(s, op, m, agent);
    }
  }

  lemma WorkKeepsRows(s: State, op: Operation)
    requires !op.PrepareIntent?
    ensures var t := Work(s, op).0;
            && |t.attempts| == |s.attempts| && t.bindings == s.bindings && t.clock == s.clock
            && forall k :: 0 <= k < |s.attempts| ==> t.attempts[k].binding == s.attempts[k].binding
  {
  }

  lemma WorkCountFalls(s: State, op: Operation, m: nat, agent: Agent)
    requires !op.PrepareIntent?
    ensures var t := Work(s, op).0;
            OutstandingJobs(t.attempts, s.bindings, m, agent, s.clock) <= OutstandingJobs(s.attempts, s.bindings, m, agent, s.clock)
  {
    var t := Work(s, op).0;
    WorkKeepsRows(s, op);
    forall k | 0 <= k < |s.attempts| && Outstanding(t.attempts[k], s.bindings, m, agent, s.clock)
      ensures Outstanding(s.attempts[k], s.bindings, m, agent, s.clock)
    {
      OutstandingWasBefore(s, op, k, m, agent);
    }
    CountFalls(s.attempts, s.bindings, s.clock, t.attempts, s.bindings, s.clock, m, agent);
  }

  lemma OutstandingWasBefore(s: State, op: Operation, k: nat, m: nat, agent: Agent)
    requires !op.PrepareIntent? && k < |s.attempts|
    requires Outstanding(Work(s, op).0.attempts[k], s.bindings, m, agent, s.clock)
    ensures Outstanding(s.attempts[k], s.bindings, m, agent, s.clock)
  {
  }

  lemma StepKeepsJobs(s: State, e: Event)
    requires JobsBounded(s)
    ensures JobsBounded(Apply(s, e).0)
  {
    match e
    case Consume(p) =>
    case Elsewhere(t) =>
      if Allowable(s, t) {
        forall m, agent ensures OutstandingJobs(t.attempts, t.bindings, m, agent, t.clock) <= OWNER_JOB_OUTSTANDING_MAX {
          CountFalls(s.attempts, s.bindings, s.clock, t.attempts, t.bindings, t.clock, m, agent);
        }
      }
    case Transaction(op, fate) =>
      if op.PrepareIntent? { PrepareKeepsJobs(s, op.intent); } else { WorkKeepsJobs(s, op); }
  }

  /** An owner job of the member's agent that is admitted, unknown, or prepared and not expired. */
  predicate IsJob(a: Attempt, bindings: seq<Binding>, m: nat, agent: Agent, now: int) {
    && a.ownerJob && a.member == m && a.binding < |bindings| && bindings[a.binding].agent == Some(agent)
    && (a.state == Admitted || a.state == Unknown || (a.state == Prepared && now < a.expiresAt))
  }

  ghost function Jobs(attempts: seq<Attempt>, bindings: seq<Binding>, m: nat, agent: Agent, now: int): set<nat> {
    set k: nat | k < |attempts| && IsJob(attempts[k], bindings, m, agent, now)
  }

  lemma JobsGrow(attempts: seq<Attempt>, bindings: seq<Binding>, m: nat, agent: Agent, now: int)
    requires attempts != []
    ensures var n := |attempts| - 1;
            var before := Jobs(attempts[..n], bindings, m, agent, now);
            n !in before
            && Jobs(attempts, bindings, m, agent, now) == before + (if IsJob(attempts[n], bindings, m, agent, now) then {n} else {})
  {
    var n := |attempts| - 1;
    assert forall k :: 0 <= k < n ==> attempts[..n][k] == attempts[k];
  }

  lemma JobMeans(a: Attempt, bindings: seq<Binding>, m: nat, agent: Agent, now: int)
    ensures Outstanding(a, bindings, m, agent, now) <==> IsJob(a, bindings, m, agent, now)
  {
  }

  lemma {:induction false} JobsAreCounted(attempts: seq<Attempt>, bindings: seq<Binding>, m: nat, agent: Agent, now: int)
    ensures OutstandingJobs(attempts, bindings, m, agent, now) == |Jobs(attempts, bindings, m, agent, now)|
    decreases |attempts|
  {
    if attempts == [] {
      assert Jobs(attempts, bindings, m, agent, now) == {};
    } else {
      var n := |attempts| - 1;
      JobsAreCounted(attempts[..n], bindings, m, agent, now);
      JobsGrow(attempts, bindings, m, agent, now);
      JobMeans(attempts[n], bindings, m, agent, now);
    }
  }

  /** In every reachable state each member, agent and incarnation has at most eight owner jobs
      that are admitted, unknown, or prepared and unexpired. */
  lemma {:induction false} OwnerJobsBounded(s: State, events: seq<Event>, i: nat)
    requires JobsBounded(s) && i <= |events|
    ensures JobsBounded(Run(s, events)[i])
    decreases |events|
  {
    if i > 0 {
      StepKeepsJobs(s, events[0]);
      OwnerJobsBounded(Apply(s, events[0]).0, events[1..], i - 1);
    }
  }

  /** So at most eight, counted one by one. */
  lemma AtMostEightJobs(s: State, events: seq<Event>, i: nat, m: nat, agent: Agent)
    requires JobsBounded(s) && i <= |events|
    ensures var u := Run(s, events)[i]; |Jobs(u.attempts, u.bindings, m, agent, u.clock)| <= 8
  {
    OwnerJobsBounded(s, events, i);
    var u := Run(s, events)[i];
    JobsAreCounted(u.attempts, u.bindings, m, agent, u.clock);
  }
}
