/** Settlement does not depend on the order, repetition or timing of receipts. */
module Receipts {
  import opened Basics
  import opened BudgetLedger

  /** What may reach one attempt: a correlated receipt, or a mark as unknown. */
  datatype Arrival = Report(hash: Hash, amount: nat) | LoseTrack

  function Arrive(a: Attempt, x: Arrival): Attempt {
    match x
    case Report(hash, amount) => Receive(a, hash, amount)
    case LoseTrack => if a.state.Admitted? then a.(state := Unknown) else a
  }

  function ArriveAll(a: Attempt, xs: seq<Arrival>): Attempt
    decreases |xs|
  {
    if xs == [] then a else Arrive(ArriveAll(a, xs[..|xs| - 1]), xs[|xs| - 1])
  }

  /** The distinct (hash, amount) pairs reported. */
  function Reported(xs: seq<Arrival>): set<Settlement> {
    set x | x in xs && x.Report? :: Settlement(x.hash, x.amount)
  }

  /** `top` is the largest of the reservation and every amount in `rs`. */
  predicate Peak(top: nat, reserved: nat, rs: set<Settlement>) {
    && reserved <= top
    && (forall r :: r in rs ==> r.amount <= top)
    && (top == reserved || exists r :: r in rs && r.amount == top)
  }

  predicate FreshlyAdmitted(a: Attempt) {
    (a.state.Admitted? || a.state.Unknown?) && a.settlement == None && a.highest == 0
  }

  /** What the set of distinct reports alone says about the attempt. */
  predicate Explained(a: Attempt, b: Attempt, rs: set<Settlement>) {
    && b.reserved == a.reserved && b.member == a.member
    && b.installationWindow == a.installationWindow && b.memberWindow == a.memberWindow
    && (rs == {} ==> (b.state.Admitted? || b.state.Unknown?) && b.settlement == None && b.highest == 0)
    && (rs != {} ==> b.settlement.Some? && b.settlement.value in rs
                     && (forall r :: r in rs ==> r.amount <= b.highest) && (exists r :: r in rs && r.amount == b.highest))
    && (rs != {} ==>
          if forall r :: r in rs ==> r == b.settlement.value && r.amount <= a.reserved then b.state.Settled?
          else b.state.Conflict?)
  }

  lemma ReportedStep(xs: seq<Arrival>)
    requires xs != []
    ensures var n := |xs| - 1;
            Reported(xs) == Reported(xs[..n]) + (if xs[n].Report? then {Settlement(xs[n].hash, xs[n].amount)} else {})
  {
    var n := |xs| - 1;
    assert xs == xs[..n] + [xs[n]];
  }

  lemma ExplainedStep(a: Attempt, b: Attempt, rs: set<Settlement>, x: Arrival)
    requires Explained(a, b, rs)
    ensures Explained(a, Arrive(b, x), if x.Report? then rs + {Settlement(x.hash, x.amount)} else rs)
  {
    if x.Report? {
      var r := Settlement(x.hash, x.amount);
      var c := Arrive(b, x);
      if rs == {} {
        assert rs + {r} == {r};
      } else if b.settlement != Some(r) {
        assert b.settlement.value in rs + {r};
        assert c.state.Conflict?;
        var top :| top in rs && top.amount == b.highest;
        assert c.highest == Max(b.highest, x.amount);
        assert top in rs + {r} && r in rs + {r};
      } else {
        assert rs + {r} == rs;
      }
    }
  }

  lemma {:induction false} ArrivalsExplained(a: Attempt, xs: seq<Arrival>)
    requires FreshlyAdmitted(a)
    ensures Explained(a, ArriveAll(a, xs), Reported(xs))
    decreases |xs|
  {
    if xs == [] {
      assert Reported(xs) == {};
    } else {
      var n := |xs| - 1;
      ArrivalsExplained(a, xs[..n]);
      ReportedStep(xs);
      ExplainedStep(a, ArriveAll(a, xs[..n]), Reported(xs[..n]), xs[n]);
      if xs[n].LoseTrack? { assert Reported(xs[..n]) + {} == Reported(xs[..n]); }
    }
  }

  /** A conflict costs exactly the largest of the reservation and every amount reported. */
  lemma ConflictCoversEveryReport(a: Attempt, xs: seq<Arrival>, scope: Scope, w: nat)
    requires FreshlyAdmitted(a) && ArriveAll(a, xs).state.Conflict?
    requires scope.Whole? || scope.member == a.member
    ensures Peak(Charge(ArriveAll(a, xs), scope, w), a.reserved, Reported(xs))
  {
    ArrivalsExplained(a, xs);
    var b, rs := ArriveAll(a, xs), Reported(xs);
    if Charge(b, scope, w) != a.reserved {
      var r :| r in rs && r.amount == b.highest;
    }
  }

  lemma PeakUnique(x: nat, y: nat, reserved: nat, rs: set<Settlement>)
    requires Peak(x, reserved, rs) && Peak(y, reserved, rs)
    ensures x == y
  {
  }

  /** Confluence: two histories with the same distinct reports leave the attempt settled alike, in
      conflict alike or open alike, and charging the same in every scope and window. */
  lemma ReceiptConfluence(a: Attempt, b: Attempt, xs: seq<Arrival>, ys: seq<Arrival>, scope: Scope, w: nat)
    requires FreshlyAdmitted(a) && FreshlyAdmitted(b) && b == a.(state := b.state, reason := b.reason)
    requires Reported(xs) == Reported(ys)
    ensures ArriveAll(a, xs).state.Settled? <==> ArriveAll(b, ys).state.Settled?
    ensures ArriveAll(a, xs).state.Conflict? <==> ArriveAll(b, ys).state.Conflict?
    ensures Charge(ArriveAll(a, xs), scope, w) == Charge(ArriveAll(b, ys), scope, w)
  {
    ArrivalsExplained(a, xs);
    ArrivalsExplained(b, ys);
    var c, d, rs := ArriveAll(a, xs), ArriveAll(b, ys), Reported(xs);
    if rs != {} {
      assert c.settlement.value in rs && d.settlement.value in rs;
      if c.state.Conflict? {
        if scope.Whole? || scope.member == a.member {
          ConflictCoversEveryReport(a, xs, scope, w);
          ConflictCoversEveryReport(b, ys, scope, w);
          PeakUnique(Charge(c, scope, w), Charge(d, scope, w), a.reserved, rs);
        }
      } else {
        assert c.settlement == d.settlement;
      }
    }
  }

  /** The ledger's settle step is exactly this arrival on the row it names. */
  lemma SettleIsAnArrival(s: State, r: TerminalReceipt)
    requires r.attempt < |s.attempts|
    requires SettleWork(s, r).1 != Receipted(DeniedVerdict) && SettleWork(s, r).1 != Unavailable
    ensures SettleWork(s, r).0.attempts
         == s.attempts[r.attempt := Arrive(s.attempts[r.attempt], Report(r.hash, r.amount))]
    ensures SettleWork(s, r).1 == Receipted(if Arrive(s.attempts[r.attempt], Report(r.hash, r.amount)).state.Conflict?
                                            then ConflictVerdict else SettledVerdict)
  {
  }

  // ---- In the ledger's runs ---------------------------------------------------------------

  /** What an event brings to attempt `k` of the state it finds, if anything: a receipt that is
      accepted as correlated, or a mark, whose transaction was not rolled back. */
  ghost function ArrivalOf(s: State, e: Event, k: nat): Option<Arrival> {
    match e
    case Transaction(Settle(r), fate) =>
      if fate.RolledBack? || r.attempt != k || SettleWork(s, r).1 == Receipted(DeniedVerdict) || SettleWork(s, r).1 == Unavailable
      then None else Some(Report(r.hash, r.amount))
    case Transaction(MarkUnknown(j), fate) => if fate.RolledBack? || j != k then None else Some(LoseTrack)
    case _ => None
  }

  /** Everything a run brings to attempt `k`, in order. */
  ghost function ArrivalsOf(s: State, events: seq<Event>, k: nat): seq<Arrival>
    decreases |events|
  {
    if events == [] then []
    else
      var first, rest := ArrivalOf(s, events[0], k), ArrivalsOf(Apply(s, events[0]).0, events[1..], k);
      if first.Some? then [first.value] + rest else rest
  }

  /** No other step, of this store or elsewhere, touches an attempt that is charged. */
  lemma StepArrives(s: State, e: Event, k: nat)
    requires k < |s.attempts| && Financial(s.attempts[k])
    ensures k < |Apply(s, e).0.attempts| && Financial(Apply(s, e).0.attempts[k])
    ensures Apply(s, e).0.attempts[k] ==
            (if ArrivalOf(s, e, k).Some? then Arrive(s.attempts[k], ArrivalOf(s, e, k).value) else s.attempts[k])
  {
    match e
    case Consume(p) =>
    case Elsewhere(t) =>
    case Transaction(op, fate) => WorkArrives(s, op, k);
  }

  /** Attempt `k` once the ledger has answered a receipt. */
  function Settled(s: State, r: TerminalReceipt, k: nat): Attempt
    requires k < |s.attempts|
  {
    var out := SettleWork(s, r).1;
    if r.attempt != k || out == Receipted(DeniedVerdict) || out == Unavailable then s.attempts[k]
    else Receive(s.attempts[k], r.hash, r.amount)
  }

  lemma WorkArrives(s: State, op: Operation, k: nat)
    requires k < |s.attempts| && Financial(s.attempts[k])
    ensures var t := Work(s, op).0;
            && k < |t.attempts| && Financial(t.attempts[k])
            && (!op.Settle? && !(op.MarkUnknown? && op.attempt == k) ==> t.attempts[k] == s.attempts[k])
            && (op == MarkUnknown(k) ==> t.attempts[k] == Arrive(s.attempts[k], LoseTrack))
            && (op.Settle? ==> t.attempts[k] == Settled(s, op.receipt, k))
  {
    match op
    case PrepareIntent(i) =>
    case AdmitTicket(ticket, o, r, authority) => AdmitLeaves(s, ticket, o, r, authority, k);
    case MarkUnknown(j) =>
    case Settle(r) => SettleTouches(s, r, k);
    case RecordGrant(j, b, q, g) =>
  }

  lemma AdmitLeaves(s: State, ticket: Hash, o: Observation, r: Recovery, authority: Authority, k: nat)
    requires k < |s.attempts| && Financial(s.attempts[k])
    ensures var t := AdmitWork(s, ticket, o, r, authority).0; k < |t.attempts| && t.attempts[k] == s.attempts[k]
  {
  }

  lemma SettleTouches(s: State, r: TerminalReceipt, k: nat)
    requires k < |s.attempts| && Financial(s.attempts[k])
    ensures var t := SettleWork(s, r).0;
            && k < |t.attempts|
            && t.attempts[k] == Settled(s, r, k)
  {
  }

  lemma {:induction false} ArriveFirst(a: Attempt, x: Arrival, xs: seq<Arrival>)
    ensures ArriveAll(a, [x] + xs) == ArriveAll(Arrive(a, x), xs)
    decreases |xs|
  {
    var all, n := [x] + xs, |xs|;
    if xs == [] {
      assert all[..0] == [] && all[0] == x;
      assert ArriveAll(a, all[..0]) == a;
    } else {
      assert all[..n] == [x] + xs[..n - 1] && all[n] == xs[n - 1];
      ArriveFirst(a, x, xs[..n - 1]);
    }
  }

  /** After any run of the ledger, with everything else that happens in it, a charged attempt is
      what its own arrivals make of it. */
  lemma {:induction false} RunArrives(s: State, events: seq<Event>, k: nat)
    requires k < |s.attempts| && Financial(s.attempts[k])
    ensures k < |Run(s, events)[|events|].attempts|
    ensures Run(s, events)[|events|].attempts[k] == ArriveAll(s.attempts[k], ArrivalsOf(s, events, k))
    decreases |events|
  {
    if events != [] {
      var next := Apply(s, events[0]).0;
      StepArrives(s, events[0], k);
      RunArrives(next, events[1..], k);
      if ArrivalOf(s, events[0], k).Some? {
        ArriveFirst(s.attempts[k], ArrivalOf(s, events[0], k).value, ArrivalsOf(next, events[1..], k));
      }
    }
  }

  /** Confluence in the ledger: two runs that bring one attempt the same distinct reports, in any
      order, with any repeats, marks, lost acknowledgements, rollbacks and other steps between them,
      settle it alike, put it in conflict alike and charge it alike. */
  lemma LedgerConfluence(s: State, xs: seq<Event>, ys: seq<Event>, k: nat, scope: Scope, w: nat)
    requires k < |s.attempts| && FreshlyAdmitted(s.attempts[k])
    requires Reported(ArrivalsOf(s, xs, k)) == Reported(ArrivalsOf(s, ys, k))
    ensures k < |Run(s, xs)[|xs|].attempts| && k < |Run(s, ys)[|ys|].attempts|
    ensures var a, b := Run(s, xs)[|xs|].attempts[k], Run(s, ys)[|ys|].attempts[k];
            && (a.state.Settled? <==> b.state.Settled?) && (a.state.Conflict? <==> b.state.Conflict?)
            && Charge(a, scope, w) == Charge(b, scope, w)
  {
    RunArrives(s, xs, k);
    RunArrives(s, ys, k);
    ReceiptConfluence(s.attempts[k], s.attempts[k], ArrivalsOf(s, xs, k), ArrivalsOf(s, ys, k), scope, w);
  }
}
