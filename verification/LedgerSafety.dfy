/** What every run of the ledger keeps: caps while nothing has conflicted, and no admission after
    a conflict. */
module LedgerSafety {
  import opened Basics
  import opened BudgetLedger

  ghost predicate HasConflict(s: State) {
    exists k :: 0 <= k < |s.attempts| && s.attempts[k].state.Conflict?
  }

  /** A settlement is on file exactly for settled and conflicting attempts, and the windows an
      attempt was prepared in exist. */
  predicate SoundAttempt(a: Attempt, windows: nat) {
    && (a.settlement.Some? <==> a.state.Settled? || a.state.Conflict?)
    && a.installationWindow < windows && a.memberWindow < windows
  }

  ghost predicate SoundRows(s: State) {
    && (forall k :: 0 <= k < |s.attempts| ==> SoundAttempt(s.attempts[k], |s.windows|))
    && (s.installation.window.Some? ==> s.installation.window.value < |s.windows|)
    && (forall m :: m in s.members && s.members[m].account.window.Some? ==> s.members[m].account.window.value < |s.windows|)
  }

  predicate WithinCap(s: State, scope: Scope)
    requires Known(s, scope)
  {
    Liability(s, scope).Some? && AccountOf(s, scope).cap.Some?
    ==> Liability(s, scope).value <= AccountOf(s, scope).cap.value
  }

  ghost predicate CapsHold(s: State) {
    WithinCap(s, Whole) && forall m :: m in s.members ==> WithinCap(s, Of(m))
  }

  /** The invariant of every reachable state. */
  ghost predicate Safe(s: State) {
    && SoundRows(s)
    && (HasConflict(s) ==> s.installation.state.Frozen? || s.installation.state.Retired?)
    && (!HasConflict(s) ==> CapsHold(s))
  }

  // ---- Sums -------------------------------------------------------------------------------

  lemma {:induction false} ChargeUpdate(attempts: seq<Attempt>, k: nat, a: Attempt, scope: Scope, w: nat)
    requires k < |attempts|
    ensures TotalCharge(attempts[k := a], scope, w) + Charge(attempts[k], scope, w)
         == TotalCharge(attempts, scope, w) + Charge(a, scope, w)
    decreases |attempts|
  {
    var n := |attempts| - 1;
    if k < n {
      assert attempts[k := a][..n] == attempts[..n][k := a];
      ChargeUpdate(attempts[..n], k, a, scope, w);
    } else {
      assert attempts[k := a][..n] == attempts[..n];
    }
  }

  lemma {:induction false} ChargesAlike(x: seq<Attempt>, y: seq<Attempt>, scope: Scope, w: nat)
    requires |x| == |y|
    requires forall k :: 0 <= k < |x| ==> Charge(x[k], scope, w) == Charge(y[k], scope, w)
    ensures TotalCharge(x, scope, w) == TotalCharge(y, scope, w)
    decreases |x|
  {
    if x != [] {
      ChargesAlike(x[..|x| - 1], y[..|y| - 1], scope, w);
    }
  }

  lemma {:induction false} NothingChargedYet(attempts: seq<Attempt>, scope: Scope, w: nat)
    requires forall k :: 0 <= k < |attempts| ==> SoundAttempt(attempts[k], w) && !attempts[k].state.Conflict?
    ensures TotalCharge(attempts, scope, w) == 0
    decreases |attempts|
  {
    if attempts != [] {
      NothingChargedYet(attempts[..|attempts| - 1], scope, w);
    }
  }

  lemma ChargeAppendsPrepared(attempts: seq<Attempt>, a: Attempt, scope: Scope, w: nat)
    requires a.state.Prepared?
    ensures TotalCharge(attempts + [a], scope, w) == TotalCharge(attempts, scope, w)
  {
    assert (attempts + [a])[..|attempts|] == attempts;
  }

  // ---- One step ---------------------------------------------------------------------------

  /** Replacing one row by a row that charges no more keeps every cap. */
  lemma CheaperRowKeepsCaps(s: State, k: nat, a: Attempt)
    requires k < |s.attempts| && CapsHold(s)
    requires forall scope, w :: Charge(a, scope, w) <= Charge(s.attempts[k], scope, w)
    ensures CapsHold(s.(attempts := s.attempts[k := a]))
  {
    var t := s.(attempts := s.attempts[k := a]);
    forall scope | Known(t, scope) ensures WithinCap(t, scope) {
      var w := ActiveWindow(s, scope);
      assert w == ActiveWindow(t, scope);
      assert WithinCap(s, scope);
      if w.Some? { ChargeUpdate(s.attempts, k, a, scope, w.value); }
    }
  }

  lemma AdmissionKeepsCaps(s: State, k: nat, o: Observation, r: Recovery, authority: Authority)
    requires k < |s.attempts| && CapsHold(s)
    requires Decide(s, s.attempts[k], o, r, authority).Admit?
    ensures CapsHold(SetState(s, k, Admitted))
  {
    var a := s.attempts[k];
    var a' := a.(state := Admitted);
    var t := SetState(s, k, Admitted);
    forall scope | Known(t, scope) ensures WithinCap(t, scope) {
      var w := ActiveWindow(s, scope);
      assert w == ActiveWindow(t, scope);
      assert WithinCap(s, scope);
      if w.Some? { ChargeUpdate(s.attempts, k, a', scope, w.value); }
    }
  }

  lemma ReceiptKeepsCaps(a: Attempt, hash: Hash, amount: nat, windows: nat)
    requires SoundAttempt(a, windows) && Financial(a)
    ensures SoundAttempt(Receive(a, hash, amount), windows)
    ensures a.state.Conflict? ==> Receive(a, hash, amount).state.Conflict?
    ensures !Receive(a, hash, amount).state.Conflict?
            ==> forall scope, w :: Charge(Receive(a, hash, amount), scope, w) <= Charge(a, scope, w)
  {
  }

  lemma SameConflicts(s: State, t: State)
    requires |s.attempts| <= |t.attempts|
    requires forall k :: 0 <= k < |s.attempts| ==> (t.attempts[k].state.Conflict? <==> s.attempts[k].state.Conflict?)
    requires forall k :: |s.attempts| <= k < |t.attempts| ==> !t.attempts[k].state.Conflict?
    ensures HasConflict(s) <==> HasConflict(t)
  {
    if HasConflict(s) {
      var k :| 0 <= k < |s.attempts| && s.attempts[k].state.Conflict?;
      assert t.attempts[k].state.Conflict?;
    }
  }

  lemma PrepareKeepsSafe(s: State, i: Intent)
    requires Safe(s)
    ensures Safe(PrepareWork(s, i).0)
  {
    var t := PrepareWork(s, i).0;
    if t != s {
      var a := NewAttempt(s, i);
      assert t.attempts == s.attempts + [a];
      SameConflicts(s, t);
      if !HasConflict(s) {
        forall scope | Known(t, scope) ensures WithinCap(t, scope) {
          assert WithinCap(s, scope);
          var w := ActiveWindow(s, scope);
          if w.Some? { ChargeAppendsPrepared(s.attempts, a, scope, w.value); }
        }
      }
    }
  }

  lemma AdmitKeepsSafe(s: State, ticket: Hash, o: Observation, r: Recovery, authority: Authority)
    requires Safe(s)
    ensures Safe(AdmitWork(s, ticket, o, r, authority).0)
  {
    var t := AdmitWork(s, ticket, o, r, authority).0;
    var found := FindTicket(s.attempts, ticket);
    if t != s {
      var k := found.value;
      var a := s.attempts[k];
      assert a.state.Prepared?;
      SameConflicts(s, t);
      if !HasConflict(s) {
        if Decide(s, a, o, r, authority).Admit? {
          AdmissionKeepsCaps(s, k, o, r, authority);
        } else {
          CheaperRowKeepsCaps(s, k, a.(state := AttemptState.Retired));
        }
      }
    }
  }

  lemma MarkKeepsSafe(s: State, k: nat)
    requires Safe(s)
    ensures Safe(MarkUnknownWork(s, k).0)
  {
    var t := MarkUnknownWork(s, k).0;
    if t != s {
      SameConflicts(s, t);
      if !HasConflict(s) { CheaperRowKeepsCaps(s, k, s.attempts[k].(state := Unknown)); }
    }
  }

  lemma SettleKeepsSafe(s: State, r: TerminalReceipt)
    requires Safe(s)
    ensures Safe(SettleWork(s, r).0)
  {
    var t := SettleWork(s, r).0;
    if t != s {
      var a := s.attempts[r.attempt];
      var a' := Receive(a, r.hash, r.amount);
      ReceiptKeepsCaps(a, r.hash, r.amount, |s.windows|);
      if a'.state.Conflict? {
        assert t.attempts[r.attempt].state.Conflict?;
      } else {
        SameConflicts(s, t);
        if !HasConflict(s) { CheaperRowKeepsCaps(s, r.attempt, a'); }
      }
    }
  }

  lemma ElsewhereKeepsCap(s: State, t: State, scope: Scope)
    requires SoundRows(s) && !HasConflict(s) && CapsHold(s) && Allowable(s, t) && Known(t, scope)
    ensures WithinCap(t, scope)
  {
    var w := ActiveWindow(t, scope);
    if w.Some? && AccountOf(t, scope).cap.Some? {
      if Known(s, scope) && AccountOf(s, scope).window == w {
        assert KeepsCap(s, t, scope);
        assert WithinCap(s, scope);
        assert w == ActiveWindow(s, scope);
        ChargesAlike(s.attempts, t.attempts, scope, w.value);
      } else {
        if Known(s, scope) { assert KeepsCap(s, t, scope); } else { assert FreshMember(s, t, scope.member); }
        NothingChargedYet(t.attempts, scope, w.value);
      }
    }
  }

  lemma ElsewhereKeepsSafe(s: State, t: State)
    requires Safe(s) && Allowable(s, t)
    ensures Safe(t)
  {
    SameConflicts(s, t);
    if !HasConflict(s) {
      forall scope | Known(t, scope) ensures WithinCap(t, scope) { ElsewhereKeepsCap(s, t, scope); }
    }
    forall m | m in t.members && t.members[m].account.window.Some?
      ensures t.members[m].account.window.value < |t.windows|
    {
      if m in s.members { assert KeepsCap(s, t, Of(m)); } else { assert FreshMember(s, t, m); }
    }
    assert KeepsCap(s, t, Whole);
  }

  lemma SafeIgnoresPermits(s: State, permits: seq<Permit>, grants: map<nat, Hash>)
    requires Safe(s)
    ensures Safe(s.(permits := permits, grants := grants))
  {
    var t := s.(permits := permits, grants := grants);
    SameConflicts(s, t);
    if !HasConflict(s) {
      forall scope | Known(t, scope) ensures WithinCap(t, scope) { assert WithinCap(s, scope); }
    }
  }

  lemma WorkKeepsSafe(s: State, op: Operation)
    requires Safe(s)
    ensures Safe(Work(s, op).0)
  {
    match op
    case PrepareIntent(i) => PrepareKeepsSafe(s, i);
    case AdmitTicket(t, o, r, authority) => AdmitKeepsSafe(s, t, o, r, authority);
    case MarkUnknown(k) => MarkKeepsSafe(s, k);
    case Settle(r) => SettleKeepsSafe(s, r);
    case RecordGrant(k, b, q, g) => SafeIgnoresPermits(s, s.permits, GrantWork(s, k, b, q, g).0.grants);
  }

  lemma StepKeepsSafe(s: State, e: Event)
    requires Safe(s)
    ensures Safe(Apply(s, e).0)
  {
    match e
    case Consume(p) => SafeIgnoresPermits(s, Burn(s, p).0.permits, s.grants);
    case Elsewhere(t) => if Allowable(s, t) { ElsewhereKeepsSafe(s, t); }
    case Transaction(op, fate) =>
      WorkKeepsSafe(s, op);
      var (t, out) := Work(s, op);
      SafeIgnoresPermits(t, Mint(t, out).permits, t.grants);
  }

  // ---- Whole runs -------------------------------------------------------------------------

  /** Where runs start: no attempts yet, every active window opened within its cap. */
  ghost predicate Opened(s: State) {
    && s.attempts == [] && s.permits == []
    && (forall scope, w :: Known(s, scope) && AccountOf(s, scope).window == Some(w) ==>
          w < |s.windows| && (AccountOf(s, scope).cap.Some? ==> s.windows[w].opening <= AccountOf(s, scope).cap.value))
  }

  lemma OpenedIsSafe(s: State)
    requires Opened(s)
    ensures Safe(s)
  {
    assert s.installation.window.Some? ==> AccountOf(s, Whole).window == Some(s.installation.window.value);
    forall m | m in s.members && s.members[m].account.window.Some?
      ensures s.members[m].account.window.value < |s.windows|
    {
      assert AccountOf(s, Of(m)).window == Some(s.members[m].account.window.value);
    }
    forall scope | Known(s, scope) ensures WithinCap(s, scope) {
      if Liability(s, scope).Some? { assert AccountOf(s, scope).window == Some(ActiveWindow(s, scope).value); }
    }
  }

  /** Cap safety: in every state a run reaches without a conflict, the installation's and every
      member's liability is at most its cap. */
  lemma {:induction false} CapsHoldOverRuns(s: State, events: seq<Event>, i: nat)
    requires Safe(s) && i <= |events|
    ensures Safe(Run(s, events)[i])
    ensures !HasConflict(Run(s, events)[i]) ==> CapsHold(Run(s, events)[i])
    decreases |events|
  {
    if i > 0 {
      StepKeepsSafe(s, events[0]);
      CapsHoldOverRuns(Apply(s, events[0]).0, events[1..], i - 1);
    }
  }

  /** Rows only accumulate, conflicts are for ever, and a charged row of `t` was charged in `s`. */
  predicate NothingAdmitted(s: State, t: State) {
    && |s.attempts| <= |t.attempts|
    && (forall k :: 0 <= k < |s.attempts| ==>
          (s.attempts[k].state.Conflict? ==> t.attempts[k].state.Conflict?)
          && (Financial(t.attempts[k]) ==> Financial(s.attempts[k])))
    && (forall k :: |s.attempts| <= k < |t.attempts| ==> !Financial(t.attempts[k]))
  }

  lemma ConflictStopsWork(s: State, op: Operation)
    requires s.installation.state.Frozen? || s.installation.state.Retired?
    ensures NothingAdmitted(s, Work(s, op).0)
  {
    match op
    case PrepareIntent(i) => assert !Ready(s, Whole); assert PrepareWork(s, i).0 == s;
    case AdmitTicket(t, o, r, authority) =>
      var found := FindTicket(s.attempts, t);
      if found.Some? { assert !Decide(s, s.attempts[found.value], o, r, authority).Admit?; }
    case MarkUnknown(k) =>
    case Settle(r) =>
    case RecordGrant(k, b, q, g) =>
  }

  lemma ConflictStopsStep(s: State, e: Event)
    requires s.installation.state.Frozen? || s.installation.state.Retired?
    ensures NothingAdmitted(s, Apply(s, e).0)
  {
    match e
    case Consume(p) =>
    case Elsewhere(t) =>
    case Transaction(op, fate) => ConflictStopsWork(s, op);
  }

  /** Once a conflict has frozen the installation, no attempt is ever admitted again. */
  lemma {:induction false} NoAdmissionAfterConflict(s: State, events: seq<Event>, i: nat)
    requires Safe(s) && HasConflict(s) && i <= |events|
    ensures HasConflict(Run(s, events)[i])
    ensures forall k :: 0 <= k < |Run(s, events)[i].attempts| && Financial(Run(s, events)[i].attempts[k])
                        ==> k < |s.attempts| && Financial(s.attempts[k])
    decreases |events|
  {
    if i > 0 {
      ConflictStopsStep(s, events[0]);
      var k :| 0 <= k < |s.attempts| && s.attempts[k].state.Conflict?;
      assert Apply(s, events[0]).0.attempts[k].state.Conflict?;
      StepKeepsSafe(s, events[0]);
      NoAdmissionAfterConflict(Apply(s, events[0]).0, events[1..], i - 1);
    }
  }
}
