/** What the ledger's answers mean: an admission, a receipt and a grant are of the call that was
    prepared, and every step moves the liability of an account by exactly what it should. */
module Admissions {
  import opened Basics
  import opened BudgetLedger
  import opened LedgerSafety
  import Receipts

  // ---- Preparation ------------------------------------------------------------------------

  /** The account is open, in a month that contains the present. */
  predicate OpenNow(s: State, account: Account, owner: Scope) {
    && account.state == Open && account.window.Some? && account.window.value < |s.windows|
    && s.windows[account.window.value].owner == owner
    && s.windows[account.window.value].startsAt <= s.clock < s.windows[account.window.value].endsAt
  }

  /** Everything a preparation demands, read off the rows. */
  ghost predicate MayPrepare(s: State, i: Intent) {
    && i.binding < |s.bindings| && s.bindings[i.binding].member in s.members
    && var b := s.bindings[i.binding];
       var m := s.members[b.member];
       && b.active && b.live == Some(i.memberId) && m.live == Some(i.memberId)
       && b.agent == Some(i.agent) && b.alias == i.alias && b.endpointHash == s.endpoint
       && (i.caller.Conversation? ==> b.profileHash == i.caller.profileHash)
       && (!i.caller.Conversation? ==> i.caller.pathMatches)
       && s.recoveryEpoch.Some? && s.installation.cap.Some? && m.account.cap.Some?
       && OpenNow(s, s.installation, Whole) && OpenNow(s, m.account, Of(b.member))
       && s.clock < i.expiresAt <= s.clock + 30_000
       && (i.caller.OwnerJob? ==> OutstandingJobs(s.attempts, s.bindings, b.member, i.agent, s.clock) < 8)
       && (forall a :: a in s.attempts ==> a.invocation != i.invocation && a.ticket != i.ticket)
  }

  lemma PreparedExactly(s: State, i: Intent)
    ensures PrepareWork(s, i).1 == Ticketed(|s.attempts|) <==> MayPrepare(s, i)
    ensures !MayPrepare(s, i) ==> PrepareWork(s, i) == (s, Unavailable)
  {
    if MayPrepare(s, i) {
      forall k | 0 <= k < |s.attempts| ensures s.attempts[k].invocation != i.invocation && s.attempts[k].ticket != i.ticket {
        assert s.attempts[k] in s.attempts;
      }
    }
  }

  /** The row a preparation makes: the call as asked for, under the binding's own terms, reserving the
      binding's whole maximum, in the months and generations of the moment. */
  predicate MadeFor(s: State, i: Intent, a: Attempt)
    requires i.binding < |s.bindings| && s.bindings[i.binding].member in s.members
  {
    var b := s.bindings[i.binding];
    var m := s.members[b.member].account;
    && a.ticket == i.ticket && a.invocation == i.invocation && a.binding == i.binding && a.member == b.member
    && a.call.requestHash == i.requestHash && a.call.profileHash == b.profileHash
    && a.call.endpointHash == b.endpointHash && a.call.credentialGeneration == b.credentialGeneration
    && a.reserved == b.maximum && a.expiresAt == i.expiresAt && (a.ownerJob <==> i.caller.OwnerJob?)
    && Some(a.installationWindow) == s.installation.window && Some(a.memberWindow) == m.window
    && a.installationGeneration == s.installation.generation && a.memberGeneration == m.generation
    && a.endpointGeneration == s.endpointGeneration && Some(a.recoveryEpoch) == s.recoveryEpoch
  }

  /** The step from `s` to `t` made the last row of `t` for `i`. */
  ghost predicate Made(s: State, i: Intent, fate: Fate, t: State) {
    t == Apply(s, Transaction(PrepareIntent(i), fate)).0 && |t.attempts| == |s.attempts| + 1
  }

  lemma MadeMeans(s: State, i: Intent, fate: Fate, t: State)
    requires Made(s, i, fate, t)
    ensures MayPrepare(s, i) && MadeFor(s, i, t.attempts[|s.attempts|])
    ensures t.attempts[|s.attempts|].state.Prepared? && t.attempts[..|s.attempts|] == s.attempts
    ensures t == s.(attempts := t.attempts)
  {
    PreparedExactly(s, i);
  }

  // ---- Rows and bindings keep their terms -------------------------------------------------

  predicate SameTerms(a: Attempt, b: Attempt) {
    b == a.(state := b.state, settlement := b.settlement, highest := b.highest, reason := b.reason)
  }

  /** What no step of the store or of anything else takes back. */
  ghost predicate KeepsTerms(s: State, t: State) {
    && |s.attempts| <= |t.attempts| && KeepsBindings(s, t)
    && forall k :: 0 <= k < |s.attempts| ==> SameTerms(s.attempts[k], t.attempts[k])
  }

  lemma WorkKeepsTerms(s: State, op: Operation)
    ensures KeepsTerms(s, Work(s, op).0)
  {
    match op
    case PrepareIntent(i) =>
    case AdmitTicket(ticket, o, r, authority) => AdmitKeepsTerms(s, ticket, o, r, authority);
    case MarkUnknown(k) =>
    case Settle(r) => SettleKeepsTerms(s, r);
    case RecordGrant(k, b, q, g) =>
  }

  lemma AdmitKeepsTerms(s: State, ticket: Hash, o: Observation, r: Recovery, authority: Authority)
    ensures KeepsTerms(s, AdmitWork(s, ticket, o, r, authority).0)
  {
  }

  lemma SettleKeepsTerms(s: State, r: TerminalReceipt)
    ensures KeepsTerms(s, SettleWork(s, r).0)
  {
  }

  lemma StepKeepsTerms(s: State, e: Event)
    ensures KeepsTerms(s, Apply(s, e).0)
  {
    if e.Transaction? { WorkKeepsTerms(s, e.op); }
  }

  lemma {:induction false} RunKeepsTerms(s: State, events: seq<Event>, n: nat)
    requires n <= |events|
    ensures KeepsTerms(s, Run(s, events)[n])
    decreases |events|
  {
    if n > 0 {
      var t := Apply(s, events[0]).0;
      StepKeepsTerms(s, events[0]);
      RunKeepsTerms(t, events[1..], n - 1);
      KeepsTermsTransitive(s, t, Run(t, events[1..])[n - 1]);
    }
  }

  lemma KeepsTermsTransitive(s: State, t: State, u: State)
    requires KeepsTerms(s, t) && KeepsTerms(t, u)
    ensures KeepsTerms(s, u)
  {
  }

  // ---- An admission is of the call that was prepared --------------------------------------

  /** The very call: its hash as asked for, everything else as the binding says. */
  function ObservationOf(i: Intent, b: Binding): Observation {
    Observation(Call(i.requestHash, b.profileHash, b.endpointHash, b.credentialGeneration), b.keyFingerprint, i.agent, i.alias)
  }

  /** The account is open now, in the month and generation it was in when the attempt was made. */
  predicate StillOpen(u: State, earlier: Account, now: Account, owner: Scope) {
    OpenNow(u, now, owner) && now.window == earlier.window && now.generation == earlier.generation
  }

  predicate HasRoom(u: State, scope: Scope, account: Account, amount: nat)
    requires Known(u, scope)
  {
    account.cap.Some? && Liability(u, scope).Some? && Liability(u, scope).value + amount <= account.cap.value
  }

  predicate StillValid(authority: Authority, clock: int) {
    authority.Valid? && (authority.until.Some? ==> clock < authority.until.value)
  }

  /** Over any run: a permit for an attempt is given only to the ticket it was prepared with, for the
      call it was prepared for, before it expires, under accounts, endpoint and epoch unchanged since,
      to the member's current authority, and with room under both caps. */
  lemma AdmissionIsOfThePreparedCall(s: State, i: Intent, fate: Fate, t: State, events: seq<Event>, n: nat,
                                     ticket: Hash, o: Observation, r: Recovery, authority: Authority, fate': Fate, permit: nat)
    requires Made(s, i, fate, t) && n <= |events|
    requires Apply(Run(t, events)[n], Transaction(Operation.AdmitTicket(ticket, o, r, authority), fate')).1 == Allowed(permit, |s.attempts|)
    ensures MayPrepare(s, i)
    ensures var b, u := s.bindings[i.binding], Run(t, events)[n];
            && ticket == i.ticket && o == ObservationOf(i, b)
            && u.clock < i.expiresAt
            && b.member in u.members && i.binding < |u.bindings| && u.bindings[i.binding].active
            && StillOpen(u, s.installation, u.installation, Whole)
            && StillOpen(u, s.members[b.member].account, u.members[b.member].account, Of(b.member))
            && u.endpoint == s.endpoint && u.endpointGeneration == s.endpointGeneration && u.recoveryEpoch == s.recoveryEpoch
            && r == Recovery(true, true, u.recoveryEpoch.value, u.endpointGeneration)
            && StillValid(authority, u.clock) && u.members[b.member].live == Some(authority.memberId)
            && HasRoom(u, Whole, u.installation, b.maximum)
            && HasRoom(u, Of(b.member), u.members[b.member].account, b.maximum)
  {
    MadeMeans(s, i, fate, t);
    RunKeepsTerms(t, events, n);
    var u, k := Run(t, events)[n], |s.attempts|;
    assert SameTerms(t.attempts[k], u.attempts[k]) && KeepsBinding(t.bindings[i.binding], u.bindings[i.binding]);
    AdmittedMeans(u, ticket, o, r, authority, k);
  }

  /** What an admission of row `k` shows about the row. */
  lemma AdmittedMeans(u: State, ticket: Hash, o: Observation, r: Recovery, authority: Authority, k: nat)
    requires AdmitWork(u, ticket, o, r, authority).1.Allowed? && AdmitWork(u, ticket, o, r, authority).1.attempt == k
    ensures k < |u.attempts| && u.attempts[k].ticket == ticket && u.attempts[k].state.Prepared?
    ensures var a := u.attempts[k];
            && a.binding < |u.bindings| && a.member in u.members && u.bindings[a.binding].member == a.member
            && var b := u.bindings[a.binding];
               && o == Observation(a.call, b.keyFingerprint, o.agent, b.alias) && b.agent == Some(o.agent) && b.active
               && u.clock < a.expiresAt
               && OpenNow(u, u.installation, Whole) && OpenNow(u, u.members[a.member].account, Of(a.member))
               && u.installation.window == Some(a.installationWindow) && u.installation.generation == a.installationGeneration
               && u.members[a.member].account.window == Some(a.memberWindow) && u.members[a.member].account.generation == a.memberGeneration
               && u.endpoint == a.call.endpointHash && u.endpointGeneration == a.endpointGeneration && u.recoveryEpoch == Some(a.recoveryEpoch)
               && r == Recovery(true, true, a.recoveryEpoch, a.endpointGeneration)
               && StillValid(authority, u.clock) && u.members[a.member].live == Some(authority.memberId)
               && HasRoom(u, Whole, u.installation, a.reserved) && HasRoom(u, Of(a.member), u.members[a.member].account, a.reserved)
  {
  }

  /** Conversely: prepared and then admitted with that observation, nothing changed between and room
      under both caps, the call is allowed. */
  lemma PreparedIsAdmitted(s: State, i: Intent, t: State, until: Option<int>)
    requires Made(s, i, Acknowledged, t) && i.binding < |s.bindings| && s.bindings[i.binding].member in s.members
    requires s.recoveryEpoch.Some? && StillValid(Valid(i.memberId, until), s.clock)
    requires HasRoom(s, Whole, s.installation, s.bindings[i.binding].maximum)
    requires var m := s.bindings[i.binding].member; HasRoom(s, Of(m), s.members[m].account, s.bindings[i.binding].maximum)
    ensures var o, r := ObservationOf(i, s.bindings[i.binding]), Recovery(true, true, s.recoveryEpoch.value, s.endpointGeneration);
            Apply(t, Transaction(Operation.AdmitTicket(i.ticket, o, r, Valid(i.memberId, until)), Acknowledged)).1
            == Allowed(|s.permits|, |s.attempts|)
  {
    MadeMeans(s, i, Acknowledged, t);
    var b, k := s.bindings[i.binding], |s.attempts|;
    var a := t.attempts[k];
    assert t.attempts == s.attempts + [a];
    ChargeAppendsPrepared(s.attempts, a, Whole, s.installation.window.value);
    ChargeAppendsPrepared(s.attempts, a, Of(b.member), s.members[b.member].account.window.value);
    assert FindTicket(t.attempts, i.ticket) == Some(k);
    PreparedDecision(s, i, t, until);
  }

  lemma PreparedDecision(s: State, i: Intent, t: State, until: Option<int>)
    requires Made(s, i, Acknowledged, t) && MayPrepare(s, i) && MadeFor(s, i, t.attempts[|s.attempts|])
    requires t == s.(attempts := t.attempts) && t.attempts[|s.attempts|].state.Prepared?
    requires StillValid(Valid(i.memberId, until), s.clock)
    requires HasRoom(t, Whole, t.installation, s.bindings[i.binding].maximum)
    requires var m := s.bindings[i.binding].member; HasRoom(t, Of(m), t.members[m].account, s.bindings[i.binding].maximum)
    ensures Decide(t, t.attempts[|s.attempts|], ObservationOf(i, s.bindings[i.binding]),
                   Recovery(true, true, s.recoveryEpoch.value, s.endpointGeneration), Valid(i.memberId, until)) == Admit
  {
  }

  /** What a ticket's first admission does besides: it retires a prepared attempt it refuses, changes
      nothing but that row, and leaves alone an unknown ticket, an attempt that is not prepared any
      more and one whose stored authority was altered. */
  lemma RefusalRetires(u: State, ticket: Hash, o: Observation, r: Recovery, authority: Authority)
    ensures var (t, out) := AdmitWork(u, ticket, o, r, authority);
            var found := FindTicket(u.attempts, ticket);
            if found.None? || u.attempts[found.value].state != Prepared || authority.Altered? then t == u && out == Denied(None)
            else if authority.Valid? && !HasLocks(u, u.attempts[found.value]) then t == u && out == Unavailable
            else
              && (out.Allowed? || out.Denied?)
              && t == u.(attempts := u.attempts[found.value := u.attempts[found.value].(state := if out.Allowed? then Admitted else AttemptState.Retired)])
  {
  }

  /** A limit is named only when it is the limit that refuses: the member's whenever the member has no
      room, the installation's only when the member has. */
  lemma LimitIsNamed(u: State, ticket: Hash, o: Observation, r: Recovery, authority: Authority, scope: Scope)
    requires AdmitWork(u, ticket, o, r, authority).1 == Denied(Some(scope))
    ensures exists k :: 0 <= k < |u.attempts| && LimitRefuses(u, u.attempts[k], scope) && u.attempts[k].ticket == ticket
                        && AdmitWork(u, ticket, o, r, authority).0 == SetState(u, k, AttemptState.Retired)
  {
    var k := FindTicket(u.attempts, ticket).value;
    assert LimitRefuses(u, u.attempts[k], scope);
  }

  predicate LimitRefuses(u: State, a: Attempt, scope: Scope) {
    && a.member in u.members && u.members[a.member].account.cap.Some? && u.installation.cap.Some?
    && Liability(u, Of(a.member)).Some? && Liability(u, Whole).Some?
    && var over := Liability(u, Of(a.member)).value + a.reserved > u.members[a.member].account.cap.value;
       if over then scope == Of(a.member)
       else scope == Whole && Liability(u, Whole).value + a.reserved > u.installation.cap.value
  }

  // ---- Receipts and grants are of that call -----------------------------------------------

  /** The receipt repeats the attempt's binding and call, and an affirmed nondispatch costs nothing. */
  predicate Correlated(a: Attempt, r: TerminalReceipt) {
    && r.binding == a.binding && r.call.requestHash == a.call.requestHash && r.call.profileHash == a.call.profileHash
    && r.call.endpointHash == a.call.endpointHash && r.call.credentialGeneration == a.call.credentialGeneration
    && (r.affirmativeNondispatch ==> r.amount == 0)
  }

  predicate HasLocks(s: State, a: Attempt) {
    a.member in s.members && a.binding < |s.bindings| && s.bindings[a.binding].member == a.member
  }

  /** A receipt is taken exactly for an attempt that was admitted and that it repeats. */
  lemma ReceiptTakenExactly(s: State, r: TerminalReceipt)
    requires r.attempt < |s.attempts| && HasLocks(s, s.attempts[r.attempt])
    ensures SettleWork(s, r).1 == Receipted(DeniedVerdict) || SettleWork(s, r).1 == Receipted(SettledVerdict)
            || SettleWork(s, r).1 == Receipted(ConflictVerdict)
    ensures var a := s.attempts[r.attempt];
            SettleWork(s, r).1 != Receipted(DeniedVerdict) <==>
            (a.state == Admitted || a.state == Unknown || a.state == Settled || a.state == Conflict) && Correlated(a, r)
    ensures SettleWork(s, r).1 == Receipted(DeniedVerdict) ==> SettleWork(s, r).0 == s
  {
  }

  /** The first receipt stands; a receipt conflicts exactly when it differs from it, or is the first
      and exceeds the reservation, or the attempt is in conflict already. */
  lemma VerdictExactly(s: State, r: TerminalReceipt)
    requires r.attempt < |s.attempts| && HasLocks(s, s.attempts[r.attempt]) && SettleWork(s, r).1 != Receipted(DeniedVerdict)
    ensures var a, b := s.attempts[r.attempt], SettleWork(s, r).0.attempts[r.attempt];
            && b.settlement == (if a.settlement.Some? then a.settlement else Some(Settlement(r.hash, r.amount)))
            && (SettleWork(s, r).1 == Receipted(ConflictVerdict) <==> b.state.Conflict?)
            && (a.settlement == Some(Settlement(r.hash, r.amount)) ==> SettleWork(s, r).0.attempts == s.attempts)
            && (a.settlement != Some(Settlement(r.hash, r.amount)) ==>
                  (b.state.Conflict? <==> a.state.Conflict? || a.settlement.Some? || r.amount > a.reserved)
                  && (!b.state.Conflict? ==> b.state.Settled?))
  {
  }

  /** Over any run a receipt that is taken for an attempt repeats the call it was prepared for. */
  lemma ReceiptIsOfThePreparedCall(s: State, i: Intent, fate: Fate, t: State, events: seq<Event>, n: nat, r: TerminalReceipt)
    requires Made(s, i, fate, t) && n <= |events| && r.attempt == |s.attempts|
    requires var out := SettleWork(Run(t, events)[n], r).1; out == Receipted(SettledVerdict) || out == Receipted(ConflictVerdict)
    ensures MayPrepare(s, i)
    ensures r.binding == i.binding && r.call == ObservationOf(i, s.bindings[i.binding]).call
    ensures Financial(Run(t, events)[n].attempts[r.attempt])
  {
    MadeMeans(s, i, fate, t);
    RunKeepsTerms(t, events, n);
    var u := Run(t, events)[n];
    assert SameTerms(t.attempts[r.attempt], u.attempts[r.attempt]);
    ReceiptTakenExactly(u, r);
  }

  /** A settlement on file is never replaced. */
  lemma {:induction false} SettlementStands(s: State, events: seq<Event>, n: nat, k: nat)
    requires Safe(s) && n <= |events| && k < |s.attempts| && s.attempts[k].settlement.Some?
    ensures k < |Run(s, events)[n].attempts| && Run(s, events)[n].attempts[k].settlement == s.attempts[k].settlement
    decreases |events|
  {
    if n > 0 {
      StepKeepsSafe(s, events[0]);
      SettlementStep(s, events[0], k);
      SettlementStands(Apply(s, events[0]).0, events[1..], n - 1, k);
    }
  }

  lemma SettlementStep(s: State, e: Event, k: nat)
    requires SoundRows(s) && k < |s.attempts| && s.attempts[k].settlement.Some?
    ensures k < |Apply(s, e).0.attempts| && Apply(s, e).0.attempts[k].settlement == s.attempts[k].settlement
  {
    assert SoundAttempt(s.attempts[k], |s.windows|);
    Receipts.StepArrives(s, e, k);
  }

  /** A grant is recorded exactly for an admitted attempt without one, whose binding and request it
      names, and is never replaced. */
  lemma GrantExactly(s: State, k: nat, binding: nat, requestHash: Hash, grantHash: Hash)
    requires k < |s.attempts| && HasLocks(s, s.attempts[k])
    ensures GrantWork(s, k, binding, requestHash, grantHash).1 == GrantRecorded(true) <==>
            s.attempts[k].state == Admitted && s.attempts[k].binding == binding && s.attempts[k].call.requestHash == requestHash && k !in s.grants
    ensures GrantWork(s, k, binding, requestHash, grantHash).1 == GrantRecorded(true) ==>
            GrantWork(s, k, binding, requestHash, grantHash).0 == s.(grants := s.grants[k := grantHash])
    ensures GrantWork(s, k, binding, requestHash, grantHash).1 != GrantRecorded(true) ==> GrantWork(s, k, binding, requestHash, grantHash).0 == s
  {
  }

  lemma {:induction false} GrantStands(s: State, events: seq<Event>, n: nat, k: nat)
    requires n <= |events| && k in s.grants
    ensures k in Run(s, events)[n].grants && Run(s, events)[n].grants[k] == s.grants[k]
    decreases |events|
  {
    if n > 0 {
      GrantStep(s, events[0], k);
      GrantStands(Apply(s, events[0]).0, events[1..], n - 1, k);
    }
  }

  lemma GrantStep(s: State, e: Event, k: nat)
    requires k in s.grants
    ensures k in Apply(s, e).0.grants && Apply(s, e).0.grants[k] == s.grants[k]
  {
  }

  // ---- What each step does to a liability -------------------------------------------------

  /** The account answers for the attempt: the installation for every one, a member for its own. */
  predicate Covers(scope: Scope, a: Attempt) {
    scope == Whole || scope == Of(a.member)
  }

  /** The account is still in the month the attempt was prepared in. */
  predicate InItsMonth(s: State, scope: Scope, a: Attempt)
    requires Known(s, scope)
  {
    match scope
    case Whole => s.installation.window == Some(a.installationWindow)
    case Of(m) => s.members[m].account.window == Some(a.memberWindow)
  }

  /** One row of an account in a window is exchanged for another. */
  lemma RowExchanged(s: State, k: nat, a: Attempt, scope: Scope)
    requires k < |s.attempts| && Known(s, scope) && Liability(s, scope).Some?
    ensures var t := s.(attempts := s.attempts[k := a]);
            Liability(t, scope).Some?
            && Liability(t, scope).value + Charge(s.attempts[k], scope, ActiveWindow(s, scope).value)
            == Liability(s, scope).value + Charge(a, scope, ActiveWindow(s, scope).value)
  {
    ChargeUpdate(s.attempts, k, a, scope, ActiveWindow(s, scope).value);
  }

  lemma PreparationChargesNothing(s: State, i: Intent, scope: Scope)
    requires Known(s, scope)
    ensures Known(PrepareWork(s, i).0, scope) && Liability(PrepareWork(s, i).0, scope) == Liability(s, scope)
  {
    if PrepareWork(s, i).0 != s && ActiveWindow(s, scope).Some? {
      ChargeAppendsPrepared(s.attempts, NewAttempt(s, i), scope, ActiveWindow(s, scope).value);
    }
  }

  /** An admission raises the installation's and the member's liability by the whole reservation, and
      nobody else's. */
  lemma AdmissionCharges(s: State, ticket: Hash, o: Observation, r: Recovery, authority: Authority, scope: Scope)
    requires Known(s, scope) && Liability(s, scope).Some? && AdmitWork(s, ticket, o, r, authority).1.Allowed?
    ensures var k := AdmitWork(s, ticket, o, r, authority).1.attempt;
            var t := AdmitWork(s, ticket, o, r, authority).0;
            k < |s.attempts| && Known(t, scope) && Liability(t, scope).Some?
            && Liability(t, scope).value == Liability(s, scope).value + (if Covers(scope, s.attempts[k]) then s.attempts[k].reserved else 0)
  {
    var k := AdmitWork(s, ticket, o, r, authority).1.attempt;
    AdmittedMeans(s, ticket, o, r, authority, k);
    RowExchanged(s, k, s.attempts[k].(state := Admitted), scope);
  }

  /** Losing track of a call keeps it charged in full. */
  lemma UnknownStaysCharged(s: State, k: nat, scope: Scope)
    requires Known(s, scope) && Liability(s, scope).Some? && k < |s.attempts|
    ensures Liability(MarkUnknownWork(s, k).0, scope) == Liability(s, scope)
    ensures MarkUnknownWork(s, k).0.attempts[k].state == (if s.attempts[k].state.Admitted? then Unknown else s.attempts[k].state)
  {
    RowExchanged(s, k, s.attempts[k].(state := Unknown), scope);
  }

  /** A first receipt within the reservation exchanges the reservation for the amount in the month of
      the call; one above it, a conflict, charges the amount in every month. */
  lemma FirstReceiptCharges(s: State, r: TerminalReceipt, scope: Scope)
    requires Known(s, scope) && Liability(s, scope).Some? && r.attempt < |s.attempts| && HasLocks(s, s.attempts[r.attempt])
    requires Correlated(s.attempts[r.attempt], r) && (s.attempts[r.attempt].state.Admitted? || s.attempts[r.attempt].state.Unknown?)
    requires s.attempts[r.attempt].settlement == None && s.attempts[r.attempt].highest == 0
    ensures var a, t := s.attempts[r.attempt], SettleWork(s, r).0;
            Known(t, scope) && Liability(t, scope).Some?
            && var before, after := Liability(s, scope).value, Liability(t, scope).value;
               if !Covers(scope, a) then after == before
               else if r.amount <= a.reserved then after == (if InItsMonth(s, scope, a) then before - a.reserved + r.amount else before)
               else after == (if InItsMonth(s, scope, a) then before - a.reserved else before) + r.amount
  {
    var a := s.attempts[r.attempt];
    RowExchanged(s, r.attempt, Receive(a, r.hash, r.amount), scope);
    FirstReceiptRow(a, r, scope, ActiveWindow(s, scope).value);
  }

  lemma FirstReceiptRow(a: Attempt, r: TerminalReceipt, scope: Scope, w: nat)
    requires (a.state.Admitted? || a.state.Unknown?) && a.settlement == None && a.highest == 0
    ensures var b := Receive(a, r.hash, r.amount);
            && Charge(a, scope, w) == (if Covers(scope, a) && WindowOf(a, scope) == w then a.reserved else 0)
            && (r.amount <= a.reserved ==> Charge(b, scope, w) == if Covers(scope, a) && WindowOf(a, scope) == w then r.amount else 0)
            && (r.amount > a.reserved ==> Charge(b, scope, w) == if Covers(scope, a) then r.amount else 0)
  {
  }

  /** Without attempts an account owes its opening. */
  lemma OpeningIsOwed(s: State, scope: Scope)
    requires Known(s, scope) && s.attempts == [] && ActiveWindow(s, scope).Some?
    ensures Liability(s, scope) == Some(s.windows[ActiveWindow(s, scope).value].opening)
  {
  }

  /** An acknowledged admission, and nothing else, mints a permit; it answers once, for its attempt. */
  lemma PermitWorksOnce(s: State, op: Operation, fate: Fate)
    ensures var (t, out) := Apply(s, Transaction(op, fate));
            if out.Allowed? then
              && op.AdmitTicket? && fate == Acknowledged && t.permits[..|s.permits|] == s.permits && |t.permits| == |s.permits| + 1
              && Burn(t, out.permit).1 == Burned(out.attempt)
              && Burn(Burn(t, out.permit).0, out.permit).1 == NotAPermit
            else t.permits == s.permits
  {
  }
}
