/** The admission store itself: the rows are its fields, each method is one locked transaction
    followed by whatever the source does after the COMMIT. Each method is proved to take exactly
    the step of the ledger model whose runs the safety modules reason about. */
module BudgetStore {
  import opened Basics
  import opened BudgetLedger

  class Store {
    var installation: Account
    var endpoint: Hash
    var endpointGeneration: nat
    var recoveryEpoch: Option<string>
    var members: map<nat, Member>
    var windows: seq<Window>
    var bindings: seq<Binding>
    var attempts: seq<Attempt>
    var permits: seq<Permit>
    var grants: map<nat, Hash>
    var clock: int

    function View(): State
      reads this
    {
      State(installation, endpoint, endpointGeneration, recoveryEpoch, members, windows, bindings,
            attempts, permits, grants, clock)
    }

    /** The liability of an account: its window's opening plus every row it must count. */
    method ReadLiability(scope: Scope) returns (r: Option<nat>)
      requires Known(View(), scope)
      ensures r == Liability(View(), scope)
    {
      var window := ActiveWindow(View(), scope);
      if window.None? { return None; }
      var total := windows[window.value].opening;
      for k := 0 to |attempts|
        invariant total == windows[window.value].opening + TotalCharge(attempts[..k], scope, window.value)
      {
        var row := attempts[k];
        if scope.Whole? || row.member == scope.member {
          if row.state.Conflict? {
            var settled := if row.settlement.Some? then row.settlement.value.amount else 0;
            total := total + Max(row.reserved, Max(settled, row.highest));
          } else if WindowOf(row, scope) == window.value {
            if row.state.Admitted? || row.state.Unknown? {
              total := total + row.reserved;
            } else if row.state.Settled? && row.settlement.Some? {
              total := total + row.settlement.value.amount;
            }
          }
        }
        assert attempts[..k + 1][..k] == attempts[..k];
      }
      assert attempts[..|attempts|] == attempts;
      r := Some(total);
    }

    method Prepare(i: Intent, fate: Fate) returns (out: Outcome)
      modifies this
      ensures (View(), out) == Apply(old(View()), Transaction(PrepareIntent(i), fate))
    {
      out := Unavailable;
      if i.binding >= |bindings| || !Locks(View(), bindings[i.binding].member, i.binding) { return; }
      if !PolicyAvailable(View(), i) { return; }
      if i.caller.OwnerJob? {
        var n := OutstandingJobs(attempts, bindings, bindings[i.binding].member, i.agent, clock);
        if n >= OWNER_JOB_OUTSTANDING_MAX { return; }
      }
      if i.expiresAt <= clock || i.expiresAt > clock + MAX_INTENT_LIFETIME { return; }
      if exists k :: 0 <= k < |attempts| && (attempts[k].invocation == i.invocation || attempts[k].ticket == i.ticket) {
        return;
      }
      if fate.RolledBack? { return; }
      attempts := attempts + [NewAttempt(View(), i)];
      if fate.Acknowledged? { out := Ticketed(|attempts| - 1); }
    }

    /** Decides on a prepared attempt. The liabilities are read under the same locks as the rest. */
    method DecideTicket(k: nat, o: Observation, r: Recovery, authority: Authority) returns (d: Decision)
      requires k < |attempts|
      ensures d == Decide(View(), attempts[k], o, r, authority)
    {
      var a := attempts[k];
      if !a.state.Prepared? || authority.Altered? { return Leave; }
      if authority.Refused? { return Decision.Retire; }
      if !Locks(View(), a.member, a.binding) { return Fail; }
      var bound := StillBound(View(), a, o, r, authority.memberId);
      var mCap, iCap := members[a.member].account.cap, installation.cap;
      var iLiability := ReadLiability(Whole);
      var mLiability := ReadLiability(Of(a.member));
      if !bound || mCap.None? || iCap.None? || iLiability.None? || mLiability.None? { return Decision.Retire; }
      // The member is checked first.
      if mLiability.value + a.reserved > mCap.value { return OverLimit(Of(a.member)); }
      if iLiability.value + a.reserved > iCap.value { return OverLimit(Whole); }
      if authority.until.Some? && authority.until.value <= clock { return Decision.Retire; }
      return Admit;
    }

    /** Admits a ticket: an attempt leaves the prepared state once, admitted or retired. */
    method AdmitTicket(ticket: Hash, o: Observation, r: Recovery, authority: Authority, fate: Fate) returns (out: Outcome)
      modifies this
      ensures (View(), out) == Apply(old(View()), Transaction(Operation.AdmitTicket(ticket, o, r, authority), fate))
    {
      if fate.RolledBack? { return Unavailable; }
      var lost := fate.AcknowledgementLost?;
      var found := FindTicket(attempts, ticket);
      if found.None? { return if lost then Unavailable else Denied(None); }
      var k := found.value;
      var d := DecideTicket(k, o, r, authority);
      if d.Fail? { return Unavailable; }
      if d.Leave? { return if lost then Unavailable else Denied(None); }
      if !d.Admit? {
        attempts := attempts[k := attempts[k].(state := AttemptState.Retired)];
        return if lost then Unavailable else Denied(if d.OverLimit? then Some(d.scope) else None);
      }
      attempts := attempts[k := attempts[k].(state := Admitted)];
      if lost { return Unavailable; }
      // Only an acknowledged COMMIT reaches this statement.
      permits := permits + [Permit(k, true)];
      return Allowed(|permits| - 1, k);
    }

    /** Reads a permit and forgets it, before any transport is tried. */
    method ConsumeDispatchPermit(permit: nat) returns (out: Outcome)
      modifies this`permits
      ensures (View(), out) == Apply(old(View()), Consume(permit))
    {
      if permit < |permits| && permits[permit].live {
        out := Burned(permits[permit].attempt);
        permits := permits[permit := permits[permit].(live := false)];
      } else {
        out := NotAPermit;
      }
    }

    method MarkUnknown(k: nat, fate: Fate) returns (out: Outcome)
      modifies this`attempts
      ensures (View(), out) == Apply(old(View()), Transaction(Operation.MarkUnknown(k), fate))
    {
      if fate.RolledBack? { return Unavailable; }
      if k < |attempts| && attempts[k].state.Admitted? {
        attempts := attempts[k := attempts[k].(state := Unknown)];
      }
      return if fate.Acknowledged? then Marked else Unavailable;
    }

    method Settle(r: TerminalReceipt, fate: Fate) returns (out: Outcome)
      modifies this
      ensures (View(), out) == Apply(old(View()), Transaction(Operation.Settle(r), fate))
    {
      if fate.RolledBack? { return Unavailable; }
      var lost := fate.AcknowledgementLost?;
      if (r.affirmativeNondispatch && r.amount != 0) || r.attempt >= |attempts| {
        return if lost then Unavailable else Receipted(DeniedVerdict);
      }
      var a := attempts[r.attempt];
      if !Locks(View(), a.member, a.binding) { return Unavailable; }
      if !Financial(a) || r.binding != a.binding || r.call != a.call {
        return if lost then Unavailable else Receipted(DeniedVerdict);
      }
      if SameReceipt(a, r.hash, r.amount) {
        attempts := attempts[r.attempt := a];
        assert attempts == old(attempts);
        return if lost then Unavailable
               else Receipted(if a.state.Conflict? then ConflictVerdict else SettledVerdict);
      }
      var reason := if a.settlement.Some? then Some(ReceiptConflict)
                    else if r.amount > a.reserved then Some(OverReservation) else None;
      var conflict := reason.Some? || a.state.Conflict?;
      attempts := attempts[r.attempt := a.(
        state := if conflict then Conflict else Settled,
        settlement := if a.settlement.Some? then a.settlement else Some(Settlement(r.hash, r.amount)),
        reason := if a.reason.Some? then a.reason else reason,
        highest := Max(a.highest, r.amount))];
      if conflict { installation := Freeze(installation); }
      return if lost then Unavailable else Receipted(if conflict then ConflictVerdict else SettledVerdict);
    }

    method RecordGatewayGrant(k: nat, binding: nat, requestHash: Hash, grantHash: Hash, fate: Fate) returns (out: Outcome)
      modifies this`grants
      ensures (View(), out) == Apply(old(View()), Transaction(RecordGrant(k, binding, requestHash, grantHash), fate))
    {
      if fate.RolledBack? { return Unavailable; }
      var lost := fate.AcknowledgementLost?;
      if k >= |attempts| { return if lost then Unavailable else GrantRecorded(false); }
      var a := attempts[k];
      if !Locks(View(), a.member, a.binding) { return Unavailable; }
      if !a.state.Admitted? || a.binding != binding || a.call.requestHash != requestHash || k in grants {
        return if lost then Unavailable else GrantRecorded(false);
      }
      grants := grants[k := grantHash];
      return if lost then Unavailable else GrantRecorded(true);
    }
  }
}
