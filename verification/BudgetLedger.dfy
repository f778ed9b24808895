/** The budget admission ledger: accounts, monthly windows, gateway bindings, attempts, grants
    and the in-memory dispatch permits. Every locked SQL transaction is one atomic step; rows live
    in insertion order and a row's id is its position. Amounts are whole 10^-18 units (module
    Money shows that the decimal strings of the source carry exactly these numbers). */
module BudgetLedger {
  import opened Basics

  type Hash = string

  const OWNER_JOB_OUTSTANDING_MAX := 8
  const MAX_INTENT_LIFETIME := 30_000

  datatype AccountState = Closed | Open | Frozen | Retired
  datatype AttemptState = Prepared | Admitted | Unknown | Settled | Conflict | Retired
  datatype Reason = ReceiptConflict | OverReservation

  /** An account is the one installation account or one member's account. */
  datatype Scope = Whole | Of(member: nat)

  datatype Account = Account(state: AccountState, cap: Option<nat>, window: Option<nat>, generation: nat)
  datatype Member = Member(account: Account, live: Option<string>)
  datatype Window = Window(owner: Scope, startsAt: int, endsAt: int, opening: nat)
  datatype Agent = Agent(name: string, incarnation: string)

  /** The financial correlation of a call: what a receipt or an observation must repeat. */
  datatype Call = Call(requestHash: Hash, profileHash: Hash, endpointHash: Hash, credentialGeneration: nat)

  datatype Binding = Binding(
    member: nat, active: bool, live: Option<string>, agent: Option<Agent>, alias: string,
    profileHash: Hash, endpointHash: Hash, credentialGeneration: nat, keyFingerprint: Hash, maximum: nat)

  datatype Settlement = Settlement(hash: Hash, amount: nat)

  datatype Attempt = Attempt(
    invocation: Hash, ticket: Hash, member: nat, binding: nat,
    installationWindow: nat, memberWindow: nat, call: Call,
    installationGeneration: nat, memberGeneration: nat, endpointGeneration: nat, recoveryEpoch: string,
    ownerJob: bool, reserved: nat, expiresAt: int,
    state: AttemptState, settlement: Option<Settlement>, highest: nat, reason: Option<Reason>)

  /** An entry of the permit table; `live` falls when the permit is read. */
  datatype Permit = Permit(attempt: nat, live: bool)

  datatype State = State(
    installation: Account, endpoint: Hash, endpointGeneration: nat, recoveryEpoch: Option<string>,
    members: map<nat, Member>, windows: seq<Window>, bindings: seq<Binding>, attempts: seq<Attempt>,
    permits: seq<Permit>, grants: map<nat, Hash>, clock: int)

  // ---- Reading accounts -------------------------------------------------------------------

  predicate Known(s: State, scope: Scope) {
    scope.Of? ==> scope.member in s.members
  }

  function AccountOf(s: State, scope: Scope): Account
    requires Known(s, scope)
  {
    match scope
    case Whole => s.installation
    case Of(m) => s.members[m].account
  }

  function ActiveWindow(s: State, scope: Scope): Option<nat>
    requires Known(s, scope)
  {
    var w := AccountOf(s, scope).window;
    if w.Some? && w.value < |s.windows| && s.windows[w.value].owner == scope then w else None
  }

  predicate Ready(s: State, scope: Scope)
    requires Known(s, scope)
  {
    var w := ActiveWindow(s, scope);
    && AccountOf(s, scope).state.Open?
    && w.Some?
    && s.windows[w.value].startsAt <= s.clock < s.windows[w.value].endsAt
  }

  function WindowOf(a: Attempt, scope: Scope): nat {
    if scope.Whole? then a.installationWindow else a.memberWindow
  }

  /** The largest amount a conflict may cost: reserved, settled or ever reported. */
  function ConflictCharge(a: Attempt): nat {
    Max(a.reserved, Max(if a.settlement.Some? then a.settlement.value.amount else 0, a.highest))
  }

  /** What one attempt adds to the liability of `scope` in window `w`. */
  function Charge(a: Attempt, scope: Scope, w: nat): nat {
    if scope.Of? && a.member != scope.member then 0
    else match a.state
      case Conflict => ConflictCharge(a)
      case Settled => if WindowOf(a, scope) == w && a.settlement.Some? then a.settlement.value.amount else 0
      case Admitted => if WindowOf(a, scope) == w then a.reserved else 0
      case Unknown => if WindowOf(a, scope) == w then a.reserved else 0
      case Prepared => 0
      case Retired => 0
  }

  function TotalCharge(attempts: seq<Attempt>, scope: Scope, w: nat): nat {
    if attempts == [] then 0
    else TotalCharge(attempts[..|attempts| - 1], scope, w) + Charge(attempts[|attempts| - 1], scope, w)
  }

  function Liability(s: State, scope: Scope): Option<nat>
    requires Known(s, scope)
  {
    var w := ActiveWindow(s, scope);
    if w.None? then None
    else Some(s.windows[w.value].opening + TotalCharge(s.attempts, scope, w.value))
  }

  // ---- Preparing --------------------------------------------------------------------------

  /** A conversation names the profile it was reviewed for; the two other callers are routed by
      path, and `pathMatches` says whether the profile's format serves the path asked for. */
  datatype Caller = Conversation(profileHash: Hash) | Purpose(pathMatches: bool) | OwnerJob(pathMatches: bool)

  datatype Intent = Intent(
    caller: Caller, binding: nat, invocation: Hash, ticket: Hash, requestHash: Hash,
    memberId: string, agent: Agent, alias: string, expiresAt: int)

  predicate Locks(s: State, member: nat, binding: nat) {
    member in s.members && binding < |s.bindings| && s.bindings[binding].member == member
  }

  predicate PolicyAvailable(s: State, i: Intent)
    requires i.binding < |s.bindings| && Locks(s, s.bindings[i.binding].member, i.binding)
  {
    var b := s.bindings[i.binding];
    var m := s.members[b.member];
    && b.active && m.live == Some(i.memberId) && b.live == m.live
    && b.agent == Some(i.agent) && b.alias == i.alias && b.endpointHash == s.endpoint
    && (match i.caller
        case Conversation(profile) => b.profileHash == profile
        case Purpose(ok) => ok
        case OwnerJob(ok) => ok)
    && s.recoveryEpoch.Some? && s.installation.cap.Some? && m.account.cap.Some?
    && Ready(s, Whole) && Ready(s, Of(b.member))
  }

  /** An owner job still outstanding at `now`: admitted, unknown, or prepared and unexpired. */
  predicate Outstanding(a: Attempt, bindings: seq<Binding>, member: nat, agent: Agent, now: int) {
    && a.ownerJob && a.member == member
    && a.binding < |bindings| && bindings[a.binding].agent == Some(agent)
    && (a.state.Admitted? || a.state.Unknown? || (a.state.Prepared? && a.expiresAt > now))
  }

  function OutstandingJobs(attempts: seq<Attempt>, bindings: seq<Binding>, member: nat, agent: Agent, now: int): nat {
    if attempts == [] then 0
    else
      OutstandingJobs(attempts[..|attempts| - 1], bindings, member, agent, now)
      + (if Outstanding(attempts[|attempts| - 1], bindings, member, agent, now) then 1 else 0)
  }

  function NewAttempt(s: State, i: Intent): Attempt
    requires i.binding < |s.bindings| && Locks(s, s.bindings[i.binding].member, i.binding)
    requires PolicyAvailable(s, i)
  {
    var b := s.bindings[i.binding];
    var m := s.members[b.member];
    Attempt(i.invocation, i.ticket, b.member, i.binding,
            s.installation.window.value, m.account.window.value,
            Call(i.requestHash, b.profileHash, b.endpointHash, b.credentialGeneration),
            s.installation.generation, m.account.generation, s.endpointGeneration, s.recoveryEpoch.value,
            i.caller.OwnerJob?, b.maximum, i.expiresAt,
            Prepared, None, 0, None)
  }

  datatype Outcome =
    | Ticketed(attempt: nat)
    | Allowed(permit: nat, attempt: nat)
    | Denied(limit: Option<Scope>)
    | Unavailable
    | Burned(attempt: nat)
    | NotAPermit
    | Marked
    | Receipted(verdict: Verdict)
    | GrantRecorded(inserted: bool)

  datatype Verdict = SettledVerdict | ConflictVerdict | DeniedVerdict

  function PrepareWork(s: State, i: Intent): (State, Outcome) {
    if i.binding >= |s.bindings| || !Locks(s, s.bindings[i.binding].member, i.binding) || !PolicyAvailable(s, i)
    then (s, Unavailable)
    else if i.caller.OwnerJob? &&
            OutstandingJobs(s.attempts, s.bindings, s.bindings[i.binding].member, i.agent, s.clock) >= OWNER_JOB_OUTSTANDING_MAX
    then (s, Unavailable)
    else if !(s.clock < i.expiresAt <= s.clock + MAX_INTENT_LIFETIME)
            || exists k :: 0 <= k < |s.attempts| && (s.attempts[k].invocation == i.invocation || s.attempts[k].ticket == i.ticket)
    then (s, Unavailable)
    else (s.(attempts := s.attempts + [NewAttempt(s, i)]), Ticketed(|s.attempts|))
  }

  // ---- Admitting --------------------------------------------------------------------------

  datatype Observation = Observation(call: Call, keyFingerprint: Hash, agent: Agent, alias: string)
  datatype Recovery = Recovery(sameInstallation: bool, reconciled: bool, epoch: string, endpointGeneration: nat)

  /** The stored authority reference: not intact, refused on revalidation, or valid. */
  datatype Authority = Altered | Refused | Valid(memberId: string, until: Option<int>)

  datatype Decision = Leave | Fail | Retire | OverLimit(scope: Scope) | Admit

  predicate StillBound(s: State, a: Attempt, o: Observation, r: Recovery, memberId: string)
    requires Locks(s, a.member, a.binding)
  {
    var b := s.bindings[a.binding];
    var m := s.members[a.member];
    && a.expiresAt > s.clock && b.active
    && m.live == Some(memberId) && b.live == m.live
    && Ready(s, Whole) && Ready(s, Of(a.member))
    && s.installation.generation == a.installationGeneration && m.account.generation == a.memberGeneration
    && s.installation.window == Some(a.installationWindow) && m.account.window == Some(a.memberWindow)
    && s.endpoint == a.call.endpointHash && s.endpointGeneration == a.endpointGeneration
    && s.recoveryEpoch == Some(a.recoveryEpoch)
    && r.reconciled && r.sameInstallation && Some(r.epoch) == s.recoveryEpoch && r.endpointGeneration == s.endpointGeneration
    && o.call == a.call && o.keyFingerprint == b.keyFingerprint && Some(o.agent) == b.agent && o.alias == b.alias
    && b.profileHash == a.call.profileHash && b.endpointHash == a.call.endpointHash
    && b.credentialGeneration == a.call.credentialGeneration
  }

  /** Whether admitting `reserved` more would pass the cap of `scope`. */
  predicate OverCap(s: State, scope: Scope, reserved: nat)
    requires Known(s, scope) && AccountOf(s, scope).cap.Some? && Liability(s, scope).Some?
  {
    Liability(s, scope).value + reserved > AccountOf(s, scope).cap.value
  }

  function Decide(s: State, a: Attempt, o: Observation, r: Recovery, authority: Authority): Decision {
    if !a.state.Prepared? || authority.Altered? then Leave
    else if authority.Refused? then Decision.Retire
    else if !Locks(s, a.member, a.binding) then Fail
    else if !StillBound(s, a, o, r, authority.memberId) then Decision.Retire
    else if s.installation.cap.None? || AccountOf(s, Of(a.member)).cap.None?
            || Liability(s, Whole).None? || Liability(s, Of(a.member)).None? then Decision.Retire
    else if OverCap(s, Of(a.member), a.reserved) then OverLimit(Of(a.member))
    else if OverCap(s, Whole, a.reserved) then OverLimit(Whole)
    else if authority.until.Some? && authority.until.value <= s.clock then Decision.Retire
    else Admit
  }

  function SetState(s: State, k: nat, state: AttemptState): State
    requires k < |s.attempts|
  {
    s.(attempts := s.attempts[k := s.attempts[k].(state := state)])
  }

  function FindTicket(attempts: seq<Attempt>, ticket: Hash): (r: Option<nat>)
    ensures r.Some? ==> r.value < |attempts| && attempts[r.value].ticket == ticket
    ensures r.None? ==> forall k :: 0 <= k < |attempts| ==> attempts[k].ticket != ticket
  {
    if attempts == [] then None
    else if attempts[|attempts| - 1].ticket == ticket then Some(|attempts| - 1)
    else FindTicket(attempts[..|attempts| - 1], ticket)
  }

  function AdmitWork(s: State, ticket: Hash, o: Observation, r: Recovery, authority: Authority): (State, Outcome) {
    var found := FindTicket(s.attempts, ticket);
    if found.None? then (s, Denied(None))
    else match Decide(s, s.attempts[found.value], o, r, authority)
      case Leave => (s, Denied(None))
      case Fail => (s, Unavailable)
      case Retire => (SetState(s, found.value, AttemptState.Retired), Denied(None))
      case OverLimit(scope) => (SetState(s, found.value, AttemptState.Retired), Denied(Some(scope)))
      case Admit => (SetState(s, found.value, Admitted), Allowed(|s.permits|, found.value))
  }

  // ---- Settling ---------------------------------------------------------------------------

  datatype TerminalReceipt = TerminalReceipt(
    attempt: nat, binding: nat, call: Call, hash: Hash, amount: nat, affirmativeNondispatch: bool)

  predicate Financial(a: Attempt) {
    a.state.Admitted? || a.state.Unknown? || a.state.Settled? || a.state.Conflict?
  }

  /** Why a receipt conflicts with what the attempt already holds, if it does. */
  function ConflictReason(a: Attempt, amount: nat): Option<Reason> {
    if a.settlement.Some? then Some(ReceiptConflict)
    else if amount > a.reserved then Some(OverReservation)
    else None
  }

  /** A repeat of the receipt already held. */
  predicate SameReceipt(a: Attempt, hash: Hash, amount: nat) {
    a.settlement == Some(Settlement(hash, amount))
  }

  function Receive(a: Attempt, hash: Hash, amount: nat): Attempt {
    if SameReceipt(a, hash, amount) then a
    else
      var reason := ConflictReason(a, amount);
      a.(state := if reason.Some? || a.state.Conflict? then Conflict else Settled,
         settlement := if a.settlement.Some? then a.settlement else Some(Settlement(hash, amount)),
         reason := if a.reason.Some? then a.reason else reason,
         highest := Max(a.highest, amount))
  }

  /** A change of account state moves the policy generation; a retired account never freezes. */
  function Freeze(account: Account): Account {
    if account.state.Retired? || account.state.Frozen? then account
    else account.(state := Frozen, generation := account.generation + 1)
  }

  function SettleWork(s: State, r: TerminalReceipt): (State, Outcome) {
    if (r.affirmativeNondispatch && r.amount != 0) || r.attempt >= |s.attempts| then (s, Receipted(DeniedVerdict))
    else
      var a := s.attempts[r.attempt];
      if !Locks(s, a.member, a.binding) then (s, Unavailable)
      else if !Financial(a) || r.binding != a.binding || r.call != a.call then (s, Receipted(DeniedVerdict))
      else
        var a' := Receive(a, r.hash, r.amount);
        var s' := s.(attempts := s.attempts[r.attempt := a']);
        if !a'.state.Conflict? then (s', Receipted(SettledVerdict))
        else if SameReceipt(a, r.hash, r.amount) then (s, Receipted(ConflictVerdict))
        else (s'.(installation := Freeze(s.installation)), Receipted(ConflictVerdict))
  }

  function MarkUnknownWork(s: State, k: nat): (State, Outcome) {
    if k < |s.attempts| && s.attempts[k].state.Admitted? then (SetState(s, k, Unknown), Marked) else (s, Marked)
  }

  function GrantWork(s: State, k: nat, binding: nat, requestHash: Hash, grantHash: Hash): (State, Outcome) {
    if k >= |s.attempts| then (s, GrantRecorded(false))
    else
      var a := s.attempts[k];
      if !Locks(s, a.member, a.binding) then (s, Unavailable)
      else if !a.state.Admitted? || a.binding != binding || a.call.requestHash != requestHash || k in s.grants
      then (s, GrantRecorded(false))
      else (s.(grants := s.grants[k := grantHash]), GrantRecorded(true))
  }

  // ---- Runs -------------------------------------------------------------------------------

  datatype Operation =
    | PrepareIntent(intent: Intent)
    | AdmitTicket(ticket: Hash, observation: Observation, recovery: Recovery, authority: Authority)
    | MarkUnknown(attempt: nat)
    | Settle(receipt: TerminalReceipt)
    | RecordGrant(attempt: nat, binding: nat, requestHash: Hash, grantHash: Hash)

  /** What became of the COMMIT of one transaction. */
  datatype Fate = Acknowledged | AcknowledgementLost | RolledBack

  /** A run interleaves store transactions, permit reads and everything else that may happen to
      the rows (provisioning, policy changes, erasure, the clock). */
  datatype Event = Transaction(op: Operation, fate: Fate) | Consume(permit: nat) | Elsewhere(next: State)

  function Work(s: State, op: Operation): (State, Outcome) {
    match op
    case PrepareIntent(i) => PrepareWork(s, i)
    case AdmitTicket(t, o, r, authority) => AdmitWork(s, t, o, r, authority)
    case MarkUnknown(k) => MarkUnknownWork(s, k)
    case Settle(r) => SettleWork(s, r)
    case RecordGrant(k, b, q, g) => GrantWork(s, k, b, q, g)
  }

  /** A permit is minted only once the COMMIT of the admission was acknowledged. */
  function Mint(s: State, out: Outcome): State {
    if out.Allowed? then s.(permits := s.permits + [Permit(out.attempt, true)]) else s
  }

  function Burn(s: State, permit: nat): (State, Outcome) {
    if permit < |s.permits| && s.permits[permit].live then
      (s.(permits := s.permits[permit := s.permits[permit].(live := false)]), Burned(s.permits[permit].attempt))
    else (s, NotAPermit)
  }

  /** Writers outside the store. Attempts change only from prepared to retired, windows are
      immutable and a new month is a new window whose opening is within the cap, a cap is not
      lowered, a frozen or retired installation does not reopen, binding identity is only erased. */
  predicate KeepsAttempts(s: State, t: State) {
    && |t.attempts| == |s.attempts|
    && (forall k :: 0 <= k < |s.attempts| ==>
          t.attempts[k] == s.attempts[k]
          || (s.attempts[k].state.Prepared? && t.attempts[k] == s.attempts[k].(state := AttemptState.Retired)))
    && t.permits == s.permits && t.grants == s.grants && s.clock <= t.clock
  }

  predicate KeepsBindings(s: State, t: State) {
    && |s.bindings| <= |t.bindings|
    && (forall k :: 0 <= k < |s.bindings| ==> KeepsBinding(s.bindings[k], t.bindings[k]))
  }

  /** The database's immutability guard: a binding is revoked or erased, never changed. */
  predicate KeepsBinding(b: Binding, c: Binding) {
    && c.member == b.member && c.profileHash == b.profileHash && c.endpointHash == b.endpointHash
    && c.credentialGeneration == b.credentialGeneration && c.maximum == b.maximum
    && (c.agent == None || (c.agent == b.agent && c.alias == b.alias && c.keyFingerprint == b.keyFingerprint))
    && (c.active ==> b.active)
  }

  /** The account starts a month: a window that is new in `t`, opened within the account's cap. */
  predicate OpensWithinCap(s: State, t: State, account: Account)
    requires account.window.Some?
  {
    && |s.windows| <= account.window.value < |t.windows|
    && (account.cap.Some? ==> t.windows[account.window.value].opening <= account.cap.value)
  }

  predicate KeepsCap(s: State, t: State, scope: Scope)
    requires Known(s, scope) && Known(t, scope)
  {
    var a, b := AccountOf(s, scope), AccountOf(t, scope);
    if b.window == a.window then
      // The same month: the cap may rise, or vanish; it does not come back lower.
      b.cap.Some? ==> a.cap.Some? && a.cap.value <= b.cap.value
    else
      // A new month: a fresh window opened within the cap.
      b.window.Some? ==> OpensWithinCap(s, t, b)
  }

  /** A member account that appears starts with a fresh window within its cap, or with none. */
  predicate FreshMember(s: State, t: State, m: nat)
    requires m in t.members
  {
    t.members[m].account.window.Some? ==> OpensWithinCap(s, t, t.members[m].account)
  }

  ghost predicate Allowable(s: State, t: State) {
    && KeepsAttempts(s, t) && KeepsBindings(s, t)
    && s.windows <= t.windows
    && (s.installation.state.Frozen? || s.installation.state.Retired?
        ==> t.installation.state.Frozen? || t.installation.state.Retired?)
    && KeepsCap(s, t, Whole)
    && (forall m :: m in s.members ==> m in t.members && KeepsCap(s, t, Of(m)))
    && (forall m :: m in t.members && m !in s.members ==> FreshMember(s, t, m))
  }

  ghost function Apply(s: State, e: Event): (State, Outcome) {
    match e
    case Consume(p) => Burn(s, p)
    case Elsewhere(t) => (if Allowable(s, t) then t else s, Marked)
    case Transaction(op, fate) =>
      var (t, out) := Work(s, op);
      match fate
      case RolledBack => (s, Unavailable)
      case AcknowledgementLost => (t, Unavailable)
      case Acknowledged => (Mint(t, out), out)
  }

  /** The states a run passes through, starting state included. */
  ghost function Run(s: State, events: seq<Event>): (r: seq<State>)
    ensures |r| == |events| + 1 && r[0] == s
    decreases |events|
  {
    if events == [] then [s]
    else [s] + Run(Apply(s, events[0]).0, events[1..])
  }
}
