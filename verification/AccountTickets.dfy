/** Personal accounts: updates that carry a ticket of two counters, and the resources bound to an
    account. Each operation is one locked transaction; a refusal changes nothing. */
module AccountTickets {
  import opened Basics

  datatype Status = Ok | NeedsReconsent | Revoked | Error
  datatype Reason = ConsentRequired | RevokedByMember | ProviderUnavailable | AccountReplaced
  datatype Identity = Identity(issuer: string, subject: string, tenant: string, title: string)

  datatype Account = Account(owner: string, connector: string, identity: Identity, status: Status,
                             reason: Option<Reason>, generation: nat, revision: nat)

  datatype Key = Key(account: string, kind: string, externalId: string)
  datatype Binding = Binding(id: string, owner: string, title: string)
  datatype Resource = Resource(kind: string, externalId: string, title: string)

  type Bindings = map<Key, Binding>
  datatype State = State(accounts: map<string, Account>, bindings: Bindings)

  datatype Ticket = Ticket(account: string, generation: nat, revision: nat)

  /** A resource somebody chose earlier, at one generation of its account. */
  datatype Selection = Selection(account: string, generation: nat, bindingId: string)

  // ---- Reading ----------------------------------------------------------------------------

  predicate Owns(s: State, member: string, id: string) {
    id in s.accounts && s.accounts[id].owner == member
  }

  /** current: the ticket names the account as it stands. */
  predicate Current(s: State, member: string, t: Ticket) {
    && Owns(s, member, t.account)
    && s.accounts[t.account].generation == t.generation
    && s.accounts[t.account].revision == t.revision
  }

  predicate Chosen(b: Bindings, k: Key, account: string, member: string, kind: string, bindingId: string) {
    k in b && k.account == account && k.kind == kind && b[k].id == bindingId && b[k].owner == member
  }

  /** personalResource finds the selected resource. */
  predicate Resolves(s: State, member: string, sel: Selection, kind: string) {
    && Owns(s, member, sel.account)
    && s.accounts[sel.account].status == Ok && s.accounts[sel.account].generation == sel.generation
    && exists k :: k in s.bindings && Chosen(s.bindings, k, sel.account, member, kind, sel.bindingId)
  }

  predicate SameIdentity(i: Identity, j: Identity) {
    i.issuer == j.issuer && i.subject == j.subject && i.tenant == j.tenant
  }

  /** The unique index: one account per member, connector and provider identity. */
  predicate IdentityTaken(s: State, member: string, connector: string, i: Identity, except: string) {
    exists id :: id in s.accounts && id != except && s.accounts[id].owner == member
                 && s.accounts[id].connector == connector && SameIdentity(s.accounts[id].identity, i)
  }

  // ---- Bindings ---------------------------------------------------------------------------

  predicate Presents(rs: seq<Resource>, kind: string, externalId: string) {
    exists i :: 0 <= i < |rs| && rs[i].kind == kind && rs[i].externalId == externalId
  }

  /** The title a resource was last presented with. */
  predicate LastTitled(rs: seq<Resource>, kind: string, externalId: string, title: string) {
    exists i :: 0 <= i < |rs| && rs[i] == Resource(kind, externalId, title) && !Presents(rs[i + 1..], kind, externalId)
  }

  predicate PresentsKind(rs: seq<Resource>, kind: string) {
    exists i :: 0 <= i < |rs| && rs[i].kind == kind
  }

  /** A bound resource of a presented kind that is not presented. */
  predicate Dropped(b: Bindings, account: string, rs: seq<Resource>, k: Key) {
    k in b && k.account == account && PresentsKind(rs, k.kind) && !Presents(rs, k.kind, k.externalId)
  }

  predicate DropsSome(b: Bindings, account: string, rs: seq<Resource>) {
    exists k :: k in b && Dropped(b, account, rs, k)
  }

  /** INSERT ... ON CONFLICT DO UPDATE SET provider_label. */
  function Upsert(b: Bindings, account: string, owner: string, r: Resource, id: string): Bindings {
    var k := Key(account, r.kind, r.externalId);
    if k in b then b[k := b[k].(title := r.title)] else b[k := Binding(id, owner, r.title)]
  }

  function UpsertAll(b: Bindings, account: string, owner: string, rs: seq<Resource>, ids: seq<string>): Bindings
    requires |ids| == |rs|
    decreases |rs|
  {
    if rs == [] then b
    else Upsert(UpsertAll(b, account, owner, rs[..|rs| - 1], ids[..|rs| - 1]), account, owner, rs[|rs| - 1], ids[|rs| - 1])
  }

  function Persisted(b: Bindings, account: string, owner: string, rs: seq<Resource>, ids: seq<string>): Option<Bindings>
    requires |ids| == |rs|
  {
    if DropsSome(b, account, rs) then None else Some(UpsertAll(b, account, owner, rs, ids))
  }

  /** persistResources: refuses a changed set, or binds what is presented. */
  method PersistResources(b: Bindings, account: string, owner: string, rs: seq<Resource>, ids: seq<string>) returns (r: Option<Bindings>)
    requires |ids| == |rs|
    ensures r == Persisted(b, account, owner, rs, ids)
  {
    if |rs| > 0 {
      if DropsSome(b, account, rs) { return None; }
    }
    var c := b;
    for i := 0 to |rs|
      invariant c == UpsertAll(b, account, owner, rs[..i], ids[..i])
    {
      assert rs[..i + 1][..i] == rs[..i] && ids[..i + 1][..i] == ids[..i];
      var k := Key(account, rs[i].kind, rs[i].externalId);
      if k in c {
        c := c[k := c[k].(title := rs[i].title)];
      } else {
        c := c[k := Binding(ids[i], owner, rs[i].title)];
      }
    }
    assert rs[..|rs|] == rs && ids[..|rs|] == ids;
    r := Some(c);
  }

  /** Upserting binds exactly the presented resources besides what was bound, keeps every binding's
      id and owner, and touches nothing else. */
  lemma {:induction false} UpsertAllBinds(b: Bindings, account: string, owner: string, rs: seq<Resource>, ids: seq<string>, k: Key)
    requires |ids| == |rs|
    ensures var c := UpsertAll(b, account, owner, rs, ids);
            && (k in c <==> k in b || (k.account == account && Presents(rs, k.kind, k.externalId)))
            && (k in b ==> c[k].id == b[k].id && c[k].owner == b[k].owner)
            && (k in b && !(k.account == account && Presents(rs, k.kind, k.externalId)) ==> c[k] == b[k])
            && (k in c && k !in b ==> c[k].owner == owner)
            && (k.account == account && Presents(rs, k.kind, k.externalId) ==> LastTitled(rs, k.kind, k.externalId, c[k].title))
    decreases |rs|
  {
    if rs != [] {
      var n := |rs| - 1;
      LastTitledMore(rs, k.kind, k.externalId);
      UpsertAllBinds(b, account, owner, rs[..n], ids[..n], k);
      PresentsMore(rs, k.kind, k.externalId);
    }
  }

  lemma LastTitledMore(rs: seq<Resource>, kind: string, externalId: string)
    requires rs != []
    ensures var n := |rs| - 1;
            if rs[n].kind == kind && rs[n].externalId == externalId then LastTitled(rs, kind, externalId, rs[n].title)
            else forall title :: LastTitled(rs[..n], kind, externalId, title) ==> LastTitled(rs, kind, externalId, title)
  {
    var n := |rs| - 1;
    if rs[n].kind == kind && rs[n].externalId == externalId {
      assert rs[n + 1..] == [];
    } else {
      forall title | LastTitled(rs[..n], kind, externalId, title) ensures LastTitled(rs, kind, externalId, title) {
        var i :| 0 <= i < n && rs[..n][i] == Resource(kind, externalId, title) && !Presents(rs[..n][i + 1..], kind, externalId);
        var rest := rs[i + 1..];
        assert rest[..|rest| - 1] == rs[..n][i + 1..];
        PresentsMore(rest, kind, externalId);
        assert rs[i] == Resource(kind, externalId, title);
      }
    }
  }

  lemma PresentsMore(rs: seq<Resource>, kind: string, externalId: string)
    requires rs != []
    ensures var n := |rs| - 1;
            Presents(rs, kind, externalId) <==> Presents(rs[..n], kind, externalId) || (rs[n].kind == kind && rs[n].externalId == externalId)
  {
    var n := |rs| - 1;
    if Presents(rs[..n], kind, externalId) {
      var i :| 0 <= i < n && rs[..n][i].kind == kind && rs[..n][i].externalId == externalId;
      assert rs[i].kind == kind;
    }
    if Presents(rs, kind, externalId) {
      var i :| 0 <= i < |rs| && rs[i].kind == kind && rs[i].externalId == externalId;
      assert i < n ==> rs[..n][i] == rs[i];
    }
  }

  /** Of every presented kind, exactly the presented resources are bound afterwards; every other
      binding is as it was. */
  lemma PersistLeavesPresented(b: Bindings, account: string, owner: string, rs: seq<Resource>, ids: seq<string>, k: Key)
    requires |ids| == |rs|
    ensures var r := Persisted(b, account, owner, rs, ids);
            r.Some? ==>
              && (k.account == account && PresentsKind(rs, k.kind) ==> (k in r.value <==> Presents(rs, k.kind, k.externalId)))
              && (!(k.account == account && PresentsKind(rs, k.kind)) ==> (k in r.value <==> k in b) && (k in b ==> r.value[k] == b[k]))
              && (k in b ==> k in r.value && r.value[k].id == b[k].id && r.value[k].owner == b[k].owner)
  {
    UpsertAllBinds(b, account, owner, rs, ids, k);
    if Presents(rs, k.kind, k.externalId) {
      var i :| 0 <= i < |rs| && rs[i].kind == k.kind && rs[i].externalId == k.externalId;
      assert PresentsKind(rs, k.kind);
    }
    assert k in b && Dropped(b, account, rs, k) ==> DropsSome(b, account, rs);
  }

  // ---- Operations -------------------------------------------------------------------------

  datatype Op =
    | SetStatus(member: string, ticket: Ticket, status: Status)
    | Renew(member: string, ticket: Ticket, connector: string, identity: Identity, resources: seq<Resource>, ids: seq<string>, custody: bool)
    | Replace(member: string, ticket: Ticket, connector: string, identity: Identity, newId: string, custody: bool)
    | Create(member: string, connector: string, identity: Identity, newId: string, resources: seq<Resource>, ids: seq<string>, custody: bool)
    | Bind(member: string, ticket: Ticket, resource: Resource, id: string)

  predicate Shaped(op: Op) {
    match op
    case SetStatus(_, _, status) => status != Ok
    case Renew(_, _, _, _, resources, ids, _) => |ids| == |resources|
    case Create(_, _, _, _, resources, ids, _) => |ids| == |resources|
    case _ => true
  }

  function ReasonFor(status: Status): Reason {
    match status
    case NeedsReconsent => ConsentRequired
    case Revoked => RevokedByMember
    case _ => ProviderUnavailable
  }

  function Bumped(a: Account, status: Status, reason: Option<Reason>): Account {
    a.(status := status, reason := reason, generation := a.generation + 1, revision := a.revision + 1)
  }

  /** The new state, or None where the transaction refuses and rolls back. */
  function Outcome(s: State, op: Op): Option<State>
    requires Shaped(op)
  {
    match op
    case SetStatus(member, t, status) =>
      if !Current(s, member, t) then None
      else Some(s.(accounts := s.accounts[t.account := Bumped(s.accounts[t.account], status, Some(ReasonFor(status)))]))
    case Renew(member, t, connector, identity, rs, ids, custody) =>
      if !Current(s, member, t) then None else
        var a := s.accounts[t.account];
        var b := Persisted(s.bindings, t.account, member, rs, ids);
        if a.connector != connector || !SameIdentity(a.identity, identity) || !custody || b.None? then None
        else Some(State(s.accounts[t.account := Bumped(a, Ok, None).(identity := identity)], b.value))
    case Replace(member, t, connector, identity, newId, custody) =>
      if !Current(s, member, t) then None else
        var a := s.accounts[t.account];
        if a.connector != connector || SameIdentity(a.identity, identity) || newId in s.accounts
           || IdentityTaken(s, member, connector, identity, newId) || !custody then None
        else Some(s.(accounts := s.accounts[t.account := Bumped(a, Revoked, Some(AccountReplaced))]
                                           [newId := Account(member, connector, identity, Ok, None, 0, 0)]))
    case Create(member, connector, identity, newId, rs, ids, custody) =>
      var b := Persisted(s.bindings, newId, member, rs, ids);
      if newId in s.accounts || IdentityTaken(s, member, connector, identity, newId) || !custody || b.None? then None
      else Some(State(s.accounts[newId := Account(member, connector, identity, Ok, None, 0, 0)], b.value))
    case Bind(member, t, r, id) =>
      if !Current(s, member, t) || s.accounts[t.account].status != Ok then None
      else Some(s.(bindings := Upsert(s.bindings, t.account, member, r, id)))
  }

  function Apply(s: State, op: Op): State
    requires Shaped(op)
  {
    if Outcome(s, op).Some? then Outcome(s, op).value else s
  }

  ghost predicate AllShaped(run: seq<Op>) {
    forall i :: 0 <= i < |run| ==> Shaped(run[i])
  }

  /** Any interleaving of everybody's transactions. */
  function Run(s: State, run: seq<Op>): State
    requires AllShaped(run)
    decreases |run|
  {
    if run == [] then s else Run(Apply(s, run[0]), run[1..])
  }

  /** Changes the account's life: a completed renewal or replacement, or a new status. */
  predicate Lifecycle(op: Op) {
    op.SetStatus? || op.Renew? || op.Replace?
  }

  predicate Commits(s: State, op: Op, account: string)
    requires Shaped(op)
  {
    Lifecycle(op) && op.ticket.account == account && Outcome(s, op).Some?
  }

  function Changes(s: State, run: seq<Op>, account: string): nat
    requires AllShaped(run)
    decreases |run|
  {
    if run == [] then 0
    else (if Commits(s, run[0], account) then 1 else 0) + Changes(Apply(s, run[0]), run[1..], account)
  }

  /** How many operations of the run committed on this very ticket. */
  function CommitsOn(s: State, run: seq<Op>, t: Ticket): nat
    requires AllShaped(run)
    decreases |run|
  {
    if run == [] then 0
    else (if Commits(s, run[0], t.account) && run[0].ticket == t then 1 else 0) + CommitsOn(Apply(s, run[0]), run[1..], t)
  }

  lemma StepCounts(s: State, op: Op, account: string)
    requires Shaped(op) && account in s.accounts
    ensures account in Apply(s, op).accounts
    ensures var a, a' := s.accounts[account], Apply(s, op).accounts[account];
            var n := if Commits(s, op, account) then 1 else 0;
            && a'.generation == a.generation + n && a'.revision == a.revision + n
            && a'.owner == a.owner && a'.connector == a.connector
  {
  }

  /** Both counters advance together, by one for each committed change and for nothing else. */
  lemma {:induction false} CountersCount(s: State, run: seq<Op>, account: string)
    requires AllShaped(run) && account in s.accounts
    ensures account in Run(s, run).accounts
    ensures var a, a', n := s.accounts[account], Run(s, run).accounts[account], Changes(s, run, account);
            && a'.generation == a.generation + n && a'.revision == a.revision + n
            && a'.owner == a.owner
    decreases |run|
  {
    if run != [] {
      StepCounts(s, run[0], account);
      CountersCount(Apply(s, run[0]), run[1..], account);
    }
  }

  /** A ticket is current after any interleaving exactly when no change of its account committed
      since it was taken. */
  lemma TicketStaysExactly(s: State, run: seq<Op>, member: string, t: Ticket)
    requires AllShaped(run) && Current(s, member, t)
    ensures Current(Run(s, run), member, t) <==> Changes(s, run, t.account) == 0
  {
    CountersCount(s, run, t.account);
  }

  lemma {:induction false} SpentTicket(s: State, run: seq<Op>, t: Ticket)
    requires AllShaped(run) && t.account in s.accounts && s.accounts[t.account].revision > t.revision
    ensures CommitsOn(s, run, t) == 0
    decreases |run|
  {
    if run != [] {
      StepCounts(s, run[0], t.account);
      SpentTicket(Apply(s, run[0]), run[1..], t);
    }
  }

  /** Of all renewals, replacements and status changes on one ticket, at most one ever commits. */
  lemma {:induction false} OneCommitPerTicket(s: State, run: seq<Op>, t: Ticket)
    requires AllShaped(run)
    ensures CommitsOn(s, run, t) <= 1
    decreases |run|
  {
    if run != [] {
      if Commits(s, run[0], t.account) && run[0].ticket == t {
        StepCounts(s, run[0], t.account);
        SpentTicket(Apply(s, run[0]), run[1..], t);
      } else {
        OneCommitPerTicket(Apply(s, run[0]), run[1..], t);
      }
    }
  }

  /** A selection made at one generation resolves at no time after a later change of its account,
      whatever else happens before or after. */
  lemma SelectionNeverReturns(s: State, run: seq<Op>, member: string, sel: Selection, kind: string)
    requires AllShaped(run) && Resolves(s, member, sel, kind)
    requires Changes(s, run, sel.account) > 0
    ensures forall other, kind' :: !Resolves(Run(s, run), other, sel, kind')
  {
    CountersCount(s, run, sel.account);
  }

  // ---- What each operation needs and writes -----------------------------------------------

  /** The account as the ticket saw it, of this member. */
  predicate Fits(s: State, member: string, t: Ticket) {
    && t.account in s.accounts && s.accounts[t.account].owner == member
    && s.accounts[t.account].generation == t.generation && s.accounts[t.account].revision == t.revision
  }

  predicate ReasonOf(status: Status, reason: Reason) {
    match status
    case NeedsReconsent => reason == ConsentRequired
    case Revoked => reason == RevokedByMember
    case Error => reason == ProviderUnavailable
    case Ok => false
  }

  /** A status change needs a fitting ticket and nothing else; it writes the status asked for with its
      reason, and advances both counters. */
  lemma StatusChangeExactly(s: State, member: string, t: Ticket, status: Status)
    requires status != Ok
    ensures Outcome(s, SetStatus(member, t, status)).Some? <==> Fits(s, member, t)
    ensures Fits(s, member, t) ==>
              var u, a := Outcome(s, SetStatus(member, t, status)).value, s.accounts[t.account];
              && u.bindings == s.bindings && u.accounts == s.accounts[t.account := u.accounts[t.account]]
              && var b := u.accounts[t.account];
                 && b.status == status && b.reason.Some? && ReasonOf(status, b.reason.value)
                 && b.owner == a.owner && b.connector == a.connector && b.identity == a.identity
                 && b.generation == a.generation + 1 && b.revision == a.revision + 1
  {
  }

  /** A renewal needs a fitting ticket, the account's own connector and provider identity, its
      credential, and no bound resource of a presented kind left out; it makes the account good again
      under the identity presented. */
  lemma RenewalExactly(s: State, member: string, t: Ticket, connector: string, i: Identity, rs: seq<Resource>, ids: seq<string>, custody: bool)
    requires |ids| == |rs|
    ensures var op := Renew(member, t, connector, i, rs, ids, custody);
            && (Outcome(s, op).Some? <==>
                  && Fits(s, member, t) && custody && s.accounts[t.account].connector == connector
                  && s.accounts[t.account].identity.issuer == i.issuer && s.accounts[t.account].identity.subject == i.subject
                  && s.accounts[t.account].identity.tenant == i.tenant
                  && forall k :: k in s.bindings && k.account == t.account && PresentsKind(rs, k.kind) ==> Presents(rs, k.kind, k.externalId))
            && (Outcome(s, op).Some? ==>
                  var a := s.accounts[t.account];
                  && Outcome(s, op).value.accounts == s.accounts[t.account := Account(member, connector, i, Ok, None, a.generation + 1, a.revision + 1)]
                  && Outcome(s, op).value.bindings == UpsertAll(s.bindings, t.account, member, rs, ids))
  {
    if DropsSome(s.bindings, t.account, rs) {
      var k :| k in s.bindings && Dropped(s.bindings, t.account, rs, k);
    } else {
      forall k | k in s.bindings && k.account == t.account && PresentsKind(rs, k.kind) ensures Presents(rs, k.kind, k.externalId) {
        assert !Dropped(s.bindings, t.account, rs, k);
      }
    }
  }

  /** A replacement needs a fitting ticket, the connector, another identity that the member has not
      connected, and its credential; it revokes the old account and starts a new one at zero. */
  lemma ReplacementExactly(s: State, member: string, t: Ticket, connector: string, i: Identity, newId: string, custody: bool)
    ensures var op := Replace(member, t, connector, i, newId, custody);
            && (Outcome(s, op).Some? <==>
                  && Fits(s, member, t) && custody && newId !in s.accounts && s.accounts[t.account].connector == connector
                  && forall id :: id in s.accounts && s.accounts[id].owner == member && s.accounts[id].connector == connector ==>
                       !SameIdentity(s.accounts[id].identity, i))
            && (Outcome(s, op).Some? ==>
                  var a := s.accounts[t.account];
                  && Outcome(s, op).value.bindings == s.bindings
                  && Outcome(s, op).value.accounts ==
                     s.accounts[t.account := Account(a.owner, a.connector, a.identity, Revoked, Some(AccountReplaced), a.generation + 1, a.revision + 1)]
                               [newId := Account(member, connector, i, Ok, None, 0, 0)])
  {
  }

  /** A creation needs an identity the member has not connected there, and its credential; the account
      starts good, at zero, with what is presented bound to it. */
  lemma CreationExactly(s: State, member: string, connector: string, i: Identity, newId: string, rs: seq<Resource>, ids: seq<string>, custody: bool)
    requires |ids| == |rs| && forall k :: k in s.bindings ==> k.account != newId
    ensures var op := Create(member, connector, i, newId, rs, ids, custody);
            && (Outcome(s, op).Some? <==>
                  && newId !in s.accounts && custody
                  && forall id :: id in s.accounts && s.accounts[id].owner == member && s.accounts[id].connector == connector ==>
                       !SameIdentity(s.accounts[id].identity, i))
            && (Outcome(s, op).Some? ==>
                  && Outcome(s, op).value.accounts == s.accounts[newId := Account(member, connector, i, Ok, None, 0, 0)]
                  && Outcome(s, op).value.bindings == UpsertAll(s.bindings, newId, member, rs, ids))
  {
  }

  /** A resource that is bound to a working account can be chosen: the selection resolves at once, to the
      binding it already had or the new one. */
  lemma BoundResourceResolves(s: State, member: string, t: Ticket, r: Resource, id: string)
    requires Outcome(s, Bind(member, t, r, id)).Some?
    ensures Fits(s, member, t) && s.accounts[t.account].status == Ok
    ensures var u, k := Outcome(s, Bind(member, t, r, id)).value, Key(t.account, r.kind, r.externalId);
            && u.accounts == s.accounts && k in u.bindings && u.bindings[k].title == r.title
            && u.bindings[k].id == (if k in s.bindings then s.bindings[k].id else id)
            && (forall j :: j != k ==> (j in u.bindings <==> j in s.bindings) && (j in s.bindings ==> u.bindings[j] == s.bindings[j]))
            && (u.bindings[k].owner == member ==> Resolves(u, member, Selection(t.account, t.generation, u.bindings[k].id), r.kind))
  {
    var u, k := Outcome(s, Bind(member, t, r, id)).value, Key(t.account, r.kind, r.externalId);
    if u.bindings[k].owner == member { assert Chosen(u.bindings, k, t.account, member, r.kind, u.bindings[k].id); }
  }

  /** The status an operation gives its account. */
  function StatusGiven(op: Op): Status
    requires Lifecycle(op)
  {
    match op
    case SetStatus(_, _, status) => status
    case Renew(_, _, _, _, _, _, _) => Ok
    case Replace(_, _, _, _, _, _) => Revoked
  }

  /** The status given by the last change of the account that committed in the run. */
  function LastStatus(s: State, run: seq<Op>, account: string, before: Status): Status
    requires AllShaped(run)
    decreases |run|
  {
    if run == [] then before
    else LastStatus(Apply(s, run[0]), run[1..], account, if Commits(s, run[0], account) then StatusGiven(run[0]) else before)
  }

  /** After any interleaving an account's status is that of its last committed change, so a resource
      resolves only while that was a renewal or the account's creation. */
  lemma {:induction false} StatusIsTheLastChange(s: State, run: seq<Op>, account: string)
    requires AllShaped(run) && account in s.accounts
    ensures account in Run(s, run).accounts
    ensures Run(s, run).accounts[account].status == LastStatus(s, run, account, s.accounts[account].status)
    decreases |run|
  {
    if run != [] {
      StepCounts(s, run[0], account);
      StepStatus(s, run[0], account);
      StatusIsTheLastChange(Apply(s, run[0]), run[1..], account);
    }
  }

  lemma StepStatus(s: State, op: Op, account: string)
    requires Shaped(op) && account in s.accounts && account in Apply(s, op).accounts
    ensures Apply(s, op).accounts[account].status == if Commits(s, op, account) then StatusGiven(op) else s.accounts[account].status
  {
  }

  // ---- The store --------------------------------------------------------------------------

  class Store {
    var accounts: map<string, Account>
    var bindings: Bindings

    function View(): State
      reads this
    {
      State(accounts, bindings)
    }

    /** beginUpdate: the ticket to complete with, current as it is taken. */
    method BeginUpdate(member: string, account: string, generation: nat) returns (t: Option<Ticket>)
      ensures t.Some? <==> Owns(View(), member, account) && accounts[account].generation == generation
      ensures t.Some? ==> t.value.account == account && Current(View(), member, t.value)
    {
      if account !in accounts || accounts[account].owner != member { return None; }
      if accounts[account].generation != generation { return None; }
      t := Some(Ticket(account, generation, accounts[account].revision));
    }

    method ChangeStatus(member: string, t: Ticket, status: Status) returns (ok: bool)
      requires status != Ok
      modifies this
      ensures ok == Outcome(old(View()), SetStatus(member, t, status)).Some?
      ensures View() == Apply(old(View()), SetStatus(member, t, status))
    {
      if t.account !in accounts || accounts[t.account].owner != member { return false; }
      var a := accounts[t.account];
      if a.generation != t.generation || a.revision != t.revision { return false; }
      accounts := accounts[t.account := a.(status := status, reason := Some(ReasonFor(status)),
                                          generation := a.generation + 1, revision := a.revision + 1)];
      ok := true;
    }

    /** The first transaction of renew and replace: no provider work for a stale ticket. */
    method MayStart(member: string, t: Ticket, connector: string) returns (ok: bool)
      ensures ok <==> Current(View(), member, t) && accounts[t.account].connector == connector
    {
      if t.account !in accounts || accounts[t.account].owner != member { return false; }
      var a := accounts[t.account];
      if a.generation != t.generation || a.revision != t.revision { return false; }
      ok := a.connector == connector;
    }

    /** The second transaction of renew, with what the provider verified. */
    method FinishRenew(member: string, t: Ticket, connector: string, identity: Identity,
                       resources: seq<Resource>, ids: seq<string>, custody: bool) returns (ok: bool)
      requires |ids| == |resources|
      modifies this
      ensures ok == Outcome(old(View()), Renew(member, t, connector, identity, resources, ids, custody)).Some?
      ensures View() == Apply(old(View()), Renew(member, t, connector, identity, resources, ids, custody))
    {
      ok := MayStart(member, t, connector);
      if !ok { return; }
      var a := accounts[t.account];
      var b := PersistResources(bindings, t.account, member, resources, ids);
      if !SameIdentity(a.identity, identity) || !custody || b.None? { return false; }
      accounts := accounts[t.account := Account(a.owner, a.connector, identity, Ok, None, a.generation + 1, a.revision + 1)];
      bindings := b.value;
    }

    /** The second transaction of replace: the old account is revoked, a new one takes its place. */
    method FinishReplace(member: string, t: Ticket, connector: string, identity: Identity, newId: string, custody: bool)
        returns (ok: bool)
      modifies this
      ensures ok == Outcome(old(View()), Replace(member, t, connector, identity, newId, custody)).Some?
      ensures View() == Apply(old(View()), Replace(member, t, connector, identity, newId, custody))
    {
      ok := MayStart(member, t, connector);
      if !ok { return; }
      var a := accounts[t.account];
      if SameIdentity(a.identity, identity) || newId in accounts || IdentityTaken(View(), member, connector, identity, newId) || !custody {
        return false;
      }
      accounts := accounts[t.account := a.(status := Revoked, reason := Some(AccountReplaced),
                                          generation := a.generation + 1, revision := a.revision + 1)];
      accounts := accounts[newId := Account(member, connector, identity, Ok, None, 0, 0)];
    }

    /** The second transaction of createPersonalAccount. */
    method FinishCreate(member: string, connector: string, identity: Identity, newId: string,
                        resources: seq<Resource>, ids: seq<string>, custody: bool) returns (ok: bool)
      requires |ids| == |resources|
      modifies this
      ensures ok == Outcome(old(View()), Create(member, connector, identity, newId, resources, ids, custody)).Some?
      ensures View() == Apply(old(View()), Create(member, connector, identity, newId, resources, ids, custody))
    {
      if newId in accounts || IdentityTaken(View(), member, connector, identity, newId) || !custody { return false; }
      var b := PersistResources(bindings, newId, member, resources, ids);
      if b.None? { return false; }
      accounts := accounts[newId := Account(member, connector, identity, Ok, None, 0, 0)];
      bindings := b.value;
      ok := true;
    }

    /** The second transaction of bindResource: no counter moves, so the ticket stays good. */
    method FinishBind(member: string, t: Ticket, r: Resource, id: string) returns (ok: bool)
      modifies this`bindings
      ensures ok == Outcome(old(View()), Bind(member, t, r, id)).Some?
      ensures View() == Apply(old(View()), Bind(member, t, r, id))
    {
      if t.account !in accounts || accounts[t.account].owner != member { return false; }
      var a := accounts[t.account];
      if a.generation != t.generation || a.revision != t.revision || a.status != Ok { return false; }
      bindings := Upsert(bindings, t.account, member, r, id);
      ok := true;
    }
  }
}
