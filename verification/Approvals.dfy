/** The approval rows, every statement that inserts or updates them, and what no interleaving of
    those statements can undo. A statement is one SQL INSERT or UPDATE, so a run of statements is any
    interleaving of all the writers: the ledger, the exact approvals, the superseding hook, the
    personal store and the services that claim a use. */
module Approvals {
  import opened Basics
  import opened CanonicalJson

  const APPROVAL_TTL: int := 24 * 60 * 60 * 1000

  datatype Verdict = Approved | Cancelled | Ignored | Invalid | Expired | PayloadChanged

  /** The authority an exact approval is bound to. `terms` stands for everything in it besides the
      expiry: session, audience, policy, target and admission. */
  datatype Reservation = Reservation(human: bool, member: Text, agent: Text, terms: Text, expiresAt: int)

  datatype Card = Card(agent: Text, tool: Text, payload: Text, askedAt: int, authority: Option<Reservation>, member: Option<Text>)

  /** Where a card was raised. A reserved card's row never holds a target. */
  datatype Place = Place(session: Text, turn: nat, target: Option<Text>)

  datatype Answer = Answer(outcome: Option<Verdict>, answeredAt: Option<int>, via: Option<Text>, resolvedBy: Option<Text>)

  datatype Row = Row(card: Card, requestId: Option<Text>, place: Option<Place>, answer: Answer, usedAt: Option<int>, useCount: nat)

  /** The rows by call id. */
  type Table = map<Text, Row>

  const UNANSWERED: Answer := Answer(None, None, None, None)

  function Fresh(card: Card, requestId: Option<Text>, place: Option<Place>): Row {
    Row(card, requestId, place, UNANSWERED, None, 0)
  }

  // ---- Statements -------------------------------------------------------------------------

  datatype Update =
    | RecordAnswer(requestId: Text, outcome: Verdict, via: Option<Text>, now: int)
    | SettleStale(requestId: Text, outcome: Verdict, now: int)
    | MarkUsed(requestId: Text, now: int)
    | FillPlace(requestId: Text, place: Place)
    | Attach(callId: Text, requestId: Text)
    | Approve(callId: Text, requestId: Text, member: Text, now: int)
    | SettleExact(requestId: Text, outcome: Verdict, now: int)
    | Revise(requestId: Text, now: int)
    | ApprovePersonal(callId: Text, requestId: Text, member: Text, now: int)
    | CancelPersonal(requestId: Text, outcome: Verdict, now: int)
    | ClaimUse(callId: Text, requestId: Text, now: int)

  datatype Statement = Insert(callId: Text, row: Row) | Change(update: Update)

  function Coalesce(at: Option<int>, now: int): Option<int> {
    if at.Some? then at else Some(now)
  }

  predicate Standing(r: Row) {
    r.answer.outcome == None || r.answer.outcome == Some(Approved)
  }

  /** The WHERE clause; for a personal cancellation, together with the check made under the same row
      lock. A claim with further conditions of its own matches fewer rows. */
  predicate Matches(u: Update, callId: Text, r: Row) {
    match u
    case RecordAnswer(id, _, _, _) => r.requestId == Some(id) && r.answer.outcome == None && r.card.authority == None
    case SettleStale(id, _, _) => r.requestId == Some(id) && Standing(r)
    case MarkUsed(id, _) => r.requestId == Some(id)
    case FillPlace(id, _) => r.requestId == Some(id) && r.place == None && r.card.authority == None
    case Attach(call, id) => callId == call && r.card.authority.Some? && (r.requestId == None || r.requestId == Some(id))
    case Approve(call, id, member, _) =>
      && callId == call && r.requestId == Some(id) && r.card.authority.Some?
      && (r.answer.outcome == None || (r.answer.outcome == Some(Approved) && r.answer.resolvedBy == Some(member)))
    case SettleExact(id, _, _) => r.requestId == Some(id) && r.card.authority.Some? && Standing(r)
    case Revise(id, _) => r.requestId == Some(id) && r.answer.outcome == None
    case ApprovePersonal(call, id, member, _) =>
      && callId == call && r.requestId == Some(id)
      && (r.answer.outcome == None || (r.answer.outcome == Some(Approved) && r.answer.resolvedBy == Some(member)))
    case CancelPersonal(id, outcome, _) =>
      r.requestId == Some(id) && r.card.authority.Some? && (Standing(r) || r.answer.outcome == Some(outcome))
    case ClaimUse(call, id, _) =>
      callId == call && r.requestId == Some(id) && r.answer.outcome == Some(Approved) && r.usedAt == None
  }

  const CONSOLE: Text := [0x63, 0x6F, 0x6E, 0x73, 0x6F, 0x6C, 0x65]
  const REVISED: Text := [0x72, 0x65, 0x76, 0x69, 0x73, 0x65, 0x64]

  /** The SET clause. */
  function Assigned(u: Update, r: Row): Row {
    match u
    case RecordAnswer(_, outcome, via, now) => r.(answer := r.answer.(outcome := Some(outcome), answeredAt := Some(now), via := via))
    case SettleStale(_, outcome, now) => r.(answer := r.answer.(outcome := Some(outcome), answeredAt := Coalesce(r.answer.answeredAt, now)))
    case MarkUsed(_, now) => r.(usedAt := Coalesce(r.usedAt, now), useCount := r.useCount + 1)
    case FillPlace(_, place) => r.(place := Some(place))
    case Attach(_, id) => r.(requestId := Some(id))
    case Approve(_, _, member, now) =>
      r.(answer := Answer(Some(Approved), Coalesce(r.answer.answeredAt, now), Some(CONSOLE), Some(member)))
    case SettleExact(_, outcome, now) => r.(answer := r.answer.(outcome := Some(outcome), answeredAt := Coalesce(r.answer.answeredAt, now)))
    case Revise(_, now) => r.(answer := r.answer.(outcome := Some(Cancelled), answeredAt := Some(now), via := Some(REVISED)))
    case ApprovePersonal(_, _, member, now) =>
      r.(answer := Answer(Some(Approved), Coalesce(r.answer.answeredAt, now), Some(CONSOLE), Some(member)))
    case CancelPersonal(_, outcome, now) => r.(answer := r.answer.(outcome := Some(outcome), answeredAt := Coalesce(r.answer.answeredAt, now)))
    case ClaimUse(_, _, now) => r.(usedAt := Some(now), useCount := r.useCount + 1)
  }

  /** What the callers of each statement pass: settle writes only the two stale outcomes,
      settleExactInput and a personal cancellation only the three refusals. */
  predicate Issued(s: Statement) {
    match s
    case Insert(_, row) => row == Fresh(row.card, row.requestId, row.place)
    case Change(SettleStale(_, outcome, _)) => outcome == Expired || outcome == PayloadChanged
    case Change(SettleExact(_, outcome, _)) => outcome == Cancelled || outcome == Ignored || outcome == Invalid
    case Change(CancelPersonal(_, outcome, _)) => outcome == Cancelled || outcome == Ignored || outcome == Invalid
    case Change(_) => true
  }

  predicate Claimed(t: Table, requestId: Text, except: Text) {
    exists c :: c in t && c != except && t[c].requestId == Some(requestId)
  }

  /** The unique index on request ids refuses the whole statement. */
  predicate Duplicates(t: Table, u: Update) {
    u.Attach? && u.callId in t && Matches(u, u.callId, t[u.callId]) && Claimed(t, u.requestId, u.callId)
  }

  predicate Conflicts(t: Table, callId: Text, row: Row) {
    callId in t || (row.requestId.Some? && Claimed(t, row.requestId.value, callId))
  }

  function Updated(t: Table, u: Update): Table {
    map c | c in t :: if Matches(u, c, t[c]) then Assigned(u, t[c]) else t[c]
  }

  function Exec(t: Table, s: Statement): Table {
    match s
    case Insert(callId, row) => if Conflicts(t, callId, row) then t else t[callId := row]
    case Change(u) => if Duplicates(t, u) then t else Updated(t, u)
  }

  function ExecAll(t: Table, run: seq<Statement>): Table
    decreases |run|
  {
    if run == [] then t else ExecAll(Exec(t, run[0]), run[1..])
  }

  // ---- The life of a row ------------------------------------------------------------------

  predicate Keeps<T(==)>(before: Option<T>, after: Option<T>) {
    before.Some? ==> after == before
  }

  predicate Terminal(a: Answer) {
    a.outcome.Some? && a.outcome != Some(Approved)
  }

  /** How an answer may move: unanswered, then perhaps approved, then perhaps one terminal outcome
      that nothing changes. The moment of the first answer and the resolver stay. */
  predicate AnswerAdvances(a: Answer, b: Answer) {
    && Keeps(a.answeredAt, b.answeredAt)
    && Keeps(a.resolvedBy, b.resolvedBy)
    && (a.outcome.Some? ==> b.outcome.Some?)
    && (Terminal(a) ==> b == a)
  }

  /** Only age or a changed payload overtakes the approval of a card without an exact reservation. */
  predicate OvertakenOnlyWhenStale(r: Row, s: Row) {
    r.card.authority == None && r.answer.outcome == Some(Approved) && s.answer.outcome.Some? ==>
      s.answer.outcome.value == Approved || s.answer.outcome.value == Expired || s.answer.outcome.value == PayloadChanged
  }

  predicate Advances(r: Row, s: Row) {
    && s.card == r.card && OvertakenOnlyWhenStale(r, s)
    && Keeps(r.requestId, s.requestId)
    && Keeps(r.place, s.place)
    && Keeps(r.usedAt, s.usedAt)
    && r.useCount <= s.useCount
    && AnswerAdvances(r.answer, s.answer)
  }

  ghost predicate TableAdvances(t: Table, u: Table) {
    forall c :: c in t ==> c in u && Advances(t[c], u[c])
  }

  /** What holds of every row: the answered moment is set exactly when the outcome is; an exact
      approval is approved only by a resolver, on an attached request, and only one is recorded. */
  predicate RowSound(r: Row) {
    && (r.answer.answeredAt.Some? <==> r.answer.outcome.Some?)
    && (r.answer.outcome == None ==> r.answer == UNANSWERED)
    && (r.card.authority.Some? && r.answer.outcome == Some(Approved) ==>
          r.answer.resolvedBy.Some? && r.requestId.Some? && r.answer.via == Some(CONSOLE))
    && (r.answer.resolvedBy.Some? ==> r.requestId.Some?)
  }

  ghost predicate Sound(t: Table) {
    && (forall c :: c in t ==> RowSound(t[c]))
    && (forall c, d :: c in t && d in t && t[c].requestId.Some? && t[c].requestId == t[d].requestId ==> c == d)
  }

  lemma AssignedAdvances(u: Update, callId: Text, r: Row)
    requires RowSound(r) && Matches(u, callId, r) && Issued(Change(u))
    ensures Advances(r, Assigned(u, r)) && RowSound(Assigned(u, r))
  {
  }

  lemma ChangeAdvances(t: Table, u: Update)
    requires Sound(t) && Issued(Change(u))
    ensures Sound(Exec(t, Change(u))) && TableAdvances(t, Exec(t, Change(u)))
  {
    var t' := Exec(t, Change(u));
    forall c | c in t ensures c in t' && RowSound(t'[c]) && Advances(t[c], t'[c]) {
      if !Duplicates(t, u) && Matches(u, c, t[c]) { AssignedAdvances(u, c, t[c]); }
    }
    ChangeUnique(t, u);
  }

  lemma ChangeUnique(t: Table, u: Update)
    requires Sound(t)
    ensures var t' := Exec(t, Change(u));
            forall c, d :: c in t' && d in t' && t'[c].requestId.Some? && t'[c].requestId == t'[d].requestId ==> c == d
  {
    var t' := Exec(t, Change(u));
    forall c, d | c in t' && d in t' && t'[c].requestId.Some? && t'[c].requestId == t'[d].requestId
      ensures c == d
    {
      if u.Attach? && !Duplicates(t, u) && u.callId in t && Matches(u, u.callId, t[u.callId]) {
        assert forall e :: e in t && e != u.callId ==> t[e].requestId != Some(u.requestId);
      }
    }
  }

  lemma StatementAdvances(t: Table, s: Statement)
    requires Sound(t) && Issued(s)
    ensures Sound(Exec(t, s)) && TableAdvances(t, Exec(t, s))
  {
    match s {
      case Change(u) => ChangeAdvances(t, u);
      case Insert(callId, row) =>
    }
  }

  lemma AdvancesTransitive(q: Row, r: Row, s: Row)
    requires Advances(q, r) && Advances(r, s)
    ensures Advances(q, s)
  {
  }

  /** Under any interleaving of all the writers a row is never lost, its outcome only moves from
      unanswered through approved to one terminal outcome, and its answered moment, its request id,
      its place, its payload and the reservation it was first given never change. */
  lemma {:induction false} RunAdvances(t: Table, run: seq<Statement>)
    requires Sound(t) && forall i :: 0 <= i < |run| ==> Issued(run[i])
    ensures Sound(ExecAll(t, run)) && TableAdvances(t, ExecAll(t, run))
    decreases |run|
  {
    if run != [] {
      var t' := Exec(t, run[0]);
      StatementAdvances(t, run[0]);
      RunAdvances(t', run[1..]);
      forall c | c in t ensures c in ExecAll(t, run) && Advances(t[c], ExecAll(t, run)[c]) {
        AdvancesTransitive(t[c], t'[c], ExecAll(t, run)[c]);
      }
    }
  }

  // ---- The call that runs is the call that was shown --------------------------------------

  /** payloadFingerprint, a hash taken as injective and so written as the text it hashes. */
  function Fingerprint(tool: Text, input: Json): Text {
    PreImage(tool, input)
  }

  datatype Decision = Pass | Stale | Changed | NotGiven(outcome: Verdict) | NeedsExact

  /** assertApprovedCall on the row it read. */
  function Judge(r: Row, tool: Text, input: Json, now: int, ttl: int): Decision {
    if r.card.authority.Some? then NeedsExact
    else if r.answer.outcome == Some(Expired) then Stale
    else if r.answer.outcome == Some(PayloadChanged) then Changed
    else if Terminal(r.answer) then NotGiven(r.answer.outcome.value)
    else if now - r.card.askedAt > ttl then Stale
    else if r.card.payload != Fingerprint(tool, input) then Changed
    else Pass
  }

  /** exact: the row still stands for this very call, before the first reservation's expiry. */
  predicate Exact(r: Row, tool: Text, input: Json, now: int) {
    && r.card.authority.Some? && r.card.authority.value.human
    && r.card.member == Some(r.card.authority.value.member)
    && r.card.agent == r.card.authority.value.agent
    && r.card.tool == tool && r.card.payload == Fingerprint(tool, input)
    && now < r.card.authority.value.expiresAt
  }

  /** requireApprovedExecution, given that the session, policy and target reads agree. */
  predicate MayExecute(r: Row, tool: Text, input: Json, member: Text, now: int) {
    && Exact(r, tool, input, now) && r.requestId.Some?
    && r.answer.outcome == Some(Approved) && r.answer.resolvedBy == Some(member)
  }

  ghost predicate Reachable(t: Table, run: seq<Statement>, u: Table) {
    && Sound(t) && (forall i :: 0 <= i < |run| ==> Issued(run[i])) && u == ExecAll(t, run)
  }

  /** A call passes, after any later writes, only on a standing card that is young enough and was
      shown this very tool and input. */
  lemma PassedCallWasShown(t: Table, run: seq<Statement>, u: Table, callId: Text,
                           shownTool: Text, shown: Json, tool: Text, input: Json, now: int, ttl: int)
    requires Reachable(t, run, u) && Proper(shown) && Proper(input)
    requires callId in t && t[callId].card.payload == Fingerprint(shownTool, shown)
    ensures callId in u
    ensures Judge(u[callId], tool, input, now, ttl) == Pass <==>
            && t[callId].card.authority == None && Standing(u[callId])
            && now - t[callId].card.askedAt <= ttl
            && tool == shownTool && Same(input, shown)
  {
    RunAdvances(t, run);
    PreImageBinds(tool, input, shownTool, shown);
  }

  /** Why a call is refused: an answer other than an approval is named before age, and age before a
      changed payload. */
  lemma RefusalExactly(r: Row, tool: Text, input: Json, now: int, ttl: int)
    requires r.card.authority == None
    ensures var d, out := Judge(r, tool, input, now, ttl), r.answer.outcome;
            && (d == Stale <==> out == Some(Expired) || ((out == None || out == Some(Approved)) && now - r.card.askedAt > ttl))
            && (d == Changed <==>
                  (out == Some(PayloadChanged)
                   || ((out == None || out == Some(Approved)) && now - r.card.askedAt <= ttl && r.card.payload != Fingerprint(tool, input))))
            && (forall v :: d == NotGiven(v) <==> out == Some(v) && (v == Cancelled || v == Ignored || v == Invalid))
            && d != NeedsExact
  {
  }

  /** An exact call runs, after any later writes, only as the tool and input reserved, before the
      first reservation's expiry, on the approval of that member. */
  lemma ExecutedCallWasReserved(t: Table, run: seq<Statement>, u: Table, callId: Text,
                                shownTool: Text, shown: Json, tool: Text, input: Json, member: Text, now: int)
    requires Reachable(t, run, u) && Proper(shown) && Proper(input)
    requires callId in t && t[callId].card.payload == Fingerprint(shownTool, shown)
    requires callId in u && MayExecute(u[callId], tool, input, member, now)
    ensures tool == shownTool && Same(input, shown)
    ensures t[callId].card.authority.Some? && now < t[callId].card.authority.value.expiresAt
    ensures u[callId].answer.outcome == Some(Approved) && u[callId].answer.resolvedBy == Some(member)
    ensures !Terminal(t[callId].answer)
    ensures var a := t[callId].card.authority.value;
            a.human && t[callId].card.member == Some(a.member) && t[callId].card.agent == a.agent && t[callId].card.tool == tool
    ensures u[callId].requestId.Some? && (t[callId].requestId.Some? ==> u[callId].requestId == t[callId].requestId)
  {
    RunAdvances(t, run);
    PreImageBinds(tool, input, shownTool, shown);
  }

  /** A card once settled against the call, withdrawn ones included, refuses it for ever, and for
      the same reason. */
  lemma WithdrawnNeverPasses(t: Table, run: seq<Statement>, u: Table, callId: Text,
                             tool: Text, input: Json, now: int, tool': Text, input': Json, now': int, ttl: int)
    requires Reachable(t, run, u)
    requires callId in t && Terminal(t[callId].answer)
    ensures callId in u && u[callId].answer == t[callId].answer
    ensures Judge(u[callId], tool', input', now', ttl) == Judge(t[callId], tool, input, now, ttl) != Pass
    ensures forall member :: !MayExecute(u[callId], tool', input', member, now')
  {
    RunAdvances(t, run);
  }

  /** The first answer to a card without an exact reservation stands: its moment never changes, a
      refusal stays the refusal it was, and an approval is overtaken only by age or by a changed
      payload. */
  lemma FirstAnswerStands(t: Table, callId: Text, requestId: Text, outcome: Verdict, via: Option<Text>, now: int,
                          run: seq<Statement>, u: Table)
    requires Sound(t) && callId in t && t[callId].requestId == Some(requestId)
    requires t[callId].answer.outcome == None && t[callId].card.authority == None
    requires Reachable(Exec(t, Change(RecordAnswer(requestId, outcome, via, now))), run, u)
    ensures callId in u && u[callId].answer.answeredAt == Some(now) && u[callId].answer.outcome.Some?
    ensures outcome != Approved ==> u[callId].answer == Answer(Some(outcome), Some(now), via, None)
    ensures outcome == Approved ==>
              u[callId].answer.outcome.value == Approved || u[callId].answer.outcome.value == Expired
              || u[callId].answer.outcome.value == PayloadChanged
  {
    var t1 := Exec(t, Change(RecordAnswer(requestId, outcome, via, now)));
    assert t1[callId].answer == Answer(Some(outcome), Some(now), via, None);
    RunAdvances(t1, run);
  }

  // ---- What each statement does -----------------------------------------------------------

  /** The statement names its row by the request id. */
  predicate OnRequest(u: Update, requestId: Text) {
    match u
    case RecordAnswer(id, _, _, _) => id == requestId
    case SettleStale(id, _, _) => id == requestId
    case MarkUsed(id, _) => id == requestId
    case FillPlace(id, _) => id == requestId
    case Attach(_, _) => false
    case Approve(_, id, _, _) => id == requestId
    case SettleExact(id, _, _) => id == requestId
    case Revise(id, _) => id == requestId
    case ApprovePersonal(_, id, _, _) => id == requestId
    case CancelPersonal(id, _, _) => id == requestId
    case ClaimUse(_, id, _) => id == requestId
  }

  /** Request ids are unique, so a statement on one of them touches one row at most. */
  lemma OneRow(t: Table, c: Text, requestId: Text, u: Update)
    requires Sound(t) && c in t && t[c].requestId == Some(requestId) && OnRequest(u, requestId)
    ensures Exec(t, Change(u)) == (if Matches(u, c, t[c]) then t[c := Assigned(u, t[c])] else t)
    ensures RowSound(t[c])
  {
    forall d | d in t && Matches(u, d, t[d]) ensures d == c {
      assert t[d].requestId == t[c].requestId;
    }
  }

  /** The recorder answers an unanswered card without an exact reservation, and no other. */
  lemma AnswerLands(t: Table, c: Text, requestId: Text, outcome: Verdict, via: Option<Text>, now: int)
    requires Sound(t) && c in t && t[c].requestId == Some(requestId)
    ensures var a := t[c].answer;
            Exec(t, Change(RecordAnswer(requestId, outcome, via, now))) ==
            if a.outcome == None && t[c].card.authority == None
            then t[c := t[c].(answer := Answer(Some(outcome), Some(now), via, None))] else t
  {
    OneRow(t, c, requestId, RecordAnswer(requestId, outcome, via, now));
  }

  /** The answer once a verdict overtakes it: the moment of the first answer stays. */
  function Overtaken(a: Answer, outcome: Verdict, now: int): Answer {
    Answer(Some(outcome), if a.outcome == None then Some(now) else a.answeredAt, a.via, a.resolvedBy)
  }

  /** A stale verdict lands on any unanswered or approved card. */
  lemma StaleLands(t: Table, c: Text, requestId: Text, outcome: Verdict, now: int)
    requires Sound(t) && c in t && t[c].requestId == Some(requestId)
    ensures var a := t[c].answer;
            Exec(t, Change(SettleStale(requestId, outcome, now))) ==
            if a.outcome == None || a.outcome == Some(Approved) then t[c := t[c].(answer := Overtaken(a, outcome, now))] else t
  {
    OneRow(t, c, requestId, SettleStale(requestId, outcome, now));
  }

  /** A refusal lands on an unanswered or approved card that was reserved exactly. */
  lemma ExactRefusalLands(t: Table, c: Text, requestId: Text, outcome: Verdict, now: int)
    requires Sound(t) && c in t && t[c].requestId == Some(requestId)
    ensures var a := t[c].answer;
            Exec(t, Change(SettleExact(requestId, outcome, now))) ==
            if (a.outcome == None || a.outcome == Some(Approved)) && t[c].card.authority.Some?
            then t[c := t[c].(answer := Overtaken(a, outcome, now))] else t
  {
    OneRow(t, c, requestId, SettleExact(requestId, outcome, now));
  }

  /** So does a personal cancellation; repeated, it changes nothing. */
  lemma PersonalRefusalLands(t: Table, c: Text, requestId: Text, outcome: Verdict, now: int)
    requires Sound(t) && c in t && t[c].requestId == Some(requestId)
    ensures var a := t[c].answer;
            Exec(t, Change(CancelPersonal(requestId, outcome, now))) ==
            if (a.outcome == None || a.outcome == Some(Approved)) && t[c].card.authority.Some?
            then t[c := t[c].(answer := Overtaken(a, outcome, now))] else t
  {
    OneRow(t, c, requestId, CancelPersonal(requestId, outcome, now));
    if t[c].answer.outcome == Some(outcome) && t[c].card.authority.Some? && outcome != Approved {
      assert t[c].answer.answeredAt.Some?;
      assert Assigned(CancelPersonal(requestId, outcome, now), t[c]) == t[c];
      assert t[c := t[c]] == t;
    }
  }

  /** A personal approval lands on an unanswered card, and again only for the member who gave it. */
  lemma PersonalApprovalLands(t: Table, c: Text, requestId: Text, member: Text, now: int)
    requires Sound(t) && c in t && t[c].requestId == Some(requestId)
    ensures var a := t[c].answer;
            Exec(t, Change(ApprovePersonal(c, requestId, member, now))) ==
            if a.outcome == None || (a.outcome == Some(Approved) && a.resolvedBy == Some(member))
            then t[c := t[c].(answer := Answer(Some(Approved), if a.outcome == None then Some(now) else a.answeredAt, Some(CONSOLE), Some(member)))]
            else t
  {
    OneRow(t, c, requestId, ApprovePersonal(c, requestId, member, now));
  }

  /** A pass is counted, and keeps the moment of the first use. */
  lemma UseLands(t: Table, c: Text, requestId: Text, now: int)
    requires Sound(t) && c in t && t[c].requestId == Some(requestId)
    ensures Exec(t, Change(MarkUsed(requestId, now))) ==
            t[c := t[c].(useCount := t[c].useCount + 1, usedAt := if t[c].usedAt == None then Some(now) else t[c].usedAt)]
  {
    OneRow(t, c, requestId, MarkUsed(requestId, now));
  }

  /** A claim lands on an approved card not used yet. */
  lemma ClaimLands(t: Table, c: Text, requestId: Text, now: int)
    requires Sound(t) && c in t && t[c].requestId == Some(requestId)
    ensures Exec(t, Change(ClaimUse(c, requestId, now))) ==
            if t[c].answer.outcome == Some(Approved) && t[c].usedAt == None
            then t[c := t[c].(usedAt := Some(now), useCount := t[c].useCount + 1)] else t
  {
    OneRow(t, c, requestId, ClaimUse(c, requestId, now));
  }

  /** A card is recorded exactly when neither its call nor its request is known yet, unanswered. */
  lemma InsertLands(t: Table, callId: Text, card: Card, requestId: Option<Text>, place: Option<Place>)
    ensures var u := Exec(t, Insert(callId, Fresh(card, requestId, place)));
            u == if callId in t || (requestId.Some? && exists c :: c in t && t[c].requestId == requestId) then t
                 else t[callId := Row(card, requestId, place, Answer(None, None, None, None), None, 0)]
  {
    if requestId.Some? && callId !in t {
      assert Claimed(t, requestId.value, callId) <==> exists c :: c in t && t[c].requestId == requestId;
    }
  }

  /** An approval is claimed for use at most once: after one claim no later one matches its row,
      whatever is written between them. */
  lemma ClaimedOnce(t: Table, callId: Text, requestId: Text, now: int, run: seq<Statement>, u: Table, requestId': Text, now': int)
    requires Sound(t) && callId in t && Matches(ClaimUse(callId, requestId, now), callId, t[callId])
    requires Reachable(Exec(t, Change(ClaimUse(callId, requestId, now))), run, u)
    ensures callId in u && u[callId].usedAt == Some(now) && !Matches(ClaimUse(callId, requestId', now'), callId, u[callId])
  {
    var t1 := Exec(t, Change(ClaimUse(callId, requestId, now)));
    assert t1[callId].usedAt == Some(now);
    RunAdvances(t1, run);
  }

  // ---- The ledger -------------------------------------------------------------------------

  class Ledger {
    var rows: Table

    constructor ()
      ensures rows == map[]
    {
      rows := map[];
    }

    method RecordAsk(requestId: Text, callId: Text, agent: Text, tool: Text, payload: Text, now: int)
      modifies this
      ensures rows == Exec(old(rows), Insert(callId, Fresh(Card(agent, tool, payload, now, None, None), Some(requestId), None)))
    {
      var row := Fresh(Card(agent, tool, payload, now, None, None), Some(requestId), None);
      if !Conflicts(rows, callId, row) { rows := rows[callId := row]; }
    }

    method Answered(requestId: Text, outcome: Verdict, via: Option<Text>, now: int)
      modifies this
      ensures rows == Exec(old(rows), Change(RecordAnswer(requestId, outcome, via, now)))
    {
      rows := Updated(rows, RecordAnswer(requestId, outcome, via, now));
    }

    /** assertApprovedCall. `readable` and `writable` say whether the database could be read and
        whether the best-effort writes reached it; neither turns a refusal into a pass. */
    method AssertApprovedCall(callId: Text, tool: Text, input: Json, now: int, ttl: int, readable: bool, writable: bool)
        returns (d: Decision)
      requires Sound(rows)
      modifies this
      ensures d == if readable && callId != [] && callId in old(rows) then Judge(old(rows)[callId], tool, input, now, ttl) else Pass
      ensures Sound(rows) && TableAdvances(old(rows), rows)
      ensures d.NotGiven? || d.NeedsExact? ==> rows == old(rows)
      ensures d == Stale && writable && old(rows)[callId].requestId.Some? ==> rows[callId].answer.outcome == Some(Expired)
      ensures d == Changed && writable && old(rows)[callId].requestId.Some? ==> rows[callId].answer.outcome == Some(PayloadChanged)
    {
      d := Pass;
      if callId == [] || !readable || callId !in rows { return; }
      var row := rows[callId];
      if row.card.authority.Some? { d := NeedsExact; return; }
      if row.answer.outcome == Some(Expired) { d := Stale; return; }
      if row.answer.outcome == Some(PayloadChanged) { d := Changed; return; }
      if row.answer.outcome.Some? && row.answer.outcome.value != Approved { d := NotGiven(row.answer.outcome.value); return; }
      if now - row.card.askedAt > ttl {
        SettleQuietly(callId, Expired, now, writable);
        d := Stale;
      } else if row.card.payload != Fingerprint(tool, input) {
        SettleQuietly(callId, PayloadChanged, now, writable);
        d := Changed;
      } else {
        MarkUsedQuietly(callId, now, writable);
      }
    }

    method SettleQuietly(callId: Text, outcome: Verdict, now: int, writable: bool)
      requires Sound(rows) && (outcome == Expired || outcome == PayloadChanged)
      requires callId in rows && Standing(rows[callId])
      modifies this
      ensures Sound(rows) && TableAdvances(old(rows), rows)
      ensures writable && old(rows)[callId].requestId.Some? ==> rows[callId].answer.outcome == Some(outcome)
    {
      if writable && rows[callId].requestId.Some? {
        var u := SettleStale(rows[callId].requestId.value, outcome, now);
        ChangeAdvances(rows, u);
        rows := Updated(rows, u);
      }
    }

    method MarkUsedQuietly(callId: Text, now: int, writable: bool)
      requires Sound(rows) && callId in rows
      modifies this
      ensures Sound(rows) && TableAdvances(old(rows), rows)
      ensures writable && old(rows)[callId].requestId.Some? ==>
                rows[callId].useCount == old(rows)[callId].useCount + 1 && rows[callId].usedAt.Some?
    {
      if writable && rows[callId].requestId.Some? {
        var u := MarkUsed(rows[callId].requestId.value, now);
        ChangeAdvances(rows, u);
        rows := Updated(rows, u);
      }
    }

    /** recordWithSession: two statements, the second for a row the role's own recorder put first. */
    method RecordWithSession(requestId: Text, callId: Text, card: Card, place: Place)
      modifies this
      ensures rows == ExecAll(old(rows), [Insert(callId, Fresh(card, Some(requestId), Some(place))), Change(FillPlace(requestId, place))])
    {
      var insert := Insert(callId, Fresh(card, Some(requestId), Some(place)));
      var fill := Change(FillPlace(requestId, place));
      assert [insert, fill][1..] == [fill] && [fill][1..] == [];
      assert ExecAll(rows, [insert, fill]) == ExecAll(Exec(Exec(rows, insert), fill), []);
      if !Conflicts(rows, callId, insert.row) { rows := rows[callId := insert.row]; }
      rows := Updated(rows, fill.update);
    }

    /** settleAsRevised: true only when this call withdrew the card. */
    method SettleAsRevised(requestId: Text, now: int) returns (changed: bool)
      modifies this
      ensures rows == Exec(old(rows), Change(Revise(requestId, now)))
      ensures changed <==> exists c :: c in old(rows) && old(rows)[c].requestId == Some(requestId) && old(rows)[c].answer.outcome == None
    {
      var u := Revise(requestId, now);
      changed := exists c :: c in rows && rows[c].requestId == Some(requestId) && rows[c].answer.outcome == None;
      rows := Updated(rows, u);
    }

    /** reserveExactApproval, once the turn's authority, policy and target have been read. A retry
        must carry the very same terms and never moves the first expiry. */
    method Reserve(callId: Text, tool: Text, input: Json, r: Reservation, place: Place, now: int) returns (ok: bool)
      requires r.expiresAt == now + APPROVAL_TTL
      modifies this
      ensures callId in old(rows) || callId == [] ==> rows == old(rows)
      ensures callId !in old(rows) && callId != [] ==>
                rows == old(rows)[callId := Fresh(Card(r.agent, tool, Fingerprint(tool, input), now, Some(r), Some(r.member)), None, Some(place))]
      ensures ok <==> callId != [] && r.human && (callId in old(rows) ==>
                var row := old(rows)[callId];
                && Exact(row, tool, input, now) && row.answer.outcome == None
                && r == row.card.authority.value.(expiresAt := r.expiresAt))
    {
      if callId == [] { return false; }
      var row := Fresh(Card(r.agent, tool, Fingerprint(tool, input), now, Some(r), Some(r.member)), None, Some(place));
      if !Conflicts(rows, callId, row) { rows := rows[callId := row]; }
      var found := rows[callId];
      if !Exact(found, tool, input, now) { return false; }
      ok := found.card.authority.value.(expiresAt := r.expiresAt) == r && found.answer.outcome == None;
    }

    /** attachExactApproval: the request id is set once, for the call the card shows. */
    method AttachExact(requestId: Text, callId: Text, tool: Text, input: Json) returns (ok: bool)
      modifies this
      ensures ok <==> && callId in old(rows) && callId != [] && old(rows)[callId].card.authority.Some?
                      && old(rows)[callId].card.tool == tool && old(rows)[callId].card.payload == Fingerprint(tool, input)
                      && (old(rows)[callId].requestId == None || old(rows)[callId].requestId == Some(requestId))
                      && !Claimed(old(rows), requestId, callId)
      ensures rows == if ok then Exec(old(rows), Change(Attach(callId, requestId))) else old(rows)
      ensures ok ==> callId in rows && rows[callId].requestId == Some(requestId)
    {
      if callId == [] || callId !in rows || rows[callId].card.authority.None? { return false; }
      var row := rows[callId];
      if row.card.tool != tool || row.card.payload != Fingerprint(tool, input) { return false; }
      var u := Attach(callId, requestId);
      if Claimed(rows, requestId, callId) || !Matches(u, callId, row) { return false; }
      rows := Updated(rows, u);
      ok := true;
    }

    /** The personal store's attachApproval, given that its own row, the card's terms and both expiries
        agree (`checked`). */
    method AttachPersonal(requestId: Text, callId: Text, checked: bool) returns (ok: bool)
      modifies this
      ensures ok <==> && checked && callId in old(rows) && old(rows)[callId].card.authority.Some?
                      && (old(rows)[callId].requestId == None || old(rows)[callId].requestId == Some(requestId))
                      && !Claimed(old(rows), requestId, callId)
      ensures ok ==> callId in rows && rows[callId].requestId == Some(requestId)
      ensures rows == if ok then Exec(old(rows), Change(Attach(callId, requestId))) else old(rows)
    {
      if !checked || callId !in rows || rows[callId].card.authority.None? { return false; }
      var u := Attach(callId, requestId);
      if Claimed(rows, requestId, callId) || !Matches(u, callId, rows[callId]) { return false; }
      rows := Updated(rows, u);
      ok := true;
    }

    /** approveExactResponse. `authenticated` is the responder's admission and `current` the fresh
        session, policy and target reads. */
    method ApproveResponse(callId: Text, requestId: Text, tool: Text, input: Json, member: Text,
                           authenticated: bool, current: bool, now: int) returns (ok: bool)
      requires Sound(rows)
      modifies this
      ensures Sound(rows) && TableAdvances(old(rows), rows)
      ensures !ok ==> rows == old(rows)
      ensures ok <==> && authenticated && current && callId in old(rows) && callId != []
                      && Exact(old(rows)[callId], tool, input, now) && old(rows)[callId].requestId == Some(requestId)
                      && (old(rows)[callId].answer.outcome == None ||
                          (old(rows)[callId].answer.outcome == Some(Approved) && old(rows)[callId].answer.resolvedBy == Some(member)))
      ensures ok ==> callId in rows && MayExecute(rows[callId], tool, input, member, now)
      ensures forall c :: c in old(rows) && c != callId ==> rows[c] == old(rows)[c]
    {
      if callId == [] || callId !in rows { return false; }
      var row := rows[callId];
      if !Exact(row, tool, input, now) || row.requestId != Some(requestId) || !authenticated || !Standing(row) || !current {
        return false;
      }
      var u := Approve(callId, requestId, member, now);
      if !Matches(u, callId, row) { return false; }
      StatementAdvances(rows, Change(u));
      rows := Updated(rows, u);
      ok := true;
    }

    method SettleExactInput(requestId: Text, outcome: Verdict, now: int)
      modifies this
      ensures rows == if outcome == Cancelled || outcome == Ignored || outcome == Invalid
                      then Exec(old(rows), Change(SettleExact(requestId, outcome, now))) else old(rows)
    {
      if outcome != Cancelled && outcome != Ignored && outcome != Invalid { return; }
      rows := Updated(rows, SettleExact(requestId, outcome, now));
    }
  }
}
