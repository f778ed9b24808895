/** Withdrawing the older unanswered cards that a newly arrived card replaces. */
module Supersede {
  import opened Basics
  import opened CanonicalJson
  import opened Approvals

  datatype OpenAsk = OpenAsk(requestId: Text, tool: Text, turn: Option<nat>, target: Option<Text>)

  datatype NewAsk = NewAsk(requestId: Text, callId: Text, tool: Text, payload: Text, target: Option<Text>)

  datatype Event = Event(session: Text, turn: nat, agent: Text, now: int, arrived: seq<NewAsk>)

  /** Targets that do not tell two cards apart. */
  predicate Compatible(p: Option<Text>, q: Option<Text>) {
    p == None || q == None || p == q
  }

  predicate Replaces(a: NewAsk, turn: nat, o: OpenAsk) {
    && o.tool == a.tool
    && o.turn.Some? && o.turn.value < turn
    && Compatible(o.target, a.target)
  }

  /** selectSupersededAsks. */
  function Select(a: NewAsk, turn: nat, open: seq<OpenAsk>): seq<Text> {
    if open == [] then []
    else (if Replaces(a, turn, open[0]) then [open[0].requestId] else []) + Select(a, turn, open[1..])
  }

  /** Exactly the open cards of the same tool, an earlier turn and a target that does not differ. */
  lemma {:induction false} SelectMeans(a: NewAsk, turn: nat, open: seq<OpenAsk>, id: Text)
    ensures id in Select(a, turn, open) <==> exists o :: o in open && Replaces(a, turn, o) && o.requestId == id
  {
    if open != [] {
      SelectMeans(a, turn, open[1..], id);
      assert open == [open[0]] + open[1..];
    }
  }

  // ---- What one event does ----------------------------------------------------------------

  predicate IsOpen(r: Row) {
    r.place.Some? && r.requestId.Some? && r.answer.outcome == None
  }

  function PlaceOf(e: Event, a: NewAsk): Place {
    Place(e.session, e.turn, a.target)
  }

  function CardOf(e: Event, a: NewAsk): Card {
    Card(e.agent, a.tool, a.payload, e.now, None, None)
  }

  function RecordCard(t: Table, e: Event, a: NewAsk): Table {
    Exec(Exec(t, Insert(a.callId, Fresh(CardOf(e, a), Some(a.requestId), Some(PlaceOf(e, a))))),
         Change(FillPlace(a.requestId, PlaceOf(e, a))))
  }

  function RecordAll(t: Table, e: Event, arrived: seq<NewAsk>): Table
    decreases |arrived|
  {
    if arrived == [] then t
    else RecordCard(RecordAll(t, e, arrived[..|arrived| - 1]), e, arrived[|arrived| - 1])
  }

  predicate Arrives(e: Event, requestId: Text) {
    exists i :: 0 <= i < |e.arrived| && e.arrived[i].requestId == requestId
  }

  function AsOpen(r: Row): OpenAsk
    requires IsOpen(r)
  {
    OpenAsk(r.requestId.value, r.card.tool, Some(r.place.value.turn), r.place.value.target)
  }

  /** The cards openAsksForSession lists. */
  predicate Listed(e: Event, r: Row) {
    IsOpen(r) && r.place.value.session == e.session && !Arrives(e, r.requestId.value)
  }

  /** Some arriving card replaces this one. */
  predicate Replaced(e: Event, r: Row) {
    Listed(e, r) && exists i :: 0 <= i < |e.arrived| && Replaces(e.arrived[i], e.turn, AsOpen(r))
  }

  ghost function Withdrawn(t: Table, e: Event): set<Text> {
    set c | c in t && Replaced(e, t[c]) :: t[c].requestId.value
  }

  function WithdrawRow(r: Row, ids: set<Text>, now: int): Row {
    if r.requestId.Some? && r.requestId.value in ids && r.answer.outcome == None
    then Assigned(Revise(r.requestId.value, now), r) else r
  }

  function Withdraw(t: Table, ids: set<Text>, now: int): Table {
    map c | c in t :: WithdrawRow(t[c], ids, now)
  }

  ghost function After(t: Table, e: Event): Table {
    var t1 := RecordAll(t, e, e.arrived);
    Withdraw(t1, Withdrawn(t1, e), e.now)
  }

  // ---- The hook ---------------------------------------------------------------------------

  /** One request of an input.requested event; `toolApproval` is its kind. */
  datatype Request = Request(toolApproval: bool, requestId: Text, callId: Text, tool: Text, input: Json)

  /** A request with all its names, and the ask it becomes. */
  predicate Usable(r: Request) {
    r.toolApproval && r.requestId != [] && r.callId != [] && r.tool != []
  }

  function AskOf(r: Request, target: (Text, Json) -> Option<Text>): NewAsk {
    NewAsk(r.requestId, r.callId, r.tool, Fingerprint(r.tool, r.input), target(r.tool, r.input))
  }

  function Asks(rs: seq<Request>, target: (Text, Json) -> Option<Text>): seq<NewAsk>
    decreases |rs|
  {
    if rs == [] then [] else
      var before := Asks(rs[..|rs| - 1], target);
      if Usable(rs[|rs| - 1]) then before + [AskOf(rs[|rs| - 1], target)] else before
  }

  /** A request becomes an ask exactly when it is a tool approval with a request id, a call id and a
      tool name; the ask names them, and holds the call's fingerprint and target. */
  lemma {:induction false} AsksExactly(rs: seq<Request>, target: (Text, Json) -> Option<Text>, a: NewAsk)
    ensures a in Asks(rs, target) <==>
            exists i :: 0 <= i < |rs| && rs[i].toolApproval && rs[i].requestId != [] && rs[i].callId != [] && rs[i].tool != []
                        && a == NewAsk(rs[i].requestId, rs[i].callId, rs[i].tool, PreImage(rs[i].tool, rs[i].input), target(rs[i].tool, rs[i].input))
    decreases |rs|
  {
    if rs != [] {
      var n := |rs| - 1;
      AsksExactly(rs[..n], target, a);
      assert forall i :: 0 <= i < n ==> rs[..n][i] == rs[i];
    }
  }

  method Collect(requests: seq<Request>, target: (Text, Json) -> Option<Text>) returns (arrived: seq<NewAsk>)
    ensures arrived == Asks(requests, target)
  {
    arrived := [];
    for k := 0 to |requests|
      invariant arrived == Asks(requests[..k], target)
    {
      var r := requests[k];
      assert requests[..k + 1][..k] == requests[..k];
      if !r.toolApproval { continue; }
      if r.requestId == [] || r.callId == [] || r.tool == [] { continue; }
      arrived := arrived + [AskOf(r, target)];
    }
    assert requests[..|requests|] == requests;
  }

  ghost predicate Lists(open: seq<OpenAsk>, rows: Table, e: Event) {
    forall o :: o in open <==> exists c :: c in rows && Listed(e, rows[c]) && AsOpen(rows[c]) == o
  }

  /** openAsksForSession, in some order. */
  method OpenAsks(rows: Table, e: Event) returns (open: seq<OpenAsk>)
    ensures Lists(open, rows, e)
  {
    open := [];
    var rest := rows.Keys;
    while rest != {}
      invariant rest <= rows.Keys
      invariant forall o :: o in open <==> exists c :: c in rows && c !in rest && Listed(e, rows[c]) && AsOpen(rows[c]) == o
      decreases |rest|
    {
      var c :| c in rest;
      ghost var was := open;
      if Listed(e, rows[c]) { open := open + [AsOpen(rows[c])]; }
      rest := rest - {c};
      forall o ensures o in open <==> exists d :: d in rows && d !in rest && Listed(e, rows[d]) && AsOpen(rows[d]) == o {
        if o in open && o !in was { assert c in rows && c !in rest && Listed(e, rows[c]) && AsOpen(rows[c]) == o; }
      }
    }
  }

  lemma WithdrawNone(t: Table, now: int)
    ensures Withdraw(t, {}, now) == t
  {
  }

  lemma WithdrawOne(t: Table, ids: set<Text>, id: Text, now: int)
    ensures Updated(Withdraw(t, ids, now), Revise(id, now)) == Withdraw(t, ids + {id}, now)
  {
  }

  /** The input.requested handler, with every write reaching the database. */
  method OnInputRequested(ledger: Ledger, session: Text, turn: nat, agent: Text, now: int,
                          requests: seq<Request>, target: (Text, Json) -> Option<Text>)
    modifies ledger
    ensures ledger.rows == After(old(ledger.rows), Event(session, turn, agent, now, Asks(requests, target)))
  {
    var arrived := Collect(requests, target);
    var e := Event(session, turn, agent, now, arrived);
    for k := 0 to |arrived|
      invariant ledger.rows == RecordAll(old(ledger.rows), e, arrived[..k])
    {
      assert arrived[..k + 1][..k] == arrived[..k];
      RecordOne(ledger, e, arrived[k]);
    }
    assert arrived[..|arrived|] == arrived;
    WithdrawReplaced(ledger, e);
  }

  method RecordOne(ledger: Ledger, e: Event, a: NewAsk)
    modifies ledger
    ensures ledger.rows == RecordCard(old(ledger.rows), e, a)
  {
    var insert := Insert(a.callId, Fresh(CardOf(e, a), Some(a.requestId), Some(PlaceOf(e, a))));
    var fill := Change(FillPlace(a.requestId, PlaceOf(e, a)));
    assert [insert, fill][1..] == [fill] && [fill][1..] == [];
    assert ExecAll(ledger.rows, [insert, fill]) == ExecAll(Exec(Exec(ledger.rows, insert), fill), []);
    ledger.RecordWithSession(a.requestId, a.callId, CardOf(e, a), PlaceOf(e, a));
  }

  method WithdrawReplaced(ledger: Ledger, e: Event)
    modifies ledger
    ensures ledger.rows == Withdraw(old(ledger.rows), Withdrawn(old(ledger.rows), e), e.now)
  {
    var open := OpenAsks(ledger.rows, e);
    SelectedAreWithdrawn(ledger.rows, e, open);
    WithdrawSelected(ledger, e, open);
  }

  method WithdrawSelected(ledger: Ledger, e: Event, open: seq<OpenAsk>)
    modifies ledger
    ensures ledger.rows == Withdraw(old(ledger.rows), Selected(e, open, |e.arrived|), e.now)
  {
    var withdrawn: set<Text> := {};
    ghost var t := ledger.rows;
    WithdrawNone(t, e.now);
    for k := 0 to |e.arrived|
      invariant ledger.rows == Withdraw(t, withdrawn, e.now)
      invariant withdrawn == Selected(e, open, k)
    {
      withdrawn := WithdrawEach(ledger, Select(e.arrived[k], e.turn, open), withdrawn, t, e.now);
    }
  }

  /** Withdraws the named cards that are not withdrawn yet. */
  method WithdrawEach(ledger: Ledger, ids: seq<Text>, already: set<Text>, ghost t: Table, now: int) returns (withdrawn: set<Text>)
    requires ledger.rows == Withdraw(t, already, now)
    modifies ledger
    ensures ledger.rows == Withdraw(t, withdrawn, now)
    ensures withdrawn == already + Ids(ids)
  {
    withdrawn := already;
    for j := 0 to |ids|
      invariant ledger.rows == Withdraw(t, withdrawn, now)
      invariant forall id :: id in withdrawn <==> id in already || id in ids[..j]
    {
      assert ids[..j + 1] == ids[..j] + [ids[j]];
      if ids[j] in withdrawn { continue; }
      WithdrawOne(t, withdrawn, ids[j], now);
      withdrawn := withdrawn + {ids[j]};
      var changed := ledger.SettleAsRevised(ids[j], now);
    }
    assert ids[..|ids|] == ids;
  }

  predicate ReplacedBy(e: Event, i: int, o: OpenAsk) {
    0 <= i < |e.arrived| && Replaces(e.arrived[i], e.turn, o)
  }

  ghost function Ids(ids: seq<Text>): set<Text> {
    set id | id in ids
  }

  /** The cards the first `k` arrivals replace. */
  ghost function Selected(e: Event, open: seq<OpenAsk>, k: nat): set<Text>
    requires k <= |e.arrived|
  {
    if k == 0 then {} else Selected(e, open, k - 1) + Ids(Select(e.arrived[k - 1], e.turn, open))
  }

  lemma {:induction false} SelectedMeans(e: Event, open: seq<OpenAsk>, k: nat, id: Text)
    requires k <= |e.arrived|
    ensures id in Selected(e, open, k) <==> exists i, o :: 0 <= i < k && ReplacedBy(e, i, o) && o in open && o.requestId == id
  {
    if k > 0 {
      SelectedMeans(e, open, k - 1, id);
      SelectMeans(e.arrived[k - 1], e.turn, open, id);
      if id in Select(e.arrived[k - 1], e.turn, open) {
        var o :| o in open && Replaces(e.arrived[k - 1], e.turn, o) && o.requestId == id;
        assert ReplacedBy(e, k - 1, o);
      }
    }
  }

  lemma SelectedAreWithdrawn(t: Table, e: Event, open: seq<OpenAsk>)
    requires Lists(open, t, e)
    ensures Selected(e, open, |e.arrived|) == Withdrawn(t, e)
  {
    var ids := Selected(e, open, |e.arrived|);
    forall id | id in ids ensures id in Withdrawn(t, e) {
      SelectedMeans(e, open, |e.arrived|, id);
      var i, o :| 0 <= i < |e.arrived| && ReplacedBy(e, i, o) && o in open && o.requestId == id;
      var c :| c in t && Listed(e, t[c]) && AsOpen(t[c]) == o;
      assert Replaced(e, t[c]);
    }
    forall id | id in Withdrawn(t, e) ensures id in ids {
      SelectedMeans(e, open, |e.arrived|, id);
      var c :| c in t && Replaced(e, t[c]) && t[c].requestId.value == id;
      var i :| 0 <= i < |e.arrived| && Replaces(e.arrived[i], e.turn, AsOpen(t[c]));
      assert AsOpen(t[c]) in open && ReplacedBy(e, i, AsOpen(t[c]));
    }
  }

  // ---- One turn at a time -----------------------------------------------------------------

  predicate Rivals(r: Row, s: Row) {
    && IsOpen(r) && IsOpen(s) && r.place.value.session == s.place.value.session
    && r.card.tool == s.card.tool && Compatible(r.place.value.target, s.place.value.target)
  }

  predicate SameTurn(r: Row, s: Row)
    requires r.place.Some? && s.place.Some?
  {
    r.place.value.turn == s.place.value.turn
  }

  /** Open cards of one session and tool that nothing tells apart were raised in the same turn. */
  ghost predicate OneTurn(t: Table) {
    forall c, d :: c in t && d in t && Rivals(t[c], t[d]) ==> SameTurn(t[c], t[d])
  }

  predicate ArrivingCard(e: Event, r: Row) {
    IsOpen(r) && Arrives(e, r.requestId.value)
  }

  /** Recording leaves every card that does not arrive alone. */
  lemma {:induction false} OthersKept(t: Table, e: Event, arrived: seq<NewAsk>, c: Text)
    requires forall i :: 0 <= i < |arrived| ==> Arrives(e, arrived[i].requestId)
    requires c in RecordAll(t, e, arrived)
    ensures var r := RecordAll(t, e, arrived)[c];
            IsOpen(r) && !ArrivingCard(e, r) ==> c in t && t[c] == r
    decreases |arrived|
  {
    if arrived != [] {
      var n := |arrived| - 1;
      if c in RecordAll(t, e, arrived[..n]) { OthersKept(t, e, arrived[..n], c); }
    }
  }

  /** Each recorded card that arrives has, among the open cards it cannot be told from, none of
      another turn but those this event withdraws. */
  ghost predicate ArrivalsAgree(t: Table, e: Event) {
    forall c, d :: c in t && d in t && ArrivingCard(e, t[c]) && Rivals(t[c], t[d]) && !SameTurn(t[c], t[d]) ==>
      t[d].requestId.value in Withdrawn(t, e)
  }

  lemma OpenAfter(t: Table, e: Event, c: Text)
    requires c in After(t, e)
    ensures var t1 := RecordAll(t, e, e.arrived);
            && c in t1
            && (IsOpen(After(t, e)[c]) <==> IsOpen(t1[c]) && t1[c].requestId.value !in Withdrawn(t1, e))
            && (IsOpen(After(t, e)[c]) ==> After(t, e)[c] == t1[c])
  {
    var t1 := RecordAll(t, e, e.arrived);
    RowAfter(t1[c], Withdrawn(t1, e), e.now);
  }

  lemma RowAfter(r: Row, ids: set<Text>, now: int)
    ensures IsOpen(WithdrawRow(r, ids, now)) <==> IsOpen(r) && r.requestId.value !in ids
    ensures IsOpen(WithdrawRow(r, ids, now)) ==> WithdrawRow(r, ids, now) == r
  {
  }

  lemma ArrivingStays(t: Table, e: Event, c: Text)
    requires c in t && ArrivingCard(e, t[c])
    ensures t[c].requestId.value !in Withdrawn(t, e)
  {
  }

  /** The open cards that do not arrive agree among themselves. */
  ghost predicate OthersAgree(t: Table, e: Event) {
    forall c, d :: c in t && d in t && Rivals(t[c], t[d]) && !ArrivingCard(e, t[c]) && !ArrivingCard(e, t[d]) ==>
      SameTurn(t[c], t[d])
  }

  lemma OneTurnAfter(t: Table, e: Event)
    requires OthersAgree(t, e)
    ensures OneTurn(After(t, e)) <==> ArrivalsAgree(RecordAll(t, e, e.arrived), e)
  {
    var t1, t2 := RecordAll(t, e, e.arrived), After(t, e);
    if ArrivalsAgree(t1, e) {
      forall c, d | c in t2 && d in t2 && Rivals(t2[c], t2[d]) ensures SameTurn(t2[c], t2[d]) {
        OpenAfter(t, e, c);
        OpenAfter(t, e, d);
        if !ArrivingCard(e, t1[c]) && !ArrivingCard(e, t1[d]) {
          OthersKept(t, e, e.arrived, c);
          OthersKept(t, e, e.arrived, d);
        }
      }
    }
    if OneTurn(t2) {
      forall c, d | c in t1 && d in t1 && ArrivingCard(e, t1[c]) && Rivals(t1[c], t1[d]) && !SameTurn(t1[c], t1[d])
        ensures t1[d].requestId.value in Withdrawn(t1, e)
      {
        ArrivingStays(t1, e, c);
        OpenAfter(t, e, c);
        OpenAfter(t, e, d);
      }
    }
  }
}
