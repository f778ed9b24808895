/** One input.requested event as the ledger sees it: the superseding hook records and withdraws cards
    while, on a console turn, the recording hook attaches the request ids of reserved cards. The two
    hooks share no order; the result does not depend on it. */
module RequestedEvents {
  import opened Basics
  import opened CanonicalJson
  import opened Approvals
  import opened Supersede

  predicate SameAsk(a: NewAsk, b: NewAsk) {
    a.requestId == b.requestId && a.callId == b.callId && a.tool == b.tool && a.target == b.target
  }

  predicate SharesId(a: NewAsk, b: NewAsk) {
    a.requestId == b.requestId || a.callId == b.callId
  }

  /** The call was asked before under another request id; its row keeps the first one. */
  predicate UnderOldId(r: Row, a: NewAsk) {
    r.requestId.Some? && r.requestId != Some(a.requestId)
  }

  /** A row that may already stand for an arriving card. A reserved row gets its request id only now,
      and it never holds a target. */
  predicate Recorded(callId: Text, r: Row, a: NewAsk) {
    UnderOldId(r, a) || (
      && callId == a.callId && r.card.tool == a.tool
      && (r.requestId == None ==> r.card.authority.Some?)
      && (r.place.Some? ==> r.place.value.target == a.target || (r.card.authority.Some? && r.place.value.target == None)))
  }

  /** A request id names one card: its call, its tool and, where the ledger keeps it, its target. A
      call may have been asked before under another request id. */
  ghost predicate Faithful(t: Table, arrived: seq<NewAsk>) {
    && (forall c, i :: c in t && 0 <= i < |arrived| && (c == arrived[i].callId || t[c].requestId == Some(arrived[i].requestId)) ==>
          Recorded(c, t[c], arrived[i]))
    && (forall i, j :: 0 <= i < |arrived| && 0 <= j < |arrived| && SharesId(arrived[i], arrived[j]) ==>
          SameAsk(arrived[i], arrived[j]))
  }

  predicate Fillable(r: Row) {
    r.place == None && r.card.authority == None
  }

  /** The row the ledger holds once `a` has been recorded. */
  predicate IsStored(t: Table, e: Event, a: NewAsk, r: Row) {
    if a.callId !in t then
      && r.card.tool == a.tool && r.requestId == Some(a.requestId)
      && r.place == Some(PlaceOf(e, a)) && r.answer == UNANSWERED
    else if Fillable(t[a.callId]) && t[a.callId].requestId == Some(a.requestId) then r == t[a.callId].(place := Some(PlaceOf(e, a)))
    else r == t[a.callId]
  }

  predicate Names(arrived: seq<NewAsk>, callId: Text) {
    exists i :: 0 <= i < |arrived| && arrived[i].callId == callId
  }

  ghost predicate Explained(t: Table, e: Event, arrived: seq<NewAsk>, c: Text, r: Row) {
    && (forall i :: 0 <= i < |arrived| && arrived[i].callId == c ==> IsStored(t, e, arrived[i], r))
    && (!Names(arrived, c) ==> c in t && r == t[c])
  }

  ghost predicate AllExplained(t: Table, e: Event, arrived: seq<NewAsk>, u: Table) {
    && (forall c :: c in u ==> Explained(t, e, arrived, c, u[c]))
    && (forall i :: 0 <= i < |arrived| ==> arrived[i].callId in u)
    && (forall c :: c in t ==> c in u)
  }

  /** The ids of an arriving card lead to no other row. */
  lemma IdsLead(t: Table, e: Event, arrived: seq<NewAsk>, u: Table, b: NewAsk, c: Text)
    requires Faithful(t, arrived + [b]) && AllExplained(t, e, arrived, u) && c in u
    requires u[c].requestId == Some(b.requestId)
    ensures c == b.callId
  {
    var all := arrived + [b];
    assert all[|arrived|] == b;
    if Names(arrived, c) {
      var i :| 0 <= i < |arrived| && arrived[i].callId == c;
      assert all[i] == arrived[i];
      assert IsStored(t, e, arrived[i], u[c]);
      if c in t { assert Recorded(c, t[c], all[|arrived|]); } else { assert SharesId(all[i], all[|arrived|]); }
    } else {
      assert Recorded(c, t[c], all[|arrived|]);
    }
  }

  lemma RecordExplained(t: Table, e: Event, arrived: seq<NewAsk>, u: Table, b: NewAsk)
    requires Faithful(t, arrived + [b]) && AllExplained(t, e, arrived, u)
    ensures AllExplained(t, e, arrived + [b], RecordCard(u, e, b))
  {
    var all, n, w := arrived + [b], |arrived|, RecordCard(u, e, b);
    forall c | c in u && u[c].requestId == Some(b.requestId) ensures c == b.callId { IdsLead(t, e, arrived, u, b, c); }
    assert b.callId in w;
    forall c | c in w ensures Explained(t, e, all, c, w[c]) {
      if c == b.callId {
        BecomesStored(t, e, arrived, u, b);
      } else {
        OtherExplained(t, e, arrived, b, c, u[c]);
      }
    }
  }

  lemma OtherExplained(t: Table, e: Event, arrived: seq<NewAsk>, b: NewAsk, c: Text, r: Row)
    requires Explained(t, e, arrived, c, r) && c != b.callId
    ensures Explained(t, e, arrived + [b], c, r)
  {
    var all := arrived + [b];
    assert forall i :: 0 <= i < |arrived| ==> all[i] == arrived[i];
    if Names(arrived, c) {
      var i :| 0 <= i < |arrived| && arrived[i].callId == c;
      assert all[i].callId == c;
    }
  }

  lemma BecomesStored(t: Table, e: Event, arrived: seq<NewAsk>, u: Table, b: NewAsk)
    requires Faithful(t, arrived + [b]) && AllExplained(t, e, arrived, u)
    requires forall c :: c in u && u[c].requestId == Some(b.requestId) ==> c == b.callId
    ensures b.callId in RecordCard(u, e, b) && Explained(t, e, arrived + [b], b.callId, RecordCard(u, e, b)[b.callId])
  {
    var all, n, c := arrived + [b], |arrived|, b.callId;
    var r := RecordCard(u, e, b)[c];
    assert all[n] == b;
    assert c in t ==> Recorded(c, t[c], all[n]);
    assert IsStored(t, e, b, r) by {
      if Names(arrived, c) {
        var i :| 0 <= i < n && arrived[i].callId == c;
        assert all[i] == arrived[i] && SameAsk(all[i], all[n]);
        assert IsStored(t, e, arrived[i], u[c]);
      }
    }
    forall i | 0 <= i <= n && all[i].callId == c ensures IsStored(t, e, all[i], r) { assert SameAsk(all[i], all[n]); }
    assert Names(all, c);
  }

  lemma {:induction false} AllRecorded(t: Table, e: Event, arrived: seq<NewAsk>)
    requires Faithful(t, arrived)
    ensures AllExplained(t, e, arrived, RecordAll(t, e, arrived))
    decreases |arrived|
  {
    if arrived != [] {
      var n := |arrived| - 1;
      var before := arrived[..n];
      assert arrived == before + [arrived[n]];
      assert forall i :: 0 <= i < n ==> before[i] == arrived[i];
      AllRecorded(t, e, before);
      RecordExplained(t, e, before, RecordAll(t, e, before), arrived[n]);
    }
  }

  // ---- Attaching the reserved cards -------------------------------------------------------

  /** The statement attachExactApproval and the personal store run for one arriving card. */
  function AttachCard(t: Table, a: NewAsk): Table {
    Exec(t, Change(Attach(a.callId, a.requestId)))
  }

  function AttachAll(t: Table, xs: seq<NewAsk>): Table
    decreases |xs|
  {
    if xs == [] then t else AttachCard(AttachAll(t, xs[..|xs| - 1]), xs[|xs| - 1])
  }

  /** The attaches of this event. A check that fails first, or an ordinary turn, attaches fewer. */
  ghost predicate Drawn(xs: seq<NewAsk>, arrived: seq<NewAsk>) {
    forall i :: 0 <= i < |xs| ==> xs[i] in arrived
  }

  const PERSONAL_SEND: Text :=
    [0x70, 0x65, 0x72, 0x73, 0x6F, 0x6E, 0x61, 0x6C, 0x5F, 0x6D, 0x61, 0x69, 0x6C, 0x62, 0x6F, 0x78, 0x5F, 0x73, 0x65, 0x6E, 0x64]

  /** The ask is attached: its call's row carries its request id. */
  predicate Carries(t: Table, r: Request) {
    r.callId in t && t[r.callId].requestId == Some(r.requestId)
  }

  /** The recording hook on a console turn: every approval request of the event gets attached, and the
      first refusal ends the turn. `personal` says which personal-mail checks pass. */
  method AttachRequested(ledger: Ledger, requests: seq<Request>, target: (Text, Json) -> Option<Text>, personal: nat -> bool)
      returns (ok: bool, ghost attached: seq<NewAsk>)
    modifies ledger
    ensures ledger.rows == AttachAll(old(ledger.rows), attached)
    ensures forall a :: a in attached ==> exists i :: 0 <= i < |requests| && requests[i].toolApproval && a == AskOf(requests[i], target)
    ensures ok ==> forall i :: 0 <= i < |requests| && requests[i].toolApproval ==>
                     AskOf(requests[i], target) in attached && Carries(ledger.rows, requests[i])
  {
    attached := [];
    for k := 0 to |requests|
      invariant ledger.rows == AttachAll(old(ledger.rows), attached)
      invariant forall a :: a in attached ==> exists i :: 0 <= i < |requests| && requests[i].toolApproval && a == AskOf(requests[i], target)
      invariant forall i :: 0 <= i < k && requests[i].toolApproval ==>
                  AskOf(requests[i], target) in attached && Carries(ledger.rows, requests[i])
    {
      var r := requests[k];
      if !r.toolApproval { continue; }
      var done;
      if r.tool == PERSONAL_SEND {
        done := ledger.AttachPersonal(r.requestId, r.callId, personal(k));
      } else {
        done := ledger.AttachExact(r.requestId, r.callId, r.tool, r.input);
      }
      if !done { return false, attached; }
      ghost var was := attached;
      attached := attached + [AskOf(r, target)];
      assert attached[..|was|] == was;
    }
    ok := true;
  }

  ghost function Withdrawing(t: Table, e: Event): Table {
    Withdraw(t, Withdrawn(t, e), e.now)
  }

  /** The whole event: attaches before the cards are recorded, between recording and withdrawing, and
      after. */
  ghost function Hooks(t: Table, e: Event, before: seq<NewAsk>, between: seq<NewAsk>, after: seq<NewAsk>): Table {
    AttachAll(Withdrawing(AttachAll(RecordAll(AttachAll(t, before), e, e.arrived), between), e), after)
  }

  // ---- The hooks commute ------------------------------------------------------------------

  ghost predicate Consistent(arrived: seq<NewAsk>) {
    forall a, b :: a in arrived && b in arrived && SharesId(a, b) ==> SameAsk(a, b)
  }

  /** An arriving request id stands in no row but its own call's. */
  ghost predicate OwnIds(t: Table, arrived: seq<NewAsk>) {
    forall c, a :: c in t && a in arrived && t[c].requestId == Some(a.requestId) ==> c == a.callId
  }

  lemma FaithfulOwnsIds(t: Table, arrived: seq<NewAsk>)
    requires Faithful(t, arrived)
    ensures Consistent(arrived) && OwnIds(t, arrived)
  {
    forall c, a | c in t && a in arrived && t[c].requestId == Some(a.requestId) ensures c == a.callId {
      var i :| 0 <= i < |arrived| && arrived[i] == a;
      assert Recorded(c, t[c], arrived[i]);
    }
    forall a, b | a in arrived && b in arrived && SharesId(a, b) ensures SameAsk(a, b) {
      var i :| 0 <= i < |arrived| && arrived[i] == a;
      var j :| 0 <= j < |arrived| && arrived[j] == b;
      assert SharesId(arrived[i], arrived[j]);
    }
  }

  predicate Attachable(r: Row, a: NewAsk) {
    r.card.authority.Some? && (r.requestId == None || r.requestId == Some(a.requestId))
  }

  lemma AttachIs(t: Table, arrived: seq<NewAsk>, a: NewAsk)
    requires OwnIds(t, arrived) && a in arrived
    ensures AttachCard(t, a) == (if a.callId in t && Attachable(t[a.callId], a)
                                 then t[a.callId := t[a.callId].(requestId := Some(a.requestId))] else t)
  {
    assert !Claimed(t, a.requestId, a.callId);
  }

  lemma RecordIs(t: Table, arrived: seq<NewAsk>, e: Event, b: NewAsk)
    requires OwnIds(t, arrived) && b in arrived
    ensures RecordCard(t, e, b) ==
            (if b.callId !in t then t[b.callId := Fresh(CardOf(e, b), Some(b.requestId), Some(PlaceOf(e, b)))]
             else if Fillable(t[b.callId]) && t[b.callId].requestId == Some(b.requestId)
             then t[b.callId := t[b.callId].(place := Some(PlaceOf(e, b)))] else t)
  {
    assert !Claimed(t, b.requestId, b.callId);
  }

  lemma AttachKeepsOwnIds(t: Table, arrived: seq<NewAsk>, a: NewAsk)
    requires OwnIds(t, arrived) && Consistent(arrived) && a in arrived
    ensures OwnIds(AttachCard(t, a), arrived)
  {
    AttachIs(t, arrived, a);
    forall b | b in arrived && b.requestId == a.requestId ensures b.callId == a.callId { assert SharesId(a, b); }
  }

  lemma RecordKeepsOwnIds(t: Table, arrived: seq<NewAsk>, e: Event, b: NewAsk)
    requires OwnIds(t, arrived) && Consistent(arrived) && b in arrived
    ensures OwnIds(RecordCard(t, e, b), arrived)
  {
    RecordIs(t, arrived, e, b);
    forall a | a in arrived && b.requestId == a.requestId ensures b.callId == a.callId { assert SharesId(a, b); }
  }

  lemma AttachPassesRecord(t: Table, arrived: seq<NewAsk>, e: Event, a: NewAsk, b: NewAsk)
    requires OwnIds(t, arrived) && Consistent(arrived) && a in arrived && b in arrived
    ensures AttachCard(RecordCard(t, e, b), a) == RecordCard(AttachCard(t, a), e, b)
  {
    AttachIs(t, arrived, a);
    RecordIs(t, arrived, e, b);
    AttachKeepsOwnIds(t, arrived, a);
    RecordKeepsOwnIds(t, arrived, e, b);
    AttachIs(RecordCard(t, e, b), arrived, a);
    RecordIs(AttachCard(t, a), arrived, e, b);
    assert a.callId == b.callId ==> SharesId(a, b) && a.requestId == b.requestId;
  }

  lemma {:induction false} AttachPassesRecordAll(t: Table, arrived: seq<NewAsk>, e: Event, a: NewAsk, some: seq<NewAsk>)
    requires OwnIds(t, arrived) && Consistent(arrived) && a in arrived && Drawn(some, arrived)
    ensures AttachCard(RecordAll(t, e, some), a) == RecordAll(AttachCard(t, a), e, some)
    ensures OwnIds(RecordAll(t, e, some), arrived)
    decreases |some|
  {
    if some != [] {
      var n := |some| - 1;
      AttachPassesRecordAll(t, arrived, e, a, some[..n]);
      AttachPassesRecord(RecordAll(t, e, some[..n]), arrived, e, a, some[n]);
      RecordKeepsOwnIds(RecordAll(t, e, some[..n]), arrived, e, some[n]);
    }
  }

  lemma SameWithdrawn(t: Table, e: Event, a: NewAsk)
    requires OwnIds(t, e.arrived) && a in e.arrived
    ensures Withdrawn(AttachCard(t, a), e) == Withdrawn(t, e) && a.requestId !in Withdrawn(t, e)
  {
    AttachIs(t, e.arrived, a);
    var i :| 0 <= i < |e.arrived| && e.arrived[i] == a;
    assert Arrives(e, a.requestId);
    var u := AttachCard(t, a);
    forall c | c in t ensures Replaced(e, u[c]) <==> Replaced(e, t[c]) {
      if c == a.callId && u != t { assert !Replaced(e, u[c]) && !Replaced(e, t[c]); }
    }
  }

  lemma AttachPassesWithdraw(t: Table, arrived: seq<NewAsk>, a: NewAsk, ids: set<Text>, now: int)
    requires OwnIds(t, arrived) && a in arrived && a.requestId !in ids
    ensures AttachCard(Withdraw(t, ids, now), a) == Withdraw(AttachCard(t, a), ids, now)
    ensures OwnIds(Withdraw(t, ids, now), arrived)
  {
    var u := Withdraw(t, ids, now);
    forall c | c in t ensures u[c].requestId == t[c].requestId && u[c].card == t[c].card {}
    AttachIs(t, arrived, a);
    AttachIs(u, arrived, a);
  }

  lemma {:induction false} AllPassWithdrawing(t: Table, e: Event, xs: seq<NewAsk>)
    requires OwnIds(t, e.arrived) && Consistent(e.arrived) && Drawn(xs, e.arrived)
    ensures AttachAll(Withdrawing(t, e), xs) == Withdrawing(AttachAll(t, xs), e)
    ensures OwnIds(AttachAll(t, xs), e.arrived)
    decreases |xs|
  {
    if xs != [] {
      var n := |xs| - 1;
      AllPassWithdrawing(t, e, xs[..n]);
      var u := AttachAll(t, xs[..n]);
      SameWithdrawn(u, e, xs[n]);
      AttachPassesWithdraw(u, e.arrived, xs[n], Withdrawn(u, e), e.now);
      AttachKeepsOwnIds(u, e.arrived, xs[n]);
    }
  }

  lemma {:induction false} AllPassRecordAll(t: Table, e: Event, xs: seq<NewAsk>)
    requires OwnIds(t, e.arrived) && Consistent(e.arrived) && Drawn(xs, e.arrived)
    ensures AttachAll(RecordAll(t, e, e.arrived), xs) == RecordAll(AttachAll(t, xs), e, e.arrived)
    ensures OwnIds(AttachAll(t, xs), e.arrived)
    decreases |xs|
  {
    if xs != [] {
      var n := |xs| - 1;
      AllPassRecordAll(t, e, xs[..n]);
      AttachPassesRecordAll(AttachAll(t, xs[..n]), e.arrived, e, xs[n], e.arrived);
      AttachKeepsOwnIds(AttachAll(t, xs[..n]), e.arrived, xs[n]);
    }
  }

  lemma {:induction false} AttachAppend(t: Table, xs: seq<NewAsk>, ys: seq<NewAsk>)
    ensures AttachAll(AttachAll(t, xs), ys) == AttachAll(t, xs + ys)
    decreases |ys|
  {
    var n := |ys| - 1;
    if ys == [] {
      assert xs + ys == xs;
    } else {
      assert (xs + ys)[..|xs + ys| - 1] == xs + ys[..n];
      AttachAppend(t, xs, ys[..n]);
    }
  }

  /** Whenever the recording hook attaches its cards, before the superseding hook, in the middle of it
      or after it, the event leaves the ledger as if it had attached them all first. */
  lemma HooksCommute(t: Table, e: Event, before: seq<NewAsk>, between: seq<NewAsk>, after: seq<NewAsk>)
    requires Faithful(t, e.arrived) && Drawn(before + between + after, e.arrived)
    ensures Hooks(t, e, before, between, after) == After(AttachAll(t, before + between + after), e)
  {
    var all := before + between + after;
    assert forall i :: 0 <= i < |before| ==> before[i] == all[i];
    assert forall i :: 0 <= i < |between| ==> between[i] == all[|before| + i];
    assert forall i :: 0 <= i < |after| ==> after[i] == all[|before| + |between| + i];
    FaithfulOwnsIds(t, e.arrived);
    AllPassRecordAll(t, e, before);
    var u := AttachAll(t, before);
    AllPassRecordAll(u, e, between);
    AttachAppend(t, before, between);
    var v := AttachAll(t, before + between);
    assert RecordAll(v, e, e.arrived) == AttachAll(RecordAll(u, e, e.arrived), between);
    RecordedOwnIds(v, e);
    AllPassWithdrawing(RecordAll(v, e, e.arrived), e, after);
    AllPassRecordAll(v, e, after);
    AttachAppend(t, before + between, after);
  }

  lemma RecordedOwnIds(t: Table, e: Event)
    requires OwnIds(t, e.arrived) && Consistent(e.arrived)
    ensures OwnIds(RecordAll(t, e, e.arrived), e.arrived)
  {
    if e.arrived != [] { AttachPassesRecordAll(t, e.arrived, e, e.arrived[0], e.arrived); }
  }
}
