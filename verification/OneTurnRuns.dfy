/** Over whole runs, open cards that nothing tells apart come from one turn, exactly as long as no
    event mixes cards of different turns and no reserved card strands an older one. */
module OneTurnRuns {
  import opened Basics
  import opened CanonicalJson
  import opened Approvals
  import opened Supersede
  import opened RequestedEvents

  // ---- The exact condition, read off the ledger before the event --------------------------

  /** A card this event records at its own turn. */
  predicate NewIn(t: Table, a: NewAsk) {
    a.callId !in t
    || (Fillable(t[a.callId]) && t[a.callId].requestId == Some(a.requestId) && t[a.callId].answer.outcome == None)
  }

  /** A reserved, unanswered card that one of the attaches `xs` opens. */
  predicate OpensReserved(t: Table, xs: seq<NewAsk>, a: NewAsk) {
    && a.callId in t && t[a.callId].requestId == None && t[a.callId].card.authority.Some?
    && t[a.callId].place.Some? && t[a.callId].answer.outcome == None && Names(xs, a.callId)
  }

  /** The arriving card will be open: new, reserved and attached, or open already. */
  predicate Comes(t: Table, xs: seq<NewAsk>, a: NewAsk) {
    NewIn(t, a) || OpensReserved(t, xs, a)
    || (a.callId in t && IsOpen(t[a.callId]) && t[a.callId].requestId == Some(a.requestId))
  }

  /** Where the ledger places it: a card it holds stays where it was raised, with the target it has. */
  function PlaceIn(t: Table, e: Event, a: NewAsk): Place {
    if a.callId in t && t[a.callId].place.Some? then t[a.callId].place.value else PlaceOf(e, a)
  }

  predicate Apart(p: Place, q: Place) {
    p.session == q.session && Compatible(p.target, q.target) && p.turn != q.turn
  }

  /** Two arriving cards of one tool that nothing tells apart, from different turns. */
  predicate Mixing(t: Table, e: Event, xs: seq<NewAsk>, i: int, j: int) {
    && 0 <= i < |e.arrived| && 0 <= j < |e.arrived|
    && Comes(t, xs, e.arrived[i]) && Comes(t, xs, e.arrived[j])
    && e.arrived[i].tool == e.arrived[j].tool
    && Apart(PlaceIn(t, e, e.arrived[i]), PlaceIn(t, e, e.arrived[j]))
  }

  predicate Mixes(t: Table, e: Event, xs: seq<NewAsk>) {
    exists i, j :: 0 <= i < |e.arrived| && 0 <= j < |e.arrived| && Mixing(t, e, xs, i, j)
  }

  /** A reserved card that opens beside an open card its row cannot be told from, from another turn,
      which no arriving ask replaces. */
  predicate Stranding(t: Table, e: Event, xs: seq<NewAsk>, i: int, d: Text) {
    && 0 <= i < |e.arrived| && OpensReserved(t, xs, e.arrived[i])
    && d in t && IsOpen(t[d]) && !Arrives(e, t[d].requestId.value) && t[d].card.tool == e.arrived[i].tool
    && Apart(t[e.arrived[i].callId].place.value, t[d].place.value)
    && !Replaced(e, t[d])
  }

  predicate Strands(t: Table, e: Event, xs: seq<NewAsk>) {
    exists i, d :: 0 <= i < |e.arrived| && d in t && Stranding(t, e, xs, i, d)
  }

  /** No card of the session comes from a later turn than this event. */
  ghost predicate UpTo(t: Table, session: Text, turn: nat) {
    forall c :: c in t && t[c].place.Some? && t[c].place.value.session == session ==> t[c].place.value.turn <= turn
  }

  /** For a card reserved in this very turn, as reservations are written, the stranded card is an
      older listed one of the same tool whose stored target differs from that of every arriving ask
      of the tool: the asks are told apart from it, the row without a target is not. */
  lemma StrandingMeans(t: Table, e: Event, xs: seq<NewAsk>, i: int, d: Text)
    requires 0 <= i < |e.arrived| && OpensReserved(t, xs, e.arrived[i])
    requires t[e.arrived[i].callId].place == Some(Place(e.session, e.turn, None))
    requires UpTo(t, e.session, e.turn)
    ensures Stranding(t, e, xs, i, d) <==>
            && d in t && Listed(e, t[d]) && t[d].card.tool == e.arrived[i].tool && t[d].place.value.turn < e.turn
            && forall k :: 0 <= k < |e.arrived| && e.arrived[k].tool == t[d].card.tool ==>
                 e.arrived[k].target.Some? && t[d].place.value.target.Some? && e.arrived[k].target != t[d].place.value.target
  {
    if d in t && Listed(e, t[d]) && t[d].card.tool == e.arrived[i].tool && t[d].place.value.turn < e.turn {
      forall k | 0 <= k < |e.arrived|
        ensures Replaces(e.arrived[k], e.turn, AsOpen(t[d])) <==>
                e.arrived[k].tool == t[d].card.tool && Compatible(t[d].place.value.target, e.arrived[k].target)
      {
      }
    }
  }

  // ---- What attaching first leaves --------------------------------------------------------

  predicate AttachedRow(xs: seq<NewAsk>, c: Text, r: Row, s: Row) {
    || s == r
    || (r.card.authority.Some? && r.requestId == None && exists k :: 0 <= k < |xs| && xs[k].callId == c && s == r.(requestId := Some(xs[k].requestId)))
  }

  /** Attaching changes nothing but the request ids of reserved rows, and opens each row named. */
  ghost predicate AttachedTable(t: Table, xs: seq<NewAsk>, u: Table) {
    && u.Keys == t.Keys
    && (forall c :: c in t ==> AttachedRow(xs, c, t[c], u[c]))
    && (forall k :: 0 <= k < |xs| && xs[k].callId in t && t[xs[k].callId].card.authority.Some? ==> u[xs[k].callId].requestId.Some?)
  }

  lemma AttachedMore(t: Table, xs: seq<NewAsk>, u: Table, a: NewAsk, arrived: seq<NewAsk>)
    requires AttachedTable(t, xs, u) && OwnIds(u, arrived) && a in arrived
    ensures AttachedTable(t, xs + [a], AttachCard(u, a))
  {
    AttachIs(u, arrived, a);
    var all, w := xs + [a], AttachCard(u, a);
    assert all[|xs|] == a && forall k :: 0 <= k < |xs| ==> all[k] == xs[k];
    forall c | c in t ensures AttachedRow(all, c, t[c], w[c]) {
      if u[c] != t[c] {
        var k :| 0 <= k < |xs| && xs[k].callId == c && u[c] == t[c].(requestId := Some(xs[k].requestId));
        assert all[k].callId == c;
      }
    }
    forall k | 0 <= k < |all| && all[k].callId in t && t[all[k].callId].card.authority.Some?
      ensures w[all[k].callId].requestId.Some?
    {
      assert AttachedRow(xs, all[k].callId, t[all[k].callId], u[all[k].callId]);
    }
  }

  lemma {:induction false} AttachAllIs(t: Table, e: Event, xs: seq<NewAsk>)
    requires Faithful(t, e.arrived) && Drawn(xs, e.arrived)
    ensures AttachedTable(t, xs, AttachAll(t, xs))
    decreases |xs|
  {
    if xs != [] {
      var n := |xs| - 1;
      AttachAllIs(t, e, xs[..n]);
      FaithfulOwnsIds(t, e.arrived);
      AllPassRecordAll(t, e, xs[..n]);
      AttachedMore(t, xs[..n], AttachAll(t, xs[..n]), xs[n], e.arrived);
      assert xs[..n] + [xs[n]] == xs;
    }
  }

  lemma RowStaysRecorded(t: Table, arrived: seq<NewAsk>, xs: seq<NewAsk>, c: Text, s: Row, i: int)
    requires Faithful(t, arrived) && Drawn(xs, arrived) && c in t && AttachedRow(xs, c, t[c], s) && 0 <= i < |arrived|
    requires c == arrived[i].callId || s.requestId == Some(arrived[i].requestId)
    ensures Recorded(c, s, arrived[i])
  {
    if s == t[c] {
      assert Recorded(c, t[c], arrived[i]);
    } else {
      var k :| 0 <= k < |xs| && xs[k].callId == c && s == t[c].(requestId := Some(xs[k].requestId));
      var j :| 0 <= j < |arrived| && arrived[j] == xs[k];
      assert SharesId(arrived[j], arrived[i]);
      assert Recorded(c, t[c], arrived[i]);
    }
  }

  lemma AttachedStaysFaithful(t: Table, e: Event, xs: seq<NewAsk>)
    requires Faithful(t, e.arrived) && Drawn(xs, e.arrived)
    ensures Faithful(AttachAll(t, xs), e.arrived)
  {
    AttachAllIs(t, e, xs);
    var u := AttachAll(t, xs);
    forall c, i | c in u && 0 <= i < |e.arrived| && (c == e.arrived[i].callId || u[c].requestId == Some(e.arrived[i].requestId))
      ensures Recorded(c, u[c], e.arrived[i])
    {
      RowStaysRecorded(t, e.arrived, xs, c, u[c], i);
    }
  }

  /** An arriving card's row before the event, once attached, and once recorded. */
  ghost predicate RowHistory(t: Table, u: Table, e: Event, xs: seq<NewAsk>, a: NewAsk, z: Row) {
    && (a.callId in t <==> a.callId in u) && IsStored(u, e, a, z)
    && (a.callId in t ==>
          && Recorded(a.callId, t[a.callId], a) && Recorded(a.callId, u[a.callId], a)
          && AttachedRow(xs, a.callId, t[a.callId], u[a.callId])
          && (u[a.callId] == t[a.callId] || u[a.callId].requestId == Some(a.requestId))
          && (Names(xs, a.callId) && t[a.callId].card.authority.Some? ==> u[a.callId].requestId.Some?))
  }

  lemma HistoryOf(t: Table, e: Event, xs: seq<NewAsk>, i: int)
    requires Faithful(t, e.arrived) && Drawn(xs, e.arrived) && 0 <= i < |e.arrived|
    ensures var a, u := e.arrived[i], AttachAll(t, xs);
            var t1 := RecordAll(u, e, e.arrived);
            a.callId in t1 && RowHistory(t, u, e, xs, a, t1[a.callId])
  {
    var a, u := e.arrived[i], AttachAll(t, xs);
    AttachAllIs(t, e, xs);
    AttachedStaysFaithful(t, e, xs);
    AllRecorded(u, e, e.arrived);
    FaithfulOwnsIds(t, e.arrived);
    var t1 := RecordAll(u, e, e.arrived);
    assert Explained(u, e, e.arrived, a.callId, t1[a.callId]);
    if a.callId in t {
      assert Recorded(a.callId, t[a.callId], a) && Recorded(a.callId, u[a.callId], a);
      AttachedAs(e, xs, t[a.callId], u[a.callId], a);
    }
  }

  /** A call that is attached gets the id it arrives with. */
  lemma AttachedAs(e: Event, xs: seq<NewAsk>, r: Row, s: Row, a: NewAsk)
    requires Drawn(xs, e.arrived) && a in e.arrived && AttachedRow(xs, a.callId, r, s)
    requires forall b, c :: b in e.arrived && c in e.arrived && SharesId(b, c) ==> SameAsk(b, c)
    ensures s == r || s.requestId == Some(a.requestId)
  {
    if s != r {
      var k :| 0 <= k < |xs| && xs[k].callId == a.callId && s == r.(requestId := Some(xs[k].requestId));
      assert SharesId(xs[k], a);
    }
  }

  lemma HistoryComes(t: Table, u: Table, e: Event, xs: seq<NewAsk>, a: NewAsk, z: Row)
    requires RowHistory(t, u, e, xs, a, z)
    ensures Comes(t, xs, a) <==> IsOpen(z) && z.requestId == Some(a.requestId)
    ensures Comes(t, xs, a) ==> z.card.tool == a.tool && z.place.value == PlaceIn(t, e, a)
  {
    if a.callId in t && u[a.callId] != t[a.callId] {
      var k :| 0 <= k < |xs| && xs[k].callId == a.callId;
      assert Names(xs, a.callId);
    }
  }

  /** The row the ledger holds for an arriving card once everything is attached and recorded. */
  lemma ArrivingRow(t: Table, e: Event, xs: seq<NewAsk>, i: int)
    requires Faithful(t, e.arrived) && Drawn(xs, e.arrived) && 0 <= i < |e.arrived|
    ensures var a, t1 := e.arrived[i], RecordAll(AttachAll(t, xs), e, e.arrived);
            && a.callId in t1
            && (Comes(t, xs, a) <==> IsOpen(t1[a.callId]) && t1[a.callId].requestId == Some(a.requestId))
            && (Comes(t, xs, a) ==> t1[a.callId].card.tool == a.tool && t1[a.callId].place.value == PlaceIn(t, e, a))
  {
    var a, u := e.arrived[i], AttachAll(t, xs);
    HistoryOf(t, e, xs, i);
    HistoryComes(t, u, e, xs, a, RecordAll(u, e, e.arrived)[a.callId]);
  }

  /** Open cards that do not arrive are those the ledger held, and they stay for the withdrawal. */
  lemma OtherRow(t: Table, e: Event, xs: seq<NewAsk>, c: Text)
    requires Faithful(t, e.arrived) && Drawn(xs, e.arrived)
    ensures var t1 := RecordAll(AttachAll(t, xs), e, e.arrived);
            && (c in t1 && IsOpen(t1[c]) && !Arrives(e, t1[c].requestId.value) ==> c in t && t1[c] == t[c])
            && (c in t && IsOpen(t[c]) && !Arrives(e, t[c].requestId.value) ==> c in t1 && t1[c] == t[c])
  {
    var u := AttachAll(t, xs);
    AttachAllIs(t, e, xs);
    AttachedStaysFaithful(t, e, xs);
    AllRecorded(u, e, e.arrived);
    var t1 := RecordAll(u, e, e.arrived);
    if c in t1 && IsOpen(t1[c]) && !Arrives(e, t1[c].requestId.value) {
      OthersKept(u, e, e.arrived, c);
      NotAttached(t, e, xs, c);
    }
    if c in t && IsOpen(t[c]) && !Arrives(e, t[c].requestId.value) {
      assert AttachedRow(xs, c, t[c], u[c]);
      assert Explained(u, e, e.arrived, c, t1[c]);
      if Names(e.arrived, c) {
        var i :| 0 <= i < |e.arrived| && e.arrived[i].callId == c;
        assert IsStored(u, e, e.arrived[i], t1[c]);
      }
    }
  }

  lemma NotAttached(t: Table, e: Event, xs: seq<NewAsk>, c: Text)
    requires Drawn(xs, e.arrived) && AttachedTable(t, xs, AttachAll(t, xs))
    requires var u := AttachAll(t, xs); c in u && u[c].requestId.Some? && !Arrives(e, u[c].requestId.value)
    ensures c in t && AttachAll(t, xs)[c] == t[c]
  {
    AttachedArrives(e, xs, c, t[c], AttachAll(t, xs)[c]);
  }

  lemma AttachedArrives(e: Event, xs: seq<NewAsk>, c: Text, r: Row, s: Row)
    requires Drawn(xs, e.arrived) && AttachedRow(xs, c, r, s)
    ensures s == r || (s.requestId.Some? && Arrives(e, s.requestId.value))
  {
    if s != r {
      var k :| 0 <= k < |xs| && xs[k].callId == c && s == r.(requestId := Some(xs[k].requestId));
      var j :| 0 <= j < |e.arrived| && e.arrived[j] == xs[k];
      assert Arrives(e, xs[k].requestId);
    }
  }

  // ---- One event --------------------------------------------------------------------------

  /** An open row that arrives is some arriving card's. */
  lemma ArrivingIndex(t: Table, e: Event, xs: seq<NewAsk>, c: Text) returns (i: int)
    requires Faithful(t, e.arrived) && Drawn(xs, e.arrived)
    requires var t1 := RecordAll(AttachAll(t, xs), e, e.arrived); c in t1 && ArrivingCard(e, t1[c])
    ensures 0 <= i < |e.arrived| && e.arrived[i].callId == c
    ensures RecordAll(AttachAll(t, xs), e, e.arrived)[c].requestId == Some(e.arrived[i].requestId)
  {
    var u := AttachAll(t, xs);
    var t1 := RecordAll(u, e, e.arrived);
    AttachedStaysFaithful(t, e, xs);
    FaithfulOwnsIds(u, e.arrived);
    RecordedOwnIds(u, e);
    i :| 0 <= i < |e.arrived| && e.arrived[i].requestId == t1[c].requestId.value;
  }

  lemma MixingDisagrees(t: Table, e: Event, xs: seq<NewAsk>)
    requires Faithful(t, e.arrived) && Drawn(xs, e.arrived) && Mixes(t, e, xs)
    ensures !ArrivalsAgree(RecordAll(AttachAll(t, xs), e, e.arrived), e)
  {
    var t1 := RecordAll(AttachAll(t, xs), e, e.arrived);
    var i, j :| 0 <= i < |e.arrived| && 0 <= j < |e.arrived| && Mixing(t, e, xs, i, j);
    var c, d := e.arrived[i].callId, e.arrived[j].callId;
    ArrivingRow(t, e, xs, i);
    ArrivingRow(t, e, xs, j);
    assert ArrivingCard(e, t1[c]) && ArrivingCard(e, t1[d]);
    ArrivingStays(t1, e, d);
    assert Rivals(t1[c], t1[d]) && !SameTurn(t1[c], t1[d]);
  }

  /** With unique request ids, a row's id is withdrawn exactly when the row is replaced. */
  lemma WithdrawnIsReplaced(t: Table, e: Event, d: Text)
    requires Sound(t) && d in t && IsOpen(t[d])
    ensures t[d].requestId.value in Withdrawn(t, e) <==> Replaced(e, t[d])
  {
  }

  lemma StrandingDisagrees(t: Table, e: Event, xs: seq<NewAsk>)
    requires Sound(t) && Faithful(t, e.arrived) && Drawn(xs, e.arrived) && Strands(t, e, xs)
    ensures !ArrivalsAgree(RecordAll(AttachAll(t, xs), e, e.arrived), e)
  {
    var t1 := RecordAll(AttachAll(t, xs), e, e.arrived);
    var i, d :| 0 <= i < |e.arrived| && d in t && Stranding(t, e, xs, i, d);
    var c := e.arrived[i].callId;
    ArrivingRow(t, e, xs, i);
    OtherRow(t, e, xs, d);
    EventSound(t, e, xs);
    WithdrawnIsReplaced(t1, e, d);
    assert ArrivingCard(e, t1[c]);
    assert Rivals(t1[c], t1[d]) && !SameTurn(t1[c], t1[d]);
  }

  lemma ArrivalDisagrees(t: Table, e: Event, xs: seq<NewAsk>, c: Text, d: Text)
    requires Faithful(t, e.arrived) && Drawn(xs, e.arrived) && OneTurn(t) && UpTo(t, e.session, e.turn)
    requires var t1 := RecordAll(AttachAll(t, xs), e, e.arrived);
             && c in t1 && d in t1 && ArrivingCard(e, t1[c]) && Rivals(t1[c], t1[d]) && !SameTurn(t1[c], t1[d])
             && !Replaced(e, t1[d])
    ensures Mixes(t, e, xs) || Strands(t, e, xs)
  {
    var t1 := RecordAll(AttachAll(t, xs), e, e.arrived);
    var i := ArrivingIndex(t, e, xs, c);
    ArrivingRow(t, e, xs, i);
    if ArrivingCard(e, t1[d]) {
      var j := ArrivingIndex(t, e, xs, d);
      ArrivingRow(t, e, xs, j);
      assert Mixing(t, e, xs, i, j);
    } else {
      OtherRow(t, e, xs, d);
      NewReplaces(t, e, e.arrived[i], i, d);
      assert c in t && IsOpen(t[c]) ==> Rivals(t[c], t[d]);
      assert Stranding(t, e, xs, i, d);
    }
  }

  /** A card recorded at this turn replaces every older one its place cannot be told from. */
  lemma NewReplaces(t: Table, e: Event, a: NewAsk, i: int, d: Text)
    requires 0 <= i < |e.arrived| && e.arrived[i] == a && UpTo(t, e.session, e.turn)
    requires d in t && IsOpen(t[d]) && !Arrives(e, t[d].requestId.value) && t[d].card.tool == a.tool
    requires Apart(PlaceIn(t, e, a), t[d].place.value)
    ensures NewIn(t, a) ==> Replaced(e, t[d])
  {
    if NewIn(t, a) { assert Replaces(e.arrived[i], e.turn, AsOpen(t[d])); }
  }

  /** With turns that do not go back, an event with all its attaches, wherever they fall, leaves every
      two open cards of one session and tool that nothing tells apart in one turn, exactly unless it
      mixes arriving cards of different turns or a reserved card strands an older one. */
  lemma OneTurnExactly(t: Table, e: Event, before: seq<NewAsk>, between: seq<NewAsk>, after: seq<NewAsk>)
    requires Sound(t) && OneTurn(t) && UpTo(t, e.session, e.turn)
    requires Faithful(t, e.arrived) && Drawn(before + between + after, e.arrived)
    ensures var xs := before + between + after;
            OneTurn(Hooks(t, e, before, between, after)) <==> !Mixes(t, e, xs) && !Strands(t, e, xs)
  {
    var xs := before + between + after;
    HooksCommute(t, e, before, between, after);
    var u := AttachAll(t, xs);
    var t1 := RecordAll(u, e, e.arrived);
    OthersStillAgree(t, e, xs);
    OneTurnAfter(u, e);
    if Mixes(t, e, xs) {
      MixingDisagrees(t, e, xs);
    } else if Strands(t, e, xs) {
      StrandingDisagrees(t, e, xs);
    } else {
      forall c, d | c in t1 && d in t1 && ArrivingCard(e, t1[c]) && Rivals(t1[c], t1[d]) && !SameTurn(t1[c], t1[d])
        ensures t1[d].requestId.value in Withdrawn(t1, e)
      {
        if !Replaced(e, t1[d]) { ArrivalDisagrees(t, e, xs, c, d); }
      }
    }
  }

  lemma OthersStillAgree(t: Table, e: Event, xs: seq<NewAsk>)
    requires OneTurn(t) && Faithful(t, e.arrived) && Drawn(xs, e.arrived)
    ensures OthersAgree(AttachAll(t, xs), e)
  {
    var u := AttachAll(t, xs);
    AttachAllIs(t, e, xs);
    forall c, d | c in u && d in u && Rivals(u[c], u[d]) && !ArrivingCard(e, u[c]) && !ArrivingCard(e, u[d])
      ensures SameTurn(u[c], u[d])
    {
      NotAttached(t, e, xs, c);
      NotAttached(t, e, xs, d);
    }
  }

  // ---- It does happen ---------------------------------------------------------------------

  function OlderCard(target: Option<Text>): Row {
    Fresh(Card([], [7], [], 0, None, None), Some([1]), Some(Place([5], 1, target)))
  }

  /** A row as a reservation in turn 2 writes it. */
  function ReservedCard(r: Reservation): Row {
    Fresh(Card([], [7], [], 0, Some(r), Some([9])), None, Some(Place([5], 2, None)))
  }

  function ReturningAsk(): NewAsk {
    NewAsk([1], [1], [7], [], None)
  }

  function NewerAsk(target: Option<Text>): NewAsk {
    NewAsk([2], [2], [7], [], target)
  }

  lemma ExamplesDiffer(a: Text, b: Text)
    requires |a| == 1 && |b| == 1 && a[0] != b[0]
    ensures a != b
  {
  }

  lemma MixedIsFaithful(t: Table, e: Event)
    requires t == map[[1] := OlderCard(None)] && e == Event([5], 2, [], 0, [ReturningAsk(), NewerAsk(None)])
    ensures Sound(t) && OneTurn(t) && UpTo(t, [5], 2) && Faithful(t, e.arrived)
  {
    ExamplesDiffer([1], [2]);
    ExamplesDiffer([3], [4]);
    assert !SharesId(e.arrived[0], e.arrived[1]) && !SharesId(e.arrived[1], e.arrived[0]);
    assert Recorded([1], t[[1]], e.arrived[0]);
  }

  /** A card of turn 1 that arrives again in turn 2 beside a new card for the same tool stays open, and
      so both are open at once. */
  lemma MixedEventLeavesBoth(t: Table, e: Event)
    requires t == map[[1] := OlderCard(None)] && e == Event([5], 2, [], 0, [ReturningAsk(), NewerAsk(None)])
    ensures Sound(t) && OneTurn(t) && UpTo(t, [5], 2) && Faithful(t, e.arrived) && !OneTurn(Hooks(t, e, [], [], []))
  {
    ExamplesDiffer([1], [2]);
    ExamplesDiffer([3], [4]);
    MixedIsFaithful(t, e);
    var none: seq<NewAsk> := [];
    assert none + none + none == none;
    assert Mixing(t, e, none, 0, 1);
    OneTurnExactly(t, e, none, none, none);
  }

  lemma StrandedIsFaithful(t: Table, e: Event, r: Reservation)
    requires t == map[[1] := OlderCard(Some([3])), [2] := ReservedCard(r)]
    requires e == Event([5], 2, [], 0, [NewerAsk(Some([4]))])
    ensures Sound(t) && OneTurn(t) && UpTo(t, [5], 2) && Faithful(t, e.arrived)
  {
    ExamplesDiffer([1], [2]);
    ExamplesDiffer([3], [4]);
    assert Recorded([2], t[[2]], e.arrived[0]);
  }

  lemma ExampleStrands(t: Table, e: Event, r: Reservation)
    requires t == map[[1] := OlderCard(Some([3])), [2] := ReservedCard(r)]
    requires e == Event([5], 2, [], 0, [NewerAsk(Some([4]))])
    ensures Strands(t, e, e.arrived)
  {
    ExamplesDiffer([1], [2]);
    ExamplesDiffer([3], [4]);
    var xs := e.arrived;
    assert xs[0].callId == [2] && Names(xs, [2]) && OpensReserved(t, xs, xs[0]);
    assert !Replaces(xs[0], 2, AsOpen(t[[1]]));
    assert Stranding(t, e, xs, 0, [1]);
  }

  /** A card reserved in turn 2 for one target, and an open card of turn 1 for another: the ask does
      not replace the older card, but the reserved row shows no target to tell them apart. In either
      order of the hooks both are open at once. */
  lemma StrandedEventLeavesBoth(t: Table, e: Event, r: Reservation)
    requires t == map[[1] := OlderCard(Some([3])), [2] := ReservedCard(r)]
    requires e == Event([5], 2, [], 0, [NewerAsk(Some([4]))])
    ensures Sound(t) && OneTurn(t) && UpTo(t, [5], 2) && Faithful(t, e.arrived)
    ensures !OneTurn(Hooks(t, e, e.arrived, [], [])) && !OneTurn(Hooks(t, e, [], [], e.arrived))
  {
    StrandedIsFaithful(t, e, r);
    ExampleStrands(t, e, r);
    var none: seq<NewAsk>, xs := [], e.arrived;
    assert xs + none + none == xs && none + none + xs == xs;
    OneTurnExactly(t, e, xs, none, none);
    OneTurnExactly(t, e, none, none, xs);
  }

  // ---- Over whole runs --------------------------------------------------------------------

  /** An event with its attaches, or any other writer's statement. */
  datatype Step =
    | Arrive(event: Event, before: seq<NewAsk>, between: seq<NewAsk>, after: seq<NewAsk>)
    | Write(statement: Statement)

  /** Only events open cards of a session: their hooks fill places and attach request ids. */
  predicate OpensNothing(s: Statement) {
    match s
    case Insert(_, row) => row.place == None || row.requestId == None
    case Change(u) => !u.FillPlace? && !u.Attach?
  }

  ghost function Take(t: Table, s: Step): Table {
    match s
    case Arrive(e, p, q, r) => Hooks(t, e, p, q, r)
    case Write(w) => Exec(t, w)
  }

  ghost function TakeAll(t: Table, steps: seq<Step>): Table
    decreases |steps|
  {
    if steps == [] then t else TakeAll(Take(t, steps[0]), steps[1..])
  }

  /** Turns do not go back, ids name one card, and the attaches are of arriving cards. */
  ghost predicate Regular(t: Table, steps: seq<Step>)
    decreases |steps|
  {
    steps == [] || (
      && (match steps[0]
          case Arrive(e, p, q, r) => UpTo(t, e.session, e.turn) && Faithful(t, e.arrived) && Drawn(p + q + r, e.arrived)
          case Write(w) => Issued(w) && OpensNothing(w))
      && Regular(Take(t, steps[0]), steps[1..]))
  }

  /** No event mixes or strands. */
  ghost predicate Untangled(t: Table, steps: seq<Step>)
    decreases |steps|
  {
    steps == [] || (
      && (match steps[0]
          case Arrive(e, p, q, r) => !Mixes(t, e, p + q + r) && !Strands(t, e, p + q + r)
          case Write(w) => true)
      && Untangled(Take(t, steps[0]), steps[1..]))
  }

  /** The invariant in every state of the run. */
  ghost predicate AlwaysOneTurn(t: Table, steps: seq<Step>)
    decreases |steps|
  {
    OneTurn(t) && (steps == [] || AlwaysOneTurn(Take(t, steps[0]), steps[1..]))
  }

  predicate OpenAsBefore(r: Row, s: Row) {
    IsOpen(s) ==> IsOpen(r) && s.place == r.place && s.card == r.card
  }

  lemma WriteKeepsOneTurn(t: Table, w: Statement)
    requires OneTurn(t) && OpensNothing(w)
    ensures OneTurn(Exec(t, w))
  {
    var u := Exec(t, w);
    forall c | c in u && IsOpen(u[c]) ensures c in t && OpenAsBefore(t[c], u[c]) {
      if w.Change? && Matches(w.update, c, t[c]) { AssignedOpens(w.update, t[c]); }
    }
  }

  lemma AssignedOpens(u: Update, r: Row)
    requires !u.FillPlace? && !u.Attach?
    ensures OpenAsBefore(r, Assigned(u, r))
  {
  }

  /** Over any run of events, attaches and other writers the invariant holds in every state exactly
      when no event of the run mixes or strands. */
  lemma {:induction false} OneTurnOverRuns(t: Table, steps: seq<Step>)
    requires Sound(t) && OneTurn(t) && Regular(t, steps)
    ensures AlwaysOneTurn(t, steps) <==> Untangled(t, steps)
    decreases |steps|
  {
    if steps != [] {
      var u := Take(t, steps[0]);
      match steps[0] {
        case Arrive(e, p, q, r) =>
          OneTurnExactly(t, e, p, q, r);
          HooksCommute(t, e, p, q, r);
          EventSound(t, e, p + q + r);
        case Write(w) =>
          WriteKeepsOneTurn(t, w);
          StatementAdvances(t, w);
      }
      if OneTurn(u) { OneTurnOverRuns(u, steps[1..]); }
    }
  }

  // ---- A withdrawn card never runs --------------------------------------------------------

  lemma {:induction false} RecordAllSound(t: Table, e: Event, arrived: seq<NewAsk>)
    requires Sound(t)
    ensures Sound(RecordAll(t, e, arrived))
    decreases |arrived|
  {
    if arrived != [] {
      var n := |arrived| - 1;
      var a, u := arrived[n], RecordAll(t, e, arrived[..n]);
      RecordAllSound(t, e, arrived[..n]);
      var insert := Insert(a.callId, Fresh(CardOf(e, a), Some(a.requestId), Some(PlaceOf(e, a))));
      StatementAdvances(u, insert);
      StatementAdvances(Exec(u, insert), Change(FillPlace(a.requestId, PlaceOf(e, a))));
    }
  }

  lemma WithdrawSound(t: Table, ids: set<Text>, now: int)
    requires Sound(t)
    ensures Sound(Withdraw(t, ids, now))
  {
    forall c | c in t ensures RowSound(WithdrawRow(t[c], ids, now)) && WithdrawRow(t[c], ids, now).requestId == t[c].requestId {
      assert RowSound(t[c]);
    }
  }

  lemma {:induction false} AttachAllSound(t: Table, xs: seq<NewAsk>)
    requires Sound(t)
    ensures Sound(AttachAll(t, xs))
    decreases |xs|
  {
    if xs != [] {
      var n := |xs| - 1;
      AttachAllSound(t, xs[..n]);
      StatementAdvances(AttachAll(t, xs[..n]), Change(Attach(xs[n].callId, xs[n].requestId)));
    }
  }

  lemma EventSound(t: Table, e: Event, xs: seq<NewAsk>)
    requires Sound(t)
    ensures Sound(RecordAll(AttachAll(t, xs), e, e.arrived)) && Sound(After(AttachAll(t, xs), e))
  {
    AttachAllSound(t, xs);
    RecordAllSound(AttachAll(t, xs), e, e.arrived);
    var t1 := RecordAll(AttachAll(t, xs), e, e.arrived);
    WithdrawSound(t1, Withdrawn(t1, e), e.now);
  }

  predicate IsRevised(r: Row) {
    r.answer.outcome == Some(Cancelled) && r.answer.via == Some(REVISED)
  }

  lemma ReplacedIsCancelled(t: Table, e: Event, c: Text)
    requires c in t && Replaced(e, t[c])
    ensures c in Withdraw(t, Withdrawn(t, e), e.now)
    ensures IsRevised(Withdraw(t, Withdrawn(t, e), e.now)[c])
  {
    assert t[c].requestId.value in Withdrawn(t, e);
  }

  /** An open card that some arriving ask replaces is withdrawn wherever the attaches fall; it stays
      cancelled as revised, and no call passes or executes on it in any later state, whatever any
      writer does, at any time and for any arguments. */
  lemma SupersededNeverPasses(t: Table, e: Event, before: seq<NewAsk>, between: seq<NewAsk>, after: seq<NewAsk>,
                              c: Text, run: seq<Statement>, tool: Text, input: Json, now: int, ttl: int)
    requires Sound(t) && Faithful(t, e.arrived) && Drawn(before + between + after, e.arrived)
    requires c in t && Replaced(e, t[c])
    requires forall i :: 0 <= i < |run| ==> Issued(run[i])
    ensures var u := ExecAll(Hooks(t, e, before, between, after), run);
            && c in u && IsRevised(u[c]) && Judge(u[c], tool, input, now, ttl) != Pass
            && forall member :: !MayExecute(u[c], tool, input, member, now)
  {
    var xs := before + between + after;
    HooksCommute(t, e, before, between, after);
    OtherRow(t, e, xs, c);
    EventSound(t, e, xs);
    ReplacedIsCancelled(RecordAll(AttachAll(t, xs), e, e.arrived), e, c);
    CancelledStays(After(AttachAll(t, xs), e), run, c, tool, input, now, ttl);
  }

  lemma CancelledStays(t: Table, run: seq<Statement>, c: Text, tool: Text, input: Json, now: int, ttl: int)
    requires Sound(t) && c in t && IsRevised(t[c])
    requires forall i :: 0 <= i < |run| ==> Issued(run[i])
    ensures var u := ExecAll(t, run);
            && c in u && IsRevised(u[c]) && Judge(u[c], tool, input, now, ttl) != Pass
            && forall member :: !MayExecute(u[c], tool, input, member, now)
  {
    RunAdvances(t, run);
  }

  /** The rule, written out: an open card that does not arrive is withdrawn exactly when the event is
      of its session and some arriving card has its tool, comes from a later turn, and does not differ
      from it in target where both have one. Otherwise the event leaves it as it was. */
  lemma WithdrawnExactly(t: Table, e: Event, before: seq<NewAsk>, between: seq<NewAsk>, after: seq<NewAsk>, c: Text)
    requires Sound(t) && Faithful(t, e.arrived) && Drawn(before + between + after, e.arrived)
    requires c in t && t[c].place.Some? && t[c].requestId.Some? && t[c].answer.outcome == None
    requires forall i :: 0 <= i < |e.arrived| ==> t[c].requestId.value != e.arrived[i].requestId
    ensures var u := Hooks(t, e, before, between, after);
            && c in u
            && (IsRevised(u[c]) <==> e.session == t[c].place.value.session && exists i :: 0 <= i < |e.arrived| && Supplants(e.arrived[i], e.turn, t[c]))
            && (!IsRevised(u[c]) ==> u[c] == t[c])
  {
    var xs := before + between + after;
    var t1 := RecordAll(AttachAll(t, xs), e, e.arrived);
    HooksCommute(t, e, before, between, after);
    OtherRow(t, e, xs, c);
    EventSound(t, e, xs);
    WithdrawalTells(t1, e, c);
    ReplacedMeans(e, t[c]);
  }

  lemma WithdrawalTells(t: Table, e: Event, c: Text)
    requires Sound(t) && c in t && IsOpen(t[c])
    ensures var u := Withdraw(t, Withdrawn(t, e), e.now);
            c in u && (IsRevised(u[c]) <==> Replaced(e, t[c])) && (!IsRevised(u[c]) ==> u[c] == t[c])
  {
    WithdrawnIsReplaced(t, e, c);
    RowTells(t[c], Withdrawn(t, e), e.now);
  }

  lemma RowTells(r: Row, ids: set<Text>, now: int)
    requires IsOpen(r)
    ensures IsRevised(WithdrawRow(r, ids, now)) <==> r.requestId.value in ids
    ensures !IsRevised(WithdrawRow(r, ids, now)) ==> WithdrawRow(r, ids, now) == r
  {
  }

  predicate Supplants(a: NewAsk, turn: nat, r: Row)
    requires r.place.Some?
  {
    && a.tool == r.card.tool && r.place.value.turn < turn
    && (a.target.Some? && r.place.value.target.Some? ==> a.target == r.place.value.target)
  }

  lemma ReplacedMeans(e: Event, r: Row)
    requires IsOpen(r) && !Arrives(e, r.requestId.value)
    ensures Replaced(e, r) <==> e.session == r.place.value.session && exists i :: 0 <= i < |e.arrived| && Supplants(e.arrived[i], e.turn, r)
  {
    forall i | 0 <= i < |e.arrived| ensures Supplants(e.arrived[i], e.turn, r) <==> Replaces(e.arrived[i], e.turn, AsOpen(r)) {}
  }

  /** An event answers no other card: not one that arrives, and not one answered already. */
  lemma OthersUnanswered(t: Table, e: Event, before: seq<NewAsk>, between: seq<NewAsk>, after: seq<NewAsk>, c: Text)
    requires Sound(t) && Faithful(t, e.arrived) && Drawn(before + between + after, e.arrived)
    requires c in t && (t[c].answer.outcome.Some? || (t[c].requestId.Some? && Arrives(e, t[c].requestId.value)))
    ensures var u := Hooks(t, e, before, between, after); c in u && u[c].answer == t[c].answer
  {
    var xs := before + between + after;
    HooksCommute(t, e, before, between, after);
    var u0, t1 := AttachAll(t, xs), RecordAll(AttachAll(t, xs), e, e.arrived);
    AttachAllIs(t, e, xs);
    AnswersKept(u0, e, e.arrived, c);
    IdsKept(u0, e, e.arrived, c);
    assert AttachedRow(xs, c, t[c], u0[c]);
  }

  lemma {:induction false} AnswersKept(t: Table, e: Event, arrived: seq<NewAsk>, c: Text)
    requires c in t
    ensures c in RecordAll(t, e, arrived) && RecordAll(t, e, arrived)[c].answer == t[c].answer
    decreases |arrived|
  {
    if arrived != [] { AnswersKept(t, e, arrived[..|arrived| - 1], c); }
  }

  lemma {:induction false} IdsKept(t: Table, e: Event, arrived: seq<NewAsk>, c: Text)
    requires c in t
    ensures c in RecordAll(t, e, arrived) && RecordAll(t, e, arrived)[c].requestId == t[c].requestId
    decreases |arrived|
  {
    if arrived != [] { IdsKept(t, e, arrived[..|arrived| - 1], c); }
  }
}
