/** Validation of a conversation's retained Vault sources together with a new request, and what it
    means for the transaction it runs in. */
module VaultSources {
  import opened Basics
  import opened SourceTransaction

  datatype Capture = Capture(areaId: string, revision: nat, definitionHash: string, validUntil: Option<int>)

  /** A requested set of areas under a session definition. `authentic` says that the definition's
      own hash is right; `granted` is None when its grants cannot be read. */
  datatype Requested = Requested(agent: string, hash: string, authentic: bool, granted: Option<set<string>>, areaIds: seq<string>)

  /** A current Vault area as this member sees it. */
  datatype Area = Area(kind: string, revision: nat, allowsUse: bool, expiry: Option<int>)

  /** What the database says now: the member and the valid definition, the areas, the clock, and
      whether the binding row was locked before new sources were declared. */
  datatype World = World(
    agent: string, member: bool, definition: Option<string>, areas: map<string, Area>, now: int, bindingLocked: bool)

  datatype Prepared = Pending(captures: seq<Capture>) | Invalidated | Refused

  // ---- The meaning of a preparation -------------------------------------------------------

  predicate Usable(w: World, id: string) {
    id in w.areas && w.areas[id].kind != "place" && w.areas[id].allowsUse
  }

  predicate Expired(w: World, c: Capture) {
    c.validUntil.Some? && c.validUntil.value <= w.now
  }

  /** A retained dependency that no longer holds exactly as it was captured. */
  predicate Stale(w: World, c: Capture) {
    || !Usable(w, c.areaId) || w.areas[c.areaId].revision != c.revision
    || Some(c.definitionHash) != w.definition || Expired(w, c)
  }

  predicate Needed(retained: seq<Capture>, requested: Option<Requested>) {
    retained != [] || (requested.Some? && requested.value.areaIds != [])
  }

  ghost predicate Invalid(w: World, retained: seq<Capture>) {
    !w.member || w.definition.None? || exists k :: 0 <= k < |retained| && Stale(w, retained[k])
  }

  function AreaIds(retained: seq<Capture>): set<string> {
    set k | 0 <= k < |retained| :: retained[k].areaId
  }

  predicate Space(c: char) {
    var n := c as int;
    || 0x9 <= n <= 0xD || n == 0x20 || n == 0xA0 || n == 0x1680 || 0x2000 <= n <= 0x200A
    || n == 0x2028 || n == 0x2029 || n == 0x202F || n == 0x205F || n == 0x3000 || n == 0xFEFF
  }

  predicate WellFormedId(id: string) {
    id != "" && !Space(id[0]) && !Space(id[|id| - 1])
  }

  /** The well-formed areas asked for that are not retained yet. */
  function NewAreas(retained: seq<Capture>, requested: Option<Requested>): set<string> {
    if requested.None? then {}
    else set id | id in requested.value.areaIds && WellFormedId(id) && id !in AreaIds(retained)
  }

  predicate CurrentDefinition(w: World, q: Requested) {
    q.agent == w.agent && q.authentic && Some(q.hash) == w.definition
  }

  predicate Permitted(w: World, q: Requested, id: string) {
    Usable(w, id) && CurrentDefinition(w, q) && q.granted.Some? && w.areas[id].kind in q.granted.value
  }

  predicate BadRequest(w: World, retained: seq<Capture>, requested: Option<Requested>) {
    requested.Some? &&
    (|| !CurrentDefinition(w, requested.value) || requested.value.granted.None?
     || (exists id :: id in requested.value.areaIds && !WellFormedId(id))
     || (w.bindingLocked && NewAreas(retained, requested) != {})
     || (exists id :: id in NewAreas(retained, requested) && !Permitted(w, requested.value, id)))
  }

  function NewCapture(w: World, q: Requested, id: string): Capture
    requires id in w.areas
  {
    Capture(id, w.areas[id].revision, q.hash, w.areas[id].expiry)
  }

  predicate IsNewCapture(w: World, requested: Option<Requested>, c: Capture) {
    requested.Some? && c.areaId in w.areas && c == NewCapture(w, requested.value, c.areaId)
  }

  /** The captures cover exactly the new areas, once each, in collation order. */
  ghost predicate ExactlyNew(w: World, retained: seq<Capture>, requested: Option<Requested>, captures: seq<Capture>, rank: string -> int) {
    && AreaIds(captures) == NewAreas(retained, requested)
    && InOrder(captures, rank)
    && (forall k :: 0 <= k < |captures| ==> IsNewCapture(w, requested, captures[k]))
  }

  function Deadlines(captures: seq<Capture>): set<int> {
    set k | 0 <= k < |captures| && captures[k].validUntil.Some? :: captures[k].validUntil.value
  }

  // ---- The algorithm ----------------------------------------------------------------------

  lemma LeastExists(ids: set<string>, rank: string -> int)
    requires ids != {}
    ensures exists id :: id in ids && forall other :: other in ids ==> rank(id) <= rank(other)
  {
    var x :| x in ids;
    if ids != {x} {
      var rest := ids - {x};
      LeastExists(rest, rank);
      var y :| y in rest && forall other :: other in rest ==> rank(y) <= rank(other);
      var least := if rank(x) <= rank(y) then x else y;
      forall other | other in ids ensures rank(least) <= rank(other) {
        if other != x { assert other in rest; }
      }
    }
  }

  /** Validates the retained captures together with a new request. A bad request is only
      remembered, so it can never hide a stale retained capture. */
  method PrepareSources(w: World, retained: seq<Capture>, requested: Option<Requested>, rank: string -> int)
    returns (r: Prepared, deadlines: set<int>)
    requires DistinctAreas(retained)
    ensures r.Invalidated? <==> Needed(retained, requested) && Invalid(w, retained)
    ensures r.Refused? <==> Needed(retained, requested) && !Invalid(w, retained) && BadRequest(w, retained, requested)
    ensures r.Pending? && Needed(retained, requested) ==>
              ExactlyNew(w, retained, requested, r.captures, rank) && deadlines == Deadlines(retained) + Deadlines(r.captures)
    ensures r.Pending? && !Needed(retained, requested) ==> r.captures == [] && deadlines == {}
  {
    deadlines := {};
    if !Needed(retained, requested) { return Pending([]), deadlines; }
    if !w.member || w.definition.None? { return Invalidated, deadlines; }
    var early := false;
    if requested.Some? {
      if !CurrentDefinition(w, requested.value) || requested.value.granted.None? { early := true; }
      if exists id :: id in requested.value.areaIds && !WellFormedId(id) { early := true; }
    }
    var wanted := NewAreas(retained, requested);
    if wanted != {} && w.bindingLocked { early := true; }
    var stale, refused, pending;
    stale, refused, pending, deadlines := InspectUnion(w, retained, requested, wanted, rank);
    if stale { return Invalidated, deadlines; }
    if early || refused { return Prepared.Refused, deadlines; }
    deadlines := deadlines + Deadlines(pending);
    r := Pending(pending);
  }

  predicate DistinctAreas(captures: seq<Capture>) {
    forall j, k :: 0 <= j < k < |captures| ==> captures[j].areaId != captures[k].areaId
  }

  ghost predicate InOrder(captures: seq<Capture>, rank: string -> int) {
    forall j, k :: 0 <= j < k < |captures| ==>
      captures[j].areaId != captures[k].areaId && rank(captures[j].areaId) <= rank(captures[k].areaId)
  }

  /** The areas among `ids` the request may use. */
  function PermittedAmong(w: World, requested: Option<Requested>, ids: set<string>): set<string> {
    set id | id in ids && requested.Some? && Permitted(w, requested.value, id)
  }

  function DeadlinesAmong(retained: seq<Capture>, ids: set<string>): set<int> {
    set k | 0 <= k < |retained| && retained[k].areaId in ids && retained[k].validUntil.Some? :: retained[k].validUntil.value
  }

  /** Walks the union of retained and wanted areas in collation order, one lock at a time. */
  method InspectUnion(w: World, retained: seq<Capture>, requested: Option<Requested>, wanted: set<string>, rank: string -> int)
    returns (stale: bool, refused: bool, pending: seq<Capture>, deadlines: set<int>)
    requires DistinctAreas(retained) && wanted !! AreaIds(retained) && (wanted != {} ==> requested.Some?)
    ensures stale <==> exists k :: 0 <= k < |retained| && Stale(w, retained[k])
    ensures !stale ==> AreaIds(pending) == PermittedAmong(w, requested, wanted) && InOrder(pending, rank)
    ensures !stale ==> (refused <==> PermittedAmong(w, requested, wanted) != wanted)
    ensures !stale ==> forall k :: 0 <= k < |pending| ==> IsNewCapture(w, requested, pending[k])
    ensures !stale ==> deadlines == Deadlines(retained)
  {
    var known := AreaIds(retained);
    var left := known + wanted;
    stale, refused, pending, deadlines := false, false, [], {};
    ghost var done: set<string> := {};
    while left != {}
      invariant left + done == known + wanted && left !! done
      invariant Visited(w, retained, requested, wanted, done, refused, pending, deadlines)
      invariant InOrder(pending, rank) && forall id :: id in left ==> RankedBefore(pending, rank, id)
      decreases left
    {
      LeastExists(left, rank);
      var id :| id in left && forall other :: other in left ==> rank(id) <= rank(other);
      assert id in known || id in wanted;
      left := left - {id};
      if id in known {
        var k :| 0 <= k < |retained| && retained[k].areaId == id;
        if Stale(w, retained[k]) { stale := true; return; }
        VisitRetained(w, retained, requested, wanted, done, refused, pending, deadlines, k);
        deadlines := deadlines + (if retained[k].validUntil.Some? then {retained[k].validUntil.value} else {});
      } else {
        ghost var was := pending;
        var permitted;
        pending, permitted := CaptureNew(w, requested.value, pending, id, rank, left);
        VisitNew(w, retained, requested, wanted, done, refused, was, deadlines, id, pending);
        if !permitted { refused := true; }
      }
      done := done + {id};
    }
    assert done == known + wanted && done * wanted == wanted;
    AllDone(retained, done);
  }

  /** What the walk has found out once it has visited `done`. */
  ghost predicate Visited(w: World, retained: seq<Capture>, requested: Option<Requested>, wanted: set<string>, done: set<string>,
                          refused: bool, pending: seq<Capture>, deadlines: set<int>) {
    && (forall k :: 0 <= k < |retained| && retained[k].areaId in done ==> !Stale(w, retained[k]))
    && deadlines == DeadlinesAmong(retained, done)
    && AreaIds(pending) == PermittedAmong(w, requested, done * wanted)
    && (refused <==> PermittedAmong(w, requested, done * wanted) != done * wanted)
    && (forall k :: 0 <= k < |pending| ==> IsNewCapture(w, requested, pending[k]))
  }

  lemma VisitRetained(w: World, retained: seq<Capture>, requested: Option<Requested>, wanted: set<string>, done: set<string>,
                      refused: bool, pending: seq<Capture>, deadlines: set<int>, k: nat)
    requires Visited(w, retained, requested, wanted, done, refused, pending, deadlines)
    requires DistinctAreas(retained) && wanted !! AreaIds(retained) && (wanted != {} ==> requested.Some?)
    requires k < |retained| && retained[k].areaId !in done && !Stale(w, retained[k])
    ensures Visited(w, retained, requested, wanted, done + {retained[k].areaId}, refused, pending,
                    deadlines + (if retained[k].validUntil.Some? then {retained[k].validUntil.value} else {}))
  {
    var id := retained[k].areaId;
    assert id in AreaIds(retained);
    DoneGrows(w, retained, requested, wanted, done, id);
    DeadlineGrows(retained, done, k);
  }

  lemma VisitNew(w: World, retained: seq<Capture>, requested: Option<Requested>, wanted: set<string>, done: set<string>,
                 refused: bool, before: seq<Capture>, deadlines: set<int>, id: string, pending: seq<Capture>)
    requires Visited(w, retained, requested, wanted, done, refused, before, deadlines)
    requires wanted !! AreaIds(retained) && requested.Some? && id in wanted && id !in done
    requires AreaIds(pending) == AreaIds(before) + (if Permitted(w, requested.value, id) then {id} else {})
    requires forall k :: 0 <= k < |pending| ==> IsNewCapture(w, requested, pending[k])
    ensures Visited(w, retained, requested, wanted, done + {id}, refused || !Permitted(w, requested.value, id), pending, deadlines)
  {
    assert id !in AreaIds(retained);
    DoneGrows(w, retained, requested, wanted, done, id);
    forall k | 0 <= k < |retained| ensures retained[k].areaId != id { assert retained[k].areaId in AreaIds(retained); }
  }

  /** Captures a new area that is permitted. */
  method CaptureNew(w: World, q: Requested, before: seq<Capture>, id: string, rank: string -> int, ghost left: set<string>)
    returns (pending: seq<Capture>, permitted: bool)
    requires InOrder(before, rank) && RankedBefore(before, rank, id)
    requires forall other :: other in left ==> RankedBefore(before, rank, other) && other != id && rank(id) <= rank(other)
    requires forall k :: 0 <= k < |before| ==> IsNewCapture(w, Some(q), before[k])
    ensures permitted <==> Permitted(w, q, id)
    ensures AreaIds(pending) == AreaIds(before) + (if permitted then {id} else {})
    ensures InOrder(pending, rank) && forall other :: other in left ==> RankedBefore(pending, rank, other)
    ensures forall k :: 0 <= k < |pending| ==> IsNewCapture(w, Some(q), pending[k])
  {
    pending, permitted := before, false;
    if !Permitted(w, q, id) { return; }
    AppendCapture(before, NewCapture(w, q, id));
    InOrderGrows(before, NewCapture(w, q, id), rank);
    pending, permitted := before + [NewCapture(w, q, id)], true;
  }

  ghost predicate RankedBefore(captures: seq<Capture>, rank: string -> int, id: string) {
    forall k :: 0 <= k < |captures| ==> captures[k].areaId != id && rank(captures[k].areaId) <= rank(id)
  }

  lemma InOrderGrows(captures: seq<Capture>, c: Capture, rank: string -> int)
    requires InOrder(captures, rank) && RankedBefore(captures, rank, c.areaId)
    ensures InOrder(captures + [c], rank)
    ensures forall id :: RankedBefore(captures, rank, id) && id != c.areaId && rank(c.areaId) <= rank(id)
                         ==> RankedBefore(captures + [c], rank, id)
  {
  }

  lemma AppendCapture(captures: seq<Capture>, c: Capture)
    ensures AreaIds(captures + [c]) == AreaIds(captures) + {c.areaId}
  {
    var all := captures + [c];
    assert forall k :: 0 <= k < |captures| ==> all[k] == captures[k];
    assert all[|captures|] == c;
  }

  /** Visiting one more area: what is then done, and which of it is permitted. */
  lemma DoneGrows(w: World, retained: seq<Capture>, requested: Option<Requested>, wanted: set<string>, done: set<string>, id: string)
    requires id !in done && wanted !! AreaIds(retained) && (wanted != {} ==> requested.Some?)
    ensures id !in wanted ==> (done + {id}) * wanted == done * wanted
    ensures id in wanted ==> (done + {id}) * wanted == done * wanted + {id}
    ensures id in wanted ==>
              PermittedAmong(w, requested, (done + {id}) * wanted)
              == PermittedAmong(w, requested, done * wanted) + (if Permitted(w, requested.value, id) then {id} else {})
    ensures id !in AreaIds(retained) ==> DeadlinesAmong(retained, done + {id}) == DeadlinesAmong(retained, done)
  {
    if id !in AreaIds(retained) {
      forall k | 0 <= k < |retained| ensures retained[k].areaId != id { assert retained[k].areaId in AreaIds(retained); }
    }
  }

  lemma DeadlineGrows(retained: seq<Capture>, done: set<string>, k: nat)
    requires DistinctAreas(retained) && k < |retained|
    ensures DeadlinesAmong(retained, done + {retained[k].areaId})
         == DeadlinesAmong(retained, done) + (if retained[k].validUntil.Some? then {retained[k].validUntil.value} else {})
  {
  }

  lemma AllDone(retained: seq<Capture>, done: set<string>)
    requires AreaIds(retained) <= done
    ensures DeadlinesAmong(retained, done) == Deadlines(retained)
    ensures forall k :: 0 <= k < |retained| ==> retained[k].areaId in done
  {
    forall k | 0 <= k < |retained| ensures retained[k].areaId in done { assert retained[k].areaId in AreaIds(retained); }
  }

  // ---- What a capture holds for -----------------------------------------------------------

  /** The area may be used now at all. */
  predicate InUse(w: World, id: string) {
    id in w.areas && w.areas[id].kind != "place" && w.areas[id].allowsUse
  }

  /** A new area is permitted exactly under the current, authentic definition of this agent, whose
      grants include the area's kind, and while the area may be used. */
  lemma PermittedExactly(w: World, q: Requested, id: string)
    ensures Permitted(w, q, id) <==>
            && InUse(w, id) && q.agent == w.agent && q.authentic && w.definition == Some(q.hash)
            && q.granted.Some? && w.areas[id].kind in q.granted.value
  {
  }

  /** A capture made in one world holds in another exactly while the area may be used at the same
      revision, the definition is the same, and the expiry it was made with has not come. */
  lemma CaptureHoldsExactly(w: World, q: Requested, id: string, later: World)
    requires Permitted(w, q, id)
    ensures !Stale(later, NewCapture(w, q, id)) <==>
            && InUse(later, id) && later.areas[id].revision == w.areas[id].revision && later.definition == w.definition
            && (w.areas[id].expiry.Some? ==> later.now < w.areas[id].expiry.value)
  {
  }

  /** A request is bad exactly when it is not under the current definition with readable grants, names
      an ill-formed area, adds areas after the binding was locked, or adds one that is not permitted. */
  lemma BadRequestExactly(w: World, retained: seq<Capture>, q: Requested)
    ensures BadRequest(w, retained, Some(q)) <==>
            || q.agent != w.agent || !q.authentic || w.definition != Some(q.hash) || q.granted == None
            || exists id :: id in q.areaIds &&
                 (!WellFormedId(id)
                  || (id !in AreaIds(retained) && (w.bindingLocked || !InUse(w, id) || w.areas[id].kind !in q.granted.value)))
  {
    if CurrentDefinition(w, q) && q.granted.Some? && forall id :: id in q.areaIds ==> WellFormedId(id) {
      var added := NewAreas(retained, Some(q));
      assert forall id :: id in added <==> id in q.areaIds && id !in AreaIds(retained);
      if added != {} { var id :| id in added; assert id in q.areaIds; }
    }
  }

  // ---- In its transaction -----------------------------------------------------------------

  /** The transaction whose callback prepares sources for `b`. Invalidation marks the binding for
      retirement and throws; `swallows` lets the callback hide the error. */
  method SourceCheckedTransaction(
    x: Script, hooked: bool, b: SourceBinding, swallows: bool,
    w: World, retained: seq<Capture>, requested: Option<Requested>, rank: string -> int)
    returns (prepared: Prepared, r: Report)
    requires DistinctAreas(retained)
    // A stale retained capture retires the conversation, whatever else was asked for.
    ensures retained != [] && Invalid(w, retained) ==> prepared.Invalidated?
    ensures prepared.Invalidated? && x.connects && x.fate(0).Answered? && !(hooked && x.started.throws) ==>
              b in r.retired && !r.returned && !r.server.durableWork && !r.commitAttempted
              && (r.server.durableRevoked == {} || b in r.server.durableRevoked)
    ensures prepared.Invalidated? && x.connects && (forall k :: x.fate(k).Answered?) && !(hooked && x.started.throws) ==>
              b in r.server.durableRevoked
    ensures r.server.durableRevoked <= SourceTransaction.Invalidated(x) + (if prepared.Invalidated? then {b} else {})
    ensures Sound(r) && RetiresExactly(r) && PoolsClean(r)
  {
    var deadlines;
    prepared, deadlines := PrepareSources(w, retained, requested, rank);
    var work := Stage(if prepared.Invalidated? then {b} else {}, x.work.aborts,
                      x.work.throws || (!prepared.Pending? && !swallows));
    r := OwnedTransaction(x.(work := work), hooked);
  }
}
