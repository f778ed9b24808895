/** One client owns one PostgreSQL transaction: BEGIN, work, an optional revoke-only compensation,
    COMMIT, a read-only observation, release. PostgreSQL is a peer that keeps the truth and may
    lose any message; the client reports one outcome. */
module SourceTransaction {
  import opened Basics

  datatype SourceBinding = SourceBinding(
    agent: string, incarnation: string, sessionId: string, memberId: string, admissionNonce: string)

  // ---- The database peer ------------------------------------------------------------------

  datatype Session = Idle | Open(work: bool, revoking: set<SourceBinding>, aborted: bool)

  /** `durableWork` and `durableRevoked` are the ground truth for this operation. */
  datatype Server = Server(session: Session, durableWork: bool, durableRevoked: set<SourceBinding>)

  datatype Command = Begin | Commit | Rollback | Revoke(binding: SourceBinding)

  /** The command tag of the answer, or an error as the client sees it. */
  datatype Reply = Began | Committed | RolledBack | Updated | Error

  /** What happens to one message: answered, executed with the answer lost, never delivered, or
      refused by the server (which aborts an open transaction). */
  datatype Fate = Answered | ReplyLost | NotDelivered | Refused

  function Execute(s: Server, c: Command): (Server, Reply) {
    match c
    case Begin =>
      (if s.session.Idle? then s.(session := Open(false, {}, false)) else s, Began)
    case Rollback => (s.(session := Idle), RolledBack)
    case Commit =>
      if s.session.Idle? then (s, Committed)
      else if s.session.aborted then (s.(session := Idle), RolledBack)
      else (Server(Idle, s.durableWork || s.session.work, s.durableRevoked + s.session.revoking), Committed)
    case Revoke(b) =>
      if s.session.Idle? then (s.(durableRevoked := s.durableRevoked + {b}), Updated)
      else if s.session.aborted then (s, Error)
      else (s.(session := s.session.(revoking := s.session.revoking + {b})), Updated)
  }

  function Send(s: Server, c: Command, fate: Fate): (Server, Reply) {
    match fate
    case Answered => Execute(s, c)
    case ReplyLost => (Execute(s, c).0, Error)
    case NotDelivered => (s, Error)
    case Refused =>
      (if s.session.Open? then s.(session := s.session.(aborted := true)) else s, Error)
  }

  // ---- What surrounds the client ----------------------------------------------------------

  datatype Outcome =
    | NotStarted | RollbackAcknowledged | RetirementAcknowledged | RetirementRolledBack
    | CommitAcknowledged | CommitNeverSent | Unknown

  /** A callback, hook or deadline check. It may invalidate sources, abort the transaction by a
      failing statement it swallows, and return or throw. */
  datatype Stage = Stage(invalidates: set<SourceBinding>, aborts: bool, throws: bool)

  datatype Observation = NoObserver | Observed | ObserverFailed(leavesOpen: bool)

  /** Everything outside the client's control in one call; `fate(k)` is the fate of message `k`. */
  datatype Script = Script(
    connects: bool, fate: nat -> Fate,
    started: Stage, work: Stage, check: Stage, beforeCommitHook: Stage, checkAgain: Stage, readyToCommit: Stage,
    lastCheck: Stage, beforeCommitGuard: Stage,
    afterCommitThrows: bool, deadlineCrossed: bool, observation: Observation, lateDeadline: bool, releaseThrows: bool)

  function RunStage(s: Server, stage: Stage): Server {
    if s.session.Open? then s.(session := s.session.(work := true, aborted := s.session.aborted || stage.aborts)) else s
  }

  datatype Report = Report(
    returned: bool, outcome: Outcome, commitAttempted: bool, server: Server, destroyed: bool, retired: set<SourceBinding>)

  /** The outcome told is true of the database, whatever was lost. */
  predicate Sound(r: Report) {
    && (r.outcome.CommitAcknowledged? ==> r.server.durableWork)
    && (!r.outcome.CommitAcknowledged? && !r.outcome.Unknown? ==> !r.server.durableWork)
    && (r.outcome.Unknown? ==> r.commitAttempted)
    && (r.commitAttempted ==> r.outcome.Unknown? || r.outcome.CommitAcknowledged?)
    && (r.returned ==> r.outcome.CommitAcknowledged?)
  }

  /** Invalidated sources retire: no work survives, and the only durable writes are revocations of
      exactly the invalidated bindings, all or none. */
  predicate RetiresExactly(r: Report) {
    && (r.server.durableRevoked == {} || r.server.durableRevoked == r.retired)
    && (r.retired != {} ==> !r.returned && !r.commitAttempted && !r.server.durableWork)
    && (r.outcome.RetirementAcknowledged? ==> r.retired != {} && r.server.durableRevoked == r.retired)
    && (!r.outcome.RetirementAcknowledged? && !r.outcome.CommitNeverSent? ==> r.server.durableRevoked == {})
  }

  /** A connection with a transaction that may still be open is destroyed, never pooled. */
  predicate PoolsClean(r: Report) {
    !r.destroyed ==> r.server.session.Idle?
  }

  /** With every message answered the client goes all the way: a value after a clean run, the
      revocations after an invalidation, a rollback after any other failure. */
  ghost predicate Completes(x: Script, hooked: bool, r: Report) {
    x.connects && (forall k :: x.fate(k).Answered?) ==>
      && (r.retired != {} ==> r.outcome.RetirementAcknowledged?)
      && (r.retired == {} && !r.commitAttempted ==> r.outcome.RollbackAcknowledged?)
      && (Clean(x, hooked) ==> r.returned)
  }

  predicate Quiet(stage: Stage) {
    stage.invalidates == {} && !stage.aborts && !stage.throws
  }

  predicate Clean(x: Script, hooked: bool) {
    && Quiet(x.started) && Quiet(x.work) && Quiet(x.check) && Quiet(x.beforeCommitHook) && Quiet(x.checkAgain)
    && Quiet(x.readyToCommit) && Quiet(x.lastCheck) && Quiet(x.beforeCommitGuard)
    && !x.afterCommitThrows && !x.deadlineCrossed && !x.lateDeadline && !(hooked && x.observation.ObserverFailed?)
  }

  /** The sources some stage of the call invalidates. */
  function Invalidated(x: Script): set<SourceBinding> {
    x.started.invalidates + x.work.invalidates + x.check.invalidates + x.beforeCommitHook.invalidates
    + x.checkAgain.invalidates + x.readyToCommit.invalidates + x.lastCheck.invalidates + x.beforeCommitGuard.invalidates
  }

  /** What a sequence of stages amounts to: a stage runs only while none before it has thrown. */
  datatype Ran = Ran(retire: set<SourceBinding>, failed: bool, aborted: bool)

  function Then(r: Ran, stage: Stage): Ran {
    if r.failed then r else Ran(r.retire + stage.invalidates, stage.throws, r.aborted || stage.aborts)
  }

  function FirstStages(x: Script, hooked: bool): Ran {
    var none := Ran({}, false, false);
    Then(Then(if hooked then Then(none, x.started) else none, x.work), x.check)
  }

  /** The callback and its checks; then, while nothing is retired, the boundary's hooks with theirs;
      then, still with nothing retired, the last guard. */
  function AllStages(x: Script, hooked: bool): Ran {
    var first := FirstStages(x, hooked);
    var second :=
      if hooked && !first.failed && first.retire == {}
      then Then(Then(Then(Then(first, x.beforeCommitHook), x.checkAgain), x.readyToCommit), x.lastCheck)
      else first;
    if !second.failed && second.retire == {} then Then(second, x.beforeCommitGuard) else second
  }

  predicate Stops(stage: Stage) {
    stage.throws || stage.invalidates != {}
  }

  /** No stage of the call throws or invalidates. */
  predicate NothingStops(x: Script, hooked: bool) {
    && !Stops(x.work) && !Stops(x.check) && !Stops(x.beforeCommitGuard)
    && (hooked ==> !Stops(x.started) && !Stops(x.beforeCommitHook) && !Stops(x.checkAgain)
                   && !Stops(x.readyToCommit) && !Stops(x.lastCheck))
  }

  /** Some stage let a failing statement abort the transaction. */
  predicate SomeAborts(x: Script, hooked: bool) {
    || x.work.aborts || x.check.aborts || x.beforeCommitGuard.aborts
    || (hooked && (x.started.aborts || x.beforeCommitHook.aborts || x.checkAgain.aborts || x.readyToCommit.aborts || x.lastCheck.aborts))
  }

  /** The client got as far as its callback. */
  predicate Begins(x: Script) {
    x.connects && x.fate(0).Answered?
  }

  /** COMMIT is tried exactly when no stage of the call throws or invalidates; it is acknowledged
      exactly when moreover its answer arrives and no statement had aborted the transaction; a value is
      returned exactly when after that nothing throws, crosses its deadline or fails to observe. */
  ghost predicate CommitsExactly(x: Script, hooked: bool, r: Report) {
    && (r.commitAttempted <==> Begins(x) && NothingStops(x, hooked))
    && (r.outcome.CommitAcknowledged? <==> r.commitAttempted && x.fate(1).Answered? && !SomeAborts(x, hooked))
    && (r.server.durableWork <==> r.commitAttempted && (x.fate(1).Answered? || x.fate(1).ReplyLost?) && !SomeAborts(x, hooked))
    && (r.returned <==>
          && r.outcome.CommitAcknowledged? && !x.afterCommitThrows && !x.deadlineCrossed
          && (hooked ==> !x.observation.ObserverFailed?) && (hooked && x.observation.Observed? ==> !x.lateDeadline))
  }

  /** What is retired is what the stages that ran invalidated. The retirement is acknowledged exactly
      when its ROLLBACK, BEGIN, revocations and COMMIT are all answered; a failure without anything to
      retire is rolled back exactly when its ROLLBACK is. */
  ghost predicate RetiresAll(x: Script, hooked: bool, r: Report) {
    && r.retired == (if Begins(x) then AllStages(x, hooked).retire else {})
    && (r.outcome.RetirementAcknowledged? <==>
          r.retired != {} && forall k :: 1 <= k <= |r.retired| + 3 ==> x.fate(k).Answered?)
    && (r.outcome.RollbackAcknowledged? <==>
          Begins(x) && r.retired == {} && AllStages(x, hooked).failed && x.fate(1).Answered?)
  }

  lemma StagesStop(x: Script, hooked: bool)
    ensures !AllStages(x, hooked).failed && AllStages(x, hooked).retire == {} <==> NothingStops(x, hooked)
    ensures NothingStops(x, hooked) ==> (AllStages(x, hooked).aborted <==> SomeAborts(x, hooked))
    ensures AllStages(x, hooked).retire <= Invalidated(x)
    ensures !(hooked && x.started.throws) ==> x.work.invalidates <= AllStages(x, hooked).retire
    ensures Clean(x, hooked) ==> NothingStops(x, hooked) && !SomeAborts(x, hooked)
  {
    if !NothingStops(x, hooked) { SomethingStops(x, hooked); }
  }

  lemma SomethingStops(x: Script, hooked: bool)
    requires !NothingStops(x, hooked)
    ensures AllStages(x, hooked).failed || AllStages(x, hooked).retire != {}
  {
  }

  /** The owned transaction. `hooked` says whether a boundary with hooks was given. */
  method OwnedTransaction(x: Script, hooked: bool) returns (r: Report)
    ensures Sound(r) && RetiresExactly(r) && PoolsClean(r) && Completes(x, hooked, r)
    ensures CommitsExactly(x, hooked, r) && RetiresAll(x, hooked, r)
    ensures r.outcome.Unknown? || r.outcome.CommitNeverSent? ==> r.destroyed
    ensures !x.connects ==> r.outcome.NotStarted?
    ensures r.retired <= Invalidated(x)
    ensures x.connects && x.fate(0).Answered? && !(hooked && x.started.throws) ==> x.work.invalidates <= r.retired
  {
    var p := Conduct(x, hooked);
    var server, broken, reply, n := p.server, p.broken, Error, p.sent;
    // Catch: clean up, without converting an earlier unknown into a known abort.
    if !p.returned && x.connects && (p.originalOpen || p.compensationOpen || p.outcome.Unknown?) {
      server, reply, n := Exchange(server, Rollback, x.fate, n);
      if reply != RolledBack || p.outcome.Unknown? { broken := true; }
    }
    // Finally: release (a destroyed connection ends its session), and report.
    var destroyed := broken || (x.connects && x.releaseThrows);
    if destroyed { server := server.(session := Idle); }
    r := Report(p.returned, if p.outcome.Unknown? && !p.commitSent then CommitNeverSent else p.outcome,
                p.commitSent, server, destroyed, p.retired);
  }

  /** The client's variables when its guarded block ends, by a value or by an error. */
  datatype Progress = Progress(
    server: Server, outcome: Outcome, commitSent: bool, originalOpen: bool, compensationOpen: bool,
    broken: bool, returned: bool, retired: set<SourceBinding>, sent: nat)

  predicate Coherent(p: Progress) {
    && !p.outcome.CommitNeverSent?
    && (!p.commitSent ==> !p.server.durableWork)
    && (p.outcome.CommitAcknowledged? ==> p.commitSent && p.server.durableWork && !p.originalOpen)
    && (p.commitSent ==> p.retired == {} && (p.outcome.CommitAcknowledged? || (p.outcome.Unknown? && p.broken)))
    && (p.returned ==> p.outcome.CommitAcknowledged?)
    && (p.server.durableRevoked == {} || p.server.durableRevoked == p.retired)
    && (p.outcome.RetirementAcknowledged? ==> p.retired != {} && p.server.durableRevoked == p.retired)
    && (!p.outcome.RetirementAcknowledged? && !(p.outcome.Unknown? && !p.commitSent) ==> p.server.durableRevoked == {})
    && (!p.broken && !p.outcome.Unknown? ==> p.server.session.Idle?)
  }

  /** The guarded block: connect, BEGIN, the stages, then retirement, rollback or COMMIT. */
  method Conduct(x: Script, hooked: bool) returns (p: Progress)
    ensures Coherent(p) && p.retired <= Invalidated(x)
    ensures p.commitSent <==> Begins(x) && NothingStops(x, hooked)
    ensures p.outcome.CommitAcknowledged? <==> p.commitSent && x.fate(1).Answered? && !SomeAborts(x, hooked)
    ensures p.server.durableWork <==> p.commitSent && (x.fate(1).Answered? || x.fate(1).ReplyLost?) && !SomeAborts(x, hooked)
    ensures p.returned <==>
              && p.outcome.CommitAcknowledged? && !x.afterCommitThrows && !x.deadlineCrossed
              && (hooked ==> !x.observation.ObserverFailed?) && (hooked && x.observation.Observed? ==> !x.lateDeadline)
    ensures p.retired == (if Begins(x) then AllStages(x, hooked).retire else {})
    ensures p.outcome.RetirementAcknowledged? <==>
              p.retired != {} && forall k :: 1 <= k <= |p.retired| + 3 ==> x.fate(k).Answered?
    ensures p.outcome.RollbackAcknowledged? <==> Begins(x) && p.retired == {} && AllStages(x, hooked).failed && x.fate(1).Answered?
    ensures p.outcome.NotStarted? <==> !x.connects
    ensures x.connects && x.fate(0).Answered? && !(hooked && x.started.throws) ==> x.work.invalidates <= p.retired
    ensures x.connects && (forall k :: x.fate(k).Answered?) ==>
      && (p.retired != {} ==> p.outcome.RetirementAcknowledged?)
      && (p.retired == {} && !p.commitSent ==> p.outcome.RollbackAcknowledged?)
      && (Clean(x, hooked) ==> p.returned)
  {
    var server := Server(Idle, false, {});
    p := Progress(server, NotStarted, false, false, false, false, false, {}, 0);
    if !x.connects { return; }
    var reply, n;
    server, reply, n := Exchange(server, Begin, x.fate, 0);
    p := p.(server := server, outcome := Unknown, sent := n);
    if reply != Began { return; }
    var retire, failed;
    server, retire, failed := Stages(x, hooked, server);
    StagesStop(x, hooked);
    p := Conclude(x, hooked, server, retire, failed);
  }

  /** After the stages: retirement, rollback or COMMIT, then what may still withhold the value. */
  method Conclude(x: Script, hooked: bool, begun: Server, retire: set<SourceBinding>, failed: bool) returns (p: Progress)
    requires begun.session.Open? && begun.session.revoking == {} && !begun.durableWork && begun.durableRevoked == {}
    requires !failed && retire == {} ==> begun.session.work
    ensures Coherent(p) && p.retired == retire && !p.outcome.NotStarted?
    ensures p.commitSent <==> retire == {} && !failed
    ensures p.outcome.CommitAcknowledged? <==> p.commitSent && x.fate(1).Answered? && !begun.session.aborted
    ensures p.server.durableWork <==> p.commitSent && (x.fate(1).Answered? || x.fate(1).ReplyLost?) && !begun.session.aborted
    ensures p.returned <==>
              && p.outcome.CommitAcknowledged? && !x.afterCommitThrows && !x.deadlineCrossed
              && (hooked ==> !x.observation.ObserverFailed?) && (hooked && x.observation.Observed? ==> !x.lateDeadline)
    ensures p.outcome.RetirementAcknowledged? <==> retire != {} && forall k :: 1 <= k <= |retire| + 3 ==> x.fate(k).Answered?
    ensures p.outcome.RollbackAcknowledged? <==> retire == {} && failed && x.fate(1).Answered?
  {
    var server, reply, n := begun, Error, 1;
    p := Progress(server, Unknown, false, true, false, false, false, retire, n);
    if retire != {} {
      var outcome, originalOpen, compensationOpen, broken;
      server, outcome, originalOpen, compensationOpen, broken, n := RetireSources(server, retire, x.fate, n);
      p := Progress(server, outcome, false, originalOpen, compensationOpen, broken, false, retire, n);
      return;
    }
    if failed {
      server, reply, n := Exchange(server, Rollback, x.fate, n);
      p := p.(server := server, sent := n);
      p := if reply == RolledBack then p.(originalOpen := false, outcome := RollbackAcknowledged) else p.(broken := true);
      return;
    }
    p := CommitAndObserve(x, hooked, p);
  }

  method CommitAndObserve(x: Script, hooked: bool, before: Progress) returns (p: Progress)
    requires before.outcome.Unknown? && !before.commitSent && before.originalOpen && !before.compensationOpen && !before.broken
    requires !before.returned && before.retired == {} && before.sent == 1
    requires before.server.session.Open? && before.server.session.work && before.server.session.revoking == {}
    requires !before.server.durableWork && before.server.durableRevoked == {}
    ensures Coherent(p) && p.commitSent && p.retired == {} && (p.outcome.CommitAcknowledged? || p.outcome.Unknown?)
    ensures p.outcome.CommitAcknowledged? <==> x.fate(1).Answered? && !before.server.session.aborted
    ensures p.server.durableWork <==> (x.fate(1).Answered? || x.fate(1).ReplyLost?) && !before.server.session.aborted
    ensures p.returned <==>
              && p.outcome.CommitAcknowledged? && !x.afterCommitThrows && !x.deadlineCrossed
              && (hooked ==> !x.observation.ObserverFailed?) && (hooked && x.observation.Observed? ==> !x.lateDeadline)
  {
    var server, reply, n := Exchange(before.server, Commit, x.fate, 1);
    p := before.(server := server, commitSent := true, sent := n);
    if reply != Committed { p := p.(broken := true); return; }
    p := p.(originalOpen := false, outcome := CommitAcknowledged);
    if x.afterCommitThrows || x.deadlineCrossed { return; }
    if hooked && x.observation.ObserverFailed? {
      p := p.(broken := true,
              server := if x.observation.leavesOpen then server.(session := Open(false, {}, false)) else server);
      return;
    }
    if hooked && x.observation.Observed? && x.lateDeadline { return; }
    p := p.(returned := true);
  }

  method Exchange(before: Server, c: Command, fate: nat -> Fate, k: nat) returns (server: Server, reply: Reply, n: nat)
    ensures (server, reply) == Send(before, c, fate(k)) && n == k + 1
  {
    var answer := Send(before, c, fate(k));
    server, reply, n := answer.0, answer.1, k + 1;
  }

  /** Rolls the work back, then commits the revocations and nothing else on the same connection. */
  method RetireSources(before: Server, retire: set<SourceBinding>, fate: nat -> Fate, first: nat)
    returns (server: Server, outcome: Outcome, originalOpen: bool, compensationOpen: bool, broken: bool, n: nat)
    requires before.session.Open? && before.session.revoking == {} && retire != {}
    requires !before.durableWork && before.durableRevoked == {}
    ensures !server.durableWork && (server.durableRevoked == {} || server.durableRevoked == retire)
    ensures server.session.Open? && (server.session.work || server.session.revoking != {}) ==> broken
    ensures outcome.Unknown? || outcome.RetirementAcknowledged? || outcome.RetirementRolledBack?
    ensures outcome.Unknown? <==> broken
    ensures outcome.RetirementAcknowledged? ==> server.durableRevoked == retire
    ensures outcome.RetirementRolledBack? ==> server.durableRevoked == {}
    ensures !broken ==> !originalOpen && !compensationOpen && server.session.Idle?
    ensures outcome.RetirementAcknowledged? <==> forall k :: first <= k <= first + |retire| + 2 ==> fate(k).Answered?
  {
    var reply;
    outcome, originalOpen, compensationOpen, broken := Unknown, true, false, false;
    server, reply, n := Exchange(before, Rollback, fate, first);
    if reply != RolledBack { broken := true; return; }
    originalOpen := false;
    var compensated;
    server, compensated, compensationOpen, n := Compensate(server, retire, fate, n);
    if !compensated {
      if !compensationOpen { broken := true; return; }
      server, reply, n := Exchange(server, Rollback, fate, n);
      if reply == RolledBack { compensationOpen, outcome := false, RetirementRolledBack; } else { broken := true; }
      return;
    }
    server, reply, n := Exchange(server, Commit, fate, n);
    if reply == Committed { compensationOpen, outcome := false, RetirementAcknowledged; } else { broken := true; }
  }

  /** The guarded part between BEGIN and the decision to commit. Any stage may throw; the error is
      kept and the stages after it are skipped. Later stages run only while nothing is retired. */
  method Stages(x: Script, hooked: bool, begun: Server) returns (server: Server, retire: set<SourceBinding>, failed: bool)
    requires begun.session == Open(false, {}, false)
    ensures server.session.Open? && server.session.revoking == {}
    ensures server.durableWork == begun.durableWork && server.durableRevoked == begun.durableRevoked
    ensures Ran(retire, failed, server.session.aborted) == AllStages(x, hooked)
    ensures !failed && retire == {} ==> server.session.work
  {
    server, retire, failed := CallbackStages(x, hooked, begun);
    if failed { return; }
    if retire == {} && hooked {
      server, retire, failed := HookStages(x, server);
      if failed { return; }
    }
    if retire == {} {
      server, retire := RunStage(server, x.beforeCommitGuard), retire + x.beforeCommitGuard.invalidates;
      if x.beforeCommitGuard.throws { failed := true; return; }
    }
  }

  /** The boundary's start, the callback and the check after it. */
  method CallbackStages(x: Script, hooked: bool, begun: Server) returns (server: Server, retire: set<SourceBinding>, failed: bool)
    requires begun.session == Open(false, {}, false)
    ensures server.session.Open? && server.session.revoking == {} && (!failed ==> server.session.work)
    ensures server.durableWork == begun.durableWork && server.durableRevoked == begun.durableRevoked
    ensures Ran(retire, failed, server.session.aborted) == FirstStages(x, hooked)
  {
    server, retire, failed := begun, {}, false;
    if hooked {
      server, retire := RunStage(server, x.started), retire + x.started.invalidates;
      if x.started.throws { failed := true; return; }
    }
    server, retire := RunStage(server, x.work), retire + x.work.invalidates;
    if x.work.throws { failed := true; return; }
    server, retire := RunStage(server, x.check), retire + x.check.invalidates;
    if x.check.throws { failed := true; return; }
  }

  /** The boundary's hooks and the checks after them, each as long as none has thrown. */
  method HookStages(x: Script, before: Server) returns (server: Server, retire: set<SourceBinding>, failed: bool)
    requires before.session.Open? && before.session.work && before.session.revoking == {}
    ensures server.session.Open? && server.session.work && server.session.revoking == {}
    ensures server.durableWork == before.durableWork && server.durableRevoked == before.durableRevoked
    ensures Ran(retire, failed, server.session.aborted)
         == Then(Then(Then(Then(Ran({}, false, before.session.aborted), x.beforeCommitHook), x.checkAgain), x.readyToCommit), x.lastCheck)
  {
    server, retire, failed := before, {}, false;
    server, retire := RunStage(server, x.beforeCommitHook), retire + x.beforeCommitHook.invalidates;
    if x.beforeCommitHook.throws { failed := true; return; }
    server, retire := RunStage(server, x.checkAgain), retire + x.checkAgain.invalidates;
    if x.checkAgain.throws { failed := true; return; }
    server, retire := RunStage(server, x.readyToCommit), retire + x.readyToCommit.invalidates;
    if x.readyToCommit.throws { failed := true; return; }
    server, retire := RunStage(server, x.lastCheck), retire + x.lastCheck.invalidates;
    if x.lastCheck.throws { failed := true; return; }
  }

  /** Begins the compensation and revokes every retired binding, stopping at the first error. */
  method Compensate(before: Server, retire: set<SourceBinding>, fate: nat -> Fate, first: nat)
    returns (server: Server, done: bool, begun: bool, n: nat)
    requires before.session.Idle?
    ensures server.durableWork == before.durableWork && server.durableRevoked == before.durableRevoked
    ensures server.session.Open? ==> !server.session.work && server.session.revoking <= retire
    ensures begun ==> server.session.Open?
    ensures done ==> begun && server.session.revoking == retire && !server.session.aborted && n == first + 1 + |retire|
    ensures done <==> forall k :: first <= k <= first + |retire| ==> fate(k).Answered?
  {
    server, done, begun, n := before, false, false, first;
    var reply;
    server, reply, n := Exchange(server, Begin, fate, n);
    if reply != Began { assert !fate(first).Answered?; return; }
    begun := true;
    server, done, n := RevokeAll(server, retire, fate, n);
    assert done <==> forall k :: first + 1 <= k < first + 1 + |retire| ==> fate(k).Answered?;
    assert fate(first).Answered?;
  }

  lemma RevokeSent(s: Server, b: SourceBinding, fate: Fate)
    requires s.session.Open? && !s.session.work && !s.session.aborted
    ensures var (t, reply) := Send(s, Revoke(b), fate);
            && t.durableWork == s.durableWork && t.durableRevoked == s.durableRevoked
            && t.session.Open? && !t.session.work && t.session.revoking <= s.session.revoking + {b}
            && (reply.Error? <==> !fate.Answered?)
            && (fate.Answered? ==> t == s.(session := Open(false, s.session.revoking + {b}, false)))
  {
  }

  lemma SomeLeft(all: set<SourceBinding>, left: set<SourceBinding>, gone: set<SourceBinding>)
    requires left + gone == all && left !! gone && left != {}
    ensures |gone| < |all|
  {
    assert |all| == |left| + |gone|;
  }

  method RevokeAll(before: Server, retire: set<SourceBinding>, fate: nat -> Fate, first: nat)
    returns (server: Server, done: bool, n: nat)
    requires before.session == Open(false, {}, false)
    ensures server.durableWork == before.durableWork && server.durableRevoked == before.durableRevoked
    ensures server.session.Open? && !server.session.work && server.session.revoking <= retire
    ensures done ==> server.session.revoking == retire && !server.session.aborted && n == first + |retire|
    ensures done <==> forall k :: first <= k < first + |retire| ==> fate(k).Answered?
  {
    server, done, n := before, false, first;
    var left := retire;
    ghost var revoked: set<SourceBinding> := {};
    while left != {}
      invariant left + revoked == retire && left !! revoked
      invariant server == before.(session := Open(false, revoked, false))
      invariant n == first + |revoked|
      invariant forall k :: first <= k < n ==> fate(k).Answered?
      decreases left
    {
      var b :| b in left;
      RevokeSent(server, b, fate(n));
      SomeLeft(retire, left, revoked);
      var reply;
      server, reply, n := Exchange(server, Revoke(b), fate, n);
      if reply.Error? { return; }
      left, revoked := left - {b}, revoked + {b};
    }
    assert revoked == retire;
    done := true;
  }

  /** A one-use boundary: it remembers that it was used and what it was told. */
  class Boundary {
    var used: bool
    var told: seq<Outcome>

    constructor ()
      ensures Valid() && !used
    {
      used, told := false, [];
    }

    /** Over its whole life a boundary is told one outcome if it is used, and none otherwise. */
    predicate Valid()
      reads this
    {
      if used then |told| == 1 else told == []
    }
  }

  /** The exported entry point. A used boundary is refused before anything is sent, and every
      boundary that is used is told exactly one outcome, the one that is true. `settleThrows` is
      the boundary's own hook failing, which withholds the value. */
  method ConsoleSourceTransaction(x: Script, acceptable: bool, boundary: Boundary?, settleThrows: bool)
    returns (value: bool, r: Option<Report>)
    requires boundary != null ==> boundary.Valid()
    modifies boundary
    ensures boundary != null ==> boundary.Valid()
    ensures r.Some? <==> acceptable && (boundary == null || !old(boundary.used))
    ensures r.Some? ==> Sound(r.value) && RetiresExactly(r.value) && PoolsClean(r.value)
    ensures value ==> r.Some? && r.value.outcome.CommitAcknowledged? && r.value.server.durableWork
    ensures boundary != null ==>
      if r.Some? then boundary.used && boundary.told == [r.value.outcome]
      else boundary.used == old(boundary.used) && boundary.told == old(boundary.told)
  {
    if !acceptable || (boundary != null && boundary.used) { return false, None; }
    if boundary != null { boundary.used := true; }
    var report := OwnedTransaction(x, boundary != null);
    r, value := Some(report), report.returned;
    if boundary != null {
      boundary.told := boundary.told + [report.outcome];
      if settleThrows { value := false; }
    }
  }
}
