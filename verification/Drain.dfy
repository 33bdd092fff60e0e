/** The graceful shutdown ends. From the first signal on every step leaves less to do, whether it succeeds or fails; and
    until the last channel is closed some step can be taken, given room in the dead-letter channel, which nobody reads,
    for every delivery that can still fail. */
module Drain {
  import opened Sequences
  import opened Sums
  import opened Pipeline
  import opened Frames
  import opened Deliveries
  import opened ShutdownSafety
  import opened Costs
  import opened ShutdownWork

  // ---------------------------------------------------------------- the shutdown under way

  /** From the first signal to the last channel. */
  predicate ShuttingDown(phase: Phase) {
    phase.Stopping? || phase.AwaitRecovery? || phase.Draining? || phase.Drained?
  }

  ghost predicate Underway(cfg: Config, s: State) {
    BaseInv(cfg, s) && ShutInv(s) && !s.cancelled && ShuttingDown(s.phase)
  }

  /** The shutdown is under way and there is room for all dead letters. */
  ghost predicate DrainInv(cfg: Config, s: State) {
    Underway(cfg, s) && LettersToCome(s) <= cfg.deadCapacity
  }

  lemma StaysUnderway(cfg: Config, s: State, a: Action)
    requires Underway(cfg, s) && Enabled(cfg, s, a) && Continues(a)
    ensures Underway(cfg, Next(cfg, s, a))
  {
    NextKeepsBase(cfg, s, a);
    NextKeepsShut(cfg, s, a);
    StepLeaves(cfg, s, a);
  }

  lemma ActionPays(cfg: Config, s: State, a: Action)
    requires Underway(cfg, s) && Enabled(cfg, s, a) && Continues(a)
    ensures Paid(cfg, s, Next(cfg, s, a))
  {
    match a
    case Handler(h) => HandlerPays(cfg, s, h);
    case Verify(i, v) => VerifierPays(cfg, s, i, v);
    case ExtractUsers(i, e) =>
      assert ExtractorOk(|s.rows|, |s.jobs|, s.intake.extractors[i]);
      ExtractorPays(cfg, s, i, e);
    case Notify(i, n) => NotifierPays(cfg, s, i, n);
    case Retry(i, r) =>
      assert RetrierOk(cfg, s.rows, |s.jobs|, s.mail.retriers[i]);
      RetrierPays(cfg, s, i, r);
    case Recover(c) => RecoveryPays(cfg, s, c);
    case Shutdown(d) => PhasePays(cfg, s, d);
  }

  /** Every step of the shutdown, whatever the interleaving and whatever fails, leaves less to do and keeps the shutdown
      going, unless it ends the shutdown before its time. */
  lemma StepPays(cfg: Config, s: State, a: Action)
    requires Underway(cfg, s) && Enabled(cfg, s, a) && Continues(a)
    ensures WorkLeft(cfg, Next(cfg, s, a)) < WorkLeft(cfg, s)
    ensures LettersToCome(Next(cfg, s, a)) <= LettersToCome(s)
    ensures Underway(cfg, Next(cfg, s, a))
  {
    StaysUnderway(cfg, s, a);
    ActionPays(cfg, s, a);
  }

  // ---------------------------------------------------------------- some step can always be taken

  /** A full dead-letter channel and a worker that waits to send on it. */
  predicate Blocked(cfg: Config, m: Mail, i: nat) {
    i < |m.retriers| && m.retriers[i].RDead? && !Ready(m.dead, cfg.deadCapacity)
  }

  ghost predicate NobodyBlocked(cfg: Config, m: Mail) {
    forall i: nat :: !Blocked(cfg, m, i)
  }

  /** The provider accepts nothing more. */
  predicate Refuses(a: Action) {
    !(a.Notify? && a.n.NDeliver? && a.n.accepted) && !(a.Retry? && a.r.RDeliver? && a.r.accepted)
  }

  ghost predicate CanMove(cfg: Config, s: State, a: Action, at: int) {
    at >= s.now && Enabled(cfg, s.(now := at), a) && IsProgress(a) && Refuses(a)
  }

  /** What a busy retry worker can do next, and when. */
  lemma BusyRetrierMoves(cfg: Config, s: State, i: nat) returns (a: Action, at: int)
    requires !s.panicked && NobodyBlocked(cfg, s.mail) && i < |s.mail.retriers|
    requires !s.mail.retriers[i].RIdle? && !s.mail.retriers[i].RExited?
    ensures CanMove(cfg, s, a, at)
  {
    at := s.now;
    match s.mail.retriers[i]
    case RLoad(_) => a := Retry(i, RRead);
    case RWait(_, _, due) =>
      if due.Some? && due.value > s.now {
        at := due.value;
      }
      a := Retry(i, RWake);
    case RClaim(_, _) => a := Retry(i, RTryClaim);
    case RSend(_, _) => a := Retry(i, RDeliver(false));
    case RFailed(_, _, _) => a := Retry(i, RRecord);
    case RSent(_, _) => a := Retry(i, RRecord);
    case RBury(_, _) => a := Retry(i, RTryBury);
    case RCount(_, _) => a := Retry(i, RTally);
    case RVerdict(_, _, _) => a := Retry(i, RFinalize);
    case RDead(_) =>
      a := Retry(i, RSendDead);
      assert !Blocked(cfg, s.mail, i);
  }

  /** Nobody is left in the retry stage: its workers idle or gone, nothing queued. */
  ghost predicate RetryStageEmpty(s: State) {
    && s.mail.retries.queue == []
    && forall i :: 0 <= i < |s.mail.retriers| ==> s.mail.retriers[i].RIdle? || s.mail.retriers[i].RExited?
  }

  ghost predicate NotifyStageEmpty(s: State) {
    && s.mail.deliveries.queue == []
    && forall i :: 0 <= i < |s.mail.notifiers| ==> s.mail.notifiers[i].NIdle? || s.mail.notifiers[i].NExited?
  }

  ghost predicate ExtractStageEmpty(s: State) {
    && s.intake.reports.queue == []
    && forall i :: 0 <= i < |s.intake.extractors| ==> s.intake.extractors[i].EIdle? || s.intake.extractors[i].EExited?
  }

  ghost predicate VerifyStageEmpty(s: State) {
    && s.intake.verification.queue == []
    && forall i :: 0 <= i < |s.intake.verifiers| ==> s.intake.verifiers[i].VIdle? || s.intake.verifiers[i].VExited?
  }

  lemma RetryStageMoves(cfg: Config, s: State) returns (a: Action, at: int)
    requires cfg.Valid() && Underway(cfg, s) && NobodyBlocked(cfg, s.mail) && !RetryStageEmpty(s)
    ensures CanMove(cfg, s, a, at)
  {
    if i :| 0 <= i < |s.mail.retriers| && !s.mail.retriers[i].RIdle? && !s.mail.retriers[i].RExited? {
      a, at := BusyRetrierMoves(cfg, s, i);
    } else {
      assert s.mail.retriers[0].RIdle?;
      a, at := Retry(0, RReceive), s.now;
    }
  }

  lemma BusyNotifierMoves(cfg: Config, s: State, i: nat) returns (a: Action)
    requires !s.panicked && Ready(s.mail.retries, cfg.capacity)
    requires i < |s.mail.notifiers| && !s.mail.notifiers[i].NIdle? && !s.mail.notifiers[i].NExited?
    ensures CanMove(cfg, s, a, s.now)
  {
    match s.mail.notifiers[i]
    case NLoad(_) => a := Notify(i, NRead);
    case NClaim(_) => a := Notify(i, NTryClaim);
    case NSend(_) => a := Notify(i, NDeliver(false));
    case NFailed(_, _) => a := Notify(i, NRecord);
    case NSent(_) => a := Notify(i, NRecord);
    case NRetry(_) => a := Notify(i, NHandOver);
    case NCount(_) => a := Notify(i, NTally);
    case NVerdict(_, _) => a := Notify(i, NFinalize);
  }

  lemma NotifyStageMoves(cfg: Config, s: State) returns (a: Action)
    requires cfg.Valid() && Underway(cfg, s) && RetryStageEmpty(s) && !NotifyStageEmpty(s)
    ensures CanMove(cfg, s, a, s.now)
  {
    if i :| 0 <= i < |s.mail.notifiers| && !s.mail.notifiers[i].NIdle? && !s.mail.notifiers[i].NExited? {
      a := BusyNotifierMoves(cfg, s, i);
    } else {
      assert s.mail.notifiers[0].NIdle?;
      a := Notify(0, NReceive);
    }
  }

  lemma ExtractStageMoves(cfg: Config, s: State) returns (a: Action)
    requires cfg.Valid() && Underway(cfg, s) && NotifyStageEmpty(s) && !ExtractStageEmpty(s)
    ensures CanMove(cfg, s, a, s.now)
  {
    if i :| 0 <= i < |s.intake.extractors| && !s.intake.extractors[i].EIdle? && !s.intake.extractors[i].EExited? {
      assert ExtractorOk(|s.rows|, |s.jobs|, s.intake.extractors[i]);
      a := ExtractUsers(i, if s.intake.extractors[i].EBuild? then ECommit else ESend);
    } else {
      assert s.intake.extractors[0].EIdle?;
      a := ExtractUsers(0, EReceive);
    }
  }

  lemma VerifyStageMoves(cfg: Config, s: State) returns (a: Action)
    requires cfg.Valid() && Underway(cfg, s) && ExtractStageEmpty(s) && !VerifyStageEmpty(s)
    ensures CanMove(cfg, s, a, s.now)
  {
    if i :| 0 <= i < |s.intake.verifiers| && !s.intake.verifiers[i].VIdle? && !s.intake.verifiers[i].VExited? {
      a := Verify(i, if s.intake.verifiers[i].VFetch? then VVerify(true) else VSend);
    } else {
      assert s.intake.verifiers[0].VIdle?;
      a := Verify(0, VReceive);
    }
  }

  /** Recovery has room for what it sends as soon as the stages are empty. */
  lemma RecoveryMoves(cfg: Config, s: State) returns (a: Action)
    requires cfg.Valid() && !s.panicked && !s.recovery.Recovered?
    requires s.intake.verification.queue == [] && s.mail.deliveries.queue == [] && s.mail.retries.queue == []
    ensures CanMove(cfg, s, a, s.now)
  {
    match s.recovery
    case JobScan => a := Recover(ScanJobs);
    case JobLoop(_) => a := Recover(NextJob);
    case JobPublish(_, _) => a := Recover(PublishJob);
    case ResetRows => a := Recover(ReleaseRows);
    case Snapshot => a := Recover(TakeSnapshot);
    case WakeLoop(todo) => a := Recover(if todo == [] then Finish else SendWake);
  }

  /** Everything is idle: the workers of the closed stage leave, then the stage is done. */
  lemma EmptyStageMoves(cfg: Config, s: State) returns (a: Action)
    requires cfg.Valid() && Underway(cfg, s) && s.phase.Draining?
    requires RetryStageEmpty(s) && NotifyStageEmpty(s) && ExtractStageEmpty(s) && VerifyStageEmpty(s)
    ensures CanMove(cfg, s, a, s.now)
  {
    var stage := s.phase.stage;
    a := Shutdown(StageDone);
    if stage == 0 {
      if i :| 0 <= i < |s.intake.verifiers| && !s.intake.verifiers[i].VExited? {
        a := Verify(i, VExit);
      }
    } else if stage == 1 {
      if i :| 0 <= i < |s.intake.extractors| && !s.intake.extractors[i].EExited? {
        a := ExtractUsers(i, EExit);
      }
    } else if stage == 2 {
      if i :| 0 <= i < |s.mail.notifiers| && !s.mail.notifiers[i].NExited? {
        a := Notify(i, NExit);
      }
    } else {
      if i :| 0 <= i < |s.mail.retriers| && !s.mail.retriers[i].RExited? {
        a := Retry(i, RExit);
      }
    }
  }

  /** The stages are empty: requests, handlers and recovery come to their end, then the channels are closed. */
  lemma QuietStagesMove(cfg: Config, s: State) returns (a: Action)
    requires cfg.Valid() && Underway(cfg, s) && !s.phase.Drained?
    requires RetryStageEmpty(s) && NotifyStageEmpty(s) && ExtractStageEmpty(s) && VerifyStageEmpty(s)
    ensures CanMove(cfg, s, a, s.now)
  {
    if s.intake.requests > 0 {
      a := Handler(Decline);
    } else if job: nat :| job in s.intake.handlers {
      a := Handler(Publish(job));
    } else if !s.recovery.Recovered? {
      a := RecoveryMoves(cfg, s);
    } else if s.phase.Draining? {
      a := EmptyStageMoves(cfg, s);
    } else {
      a := Shutdown(if s.phase.Stopping? then HandlersDone else RecoveryDone);
    }
  }

  /** The shutdown never gets stuck unless a worker is blocked: until it is over, some step can be taken now or
      later, even if the provider accepts nothing more. */
  lemma DrainMoves(cfg: Config, s: State) returns (a: Action, at: int)
    requires cfg.Valid() && Underway(cfg, s) && NobodyBlocked(cfg, s.mail) && !s.phase.Drained?
    ensures CanMove(cfg, s, a, at)
  {
    at := s.now;
    if !RetryStageEmpty(s) {
      a, at := RetryStageMoves(cfg, s);
    } else if !NotifyStageEmpty(s) {
      a := NotifyStageMoves(cfg, s);
    } else if !ExtractStageEmpty(s) {
      a := ExtractStageMoves(cfg, s);
    } else if !VerifyStageEmpty(s) {
      a := VerifyStageMoves(cfg, s);
    } else {
      a := QuietStagesMove(cfg, s);
    }
  }

  lemma {:induction false} LettersInQueue(queue: seq<nat>)
    ensures Sum(queue, Each(1)) == |queue|
    decreases |queue|
  {
    if queue != [] {
      LettersInQueue(Init(queue));
    }
  }

  lemma RoomForLetters(cfg: Config, s: State)
    requires LettersToCome(s) <= cfg.deadCapacity
    ensures NobodyBlocked(cfg, s.mail)
  {
    LettersInQueue(s.mail.dead.queue);
    forall i: nat ensures !Blocked(cfg, s.mail, i) {
      if i < |s.mail.retriers| {
        SumIsAtLeast(s.mail.retriers, i, RetrierLetters());
      }
    }
  }

  // ---------------------------------------------------------------- a full dead-letter channel

  lemma RetrierStaysBlocked(cfg: Config, s: State, j: nat, r: RetrierAction, i: nat)
    requires RetrierEnabled(cfg, s, j, r) && !r.RDrop? && Blocked(cfg, s.mail, i)
    ensures Blocked(cfg, RetrierNext(cfg, s, j, r).mail, i)
  {
    if RetrierIsLocal(r) {
      var tally, l := RetrierWrites(cfg, s, j, r);
    }
  }

  /** Without room the drain does hang: nobody reads the dead-letter channel, so the worker waits for ever. */
  lemma FullDeadLettersBlock(cfg: Config, s: State, a: Action, i: nat)
    requires Enabled(cfg, s, a) && IsProgress(a) && ShutInv(s) && Blocked(cfg, s.mail, i)
    ensures Blocked(cfg, Next(cfg, s, a).mail, i)
  {
    StepLeaves(cfg, s, a);
    if a.Retry? {
      RetrierStaysBlocked(cfg, s, a.i, a.r, i);
    }
  }

  // ---------------------------------------------------------------- whole drains

  /** A step of the shutdown; `faults` tells whether database errors and abandoned waits are possible. */
  ghost predicate ShutdownStep(cfg: Config, s: State, s': State, faults: bool) {
    exists a, at :: (if faults then Continues(a) else IsProgress(a)) && StepAt(cfg, s, a, at, s')
  }

  /** A run without crashes and impatience. */
  ghost predicate ShutdownRun(cfg: Config, run: seq<State>, faults: bool) {
    run != [] && forall k :: 0 <= k < |run| - 1 ==> ShutdownStep(cfg, run[k], run[k + 1], faults)
  }

  ghost predicate CanGoOn(cfg: Config, s: State, faults: bool) {
    exists s' :: ShutdownStep(cfg, s, s', faults)
  }

  lemma TimeChangesNothing(cfg: Config, s: State, at: int)
    requires Underway(cfg, s)
    ensures Underway(cfg, s.(now := at)) && WorkLeft(cfg, s.(now := at)) == WorkLeft(cfg, s)
    ensures LettersToCome(s.(now := at)) == LettersToCome(s)
  {
    SameTotal(WorkPrices(cfg, s), s, s.(now := at));
    SameTotal(LetterPrices(s), s, s.(now := at));
  }

  lemma ShutdownStepPays(cfg: Config, s: State, s': State, faults: bool)
    requires Underway(cfg, s) && ShutdownStep(cfg, s, s', faults)
    ensures Underway(cfg, s') && WorkLeft(cfg, s') < WorkLeft(cfg, s) && LettersToCome(s') <= LettersToCome(s)
  {
    var a, at :| (if faults then Continues(a) else IsProgress(a)) && StepAt(cfg, s, a, at, s');
    TimeChangesNothing(cfg, s, at);
    StepPays(cfg, s.(now := at), a);
  }

  lemma RunWithoutLast(cfg: Config, run: seq<State>, faults: bool)
    requires ShutdownRun(cfg, run, faults) && |run| > 1
    ensures ShutdownRun(cfg, Init(run), faults) && ShutdownStep(cfg, Last(Init(run)), Last(run), faults)
  {
  }

  lemma RunWithFirst(cfg: Config, s: State, run: seq<State>)
    requires ShutdownRun(cfg, run, false) && ShutdownStep(cfg, s, run[0], false)
    ensures ShutdownRun(cfg, [s] + run, false) && Last([s] + run) == Last(run)
  {
    var all := [s] + run;
    forall k | 0 <= k < |all| - 1 ensures ShutdownStep(cfg, all[k], all[k + 1], false) {
      if k > 0 {
        assert ShutdownStep(cfg, run[k - 1], run[k - 1 + 1], false);
      }
    }
  }

  /** No shutdown takes more steps than there was work at its start. */
  lemma {:induction false} DrainsAreShort(cfg: Config, run: seq<State>, faults: bool)
    requires ShutdownRun(cfg, run, faults) && Underway(cfg, run[0])
    ensures Underway(cfg, Last(run)) && |run| - 1 + WorkLeft(cfg, Last(run)) <= WorkLeft(cfg, run[0])
    ensures LettersToCome(Last(run)) <= LettersToCome(run[0])
    decreases |run|
  {
    if |run| > 1 {
      RunWithoutLast(cfg, run, faults);
      DrainsAreShort(cfg, Init(run), faults);
      ShutdownStepPays(cfg, Last(Init(run)), Last(run), faults);
    }
  }

  lemma SomeStep(cfg: Config, s: State) returns (s': State)
    requires cfg.Valid() && DrainInv(cfg, s) && !s.phase.Drained?
    ensures ShutdownStep(cfg, s, s', false) && ShutdownStep(cfg, s, s', true)
  {
    RoomForLetters(cfg, s);
    var a, at := DrainMoves(cfg, s);
    s' := Next(cfg, s.(now := at), a);
    assert StepAt(cfg, s, a, at, s');
  }

  lemma NoStepAtEnd(cfg: Config, s: State, a: Action, at: int)
    requires NothingInProcess(s) && s.phase.Drained?
    ensures !(Enabled(cfg, s.(now := at), a) && Continues(a))
  {
  }

  lemma NothingAfterEnd(cfg: Config, s: State, faults: bool)
    requires cfg.Valid() && Underway(cfg, s) && s.phase.Drained?
    ensures !CanGoOn(cfg, s, faults)
  {
    DrainedIsEmpty(cfg, s);
    forall a, at, s' | StepAt(cfg, s, a, at, s') ensures !Continues(a) {
      NoStepAtEnd(cfg, s, a, at);
    }
  }

  /** With room for all dead letters the shutdown stops exactly where all channels are closed, and nowhere before. */
  lemma DrainStopsOnlyAtItsEnd(cfg: Config, s: State, faults: bool)
    requires cfg.Valid() && DrainInv(cfg, s)
    ensures s.phase.Drained? <==> !CanGoOn(cfg, s, faults)
  {
    if s.phase.Drained? {
      NothingAfterEnd(cfg, s, faults);
    } else {
      var s' := SomeStep(cfg, s);
      assert ShutdownStep(cfg, s, s', faults);
    }
  }

  /** From every state of such a shutdown there is a way to its end. */
  lemma {:induction false} DrainReachesItsEnd(cfg: Config, s: State) returns (run: seq<State>)
    requires cfg.Valid() && DrainInv(cfg, s)
    ensures ShutdownRun(cfg, run, false) && run[0] == s && Last(run).phase.Drained?
    decreases WorkLeft(cfg, s)
  {
    if s.phase.Drained? {
      run := [s];
    } else {
      var s' := SomeStep(cfg, s);
      ShutdownStepPays(cfg, s, s', false);
      var rest := DrainReachesItsEnd(cfg, s');
      RunWithFirst(cfg, s, rest);
      run := [s] + rest;
    }
  }

  /** With a full dead-letter channel and a worker that waits to send on it no run of the drain reaches its end. */
  lemma {:induction false} DrainHangsOnFullDeadLetters(cfg: Config, run: seq<State>, i: nat)
    requires ShutdownRun(cfg, run, false) && ShutInv(run[0]) && Blocked(cfg, run[0].mail, i)
    ensures ShutInv(Last(run)) && !Last(run).phase.Drained? && Blocked(cfg, Last(run).mail, i)
    decreases |run|
  {
    if |run| > 1 {
      RunWithoutLast(cfg, run, false);
      DrainHangsOnFullDeadLetters(cfg, Init(run), i);
      var s := Last(Init(run));
      var a, at :| IsProgress(a) && StepAt(cfg, s, a, at, Last(run));
      NextKeepsShut(cfg, s.(now := at), a);
      FullDeadLettersBlock(cfg, s.(now := at), a, i);
    }
  }
}
