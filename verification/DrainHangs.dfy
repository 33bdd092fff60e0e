/** When the graceful shutdown cannot end. Nobody reads the dead-letter channel, so a retry worker that finds it full
    waits for ever. Once no report is on its way any more, that can happen exactly if more dead letters can still come
    than there is room for. */
module DrainHangs {
  import opened Wrappers
  import opened Sequences
  import opened Sums
  import opened Pipeline
  import opened Frames
  import opened Deliveries
  import opened DeliverySets
  import opened ShutdownSafety
  import opened Costs
  import opened ShutdownWork
  import opened Drain
  import opened Guarantees

  /** No way of going on, however lucky, leads to the end of the shutdown. */
  ghost predicate CannotFinish(cfg: Config, s: State) {
    forall run :: ShutdownRun(cfg, run, false) && run[0] == s ==> !Last(run).phase.Drained?
  }

  /** No report is on its way: none in a request, with a handler, in a queue, with a verification worker, being turned
      into deliveries, or still to be published by recovery. */
  ghost predicate ReportsDone(k: Intake, r: Recovery) {
    && k.requests == 0 && k.handlers == {} && k.verification.queue == [] && k.reports.queue == []
    && (forall i :: 0 <= i < |k.verifiers| ==> k.verifiers[i].VIdle? || k.verifiers[i].VExited?)
    && (forall i :: 0 <= i < |k.extractors| ==> !k.extractors[i].EBuild?)
    && !r.JobScan? && !r.JobLoop? && !r.JobPublish?
  }

  /** Every call that the provider has accepted is recorded. */
  ghost predicate AcceptedAreRecorded(m: Mail) {
    && (forall i :: 0 <= i < |m.notifiers| ==> !m.notifiers[i].NSent?)
    && (forall i :: 0 <= i < |m.retriers| ==> !m.retriers[i].RSent?)
  }

  // ---------------------------------------------------------------- a provider that accepts nothing more

  /** No letter more or less, no report, and no accepted call unrecorded. */
  ghost predicate LettersKept(s: State, s': State) {
    && (!s'.panicked ==> Total(LetterPrices(s), s') == Total(LetterPrices(s), s))
    && ReportsDone(s'.intake, s'.recovery) && AcceptedAreRecorded(s'.mail)
  }

  ghost predicate Done(s: State) {
    ReportsDone(s.intake, s.recovery) && AcceptedAreRecorded(s.mail)
  }

  lemma NotifierKeepsLetters(cfg: Config, s: State, i: nat, a: NotifierAction)
    requires Done(s) && NotifierEnabled(cfg, s, i, a) && Refuses(Notify(i, a)) && !a.NDrop?
    ensures LettersKept(s, NotifierNext(cfg, s, i, a))
  {
    NotifierFlow(cfg, LetterPrices(s), s, i, a);
    NotifierLeaves(cfg, s, i, a);
  }

  lemma RetrierStatementKeepsLetters(cfg: Config, now: int, d: Option<Delivery>, tally: Option<JobStatus>, w: Retrier,
                                     a: RetrierAction)
    requires RetrierReady(now, w, a) && RetrierIsLocal(a) && !w.RSent? && !(a.RDeliver? && a.accepted)
    ensures var l := RetrierLocal(cfg, now, d, tally, w, a);
            var d' := if d.Some? && l.row.Some? then l.row else d;
            && RetrierLetters()(l.w) + Part(OneIfOpen(), d') == RetrierLetters()(w) + Part(OneIfOpen(), d)
            && !l.w.RSent?
  {
  }

  lemma RetrierKeepsLetters(cfg: Config, s: State, i: nat, a: RetrierAction)
    requires Done(s) && RetrierEnabled(cfg, s, i, a) && Refuses(Retry(i, a)) && !a.RDrop?
    ensures LettersKept(s, RetrierNext(cfg, s, i, a))
  {
    RetrierFlow(cfg, LetterPrices(s), s, i, a);
    RetrierLeaves(cfg, s, i, a);
    if RetrierIsLocal(a) {
      var w := s.mail.retriers[i];
      var tally, l := RetrierWrites(cfg, s, i, a);
      RetrierStatementKeepsLetters(cfg, s.now, RowAt(s.rows, RetrierRow(w)), tally, w, a);
    }
  }

  lemma RecoveryKeepsLetters(cfg: Config, s: State, a: RecoveryAction)
    requires Done(s) && RecoveryEnabled(cfg, s, a) && !a.RecoveryFails?
    ensures LettersKept(s, RecoveryNext(cfg, s, a))
  {
    RecoveryFlow(cfg, LetterPrices(s), s, a);
  }

  /** Nothing is left to do in the intake but to send ids and to leave. */
  lemma VerifierKeepsLetters(cfg: Config, s: State, i: nat, a: VerifierAction)
    requires Done(s) && VerifierEnabled(cfg, s, i, a)
    ensures LettersKept(s, VerifierNext(cfg, s, i, a))
  {
    VerifierFlow(cfg, LetterPrices(s), s, i, a);
  }

  lemma ExtractorStaysDone(k: Intake, r: Recovery, i: nat, w: Extractor)
    requires ReportsDone(k, r) && i < |k.extractors| && !w.EBuild?
    ensures ReportsDone(SetExtractor(k, i, w), r)
  {
  }

  lemma ExtractorKeepsLetters(cfg: Config, s: State, i: nat, a: ExtractorAction)
    requires Done(s) && ExtractorEnabled(cfg, s, i, a)
    ensures LettersKept(s, ExtractorNext(cfg, s, i, a))
  {
    var s' := ExtractorNext(cfg, s, i, a);
    assert !a.EReceive? && !a.ECommit?;
    assert s'.intake == SetExtractor(s.intake, i, s'.intake.extractors[i]);
    ExtractorStaysDone(s.intake, s.recovery, i, s'.intake.extractors[i]);
    ExtractorFlow(cfg, LetterPrices(s), s, i, a);
  }

  ghost predicate Refusing(cfg: Config, s: State) {
    Underway(cfg, s) && Done(s)
  }

  /** As long as the provider accepts nothing, no step brings the number of dead letters down. */
  lemma RefusalKeepsLetters(cfg: Config, s: State, a: Action)
    requires Refusing(cfg, s) && Enabled(cfg, s, a) && IsProgress(a) && Refuses(a)
    ensures Refusing(cfg, Next(cfg, s, a)) && LettersToCome(Next(cfg, s, a)) == LettersToCome(s)
  {
    StaysUnderway(cfg, s, a);
    StepLeaves(cfg, s, a);
    match a
    case Notify(i, n) => NotifierKeepsLetters(cfg, s, i, n);
    case Retry(i, r) => RetrierKeepsLetters(cfg, s, i, r);
    case Recover(c) => RecoveryKeepsLetters(cfg, s, c);
    case Shutdown(d) => ShutdownFlow(LetterPrices(s), s, d);
    case Verify(i, v) => VerifierKeepsLetters(cfg, s, i, v);
    case ExtractUsers(i, e) => ExtractorKeepsLetters(cfg, s, i, e);
  }

  // ---------------------------------------------------------------- a run that hangs

  /** Whoever has given up has given up a finished delivery. */
  ghost predicate DroppedAreFinished(s: State) {
    forall id :: id in s.dropped && id < |s.rows| ==> s.rows[id].Terminal()
  }

  lemma LettersAtEnd(s: State)
    requires NothingInProcess(s) && forall id: nat :: id < |s.rows| ==> s.rows[id].Terminal()
    ensures LettersToCome(s) == |s.mail.dead.queue|
  {
    var p := LetterPrices(s);
    SumIsZero(s.intake.verifiers, p.verifier);
    SumIsZero(s.intake.extractors, p.extractor);
    SumIsZero(s.mail.notifiers, p.notifier);
    SumIsZero(s.mail.retriers, p.retrier);
    SumIsZero(s.rows, p.row);
    LettersInQueue(s.mail.dead.queue);
  }

  /** All letters that came have found room: there were no more than that. */
  lemma EndHadRoom(cfg: Config, s: State)
    requires cfg.Valid() && SafeInv(cfg, s) && Underway(cfg, s) && DroppedAreFinished(s) && s.phase.Drained?
    ensures LettersToCome(s) <= cfg.deadCapacity
  {
    DrainedIsFinished(cfg, s);
    LettersAtEnd(s);
  }

  lemma NotAtEnd(cfg: Config, s: State)
    requires cfg.Valid() && SafeInv(cfg, s) && Underway(cfg, s) && DroppedAreFinished(s)
    requires LettersToCome(s) > cfg.deadCapacity
    ensures !s.phase.Drained?
  {
    if s.phase.Drained? {
      EndHadRoom(cfg, s);
    }
  }

  lemma RefusedStep(cfg: Config, s: State) returns (s': State)
    requires cfg.Valid() && SafeInv(cfg, s) && Refusing(cfg, s) && DroppedAreFinished(s)
    requires NobodyBlocked(cfg, s.mail) && !s.phase.Drained?
    ensures ShutdownStep(cfg, s, s', false) && SafeInv(cfg, s') && Refusing(cfg, s') && DroppedAreFinished(s')
    ensures LettersToCome(s') == LettersToCome(s) && WorkLeft(cfg, s') < WorkLeft(cfg, s)
  {
    var a, at := DrainMoves(cfg, s);
    s' := Next(cfg, s.(now := at), a);
    assert StepAt(cfg, s, a, at, s');
    RefusedAction(cfg, s, a, at);
    ShutdownStepPays(cfg, s, s', false);
    ShutdownStepKeepsSafe(cfg, s, s', false);
    StaysFinished(s, s');
  }

  lemma RefusedAction(cfg: Config, s: State, a: Action, at: int)
    requires Refusing(cfg, s) && CanMove(cfg, s, a, at)
    ensures var s' := Next(cfg, s.(now := at), a);
            Refusing(cfg, s') && LettersToCome(s') == LettersToCome(s) && |s'.rows| == |s.rows|
  {
    TimeChangesNothing(cfg, s, at);
    RefusalKeepsLetters(cfg, s.(now := at), a);
    QuietRows(cfg, s.(now := at), a);
  }

  lemma StaysFinished(s: State, s': State)
    requires DroppedAreFinished(s) && s'.dropped == s.dropped && RowsEvolve(s.rows, s'.rows) && |s'.rows| == |s.rows|
    ensures DroppedAreFinished(s')
  {
    forall id | id in s'.dropped && id < |s'.rows| ensures s'.rows[id].Terminal() {
      assert RowEvolves(s.rows[id], s'.rows[id]);
    }
  }

  /** With more letters to come than there is room for, some run of the shutdown blocks a worker for ever. */
  lemma {:induction false} RefusedRun(cfg: Config, s: State) returns (run: seq<State>, i: nat)
    requires cfg.Valid() && SafeInv(cfg, s) && Refusing(cfg, s) && DroppedAreFinished(s)
    requires LettersToCome(s) > cfg.deadCapacity
    ensures ShutdownRun(cfg, run, false) && run[0] == s && ShutInv(Last(run)) && Blocked(cfg, Last(run).mail, i)
    decreases WorkLeft(cfg, s)
  {
    if k: nat :| Blocked(cfg, s.mail, k) {
      run, i := [s], k;
    } else {
      NotAtEnd(cfg, s);
      var s' := RefusedStep(cfg, s);
      run, i := RefusedRun(cfg, s');
      RunWithFirst(cfg, s, run);
      run := [s] + run;
    }
  }

  lemma BlockedCannotFinish(cfg: Config, s: State, i: nat)
    requires ShutInv(s) && Blocked(cfg, s.mail, i)
    ensures CannotFinish(cfg, s)
  {
    forall run | ShutdownRun(cfg, run, false) && run[0] == s ensures !Last(run).phase.Drained? {
      DrainHangsOnFullDeadLetters(cfg, run, i);
    }
  }

  lemma RoomMeansFinish(cfg: Config, run: seq<State>)
    requires cfg.Valid() && ShutdownRun(cfg, run, false) && DrainInv(cfg, run[0])
    ensures !CannotFinish(cfg, Last(run))
  {
    DrainsAreShort(cfg, run, false);
    var rest := DrainReachesItsEnd(cfg, Last(run));
  }

  /** Some run of the shutdown gets into a state that it cannot finish from. */
  ghost predicate CanHang(cfg: Config, s: State) {
    exists run :: ShutdownRun(cfg, run, false) && run[0] == s && CannotFinish(cfg, Last(run))
  }

  /** While a shutdown is under way and no report is on its way, no accepted call is unrecorded and no unfinished
      delivery has been given up, the shutdown can hang exactly if more dead letters can come than there is room for. */
  lemma HangsExactlyWithoutRoom(cfg: Config, s: State)
    requires cfg.Valid() && Reachable(cfg, s) && ShuttingDown(s.phase) && !s.cancelled
    requires ReportsDone(s.intake, s.recovery) && AcceptedAreRecorded(s.mail) && DroppedAreFinished(s)
    ensures CanHang(cfg, s) <==> LettersToCome(s) > cfg.deadCapacity
  {
    ReachableIsSafe(cfg, s);
    if LettersToCome(s) > cfg.deadCapacity {
      var run, i := RefusedRun(cfg, s);
      BlockedCannotFinish(cfg, Last(run), i);
    } else if CanHang(cfg, s) {
      var run :| ShutdownRun(cfg, run, false) && run[0] == s && CannotFinish(cfg, Last(run));
      RoomMeansFinish(cfg, run);
    }
  }
}
