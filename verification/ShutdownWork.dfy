/** What is left to do in a shutdown. Everything still in the pipeline has a price that covers all it can turn into, and
    every step that goes on with the shutdown lowers the total, whether it succeeds or fails; and every open delivery,
    and every report on its way, counts for the dead letters that may come of it, whose number no step raises. */
module ShutdownWork {
  import opened Wrappers
  import opened Sequences
  import opened Sums
  import opened Pipeline
  import opened Frames
  import opened Deliveries
  import opened Interference
  import opened Costs

  // ---------------------------------------------------------------- work that is left

  /** Recovery has not yet listed the deliveries it is going to wake. */
  predicate Early(r: Recovery) {
    !r.WakeLoop? && !r.Recovered?
  }

  /** Ten for every attempt that is left, and what waking the delivery may cost. */
  function AttemptsLeft(maxRetries: nat, wake: nat): Delivery -> nat {
    (d: Delivery) => wake + if d.attempts <= maxRetries + 1 then 10 * (maxRetries + 1 - d.attempts) else 0
  }

  /** A report pays for a delivery row and a message for every user. */
  function ReportPrice(maxRetries: nat, users: nat, wake: nat): nat {
    2 + Times(users, 10 * (maxRetries + 1) + wake + 4)
  }

  function VerifierWork(report: nat): Verifier -> nat {
    (w: Verifier) => match w
      case VExited => 0
      case VIdle => 1
      case VPublish(_) => report + 2
      case VFetch(_) => report + 3
  }

  function ExtractorWork(report: nat): Extractor -> nat {
    (w: Extractor) => match w
      case EExited => 0
      case EIdle => 1
      case EPublish(todo) => 1 + 4 * |todo|
      case EBuild(_) => report
  }

  function NotifierWork(): Notifier -> nat {
    (w: Notifier) => match w
      case NExited => 0
      case NIdle => 1
      case NClaim(_) => 2
      case NVerdict(_, _) => 2
      case NLoad(_) => 3
      case NCount(_) => 3
      case NRetry(_) => 8
      case NFailed(_, _) => 9
      case NSent(_) => 9
      case NSend(_) => 10
  }

  function RetrierWork(): Retrier -> nat {
    (w: Retrier) => match w
      case RExited => 0
      case RIdle => 1
      case RDead(_) => 2
      case RClaim(_, _) => 2
      case RWait(_, _, _) => 3
      case RVerdict(_, _, _) => 3
      case RCount(_, _) => 4
      case RBury(_, _) => 5
      case RLoad(_) => 6
      case RFailed(_, _, _) => 7
      case RSent(_, _) => 7
      case RSend(_, _) => 8
  }

  /** A job that recovery may publish costs more than its message, a delivery that it wakes more than any wake-up. */
  function RecoveryWork(report: nat, jobs: nat): Recovery -> nat {
    (r: Recovery) => match r
      case JobScan => 15 + Times(jobs, report + 5)
      case JobLoop(todo) => 14 + Times(|todo|, report + 5)
      case JobPublish(_, todo) => 14 + Times(|todo|, report + 5) + report + 4
      case ResetRows => 13
      case Snapshot => 12
      case WakeLoop(todo) => 1 + 7 * |todo|
      case Recovered => 0
  }

  /** A request pays for its handler, and for a job more that recovery may find. */
  function Work(maxRetries: nat, users: nat, jobs: nat, early: bool): Prices {
    var wake := if early then 8 else 0;
    var report := ReportPrice(maxRetries, users, wake);
    Prices(2 * report + 10, report + 4, report + 3, VerifierWork(report), report, ExtractorWork(report),
           AttemptsLeft(maxRetries, wake), 3, NotifierWork(), 6, RetrierWork(), 0, RecoveryWork(report, jobs))
  }

  function PhaseWork(phase: Phase): nat {
    match phase
    case Stopping => 6
    case AwaitRecovery => 5
    case Draining(stage) => if stage <= 3 then 4 - stage else 0
    case _ => 0
  }

  function WorkPrices(cfg: Config, s: State): Prices {
    Work(cfg.maxRetries, |s.users|, |s.jobs|, Early(s.recovery))
  }

  function WorkLeft(cfg: Config, s: State): nat {
    Total(WorkPrices(cfg, s), s) + PhaseWork(s.phase)
  }

  // ---------------------------------------------------------------- room in the dead-letter channel

  function OneIfOpen(): Delivery -> nat {
    (d: Delivery) => if d.Terminal() then 0 else 1
  }

  function RetrierLetters(): Retrier -> nat {
    (w: Retrier) => if w.RDead? || (w.RCount? && w.dead.Some?) || (w.RVerdict? && w.dead.Some?) then 1 else 0
  }

  function VerifierLetters(users: nat): Verifier -> nat {
    (w: Verifier) => if w.VFetch? || w.VPublish? then users else 0
  }

  function ExtractorLetters(users: nat): Extractor -> nat {
    (w: Extractor) => if w.EBuild? then users else 0
  }

  function RecoveryLetters(users: nat, jobs: nat): Recovery -> nat {
    (r: Recovery) => match r
      case JobScan => Times(jobs, users)
      case JobLoop(todo) => Times(|todo|, users)
      case JobPublish(_, todo) => Times(|todo|, users) + users
      case _ => 0
  }

  /** Every open delivery can still become a dead letter, every report still on its way one for each user. */
  function Letters(users: nat, jobs: nat): Prices {
    Prices(2 * users, users, users, VerifierLetters(users), users, ExtractorLetters(users), OneIfOpen(),
           0, Each(0), 0, RetrierLetters(), 1, RecoveryLetters(users, jobs))
  }

  function LetterPrices(s: State): Prices {
    Letters(|s.users|, |s.jobs|)
  }

  function LettersToCome(s: State): nat {
    Total(LetterPrices(s), s)
  }

  // ---------------------------------------------------------------- every step pays

  /** A step that does not end the shutdown before its time: neither a crash nor impatience. Database errors and
      abandoned waits are included. */
  predicate Continues(a: Action) {
    !a.Crash? && !(a.Shutdown? && (a.d.GiveUp? || a.d.Cancel?))
  }

  /** A step without any fault. */
  predicate IsProgress(a: Action) {
    !a.Crash? && !IsFault(a)
  }

  /** Less work is left, and no more dead letters can come. */
  ghost predicate Paid(cfg: Config, s: State, s': State) {
    WorkLeft(cfg, s') < WorkLeft(cfg, s) && LettersToCome(s') <= LettersToCome(s)
  }

  /** The prices stay what they are. */
  ghost predicate SamePrices(s: State, s': State) {
    && s'.users == s.users && |s'.jobs| == |s.jobs| && Early(s'.recovery) == Early(s.recovery) && s'.phase == s.phase
  }

  lemma PaidIfCheaper(cfg: Config, s: State, s': State)
    requires SamePrices(s, s') && Total(WorkPrices(cfg, s), s') < Total(WorkPrices(cfg, s), s)
    requires Total(LetterPrices(s), s') <= Total(LetterPrices(s), s)
    ensures Paid(cfg, s, s')
  {
  }

  // ---------------------------------------------------------------- the intake pays

  /** An accepted report: its request pays for the handler, and for one job more that recovery may find. */
  lemma AcceptLowers(cfg: Config, p: Prices, q: Prices, s: State, a: HandlerAction, extra: nat)
    requires HandlerEnabled(s, a) && a.Accept? && |s.jobs| !in s.intake.handlers
    requires q == p.(recovery := q.recovery) && q.recovery(s.recovery) <= p.recovery(s.recovery) + extra
    ensures Total(q, HandlerNext(cfg, s, a)) + p.request <= Total(p, s) + p.handler + extra
  {
    HandlerFlow(cfg, p, s, a);
  }

  lemma AcceptPays(cfg: Config, s: State, a: HandlerAction)
    requires HandlerEnabled(s, a) && a.Accept? && |s.jobs| !in s.intake.handlers
    ensures Paid(cfg, s, HandlerNext(cfg, s, a))
  {
    var s' := HandlerNext(cfg, s, a);
    HandlerLeaves(cfg, s, a);
    assert Total(WorkPrices(cfg, s'), s') < Total(WorkPrices(cfg, s), s) by {
      AcceptLowers(cfg, WorkPrices(cfg, s), WorkPrices(cfg, s'), s, a, WorkPrices(cfg, s).reports + 5);
    }
    assert Total(LetterPrices(s'), s') <= Total(LetterPrices(s), s) by {
      AcceptLowers(cfg, LetterPrices(s), LetterPrices(s'), s, a, |s.users|);
    }
  }

  lemma HandlerPays(cfg: Config, s: State, a: HandlerAction)
    requires HandlerEnabled(s, a) && !a.Begin? && |s.jobs| !in s.intake.handlers
    ensures Paid(cfg, s, HandlerNext(cfg, s, a))
  {
    if a.Accept? {
      AcceptPays(cfg, s, a);
    } else {
      HandlerLeaves(cfg, s, a);
      HandlerFlow(cfg, WorkPrices(cfg, s), s, a);
      HandlerFlow(cfg, LetterPrices(s), s, a);
      PaidIfCheaper(cfg, s, HandlerNext(cfg, s, a));
    }
  }

  lemma VerifierTurns(cfg: Config, s: State, i: nat, a: VerifierAction, report: nat)
    requires VerifierEnabled(cfg, s, i, a)
    ensures var s', w := VerifierNext(cfg, s, i, a), s.intake.verifiers[i];
            && i < |s'.intake.verifiers|
            && var w' := s'.intake.verifiers[i];
               && VerifierWork(report)(w') + (if a.VSend? then report else 0)
                  < VerifierWork(report)(w) + (if a.VReceive? then report + 3 else 0)
               && VerifierLetters(|s.users|)(w') + (if a.VSend? then |s.users| else 0)
                  <= VerifierLetters(|s.users|)(w) + (if a.VReceive? then |s.users| else 0)
  {
  }

  lemma VerifierPays(cfg: Config, s: State, i: nat, a: VerifierAction)
    requires VerifierEnabled(cfg, s, i, a)
    ensures Paid(cfg, s, VerifierNext(cfg, s, i, a))
  {
    VerifierLeaves(cfg, s, i, a);
    VerifierTurns(cfg, s, i, a, WorkPrices(cfg, s).reports);
    VerifierFlow(cfg, WorkPrices(cfg, s), s, i, a);
    VerifierFlow(cfg, LetterPrices(s), s, i, a);
    PaidIfCheaper(cfg, s, VerifierNext(cfg, s, i, a));
  }

  lemma {:induction false} AffectedAreUsers(cfg: Config, users: seq<User>, place: int)
    ensures |Affected(cfg, users, place)| <= |users|
    decreases |users|
  {
    if users != [] {
      AffectedAreUsers(cfg, Init(users), place);
    }
  }

  lemma NewRowCount(cfg: Config, s: State, i: nat)
    requires ExtractorEnabled(cfg, s, i, ECommit)
    ensures var s' := ExtractorNext(cfg, s, i, ECommit);
            && |s.rows| <= |s'.rows| && |s'.rows| - |s.rows| <= |s.users| && i < |s'.intake.extractors|
            && var w' := s'.intake.extractors[i];
               w'.EIdle? || (w'.EPublish? && |w'.todo| == |s'.rows| - |s.rows|)
  {
    var job := s.intake.extractors[i].job;
    if job < |s.jobs| {
      AffectedAreUsers(cfg, s.users, s.jobs[job].place);
    }
  }

  lemma {:induction false} NewRowsCost(rows: seq<Delivery>, maxRetries: nat, users: nat, wake: nat)
    requires |rows| <= users
    ensures Sum(rows, AttemptsLeft(maxRetries, wake)) + 4 * |rows| + 2 <= ReportPrice(maxRetries, users, wake)
    ensures Sum(rows, OneIfOpen()) <= users
    decreases |rows|
  {
    if rows != [] {
      NewRowsCost(Init(rows), maxRetries, users - 1, wake);
    }
  }

  lemma CommitPays(cfg: Config, s: State, i: nat)
    requires ExtractorEnabled(cfg, s, i, ECommit)
    ensures Paid(cfg, s, ExtractorNext(cfg, s, i, ECommit))
  {
    var s' := ExtractorNext(cfg, s, i, ECommit);
    NewRowCount(cfg, s, i);
    NewRowsCost(s'.rows[|s.rows|..], cfg.maxRetries, |s.users|, if Early(s.recovery) then 8 else 0);
    assert SamePrices(s, s') by {
      ExtractorLeaves(cfg, s, i, ECommit);
    }
    assert Total(WorkPrices(cfg, s), s') < Total(WorkPrices(cfg, s), s) by {
      CommitFlow(cfg, WorkPrices(cfg, s), s, i);
    }
    assert Total(LetterPrices(s), s') <= Total(LetterPrices(s), s) by {
      CommitFlow(cfg, LetterPrices(s), s, i);
    }
    PaidIfCheaper(cfg, s, s');
  }

  lemma ExtractorPays(cfg: Config, s: State, i: nat, a: ExtractorAction)
    requires ExtractorEnabled(cfg, s, i, a) && ExtractorOk(|s.rows|, |s.jobs|, s.intake.extractors[i])
    ensures Paid(cfg, s, ExtractorNext(cfg, s, i, a))
  {
    if a.ECommit? {
      CommitPays(cfg, s, i);
    } else {
      ExtractorLeaves(cfg, s, i, a);
      ExtractorFlow(cfg, WorkPrices(cfg, s), s, i, a);
      ExtractorFlow(cfg, LetterPrices(s), s, i, a);
      PaidIfCheaper(cfg, s, ExtractorNext(cfg, s, i, a));
    }
  }

  // ---------------------------------------------------------------- the mail workers pay

  lemma NotifierTurns(cfg: Config, s: State, i: nat, a: NotifierAction, wake: nat)
    requires NotifierEnabled(cfg, s, i, a) && RowsOk(cfg, |s.jobs|, s.rows)
    ensures var s', w := NotifierNext(cfg, s, i, a), s.mail.notifiers[i];
            var d, d', price := RowAt(s.rows, NotifierRow(w)), RowAt(s'.rows, NotifierRow(w)),
                                AttemptsLeft(cfg.maxRetries, wake);
            && i < |s'.mail.notifiers|
            && NotifierWork()(s'.mail.notifiers[i]) + Part(price, d') + (if a.NHandOver? then 6 else 0)
               < NotifierWork()(w) + Part(price, d) + (if a.NReceive? then 3 else 0)
            && Part(OneIfOpen(), d') <= Part(OneIfOpen(), d)
  {
  }

  lemma NotifierPays(cfg: Config, s: State, i: nat, a: NotifierAction)
    requires NotifierEnabled(cfg, s, i, a) && RowsOk(cfg, |s.jobs|, s.rows)
    ensures Paid(cfg, s, NotifierNext(cfg, s, i, a))
  {
    NotifierLeaves(cfg, s, i, a);
    NotifierTurns(cfg, s, i, a, if Early(s.recovery) then 8 else 0);
    NotifierFlow(cfg, WorkPrices(cfg, s), s, i, a);
    NotifierFlow(cfg, LetterPrices(s), s, i, a);
    PaidIfCheaper(cfg, s, NotifierNext(cfg, s, i, a));
  }

  lemma RetrierStatementTurns(cfg: Config, now: int, wake: nat, d: Option<Delivery>, tally: Option<JobStatus>,
                              w: Retrier, a: RetrierAction)
    requires RetrierReady(now, w, a) && RetrierIsLocal(a) && (d.Some? ==> RowOk(cfg, d.value))
    requires w.RClaim? ==> w.attempts <= cfg.maxRetries
    ensures var l := RetrierLocal(cfg, now, d, tally, w, a);
            var d', price := if d.Some? && l.row.Some? then l.row else d, AttemptsLeft(cfg.maxRetries, wake);
            && RetrierWork()(l.w) + Part(price, d') < RetrierWork()(w) + Part(price, d)
            && RetrierLetters()(l.w) + Part(OneIfOpen(), d') <= RetrierLetters()(w) + Part(OneIfOpen(), d)
  {
  }

  lemma RetrierTurns(cfg: Config, s: State, i: nat, a: RetrierAction, wake: nat)
    requires RetrierEnabled(cfg, s, i, a) && RowsOk(cfg, |s.jobs|, s.rows)
    requires RetrierOk(cfg, s.rows, |s.jobs|, s.mail.retriers[i])
    ensures var s', w := RetrierNext(cfg, s, i, a), s.mail.retriers[i];
            var d, d', price := RowAt(s.rows, RetrierRow(w)), RowAt(s'.rows, RetrierRow(w)),
                                AttemptsLeft(cfg.maxRetries, wake);
            && i < |s'.mail.retriers|
            && RetrierWork()(s'.mail.retriers[i]) + Part(price, d')
               < RetrierWork()(w) + Part(price, d) + (if a.RReceive? then 6 else 0)
            && RetrierLetters()(s'.mail.retriers[i]) + Part(OneIfOpen(), d') + (if a.RSendDead? then 1 else 0)
               <= RetrierLetters()(w) + Part(OneIfOpen(), d)
  {
    if RetrierIsLocal(a) {
      var w := s.mail.retriers[i];
      var tally, l := RetrierWrites(cfg, s, i, a);
      RetrierStatementTurns(cfg, s.now, wake, RowAt(s.rows, RetrierRow(w)), tally, w, a);
    }
  }

  lemma RetrierPays(cfg: Config, s: State, i: nat, a: RetrierAction)
    requires RetrierEnabled(cfg, s, i, a) && RowsOk(cfg, |s.jobs|, s.rows)
    requires RetrierOk(cfg, s.rows, |s.jobs|, s.mail.retriers[i])
    ensures Paid(cfg, s, RetrierNext(cfg, s, i, a))
  {
    RetrierLeaves(cfg, s, i, a);
    RetrierTurns(cfg, s, i, a, if Early(s.recovery) then 8 else 0);
    RetrierFlow(cfg, WorkPrices(cfg, s), s, i, a);
    RetrierFlow(cfg, LetterPrices(s), s, i, a);
    PaidIfCheaper(cfg, s, RetrierNext(cfg, s, i, a));
  }

  // ---------------------------------------------------------------- recovery pays

  lemma {:induction false} NoMoreStalledThanJobs(jobs: seq<Job>, rows: seq<Delivery>)
    ensures |StalledJobs(jobs, rows)| <= |jobs|
    decreases |jobs|
  {
    if jobs != [] {
      NoMoreStalledThanJobs(Init(jobs), rows);
    }
  }

  lemma {:induction false} NoMoreWakesThanRows(rows: seq<Delivery>)
    ensures |Recoverable(rows)| <= |rows|
    decreases |rows|
  {
    if rows != [] {
      NoMoreWakesThanRows(Init(rows));
    }
  }

  /** Wherever recovery goes, but for listing the deliveries, it needs less from there, with what it sends. */
  lemma RecoveryTurns(cfg: Config, s: State, a: RecoveryAction, report: nat)
    requires RecoveryEnabled(cfg, s, a) && !a.TakeSnapshot?
    ensures var r, r' := s.recovery, RecoveryNext(cfg, s, a).recovery;
            && RecoveryWork(report, |s.jobs|)(r')
               + (if a.PublishJob? then report + 3
                  else if a.SendWake? then if r.todo[0].toRetry then 6 else 3
                  else 0) < RecoveryWork(report, |s.jobs|)(r)
            && RecoveryLetters(|s.users|, |s.jobs|)(r') + (if a.PublishJob? then |s.users| else 0)
               <= RecoveryLetters(|s.users|, |s.jobs|)(r)
  {
    if a.ScanJobs? {
      NoMoreStalledThanJobs(s.jobs, s.rows);
      var n := |StalledJobs(s.jobs, s.rows)|;
      TimesIsMonotone(n, |s.jobs|, report + 5, report + 5);
      TimesIsMonotone(n, |s.jobs|, |s.users|, |s.users|);
    }
  }

  lemma {:induction false} RowsAreDearer(rows: seq<Delivery>, maxRetries: nat)
    ensures Sum(rows, AttemptsLeft(maxRetries, 0)) + 8 * |rows| == Sum(rows, AttemptsLeft(maxRetries, 8))
    decreases |rows|
  {
    if rows != [] {
      RowsAreDearer(Init(rows), maxRetries);
    }
  }

  lemma IntakeIsDearer(p: Prices, q: Prices, k: Intake)
    requires p.request <= q.request && p.handler <= q.handler && p.verification <= q.verification
    requires p.reports <= q.reports
    requires (forall w :: p.verifier(w) <= q.verifier(w)) && (forall w :: p.extractor(w) <= q.extractor(w))
    ensures IntakeTotal(p, k) <= IntakeTotal(q, k)
  {
    TimesIsMonotone(k.requests, k.requests, p.request, q.request);
    TimesIsMonotone(|k.handlers|, |k.handlers|, p.handler, q.handler);
    SumIsMonotone(k.verification.queue, Each(p.verification), Each(q.verification));
    SumIsMonotone(k.verifiers, p.verifier, q.verifier);
    SumIsMonotone(k.reports.queue, Each(p.reports), Each(q.reports));
    SumIsMonotone(k.extractors, p.extractor, q.extractor);
  }

  /** What was put aside for waking every delivery is at hand when they are listed. */
  lemma EarlyPricesAreHigher(maxRetries: nat, users: nat, jobs: nat, s: State)
    requires !s.recovery.JobScan? && !s.recovery.JobLoop? && !s.recovery.JobPublish?
    ensures Total(Work(maxRetries, users, jobs, false), s) + 8 * |s.rows|
         <= Total(Work(maxRetries, users, jobs, true), s)
  {
    TimesIsMonotone(users, users, 10 * (maxRetries + 1) + 0 + 4, 10 * (maxRetries + 1) + 8 + 4);
    IntakeIsDearer(Work(maxRetries, users, jobs, false), Work(maxRetries, users, jobs, true), s.intake);
    RowsAreDearer(s.rows, maxRetries);
  }

  lemma PaidIfLate(cfg: Config, s: State, s': State)
    requires s'.users == s.users && |s'.jobs| == |s.jobs| && s'.phase == s.phase
    requires Early(s.recovery) && !Early(s'.recovery)
    requires Total(WorkPrices(cfg, s), s') < Total(WorkPrices(cfg, s), s)
    requires Total(LetterPrices(s), s') <= Total(LetterPrices(s), s)
    ensures Paid(cfg, s, s')
  {
    EarlyPricesAreHigher(cfg.maxRetries, |s.users|, |s.jobs|, s');
  }

  lemma ListedIsCheaper(cfg: Config, p: Prices, q: Prices, s: State)
    requires RecoveryEnabled(cfg, s, TakeSnapshot)
    requires Total(q, s) + 8 * |s.rows| <= Total(p, s)
    requires q.recovery(Snapshot) == 12 && forall todo :: q.recovery(WakeLoop(todo)) == 1 + 7 * |todo|
    ensures Total(q, RecoveryNext(cfg, s, TakeSnapshot)) < Total(p, s)
  {
    NoMoreWakesThanRows(s.rows);
    RecoveryFlow(cfg, q, s, TakeSnapshot);
  }

  lemma SnapshotSavesWork(cfg: Config, s: State)
    requires RecoveryEnabled(cfg, s, TakeSnapshot)
    ensures var s' := RecoveryNext(cfg, s, TakeSnapshot);
            Total(WorkPrices(cfg, s'), s') < Total(WorkPrices(cfg, s), s)
  {
    EarlyPricesAreHigher(cfg.maxRetries, |s.users|, |s.jobs|, s);
    ListedIsCheaper(cfg, WorkPrices(cfg, s), WorkPrices(cfg, RecoveryNext(cfg, s, TakeSnapshot)), s);
  }

  lemma SnapshotPays(cfg: Config, s: State)
    requires RecoveryEnabled(cfg, s, TakeSnapshot)
    ensures Paid(cfg, s, RecoveryNext(cfg, s, TakeSnapshot))
  {
    SnapshotSavesWork(cfg, s);
    assert Total(LetterPrices(s), RecoveryNext(cfg, s, TakeSnapshot)) <= Total(LetterPrices(s), s) by {
      RecoveryFlow(cfg, LetterPrices(s), s, TakeSnapshot);
    }
  }

  lemma RecoveryPays(cfg: Config, s: State, a: RecoveryAction)
    requires RecoveryEnabled(cfg, s, a)
    ensures Paid(cfg, s, RecoveryNext(cfg, s, a))
  {
    var s' := RecoveryNext(cfg, s, a);
    if a.TakeSnapshot? {
      SnapshotPays(cfg, s);
    } else {
      RecoveryLeaves(cfg, s, a);
      RecoveryTurns(cfg, s, a, WorkPrices(cfg, s).reports);
      assert Total(WorkPrices(cfg, s), s') < Total(WorkPrices(cfg, s), s) by {
        RecoveryFlow(cfg, WorkPrices(cfg, s), s, a);
      }
      assert Total(LetterPrices(s), s') <= Total(LetterPrices(s), s) by {
        RecoveryFlow(cfg, LetterPrices(s), s, a);
      }
      if Early(s'.recovery) == Early(s.recovery) {
        PaidIfCheaper(cfg, s, s');
      } else {
        PaidIfLate(cfg, s, s');
      }
    }
  }

  lemma PhasePays(cfg: Config, s: State, a: ShutdownAction)
    requires ShutdownEnabled(s, a) && (a.HandlersDone? || a.RecoveryDone? || a.StageDone?)
    ensures Paid(cfg, s, ShutdownNext(s, a))
  {
    ShutdownLeaves(s, a);
    ShutdownFlow(WorkPrices(cfg, s), s, a);
    ShutdownFlow(LetterPrices(s), s, a);
  }
}
