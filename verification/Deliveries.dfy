/** What every step keeps about delivery rows: how a row may change, and that every message and every worker
    refers to rows and jobs that exist. */
module Deliveries {
  import opened Wrappers
  import opened Sequences
  import opened Pipeline
  import opened Frames

  // ---------------------------------------------------------------- how rows change

  /** A row keeps its job and user, never loses attempts, never goes back to pending, and never leaves
      `success` or `failed`. */
  ghost predicate RowEvolves(d: Delivery, e: Delivery) {
    && e.job == d.job && e.user == d.user
    && d.attempts <= e.attempts
    && (e.status.Pending? ==> e == d)
    && (d.Terminal() ==> e == d)
  }

  /** Rows are appended, never removed, and each one evolves. */
  ghost predicate RowsEvolve(rows: seq<Delivery>, rows': seq<Delivery>) {
    |rows| <= |rows'| && forall i :: 0 <= i < |rows| ==> RowEvolves(rows[i], rows'[i])
  }

  lemma RowsEvolveTransitively(p: seq<Delivery>, q: seq<Delivery>, r: seq<Delivery>)
    requires RowsEvolve(p, q) && RowsEvolve(q, r)
    ensures RowsEvolve(p, r)
  {
  }

  ghost predicate RowOk(cfg: Config, d: Delivery) {
    && d.attempts <= cfg.maxRetries + 1
    && (d.status.Pending? <==> d.attempts == 0)
    && (d.status.Failed? ==> d.attempts == cfg.maxRetries + 1)
  }

  ghost predicate RowsOk(cfg: Config, jobs: nat, rows: seq<Delivery>) {
    forall i :: 0 <= i < |rows| ==> RowOk(cfg, rows[i]) && rows[i].job < jobs
  }

  // ---------------------------------------------------------------- what workers may hold

  ghost predicate NotifierOk(rows: seq<Delivery>, jobs: nat, w: Notifier) {
    match w
    case NIdle | NExited => true
    case NLoad(id) => id < |rows|
    case NClaim(id) => id < |rows|
    case NSend(id) => id < |rows| && rows[id].attempts >= 1
    case NFailed(id, _) => id < |rows| && rows[id].attempts >= 1
    case NSent(id) => id < |rows| && rows[id].attempts >= 1
    case NRetry(id) => id < |rows| && rows[id].attempts >= 1
    case NCount(job) => job < jobs
    case NVerdict(job, _) => job < jobs
  }

  ghost predicate RetrierOk(cfg: Config, rows: seq<Delivery>, jobs: nat, w: Retrier) {
    match w
    case RIdle | RExited => true
    case RLoad(id) => id < |rows|
    case RWait(id, attempts, _) => id < |rows| && attempts <= cfg.maxRetries && attempts <= rows[id].attempts
    case RClaim(id, attempts) => id < |rows| && attempts <= cfg.maxRetries && attempts <= rows[id].attempts
    case RSend(id, attempt) => id < |rows| && 1 <= attempt <= rows[id].attempts
    case RFailed(id, attempt, _) => id < |rows| && 1 <= attempt <= rows[id].attempts
    case RSent(id, attempt) => id < |rows| && 1 <= attempt <= rows[id].attempts
    case RBury(id, attempts) => id < |rows| && cfg.maxRetries < attempts <= rows[id].attempts
    case RCount(job, _) => job < jobs
    case RVerdict(job, _, _) => job < jobs
    case RDead(_) => true
  }

  ghost predicate QueueOk(queue: seq<nat>, bound: nat) {
    forall k :: 0 <= k < |queue| ==> queue[k] < bound
  }

  ghost predicate NotifiersOk(rows: seq<Delivery>, jobs: nat, ws: seq<Notifier>) {
    forall i :: 0 <= i < |ws| ==> NotifierOk(rows, jobs, ws[i])
  }

  ghost predicate RetriersOk(cfg: Config, rows: seq<Delivery>, jobs: nat, ws: seq<Retrier>) {
    forall i :: 0 <= i < |ws| ==> RetrierOk(cfg, rows, jobs, ws[i])
  }

  ghost predicate MailOk(cfg: Config, rows: seq<Delivery>, jobs: nat, m: Mail) {
    && |m.notifiers| == cfg.poolSize && |m.retriers| == cfg.poolSize
    && QueueOk(m.deliveries.queue, |rows|)
    && QueueOk(m.retries.queue, |rows|)
    && NotifiersOk(rows, jobs, m.notifiers)
    && RetriersOk(cfg, rows, jobs, m.retriers)
  }

  ghost predicate ExtractorOk(rows: nat, jobs: nat, w: Extractor) {
    match w
    case EIdle | EExited => true
    case EBuild(job) => job < jobs
    case EPublish(todo) => todo != [] && QueueOk(todo, rows)
  }

  ghost predicate VerifierOk(jobs: nat, w: Verifier) {
    (w.VFetch? || w.VPublish?) ==> w.job < jobs
  }

  ghost predicate VerifiersOk(jobs: nat, ws: seq<Verifier>) {
    forall i :: 0 <= i < |ws| ==> VerifierOk(jobs, ws[i])
  }

  ghost predicate ExtractorsOk(rows: nat, jobs: nat, ws: seq<Extractor>) {
    forall i :: 0 <= i < |ws| ==> ExtractorOk(rows, jobs, ws[i])
  }

  ghost predicate IntakeOk(cfg: Config, rows: nat, jobs: nat, k: Intake) {
    && |k.verifiers| == cfg.poolSize && |k.extractors| == cfg.poolSize
    && QueueOk(k.verification.queue, jobs)
    && QueueOk(k.reports.queue, jobs)
    && (forall j :: j in k.handlers ==> j < jobs)
    && VerifiersOk(jobs, k.verifiers)
    && ExtractorsOk(rows, jobs, k.extractors)
  }

  ghost predicate RecoveryOk(rows: nat, jobs: nat, r: Recovery) {
    match r
    case JobLoop(todo) => forall k :: 0 <= k < |todo| ==> todo[k].job < jobs
    case JobPublish(job, todo) => job < jobs && forall k :: 0 <= k < |todo| ==> todo[k].job < jobs
    case WakeLoop(todo) => forall k :: 0 <= k < |todo| ==> todo[k].id < rows
    case _ => true
  }

  ghost predicate BaseInv(cfg: Config, s: State) {
    && |s.history| == |s.rows|
    && RowsOk(cfg, |s.jobs|, s.rows)
    && MailOk(cfg, s.rows, |s.jobs|, s.mail)
    && IntakeOk(cfg, |s.rows|, |s.jobs|, s.intake)
    && RecoveryOk(|s.rows|, |s.jobs|, s.recovery)
  }

  // ---------------------------------------------------------------- growth

  lemma MailGrows(cfg: Config, rows: seq<Delivery>, rows': seq<Delivery>, jobs: nat, jobs': nat, m: Mail)
    requires MailOk(cfg, rows, jobs, m) && RowsEvolve(rows, rows') && jobs <= jobs'
    ensures MailOk(cfg, rows', jobs', m)
  {
  }

  lemma IntakeGrows(cfg: Config, rows: nat, rows': nat, jobs: nat, jobs': nat, k: Intake)
    requires IntakeOk(cfg, rows, jobs, k) && rows <= rows' && jobs <= jobs'
    ensures IntakeOk(cfg, rows', jobs', k)
  {
  }

  lemma RowUpdate(cfg: Config, jobs: nat, rows: seq<Delivery>, id: nat, d: Delivery)
    requires RowsOk(cfg, jobs, rows) && id < |rows| && RowEvolves(rows[id], d) && RowOk(cfg, d)
    ensures RowsOk(cfg, jobs, rows[id := d]) && RowsEvolve(rows, rows[id := d])
  {
  }

  // ---------------------------------------------------------------- one action at a time

  ghost predicate Kept(cfg: Config, s: State, s': State) {
    BaseInv(cfg, s') && RowsEvolve(s.rows, s'.rows) && |s.jobs| <= |s'.jobs|
  }

  lemma HandlerKeepsBase(cfg: Config, s: State, a: HandlerAction)
    requires BaseInv(cfg, s) && HandlerEnabled(s, a)
    ensures Kept(cfg, s, HandlerNext(cfg, s, a))
  {
    var s' := HandlerNext(cfg, s, a);
    MailGrows(cfg, s.rows, s'.rows, |s.jobs|, |s'.jobs|, s.mail);
    IntakeGrows(cfg, |s.rows|, |s'.rows|, |s.jobs|, |s'.jobs|, s.intake);
  }

  lemma VerifierKeepsBase(cfg: Config, s: State, i: nat, a: VerifierAction)
    requires BaseInv(cfg, s) && VerifierEnabled(cfg, s, i, a)
    ensures Kept(cfg, s, VerifierNext(cfg, s, i, a))
  {
  }

  lemma ExtractKeepsBase(cfg: Config, s: State, i: nat, job: nat)
    requires BaseInv(cfg, s) && i < |s.intake.extractors| && job < |s.jobs|
    ensures Kept(cfg, s, Extract(s, i, job, Batch(cfg, s.users, s.jobs, job)))
  {
    var batch := Batch(cfg, s.users, s.jobs, job);
    var s' := Extract(s, i, job, batch);
    BatchKeepsRows(cfg, |s.jobs|, s.rows, batch);
    MailGrows(cfg, s.rows, s'.rows, |s.jobs|, |s.jobs|, s.mail);
    IntakeGrows(cfg, |s.rows|, |s'.rows|, |s.jobs|, |s.jobs|, s.intake);
  }

  lemma ExtractorKeepsBase(cfg: Config, s: State, i: nat, a: ExtractorAction)
    requires BaseInv(cfg, s) && ExtractorEnabled(cfg, s, i, a)
    ensures Kept(cfg, s, ExtractorNext(cfg, s, i, a))
  {
    assert ExtractorOk(|s.rows|, |s.jobs|, s.intake.extractors[i]);
    if a.ECommit? {
      ExtractKeepsBase(cfg, s, i, s.intake.extractors[i].job);
    }
  }

  lemma BatchKeepsRows(cfg: Config, jobs: nat, rows: seq<Delivery>, batch: seq<Delivery>)
    requires RowsOk(cfg, jobs, rows)
    requires forall k :: 0 <= k < |batch| ==> batch[k].job < jobs && batch[k].status.Pending? && batch[k].attempts == 0
    ensures RowsOk(cfg, jobs, rows + batch) && RowsEvolve(rows, rows + batch)
  {
  }

  /** Local step of a first-attempt worker: the row evolves and the worker stays well-formed. */
  lemma NotifierLocalOk(cfg: Config, now: int, rows: seq<Delivery>, jobs: nat, tally: Option<JobStatus>, w: Notifier,
                        a: NotifierAction)
    requires NotifierReady(w, a) && NotifierIsLocal(a)
    requires RowsOk(cfg, jobs, rows) && NotifierOk(rows, jobs, w)
    ensures var l := NotifierLocal(now, RowAt(rows, NotifierRow(w)), tally, w, a);
            var rows' := WriteRow(rows, NotifierRow(w), l.row);
            RowsOk(cfg, jobs, rows') && RowsEvolve(rows, rows') && |rows'| == |rows| && NotifierOk(rows', jobs, l.w)
  {
  }

  lemma NotifierKeepsBase(cfg: Config, s: State, i: nat, a: NotifierAction)
    requires BaseInv(cfg, s) && NotifierEnabled(cfg, s, i, a)
    ensures Kept(cfg, s, NotifierNext(cfg, s, i, a))
  {
    var w, s' := s.mail.notifiers[i], NotifierNext(cfg, s, i, a);
    assert NotifierOk(s.rows, |s.jobs|, w);
    if NotifierIsLocal(a) {
      var tally, l := NotifierWrites(cfg, s, i, a);
      NotifierLocalOk(cfg, s.now, s.rows, |s.jobs|, tally, w, a);
      MailGrows(cfg, s.rows, s'.rows, |s.jobs|, |s.jobs|, s.mail);
    }
  }

  lemma RetrierLocalOk(cfg: Config, now: int, rows: seq<Delivery>, jobs: nat, tally: Option<JobStatus>, w: Retrier,
                       a: RetrierAction)
    requires RetrierReady(now, w, a) && RetrierIsLocal(a)
    requires RowsOk(cfg, jobs, rows) && RetrierOk(cfg, rows, jobs, w)
    ensures var l := RetrierLocal(cfg, now, RowAt(rows, RetrierRow(w)), tally, w, a);
            var rows' := WriteRow(rows, RetrierRow(w), l.row);
            RowsOk(cfg, jobs, rows') && RowsEvolve(rows, rows') && |rows'| == |rows| && RetrierOk(cfg, rows', jobs, l.w)
  {
    var l := RetrierLocal(cfg, now, RowAt(rows, RetrierRow(w)), tally, w, a);
    if l.row.Some? {
      RowUpdate(cfg, jobs, rows, RetrierRow(w), l.row.value);
    }
  }

  lemma RetrierKeepsBase(cfg: Config, s: State, i: nat, a: RetrierAction)
    requires BaseInv(cfg, s) && RetrierEnabled(cfg, s, i, a)
    ensures Kept(cfg, s, RetrierNext(cfg, s, i, a))
  {
    var w, s' := s.mail.retriers[i], RetrierNext(cfg, s, i, a);
    assert RetrierOk(cfg, s.rows, |s.jobs|, w);
    if RetrierIsLocal(a) {
      var tally, l := RetrierWrites(cfg, s, i, a);
      RetrierLocalOk(cfg, s.now, s.rows, |s.jobs|, tally, w, a);
      MailGrows(cfg, s.rows, s'.rows, |s.jobs|, |s.jobs|, s.mail);
    }
  }

  lemma {:induction false} StalledJobsExist(jobs: seq<Job>, rows: seq<Delivery>)
    ensures forall k :: 0 <= k < |StalledJobs(jobs, rows)| ==> StalledJobs(jobs, rows)[k].job < |jobs|
    decreases |jobs|
  {
    if jobs != [] {
      StalledJobsExist(Init(jobs), rows);
    }
  }

  lemma {:induction false} RecoverableExist(rows: seq<Delivery>)
    ensures forall k :: 0 <= k < |Recoverable(rows)| ==> Recoverable(rows)[k].id < |rows|
    decreases |rows|
  {
    if rows != [] {
      RecoverableExist(Init(rows));
    }
  }

  /** Releasing rows and sending messages. */
  lemma WakingKeepsBase(cfg: Config, s: State, a: RecoveryAction)
    requires BaseInv(cfg, s) && RecoveryEnabled(cfg, s, a) && (a.ReleaseRows? || a.PublishJob? || a.SendWake?)
    ensures Kept(cfg, s, RecoveryNext(cfg, s, a))
  {
  }

  lemma OnlyRecoveryMoves(cfg: Config, s: State, s': State)
    requires BaseInv(cfg, s) && s'.rows == s.rows && s'.history == s.history && |s'.jobs| == |s.jobs|
    requires s'.mail == s.mail && s'.intake == s.intake && RecoveryOk(|s.rows|, |s.jobs|, s'.recovery)
    ensures Kept(cfg, s, s')
  {
  }

  lemma RecoveryKeepsBase(cfg: Config, s: State, a: RecoveryAction)
    requires BaseInv(cfg, s) && RecoveryEnabled(cfg, s, a)
    ensures Kept(cfg, s, RecoveryNext(cfg, s, a))
  {
    if a.ReleaseRows? || a.PublishJob? || a.SendWake? {
      WakingKeepsBase(cfg, s, a);
    } else {
      StalledJobsExist(s.jobs, s.rows);
      RecoverableExist(s.rows);
      OnlyRecoveryMoves(cfg, s, RecoveryNext(cfg, s, a));
    }
  }

  lemma ShutdownKeepsBase(cfg: Config, s: State, a: ShutdownAction)
    requires BaseInv(cfg, s) && ShutdownEnabled(s, a)
    ensures Kept(cfg, s, ShutdownNext(s, a))
  {
  }

  lemma NextKeepsBase(cfg: Config, s: State, a: Action)
    requires BaseInv(cfg, s) && Enabled(cfg, s, a)
    ensures Kept(cfg, s, Next(cfg, s, a))
  {
    match a
    case Handler(h) => HandlerKeepsBase(cfg, s, h);
    case Verify(i, v) => VerifierKeepsBase(cfg, s, i, v);
    case Shutdown(d) => ShutdownKeepsBase(cfg, s, d);
    case ExtractUsers(i, e) => ExtractorKeepsBase(cfg, s, i, e);
    case Notify(i, n) => NotifierKeepsBase(cfg, s, i, n);
    case Retry(i, r) => RetrierKeepsBase(cfg, s, i, r);
    case Recover(c) => RecoveryKeepsBase(cfg, s, c);
    case Crash(users) =>
  }

  // ---------------------------------------------------------------- frames

  /** Nothing about deliveries and the workers that handle them differs. */
  ghost predicate SameDeliveries(s: State, s': State) {
    && s'.rows == s.rows && s'.history == s.history && s'.dlq == s.dlq
    && s'.mail.notifiers == s.mail.notifiers && s'.mail.retriers == s.mail.retriers
    && s'.mail.deliveries.queue == s.mail.deliveries.queue && s'.mail.retries.queue == s.mail.retries.queue
    && s'.intake.extractors == s.intake.extractors
  }

  predicate IsUpstream(a: Action) {
    a.Handler? || a.Verify? || a.Shutdown?
  }

  /** Handlers, verification workers and the shutdown sequence never touch a delivery. */
  lemma UpstreamFrame(cfg: Config, s: State, a: Action)
    requires Enabled(cfg, s, a) && IsUpstream(a)
    ensures Leaves(s, a, Next(cfg, s, a)) && SameDeliveries(s, Next(cfg, s, a))
  {
    StepLeaves(cfg, s, a);
  }

  lemma NotifierFrame(cfg: Config, s: State, i: nat, a: NotifierAction)
    requires NotifierEnabled(cfg, s, i, a) && NotifierOk(s.rows, |s.jobs|, s.mail.notifiers[i])
    ensures var s', w := NotifierNext(cfg, s, i, a), s.mail.notifiers[i];
            && Leaves(s, Notify(i, a), s') && |s'.rows| == |s.rows| && |s'.history| == |s.history|
            && (s'.mail.notifiers[i].NSent? ==> s'.mail.notifiers[i].id == NotifierRow(w) < |s.rows|)
  {
    NotifierLeaves(cfg, s, i, a);
  }

  /** What one statement of a mail worker does to the parts of the state that deliveries live in. */
  lemma NotifierWrites(cfg: Config, s: State, i: nat, a: NotifierAction) returns (tally: Option<JobStatus>,
                       l: Local<Notifier>)
    requires NotifierEnabled(cfg, s, i, a) && NotifierIsLocal(a)
    ensures var w, s' := s.mail.notifiers[i], NotifierNext(cfg, s, i, a);
            && l == NotifierLocal(s.now, RowAt(s.rows, NotifierRow(w)), tally, w, a)
            && s'.rows == WriteRow(s.rows, NotifierRow(w), l.row)
            && s'.history == WriteEvent(s.history, NotifierRow(w), l.event)
            && s'.jobs == WriteVerdict(s.jobs, NotifierJob(w), l.verdict) && s'.dlq == s.dlq
            && s'.mail == SetNotifier(s.mail, i, l.w) && s'.intake == s.intake
            && s'.phase == s.phase && s'.recovery == s.recovery && s'.cancelled == s.cancelled
            && s'.panicked == s.panicked
  {
    var w := s.mail.notifiers[i];
    tally := NotificationJobStatus(CountDeliveries(s.rows, NotifierJob(w)));
    l := NotifierLocal(s.now, RowAt(s.rows, NotifierRow(w)), tally, w, a);
  }

  lemma RetrierWrites(cfg: Config, s: State, i: nat, a: RetrierAction) returns (tally: Option<JobStatus>,
                      l: Local<Retrier>)
    requires RetrierEnabled(cfg, s, i, a) && RetrierIsLocal(a)
    ensures var w, s' := s.mail.retriers[i], RetrierNext(cfg, s, i, a);
            && l == RetrierLocal(cfg, s.now, RowAt(s.rows, RetrierRow(w)), tally, w, a)
            && s'.rows == WriteRow(s.rows, RetrierRow(w), l.row)
            && s'.history == WriteEvent(s.history, RetrierRow(w), l.event)
            && s'.jobs == WriteVerdict(s.jobs, RetrierJob(w), l.verdict)
            && s'.dlq == WriteDeadLetter(s.dlq, RetrierRow(w), if RetrierRow(w) < |s.rows|
                then s.rows[RetrierRow(w)].job else 0, l.event)
            && s'.mail == SetRetrier(s.mail, i, l.w) && s'.intake == s.intake
            && s'.phase == s.phase && s'.recovery == s.recovery && s'.cancelled == s.cancelled
            && s'.panicked == s.panicked
  {
    var w := s.mail.retriers[i];
    tally := NotificationJobStatus(CountDeliveries(s.rows, RetrierJob(w)));
    l := RetrierLocal(cfg, s.now, RowAt(s.rows, RetrierRow(w)), tally, w, a);
  }

  lemma RetrierFrame(cfg: Config, s: State, i: nat, a: RetrierAction)
    requires RetrierEnabled(cfg, s, i, a) && RetrierOk(cfg, s.rows, |s.jobs|, s.mail.retriers[i])
    ensures var s', w := RetrierNext(cfg, s, i, a), s.mail.retriers[i];
            && Leaves(s, Retry(i, a), s') && |s'.rows| == |s.rows| && |s'.history| == |s.history|
            && (s'.mail.retriers[i].RSent? ==> s'.mail.retriers[i].id == RetrierRow(w) < |s.rows|)
            && (s'.dlq == s.dlq || (RetrierRow(w) < |s.rows|
                && s'.dlq == s.dlq + [DeadLetter(RetrierRow(w), s.rows[RetrierRow(w)].job)]))
  {
    RetrierLeaves(cfg, s, i, a);
  }

  /** New rows are fresh: pending, never attempted, with no past. */
  ghost predicate FreshRows(rows: seq<Delivery>, rows': seq<Delivery>, history: seq<seq<Event>>,
                            history': seq<seq<Event>>) {
    && |rows| <= |rows'| && |history| <= |history'| && |history'| - |history| == |rows'| - |rows|
    && (forall k :: 0 <= k < |rows| ==> rows'[k] == rows[k])
    && (forall k :: |rows| <= k < |rows'| ==> rows'[k].status.Pending? && rows'[k].attempts == 0)
    && (forall k :: 0 <= k < |history| ==> history'[k] == history[k])
    && (forall k :: |history| <= k < |history'| ==> history'[k] == [])
  }

  lemma ExtractorFrame(cfg: Config, s: State, i: nat, a: ExtractorAction)
    requires ExtractorEnabled(cfg, s, i, a)
    ensures var s' := ExtractorNext(cfg, s, i, a);
            && Leaves(s, ExtractUsers(i, a), s') && FreshRows(s.rows, s'.rows, s.history, s'.history)
            && s'.mail.retries == s.mail.retries
  {
    ExtractorLeaves(cfg, s, i, a);
  }

  lemma RecoveryFrame(cfg: Config, s: State, a: RecoveryAction)
    requires RecoveryEnabled(cfg, s, a)
    ensures var s' := RecoveryNext(cfg, s, a);
            && Leaves(s, Recover(a), s') && s'.history == s.history
            && s'.rows == (if a.ReleaseRows? then ReleaseInterrupted(s.rows, s.now) else s.rows)
  {
    RecoveryLeaves(cfg, s, a);
  }
}
