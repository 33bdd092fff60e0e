/** The notification pipeline as a step system. Durable rows (jobs, deliveries, dead letters) survive a crash;
    channels, worker pools and the startup recovery do not. One action is one database statement, one channel
    operation or one call of the mail provider, so every interleaving of the workers is a run of this system. */
module Pipeline {
  import opened Wrappers
  import opened Sequences

  // ---------------------------------------------------------------- configuration and rows

  datatype Config = Config(maxRetries: nat, poolSize: nat, capacity: nat, deadCapacity: nat, near: (int, int) -> bool) {
    ghost predicate Valid() {
      poolSize > 0 && capacity > 0 && deadCapacity > 0
    }
  }

  datatype User = User(id: nat, place: Option<int>)

  datatype DeliveryStatus = Pending | Processing | Retrying | Success | Failed

  /** Row numbers are delivery ids. */
  datatype Delivery = Delivery(job: nat, user: nat, status: DeliveryStatus, attempts: nat, nextAttemptAt: Option<int>) {
    predicate Terminal() {
      status.Success? || status.Failed?
    }
  }

  datatype JobStatus = JobPending | JobProcessing | JobDone | JobFailed | JobPartiallyFailed {
    predicate Final() {
      JobDone? || JobFailed? || JobPartiallyFailed?
    }
  }

  /** A job with the parts of its report that the pipeline reads: where it is, whether title and description
      are long enough to be verified, and whether the report row still exists. */
  datatype Job = Job(status: JobStatus, attempts: nat, place: int, described: bool, reportStored: bool)

  datatype DeadLetter = DeadLetter(delivery: nat, job: nat)

  /** What happened to one delivery, oldest first. */
  datatype Event =
    | Claimed(attempt: nat, at: int)
    | Sent(attempt: nat, accepted: bool, at: int)
    | Buried(at: int)

  // ---------------------------------------------------------------- volatile parts

  datatype Channel = Channel(queue: seq<nat>, closed: bool)

  datatype Verifier = VIdle | VFetch(job: nat) | VPublish(job: nat) | VExited

  datatype Extractor = EIdle | EBuild(job: nat) | EPublish(todo: seq<nat>) | EExited

  datatype Notifier =
    | NIdle
    | NLoad(id: nat)
    | NClaim(id: nat)
    | NSend(id: nat)
    | NFailed(id: nat, next: int)
    | NSent(id: nat)
    | NRetry(id: nat)
    | NCount(job: nat)
    | NVerdict(job: nat, status: JobStatus)
    | NExited

  datatype Retrier =
    | RIdle
    | RLoad(id: nat)
    | RWait(id: nat, attempts: nat, due: Option<int>)
    | RClaim(id: nat, attempts: nat)
    | RSend(id: nat, attempt: nat)
    | RFailed(id: nat, attempt: nat, next: int)
    | RSent(id: nat, attempt: nat)
    | RBury(id: nat, attempts: nat)
    | RCount(job: nat, dead: Option<nat>)
    | RVerdict(job: nat, status: JobStatus, dead: Option<nat>)
    | RDead(id: nat)
    | RExited

  datatype Stalled = Stalled(job: nat, wasProcessing: bool)

  datatype Wake = Wake(id: nat, toRetry: bool)

  datatype Recovery =
    | JobScan
    | JobLoop(jobs: seq<Stalled>)
    | JobPublish(job: nat, jobs: seq<Stalled>)
    | ResetRows
    | Snapshot
    | WakeLoop(todo: seq<Wake>)
    | Recovered

  datatype Phase = Serving | Stopping | AwaitRecovery | Draining(stage: nat) | Drained | GaveUp

  /** `requests` are the report requests that have begun and have not stored anything yet, `handlers` the jobs that
      have been stored and that their request still has to publish. */
  datatype Intake = Intake(verification: Channel, reports: Channel, requests: nat, handlers: set<nat>,
                           verifiers: seq<Verifier>, extractors: seq<Extractor>)

  datatype Mail = Mail(deliveries: Channel, retries: Channel, dead: Channel,
                       notifiers: seq<Notifier>, retriers: seq<Retrier>)

  /** `history`, `dropped`, `touched`, `disturbed` and `dismissed` only record the past: what happened to each delivery;
      the deliveries that this process has given up, after a database error, an abandoned wait or a forced shutdown; the
      deliveries that lost their wake-up or that recovery has reset or woken; the jobs with deliveries whose closing
      was cut off, or that were put back to pending; the jobs that this process has let go of before they had
      deliveries, because it judged that their report is not to be published, because there was no room for them, or
      because their message was lost. */
  datatype State = State(
    now: int, users: seq<User>, bootJobs: nat,
    jobs: seq<Job>, rows: seq<Delivery>, dlq: seq<DeadLetter>, history: seq<seq<Event>>,
    intake: Intake, mail: Mail, recovery: Recovery, phase: Phase,
    cancelled: bool, panicked: bool, dropped: set<nat>, touched: set<nat>, disturbed: set<nat>,
    dismissed: set<nat>)

  // ---------------------------------------------------------------- database and channel operations

  predicate HasRows(rows: seq<Delivery>, job: nat) {
    exists i :: 0 <= i < |rows| && rows[i].job == job
  }

  /** The unique index on (job, user). */
  predicate UniqueIndex(rows: seq<Delivery>) {
    forall i, k :: 0 <= i < k < |rows| ==> !(rows[i].job == rows[k].job && rows[i].user == rows[k].user)
  }

  const SECOND := 1_000_000_000

  function Pow2(n: nat): nat {
    if n == 0 then 1 else 2 * Pow2(n - 1)
  }

  const TWO_TO_63 := 0x8000_0000_0000_0000
  const TWO_TO_64 := 0x1_0000_0000_0000_0000

  /** A signed 64-bit product, as Go computes it. */
  function Wrap64(x: int): int {
    (x + TWO_TO_63) % TWO_TO_64 - TWO_TO_63
  }

  function RetryDelay(attempts: nat): int {
    Wrap64(Pow2(attempts) * SECOND)
  }

  datatype Counts = Counts(total: nat, successful: nat, failed: nat, unfinished: nat)

  function CountDeliveries(rows: seq<Delivery>, job: nat): Counts {
    if rows == [] then Counts(0, 0, 0, 0)
    else
      var c, d := CountDeliveries(Init(rows), job), Last(rows);
      if d.job != job then c
      else Counts(c.total + 1,
                  c.successful + if d.status.Success? then 1 else 0,
                  c.failed + if d.status.Failed? then 1 else 0,
                  c.unfinished + if d.Terminal() then 0 else 1)
  }

  function NotificationJobStatus(c: Counts): Option<JobStatus> {
    if c.total == 0 || c.unfinished > 0 then None
    else if c.successful == c.total then Some(JobDone)
    else if c.failed == c.total then Some(JobFailed)
    else Some(JobPartiallyFailed)
  }

  function Affected(cfg: Config, users: seq<User>, place: int): seq<nat> {
    if users == [] then []
    else
      var rest, u := Affected(cfg, Init(users), place), Last(users);
      if u.place.Some? && cfg.near(place, u.place.value) then rest + [u.id] else rest
  }

  function NewRows(job: nat, users: seq<nat>): seq<Delivery> {
    seq(|users|, k requires 0 <= k < |users| => Delivery(job, users[k], Pending, 0, None))
  }

  function Ids(from: nat, count: nat): seq<nat> {
    seq(count, k requires 0 <= k < count => from + k)
  }

  function StalledJobs(jobs: seq<Job>, rows: seq<Delivery>): seq<Stalled> {
    if jobs == [] then []
    else
      var rest, j := StalledJobs(Init(jobs), rows), |jobs| - 1;
      if jobs[j].status.Final() || HasRows(rows, j) then rest
      else rest + [Stalled(j, jobs[j].status.JobProcessing?)]
  }

  function ReleaseInterrupted(rows: seq<Delivery>, now: int): seq<Delivery> {
    seq(|rows|, i requires 0 <= i < |rows| =>
      if rows[i].status.Processing? then rows[i].(status := Retrying, nextAttemptAt := Some(now)) else rows[i])
  }

  function Recoverable(rows: seq<Delivery>): seq<Wake> {
    if rows == [] then []
    else
      var rest, d := Recoverable(Init(rows)), Last(rows);
      if d.status.Pending? || d.status.Retrying? then rest + [Wake(|rows| - 1, d.status.Retrying?)] else rest
  }

  predicate Ready(c: Channel, capacity: nat) {
    c.closed || |c.queue| < capacity
  }

  function Put(c: Channel, message: nat): Channel {
    c.(queue := c.queue + [message])
  }

  function Take(c: Channel): Channel
    requires c.queue != []
  {
    c.(queue := c.queue[1..])
  }

  predicate AtEnd(c: Channel) {
    c.closed && c.queue == []
  }

  predicate AllTerminal(rows: seq<Delivery>, job: nat) {
    forall i :: 0 <= i < |rows| && rows[i].job == job ==> rows[i].Terminal()
  }

  function OpenRows(rows: seq<Delivery>): set<nat> {
    set i: nat | i < |rows| && !rows[i].Terminal()
  }

  /** Jobs whose deliveries are all finished and whose closing has not been written. */
  function UnclosedJobs(jobs: seq<Job>, rows: seq<Delivery>): set<nat> {
    set j: nat | j < |jobs| && HasRows(rows, j) && AllTerminal(rows, j) && !jobs[j].status.Final()
  }

  function InterruptedRows(rows: seq<Delivery>): set<nat> {
    set i: nat | i < |rows| && rows[i].status.Processing?
  }

  function WaitingRows(rows: seq<Delivery>): set<nat> {
    set i: nat | i < |rows| && (rows[i].status.Pending? || rows[i].status.Retrying?)
  }

  /** What one statement of a mail worker does: where it leaves the worker, and the row, event and job verdict
      it writes, each if any. */
  datatype Local<+W> = Local(w: W, row: Option<Delivery>, event: Option<Event>, verdict: Option<JobStatus>)

  function Moves<W>(w: W): Local<W> {
    Local(w, None, None, None)
  }

  function RowAt(rows: seq<Delivery>, id: nat): Option<Delivery> {
    if id < |rows| then Some(rows[id]) else None
  }

  /** `WHERE id = ? AND status = ?` */
  predicate Matches(d: Option<Delivery>, status: DeliveryStatus) {
    d.Some? && d.value.status == status
  }

  /** `WHERE id = ? AND status = ? AND attempts = ?` */
  predicate MatchesAt(d: Option<Delivery>, status: DeliveryStatus, attempts: nat) {
    Matches(d, status) && d.value.attempts == attempts
  }

  function WriteRow(rows: seq<Delivery>, id: nat, row: Option<Delivery>): seq<Delivery> {
    if row.Some? && id < |rows| then rows[id := row.value] else rows
  }

  function WriteEvent(history: seq<seq<Event>>, id: nat, event: Option<Event>): seq<seq<Event>> {
    if event.Some? && id < |history| then history[id := history[id] + [event.value]] else history
  }

  /** Burying a delivery and adding its dead letter are one transaction. */
  function WriteDeadLetter(dlq: seq<DeadLetter>, id: nat, job: nat, event: Option<Event>): seq<DeadLetter> {
    if event.Some? && event.value.Buried? then dlq + [DeadLetter(id, job)] else dlq
  }

  /** The update that closes a job: only a job still in processing takes a verdict. */
  function WriteVerdict(jobs: seq<Job>, job: nat, verdict: Option<JobStatus>): seq<Job> {
    if verdict.Some? && job < |jobs| && jobs[job].status.JobProcessing?
        then jobs[job := jobs[job].(status := verdict.value)]
    else jobs
  }

  /** Sending on a closed channel leaves it as it is; the sender panics. */
  function Offer(c: Channel, message: nat): Channel {
    if c.closed then c else Put(c, message)
  }

  function WriteJob(jobs: seq<Job>, job: nat, row: Option<Job>): seq<Job> {
    if row.Some? && job < |jobs| then jobs[job := row.value] else jobs
  }

  function JobAt(jobs: seq<Job>, job: nat): Option<Job> {
    if job < |jobs| then Some(jobs[job]) else None
  }

  // ---------------------------------------------------------------- HTTP handlers

  datatype HandlerAction = Begin | Decline | Accept(place: int, described: bool) | Publish(job: nat)

  /** Requests begin only before the first signal; those that have begun by then run to their end. */
  predicate HandlerEnabled(s: State, a: HandlerAction) {
    match a
    case Begin => s.phase.Serving?
    case Decline | Accept(_, _) => s.intake.requests > 0
    case Publish(job) => job in s.intake.handlers
  }

  /** `CreateReport`: it ends with an error, or the transaction commits report and job; then there is one attempt to
      publish that never blocks. */
  function HandlerNext(cfg: Config, s: State, a: HandlerAction): State
    requires HandlerEnabled(s, a)
  {
    match a
    case Begin => s.(intake := s.intake.(requests := s.intake.requests + 1))
    case Decline => s.(intake := s.intake.(requests := s.intake.requests - 1))
    case Accept(place, described) =>
      s.(jobs := s.jobs + [Job(JobProcessing, 0, place, described, true)],
         intake := s.intake.(requests := s.intake.requests - 1, handlers := s.intake.handlers + {|s.jobs|}))
    case Publish(job) =>
      var k := s.intake.(handlers := s.intake.handlers - {job});
      if Ready(k.verification, cfg.capacity) then
        s.(intake := k.(verification := Offer(k.verification, job)), panicked := k.verification.closed)
      else s.(intake := k, dismissed := s.dismissed + {job})
  }

  // ---------------------------------------------------------------- verification workers

  datatype VerifierAction = VReceive | VExit | VVerify(located: bool) | VSend | VDrop | VDbReset

  function SetVerifier(k: Intake, i: nat, w: Verifier): Intake
    requires i < |k.verifiers|
  {
    k.(verifiers := k.verifiers[i := w])
  }

  predicate VerifierReady(w: Verifier, a: VerifierAction) {
    match a
    case VReceive | VExit => w.VIdle?
    case VVerify(_) | VDbReset => w.VFetch?
    case VSend => w.VPublish?
    case VDrop => w.VFetch? || w.VPublish?
  }

  predicate VerifierEnabled(cfg: Config, s: State, i: nat, a: VerifierAction) {
    && i < |s.intake.verifiers|
    && VerifierReady(s.intake.verifiers[i], a)
    && (a.VReceive? ==> s.intake.verification.queue != [])
    && (a.VExit? ==> AtEnd(s.intake.verification) || s.cancelled)
    && (a.VSend? ==> Ready(s.intake.reports, cfg.capacity))
    && (a.VDrop? && s.intake.verifiers[i].VPublish? ==> s.cancelled)
  }

  /** The unconditional update after a failed lookup: back to pending, one more attempt. */
  function Returned(job: Option<Job>): Option<Job> {
    if job.None? then None else Some(job.value.(status := JobPending, attempts := job.value.attempts + 1))
  }

  /** `processCurrentJob` and `VerifyReportPostedByUser` up to the publication. */
  function Judge(job: Option<Job>, located: bool, id: nat): (r: (Verifier, Option<Job>)) {
    if job.None? then (VIdle, None)
    else if !job.value.reportStored then (VIdle, Returned(job))
    else if !located then (VIdle, None)
    else if job.value.described then (VPublish(id), None)
    else (VIdle, Some(job.value.(reportStored := false)))
  }

  function VerifierNext(cfg: Config, s: State, i: nat, a: VerifierAction): State
    requires VerifierEnabled(cfg, s, i, a)
  {
    var w := s.intake.verifiers[i];
    match a
    case VReceive =>
      var job := s.intake.verification.queue[0];
      s.(intake := SetVerifier(s.intake, i, VFetch(job)).(verification := Take(s.intake.verification)))
    case VExit => s.(intake := SetVerifier(s.intake, i, VExited))
    case VVerify(located) =>
      var r := Judge(JobAt(s.jobs, w.job), located, w.job);
      s.(intake := SetVerifier(s.intake, i, r.0), jobs := WriteJob(s.jobs, w.job, r.1),
         dismissed := if r.0.VPublish? then s.dismissed else s.dismissed + {w.job})
    case VSend =>
      s.(intake := SetVerifier(s.intake, i, VIdle).(reports := Offer(s.intake.reports, w.job)),
         panicked := s.intake.reports.closed)
    case VDrop => s.(intake := SetVerifier(s.intake, i, VIdle), dismissed := s.dismissed + {w.job})
    case VDbReset =>
      s.(intake := SetVerifier(s.intake, i, VIdle),
         jobs := WriteJob(s.jobs, w.job, Returned(JobAt(s.jobs, w.job))),
         disturbed := if HasRows(s.rows, w.job) then s.disturbed + {w.job} else s.disturbed,
         dismissed := s.dismissed + {w.job})
  }

  // ---------------------------------------------------------------- extraction workers

  datatype ExtractorAction = EReceive | EExit | ECommit | ESend | EDrop

  function SetExtractor(k: Intake, i: nat, w: Extractor): Intake
    requires i < |k.extractors|
  {
    k.(extractors := k.extractors[i := w])
  }

  predicate ExtractorReady(w: Extractor, a: ExtractorAction) {
    match a
    case EReceive | EExit => w.EIdle?
    case ECommit => w.EBuild?
    case ESend => w.EPublish? && w.todo != []
    case EDrop => w.EBuild? || w.EPublish?
  }

  predicate ExtractorEnabled(cfg: Config, s: State, i: nat, a: ExtractorAction) {
    && i < |s.intake.extractors|
    && ExtractorReady(s.intake.extractors[i], a)
    && (a.EReceive? ==> s.intake.reports.queue != [])
    && (a.EExit? ==> AtEnd(s.intake.reports) || s.cancelled)
    && (a.ESend? ==> Ready(s.mail.deliveries, cfg.capacity))
  }

  /** The delivery rows a job calls for, given the users this process loaded at its start. */
  function Batch(cfg: Config, users: seq<User>, jobs: seq<Job>, job: nat): seq<Delivery> {
    if job < |jobs| then NewRows(job, Affected(cfg, users, jobs[job].place)) else []
  }

  /** The transaction inserts the whole batch, or nothing when one row hits the unique index. */
  predicate Commits(rows: seq<Delivery>, batch: seq<Delivery>) {
    batch != [] && UniqueIndex(rows + batch)
  }

  function ExtractedJob(job: Job, rows: seq<Delivery>, batch: seq<Delivery>): Job {
    if batch == [] then job.(status := JobDone)
    else if Commits(rows, batch) then job.(status := JobProcessing)
    else job
  }

  /** All delivery rows of a job and its status in one transaction; `done` at once when nobody is affected. */
  function Extract(s: State, i: nat, job: nat, batch: seq<Delivery>): State
    requires i < |s.intake.extractors|
  {
    var jobs := if job < |s.jobs| then s.jobs[job := ExtractedJob(s.jobs[job], s.rows, batch)] else s.jobs;
    if Commits(s.rows, batch) then
      s.(jobs := jobs, rows := s.rows + batch, history := s.history + seq(|batch|, _ => []),
         intake := SetExtractor(s.intake, i, EPublish(Ids(|s.rows|, |batch|))))
    else s.(jobs := jobs, intake := SetExtractor(s.intake, i, EIdle))
  }

  function Unpublished(w: Extractor): set<nat> {
    if w.EPublish? then set id | id in w.todo else {}
  }

  function Unextracted(w: Extractor): set<nat> {
    if w.EBuild? then {w.job} else {}
  }

  function ExtractorNext(cfg: Config, s: State, i: nat, a: ExtractorAction): State
    requires ExtractorEnabled(cfg, s, i, a)
  {
    var w := s.intake.extractors[i];
    match a
    case EReceive =>
      s.(intake := SetExtractor(s.intake, i, EBuild(s.intake.reports.queue[0])).(reports := Take(s.intake.reports)))
    case EExit => s.(intake := SetExtractor(s.intake, i, EExited))
    case ECommit => Extract(s, i, w.job, Batch(cfg, s.users, s.jobs, w.job))
    case ESend =>
      s.(intake := SetExtractor(s.intake, i, if |w.todo| == 1 then EIdle else EPublish(w.todo[1..])),
         mail := s.mail.(deliveries := Offer(s.mail.deliveries, w.todo[0])), panicked := s.mail.deliveries.closed)
    case EDrop =>
      s.(intake := SetExtractor(s.intake, i, EIdle),
         dropped := s.dropped + Unpublished(w), touched := s.touched + Unpublished(w),
         dismissed := s.dismissed + Unextracted(w))
  }

  // ---------------------------------------------------------------- first-attempt workers

  datatype NotifierAction =
    | NReceive | NExit | NRead | NTryClaim | NDeliver(accepted: bool) | NRecord | NHandOver | NTally | NFinalize | NDrop

  function SetNotifier(m: Mail, i: nat, w: Notifier): Mail
    requires i < |m.notifiers|
  {
    m.(notifiers := m.notifiers[i := w])
  }

  predicate NotifierReady(w: Notifier, a: NotifierAction) {
    match a
    case NReceive | NExit => w.NIdle?
    case NRead => w.NLoad?
    case NTryClaim => w.NClaim?
    case NDeliver(_) => w.NSend?
    case NRecord => w.NFailed? || w.NSent?
    case NHandOver => w.NRetry?
    case NTally => w.NCount?
    case NFinalize => w.NVerdict?
    case NDrop => !w.NIdle? && !w.NExited?
  }

  predicate NotifierEnabled(cfg: Config, s: State, i: nat, a: NotifierAction) {
    && i < |s.mail.notifiers|
    && NotifierReady(s.mail.notifiers[i], a)
    && (a.NReceive? ==> s.mail.deliveries.queue != [])
    && (a.NExit? ==> AtEnd(s.mail.deliveries) || s.cancelled)
    && (a.NHandOver? ==> Ready(s.mail.retries, cfg.capacity))
  }

  /** The delivery a worker works on, and the job it closes. */
  function NotifierRow(w: Notifier): nat {
    match w
    case NLoad(id) => id
    case NClaim(id) => id
    case NSend(id) => id
    case NFailed(id, _) => id
    case NSent(id) => id
    case NRetry(id) => id
    case _ => 0
  }

  function NotifierJob(w: Notifier): nat {
    match w
    case NCount(job) => job
    case NVerdict(job, _) => job
    case _ => 0
  }

  /** What an abandoned worker leaves behind: the delivery it held, or the job it was closing. */
  function NotifierHeld(w: Notifier): set<nat> {
    if w.NIdle? || w.NExited? || w.NCount? || w.NVerdict? then {} else {NotifierRow(w)}
  }

  function NotifierClosing(w: Notifier): set<nat> {
    if w.NCount? || w.NVerdict? then {w.job} else {}
  }

  predicate NotifierIsLocal(a: NotifierAction) {
    a.NRead? || a.NTryClaim? || a.NDeliver? || a.NRecord? || a.NTally? || a.NFinalize?
  }

  /** One statement of `processDelivery` or `finalizeNotificationJob`, given the worker's row and its job's tally. */
  function NotifierLocal(now: int, d: Option<Delivery>, tally: Option<JobStatus>, w: Notifier,
                         a: NotifierAction): Local<Notifier>
    requires NotifierReady(w, a) && NotifierIsLocal(a)
  {
    match a
    case NRead => Moves(if d.Some? then NClaim(w.id) else NIdle)
    case NTryClaim =>
      if !Matches(d, Pending) then Moves(NIdle)
      else Local(NSend(w.id), Some(d.value.(status := Processing, attempts := 1, nextAttemptAt := None)),
                 Some(Claimed(1, now)), None)
    case NDeliver(accepted) =>
      Local(if accepted then NSent(w.id) else NFailed(w.id, now + RetryDelay(1)), None,
            Some(Sent(1, accepted, now)), None)
    case NRecord =>
      if !Matches(d, Processing) then Moves(NIdle)
      else if w.NSent? then Local(NCount(d.value.job), Some(d.value.(status := Success)), None, None)
      else Local(NRetry(w.id), Some(d.value.(status := Retrying, nextAttemptAt := Some(w.next))), None, None)
    case NTally => Moves(if tally.Some? then NVerdict(w.job, tally.value) else NIdle)
    case NFinalize => Local(NIdle, None, None, Some(w.status))
  }

  function NotifierStatement(cfg: Config, s: State, i: nat, a: NotifierAction): State
    requires NotifierEnabled(cfg, s, i, a) && NotifierIsLocal(a)
  {
    var w := s.mail.notifiers[i];
    var l := NotifierLocal(s.now, RowAt(s.rows, NotifierRow(w)),
                           NotificationJobStatus(CountDeliveries(s.rows, NotifierJob(w))), w, a);
    s.(rows := WriteRow(s.rows, NotifierRow(w), l.row),
       history := WriteEvent(s.history, NotifierRow(w), l.event),
       jobs := WriteVerdict(s.jobs, NotifierJob(w), l.verdict),
       mail := SetNotifier(s.mail, i, l.w))
  }

  function NotifierMessage(cfg: Config, s: State, i: nat, a: NotifierAction): State
    requires NotifierEnabled(cfg, s, i, a) && !NotifierIsLocal(a)
  {
    var w := s.mail.notifiers[i];
    match a
    case NReceive =>
      s.(mail := SetNotifier(s.mail, i, NLoad(s.mail.deliveries.queue[0])).(deliveries := Take(s.mail.deliveries)))
    case NExit => s.(mail := SetNotifier(s.mail, i, NExited))
    case NHandOver =>
      s.(mail := SetNotifier(s.mail, i, NIdle).(retries := Offer(s.mail.retries, w.id)),
          panicked := s.mail.retries.closed)
    case NDrop =>
      s.(mail := SetNotifier(s.mail, i, NIdle), dropped := s.dropped + NotifierHeld(w),
         touched := s.touched + NotifierHeld(w), disturbed := s.disturbed + NotifierClosing(w))
  }

  function NotifierNext(cfg: Config, s: State, i: nat, a: NotifierAction): State
    requires NotifierEnabled(cfg, s, i, a)
  {
    if NotifierIsLocal(a) then NotifierStatement(cfg, s, i, a) else NotifierMessage(cfg, s, i, a)
  }

  // ---------------------------------------------------------------- retry workers

  datatype RetrierAction =
    | RReceive | RExit | RRead | RWake | RTryClaim | RDeliver(accepted: bool) | RRecord | RTryBury
    | RTally | RFinalize | RSendDead | RDrop

  function SetRetrier(m: Mail, i: nat, w: Retrier): Mail
    requires i < |m.retriers|
  {
    m.(retriers := m.retriers[i := w])
  }

  predicate RetrierReady(now: int, w: Retrier, a: RetrierAction) {
    match a
    case RReceive | RExit => w.RIdle?
    case RRead => w.RLoad?
    case RWake => w.RWait? && (w.due.None? || w.due.value <= now)
    case RTryClaim => w.RClaim?
    case RDeliver(_) => w.RSend?
    case RRecord => w.RFailed? || w.RSent?
    case RTryBury => w.RBury?
    case RTally => w.RCount?
    case RFinalize => w.RVerdict?
    case RSendDead => w.RDead?
    case RDrop => !w.RIdle? && !w.RExited?
  }

  /** The wait for the backoff and the wait for room in the dead-letter channel end early only by a forced shutdown. */
  predicate OnlyWaits(w: Retrier) {
    w.RWait? || w.RDead?
  }

  predicate RetrierEnabled(cfg: Config, s: State, i: nat, a: RetrierAction) {
    && i < |s.mail.retriers|
    && RetrierReady(s.now, s.mail.retriers[i], a)
    && (a.RReceive? ==> s.mail.retries.queue != [])
    && (a.RExit? ==> AtEnd(s.mail.retries) || s.cancelled)
    && (a.RSendDead? ==> Ready(s.mail.dead, cfg.deadCapacity))
    && (a.RDrop? && OnlyWaits(s.mail.retriers[i]) ==> s.cancelled)
  }

  function RetrierRow(w: Retrier): nat {
    match w
    case RLoad(id) => id
    case RWait(id, _, _) => id
    case RClaim(id, _) => id
    case RSend(id, _) => id
    case RFailed(id, _, _) => id
    case RSent(id, _) => id
    case RBury(id, _) => id
    case _ => 0
  }

  function RetrierJob(w: Retrier): nat {
    match w
    case RCount(job, _) => job
    case RVerdict(job, _, _) => job
    case _ => 0
  }

  function AfterFinalize(dead: Option<nat>): Retrier {
    if dead.Some? then RDead(dead.value) else RIdle
  }

  /** A failure to close the job does not keep the dead letter from being published. */
  function AfterDrop(w: Retrier): Retrier {
    match w
    case RCount(_, dead) => AfterFinalize(dead)
    case RVerdict(_, _, dead) => AfterFinalize(dead)
    case _ => RIdle
  }

  function RetrierHeld(w: Retrier): set<nat> {
    if w.RIdle? || w.RExited? || w.RDead? || w.RCount? || w.RVerdict? then {} else {RetrierRow(w)}
  }

  function RetrierClosing(w: Retrier): set<nat> {
    if w.RCount? || w.RVerdict? then {w.job} else {}
  }

  predicate RetrierIsLocal(a: RetrierAction) {
    a.RRead? || a.RWake? || a.RTryClaim? || a.RDeliver? || a.RRecord? || a.RTryBury? || a.RTally? || a.RFinalize?
  }

  /** One statement of `processRetry`, `moveDeliveryToDLQ` or `finalizeNotificationJob`. */
  function RetrierLocal(cfg: Config, now: int, d: Option<Delivery>, tally: Option<JobStatus>, w: Retrier,
                        a: RetrierAction): Local<Retrier>
    requires RetrierReady(now, w, a) && RetrierIsLocal(a)
  {
    match a
    case RRead =>
      Moves(if d.None? then RIdle
            else if d.value.attempts > cfg.maxRetries then RBury(w.id, d.value.attempts)
            else RWait(w.id, d.value.attempts, d.value.nextAttemptAt))
    case RWake => Moves(RClaim(w.id, w.attempts))
    case RTryClaim =>
      if !MatchesAt(d, Retrying, w.attempts) then Moves(RIdle)
      else Local(RSend(w.id, w.attempts + 1),
                 Some(d.value.(status := Processing, attempts := w.attempts + 1, nextAttemptAt := None)),
                 Some(Claimed(w.attempts + 1, now)), None)
    case RDeliver(accepted) =>
      Local(if accepted then RSent(w.id, w.attempt) else RFailed(w.id, w.attempt, now + RetryDelay(w.attempt)),
            None, Some(Sent(w.attempt, accepted, now)), None)
    case RRecord =>
      if !MatchesAt(d, Processing, w.attempt) then Moves(RIdle)
      else if w.RSent? then Local(RCount(d.value.job, None), Some(d.value.(status := Success)), None, None)
      else Local(RLoad(w.id), Some(d.value.(status := Retrying, nextAttemptAt := Some(w.next))), None, None)
    case RTryBury =>
      if !MatchesAt(d, Retrying, w.attempts) then Moves(RIdle)
      else Local(RCount(d.value.job, Some(w.id)), Some(d.value.(status := Failed, nextAttemptAt := None)),
          Some(Buried(now)), None)
    case RTally => Moves(if tally.Some? then RVerdict(w.job, tally.value, w.dead) else AfterFinalize(w.dead))
    case RFinalize => Local(AfterFinalize(w.dead), None, None, Some(w.status))
  }

  function RetrierStatement(cfg: Config, s: State, i: nat, a: RetrierAction): State
    requires RetrierEnabled(cfg, s, i, a) && RetrierIsLocal(a)
  {
    var w := s.mail.retriers[i];
    var d := RowAt(s.rows, RetrierRow(w));
    var l := RetrierLocal(cfg, s.now, d, NotificationJobStatus(CountDeliveries(s.rows, RetrierJob(w))), w, a);
    s.(rows := WriteRow(s.rows, RetrierRow(w), l.row),
       history := WriteEvent(s.history, RetrierRow(w), l.event),
       dlq := WriteDeadLetter(s.dlq, RetrierRow(w), if d.Some? then d.value.job else 0, l.event),
       jobs := WriteVerdict(s.jobs, RetrierJob(w), l.verdict),
       mail := SetRetrier(s.mail, i, l.w))
  }

  function RetrierMessage(cfg: Config, s: State, i: nat, a: RetrierAction): State
    requires RetrierEnabled(cfg, s, i, a) && !RetrierIsLocal(a)
  {
    var w := s.mail.retriers[i];
    match a
    case RReceive =>
      s.(mail := SetRetrier(s.mail, i, RLoad(s.mail.retries.queue[0])).(retries := Take(s.mail.retries)))
    case RExit => s.(mail := SetRetrier(s.mail, i, RExited))
    case RSendDead =>
      s.(mail := SetRetrier(s.mail, i, RIdle).(dead := Offer(s.mail.dead, w.id)), panicked := s.mail.dead.closed)
    case RDrop =>
      s.(mail := SetRetrier(s.mail, i, AfterDrop(w)), dropped := s.dropped + RetrierHeld(w),
         touched := s.touched + RetrierHeld(w), disturbed := s.disturbed + RetrierClosing(w))
  }

  function RetrierNext(cfg: Config, s: State, i: nat, a: RetrierAction): State
    requires RetrierEnabled(cfg, s, i, a)
  {
    if RetrierIsLocal(a) then RetrierStatement(cfg, s, i, a) else RetrierMessage(cfg, s, i, a)
  }

  // ---------------------------------------------------------------- startup recovery

  datatype RecoveryAction =
    | ScanJobs | NextJob | PublishJob | ReleaseRows | TakeSnapshot | SendWake | Finish | RecoveryFails

  predicate RecoveryEnabled(cfg: Config, s: State, a: RecoveryAction) {
    match a
    case ScanJobs => s.recovery.JobScan?
    case NextJob => s.recovery.JobLoop?
    case PublishJob => s.recovery.JobPublish? && Ready(s.intake.verification, cfg.capacity)
    case ReleaseRows => s.recovery.ResetRows?
    case TakeSnapshot => s.recovery.Snapshot?
    case SendWake =>
      && s.recovery.WakeLoop? && s.recovery.todo != []
      && Ready(if s.recovery.todo[0].toRetry then s.mail.retries else s.mail.deliveries, cfg.capacity)
    case Finish => s.recovery.WakeLoop? && s.recovery.todo == []
    case RecoveryFails => !s.recovery.Recovered? && (s.recovery.WakeLoop? ==> s.cancelled)
  }

  /** An error ends the pass; the second pass starts even if the first has failed. */
  function AfterFailure(r: Recovery): Recovery {
    if r.JobScan? || r.JobLoop? || r.JobPublish? then ResetRows else Recovered
  }

  /** The deliveries that a failure of the second pass leaves without a wake-up: before the list is made the unfinished
      ones that something has interfered with, then those still on the list. */
  function Unwoken(r: Recovery, rows: seq<Delivery>, touched: set<nat>): set<nat> {
    match r
    case ResetRows | Snapshot => OpenRows(rows) * touched
    case WakeLoop(todo) => set k: nat | k < |todo| :: todo[k].id
    case _ => {}
  }

  function ListedBefore(todo: seq<Stalled>, boot: nat): set<nat> {
    set k: nat | k < |todo| && todo[k].job < boot :: todo[k].job
  }

  /** The jobs from before this process that a failure of the first pass leaves unpublished: before the list is made all
      open ones without deliveries, then those still on the list. */
  function Unrecovered(r: Recovery, jobs: seq<Job>, rows: seq<Delivery>, boot: nat): set<nat> {
    match r
    case JobScan => set j: nat | j < boot && j < |jobs| && !jobs[j].status.Final() && !HasRows(rows, j)
    case JobLoop(todo) => ListedBefore(todo, boot)
    case JobPublish(job, todo) => ListedBefore(todo, boot) + if job < boot then {job} else {}
    case _ => {}
  }

  function RecoveryNext(cfg: Config, s: State, a: RecoveryAction): State
    requires RecoveryEnabled(cfg, s, a)
  {
    match a
    case ScanJobs => s.(recovery := JobLoop(StalledJobs(s.jobs, s.rows)))
    case NextJob =>
      if s.recovery.jobs == [] then s.(recovery := ResetRows)
      else
        var next, rest := s.recovery.jobs[0], s.recovery.jobs[1..];
        if !next.wasProcessing then s.(recovery := JobPublish(next.job, rest))
        else if next.job < |s.jobs| && s.jobs[next.job].status.JobProcessing? then
          s.(jobs := s.jobs[next.job := s.jobs[next.job].(status := JobPending)],
             recovery := JobPublish(next.job, rest),
             disturbed := if HasRows(s.rows, next.job) then s.disturbed + {next.job} else s.disturbed)
        else s.(recovery := JobLoop(rest))
    case PublishJob =>
      s.(recovery := JobLoop(s.recovery.jobs),
         intake := s.intake.(verification := Offer(s.intake.verification, s.recovery.job)),
         panicked := s.intake.verification.closed)
    case ReleaseRows =>
      s.(rows := ReleaseInterrupted(s.rows, s.now), recovery := Snapshot,
         touched := s.touched + set i: nat | i < |s.rows| && s.rows[i].status.Processing?)
    case TakeSnapshot =>
      s.(recovery := WakeLoop(Recoverable(s.rows)),
         touched := s.touched + set i: nat | i < |s.rows| && (s.rows[i].status.Pending? || s.rows[i].status.Retrying?))
    case SendWake =>
      var wake, rest := s.recovery.todo[0], WakeLoop(s.recovery.todo[1..]);
      if wake.toRetry then
        s.(recovery := rest, mail := s.mail.(retries := Offer(s.mail.retries, wake.id)),
            panicked := s.mail.retries.closed)
      else
        s.(recovery := rest, mail := s.mail.(deliveries := Offer(s.mail.deliveries, wake.id)),
            panicked := s.mail.deliveries.closed)
    case Finish => s.(recovery := Recovered)
    case RecoveryFails =>
      s.(recovery := AfterFailure(s.recovery), dropped := s.dropped + Unwoken(s.recovery, s.rows, s.touched),
         dismissed := s.dismissed + Unrecovered(s.recovery, s.jobs, s.rows, s.bootJobs))
  }

  // ---------------------------------------------------------------- shutdown

  datatype ShutdownAction = Signal | HandlersDone | RecoveryDone | StageDone | GiveUp | Cancel

  predicate StageExited(s: State, stage: nat) {
    if stage == 0 then forall i :: 0 <= i < |s.intake.verifiers| ==> s.intake.verifiers[i].VExited?
    else if stage == 1 then forall i :: 0 <= i < |s.intake.extractors| ==> s.intake.extractors[i].EExited?
    else if stage == 2 then forall i :: 0 <= i < |s.mail.notifiers| ==> s.mail.notifiers[i].NExited?
    else forall i :: 0 <= i < |s.mail.retriers| ==> s.mail.retriers[i].RExited?
  }

  predicate ShutdownEnabled(s: State, a: ShutdownAction) {
    match a
    case Signal => s.phase.Serving?
    case HandlersDone => s.phase.Stopping? && s.intake.requests == 0 && s.intake.handlers == {}
    case RecoveryDone => s.phase.AwaitRecovery? && s.recovery.Recovered?
    case StageDone => s.phase.Draining? && s.phase.stage < 4 && StageExited(s, s.phase.stage)
    case GiveUp => s.phase.Stopping? || s.phase.AwaitRecovery? || s.phase.Draining?
    case Cancel => !s.phase.Serving?
  }

  predicate IsClosed(s: State, stage: nat) {
    if stage == 0 then s.intake.verification.closed
    else if stage == 1 then s.intake.reports.closed
    else if stage == 2 then s.mail.deliveries.closed
    else if stage == 3 then s.mail.retries.closed
    else s.mail.dead.closed
  }

  function Shut(c: Channel): Channel {
    c.(closed := true)
  }

  function CloseIntake(k: Intake, stage: nat): Intake {
    if stage == 0 then k.(verification := Shut(k.verification))
    else if stage == 1 then k.(reports := Shut(k.reports))
    else k
  }

  function CloseMail(m: Mail, stage: nat): Mail {
    if stage == 2 then m.(deliveries := Shut(m.deliveries))
    else if stage == 3 then m.(retries := Shut(m.retries))
    else if stage == 4 then m.(dead := Shut(m.dead))
    else m
  }

  /** Closing a channel a second time panics. */
  function Close(s: State, stage: nat, phase: Phase): State {
    s.(intake := CloseIntake(s.intake, stage), mail := CloseMail(s.mail, stage), phase := phase,
       panicked := IsClosed(s, stage))
  }

  function ShutdownNext(s: State, a: ShutdownAction): State
    requires ShutdownEnabled(s, a)
  {
    match a
    case Signal => s.(phase := Stopping)
    case HandlersDone => s.(phase := AwaitRecovery)
    case RecoveryDone => Close(s, 0, Draining(0))
    case StageDone =>
      Close(s, s.phase.stage + 1, if s.phase.stage == 3 then Drained else Draining(s.phase.stage + 1))
    case GiveUp => s.(phase := GaveUp, cancelled := true)
    case Cancel => s.(cancelled := true)
  }

  // ---------------------------------------------------------------- the whole system

  datatype Action =
    | Handler(h: HandlerAction)
    | Verify(i: nat, v: VerifierAction)
    | ExtractUsers(i: nat, e: ExtractorAction)
    | Notify(i: nat, n: NotifierAction)
    | Retry(i: nat, r: RetrierAction)
    | Recover(c: RecoveryAction)
    | Shutdown(d: ShutdownAction)
    | Crash(newUsers: seq<User>)

  predicate DistinctUsers(users: seq<User>) {
    forall i, k :: 0 <= i < k < |users| ==> users[i].id != users[k].id
  }

  predicate Enabled(cfg: Config, s: State, a: Action) {
    match a
    case Handler(h) => !s.panicked && HandlerEnabled(s, h)
    case Verify(i, v) => !s.panicked && VerifierEnabled(cfg, s, i, v)
    case ExtractUsers(i, e) => !s.panicked && ExtractorEnabled(cfg, s, i, e)
    case Notify(i, n) => !s.panicked && NotifierEnabled(cfg, s, i, n)
    case Retry(i, r) => !s.panicked && RetrierEnabled(cfg, s, i, r)
    case Recover(c) => !s.panicked && RecoveryEnabled(cfg, s, c)
    case Shutdown(d) => !s.panicked && ShutdownEnabled(s, d)
    case Crash(newUsers) => DistinctUsers(newUsers)
  }

  /** A new process over the rows in `s`: empty open channels, idle pools, recovery about to start. */
  function Boot(cfg: Config, s: State, users: seq<User>): State {
    s.(users := users, bootJobs := |s.jobs|,
       intake := Intake(Channel([], false), Channel([], false), 0, {},
                        seq(cfg.poolSize, _ => VIdle), seq(cfg.poolSize, _ => EIdle)),
       mail := Mail(Channel([], false), Channel([], false), Channel([], false),
                    seq(cfg.poolSize, _ => NIdle), seq(cfg.poolSize, _ => RIdle)),
       recovery := JobScan, phase := Serving, cancelled := false, panicked := false, dropped := {},
       touched := s.touched + OpenRows(s.rows), disturbed := s.disturbed + UnclosedJobs(s.jobs, s.rows),
       dismissed := {})
  }

  function Next(cfg: Config, s: State, a: Action): State
    requires Enabled(cfg, s, a)
  {
    match a
    case Handler(h) => HandlerNext(cfg, s, h)
    case Verify(i, v) => VerifierNext(cfg, s, i, v)
    case ExtractUsers(i, e) => ExtractorNext(cfg, s, i, e)
    case Notify(i, n) => NotifierNext(cfg, s, i, n)
    case Retry(i, r) => RetrierNext(cfg, s, i, r)
    case Recover(c) => RecoveryNext(cfg, s, c)
    case Shutdown(d) => ShutdownNext(s, d)
    case Crash(newUsers) => Boot(cfg, s, newUsers)
  }

  /** An action happens at some time not before the previous one. */
  ghost predicate StepAt(cfg: Config, s: State, a: Action, at: int, s': State) {
    at >= s.now && Enabled(cfg, s.(now := at), a) && s' == Next(cfg, s.(now := at), a)
  }

  ghost predicate Step(cfg: Config, s: State, s': State) {
    exists a, at :: StepAt(cfg, s, a, at, s')
  }

  ghost predicate IsInitial(cfg: Config, s: State) {
    && DistinctUsers(s.users)
    && s.jobs == [] && s.rows == [] && s.dlq == [] && s.history == []
    && s.touched == {} && s.disturbed == {}
    && s == Boot(cfg, s, s.users)
  }

  ghost predicate IsRun(cfg: Config, run: seq<State>) {
    run != [] && forall k :: 0 <= k < |run| - 1 ==> Step(cfg, run[k], run[k + 1])
  }

  ghost predicate Leads(cfg: Config, s: State, s': State) {
    exists run :: IsRun(cfg, run) && run[0] == s && Last(run) == s'
  }

  ghost predicate Reachable(cfg: Config, s: State) {
    exists start :: IsInitial(cfg, start) && Leads(cfg, start, s)
  }
}
