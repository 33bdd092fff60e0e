/** What first-attempt and retry workers share: a worker may be abandoned between any two statements, and both close
    jobs with `finalizeNotificationJob`. `start` is the state at which the surrounding operation began. */
module MailWorker {
  import opened Wrappers
  import opened Pipeline
  import opened Deliveries
  import opened Verdicts
  import opened Finalisation
  import opened Process

  // ---------------------------------------------------------------- seats

  predicate Busy(m: Mail, seat: Seat) {
    match seat
    case NotifierSeat(i) => i < |m.notifiers| && !m.notifiers[i].NIdle? && !m.notifiers[i].NExited?
    case RetrierSeat(i) => i < |m.retriers| && !m.retriers[i].RIdle? && !m.retriers[i].RExited?
    case _ => false
  }

  /** The delivery that the worker in this seat holds, if any. */
  function Held(m: Mail, seat: Seat): set<nat>
    requires Busy(m, seat)
  {
    match seat
    case NotifierSeat(i) => NotifierHeld(m.notifiers[i])
    case RetrierSeat(i) => RetrierHeld(m.retriers[i])
  }

  /** The job that it is closing, if any. */
  function InClosing(m: Mail, seat: Seat): set<nat>
    requires Busy(m, seat)
  {
    match seat
    case NotifierSeat(i) => NotifierClosing(m.notifiers[i])
    case RetrierSeat(i) => RetrierClosing(m.retriers[i])
  }

  function Abandoned(m: Mail, seat: Seat): Mail
    requires Busy(m, seat)
  {
    match seat
    case NotifierSeat(i) => SetNotifier(m, i, NIdle)
    case RetrierSeat(i) => SetRetrier(m, i, AfterDrop(m.retriers[i]))
  }

  /** The worker in this seat is where it was, or abandoned. */
  predicate StaysOrDrops(m: Mail, m': Mail, seat: Seat, stays: bool)
    requires Busy(m, seat)
  {
    match seat
    case NotifierSeat(i) =>
      i < |m'.notifiers| && m'.notifiers[i] == if stays then m.notifiers[i] else NIdle
    case RetrierSeat(i) =>
      i < |m'.retriers| && m'.retriers[i] == if stays then m.retriers[i] else AfterDrop(m.retriers[i])
  }

  /** Nothing but a forced shutdown ends what the worker in this seat is waiting for. */
  predicate CannotFail(m: Mail, seat: Seat)
    requires Busy(m, seat)
  {
    seat.RetrierSeat? && OnlyWaits(m.retriers[seat.i])
  }

  lemma AbandonedOf(cfg: Config, start: State, s: State, seat: Seat, s': State)
    requires Arises(cfg, start) && Went(cfg, start, s) && Busy(s.mail, seat)
    requires CannotFail(s.mail, seat) ==> s.cancelled
    requires s'.mail == Abandoned(s.mail, seat) && s'.dropped == s.dropped + Held(s.mail, seat)
    requires s'.touched == s.touched + Held(s.mail, seat) && s'.disturbed == s.disturbed + InClosing(s.mail, seat)
    requires s' == s.(mail := s'.mail, dropped := s'.dropped, touched := s'.touched, disturbed := s'.disturbed)
    ensures Went(cfg, start, s')
  {
    Unpanicked(cfg, start, s);
    match seat
    case NotifierSeat(i) => StepGoes(cfg, start, s, Notify(i, NDrop), s.now, s');
    case RetrierSeat(i) => StepGoes(cfg, start, s, Retry(i, RDrop), s.now, s');
  }

  /** A statement or a wait has failed: the worker gives up what it was doing. */
  method Abandon(p: Server, seat: Seat, ghost start: State)
    requires Arises(p.cfg, start) && Went(p.cfg, start, p.Abs()) && Busy(p.mail, seat)
    requires CannotFail(p.mail, seat) ==> p.cancelled
    modifies p`mail, p`dropped, p`touched, p`disturbed
    ensures Went(p.cfg, start, p.Abs()) && Went(p.cfg, old(p.Abs()), p.Abs())
    ensures p.mail == Abandoned(old(p.mail), seat)
    ensures p.dropped == old(p.dropped) + Held(old(p.mail), seat)
    ensures p.touched == old(p.touched) + Held(old(p.mail), seat)
    ensures p.disturbed == old(p.disturbed) + InClosing(old(p.mail), seat)
  {
    var held, job := Held(p.mail, seat), InClosing(p.mail, seat);
    p.mail := Abandoned(p.mail, seat);
    p.dropped, p.touched, p.disturbed := p.dropped + held, p.touched + held, p.disturbed + job;
    AbandonedOf(p.cfg, start, old(p.Abs()), seat, p.Abs());
    ArisesLater(p.cfg, start, old(p.Abs()));
    AbandonedOf(p.cfg, old(p.Abs()), old(p.Abs()), seat, p.Abs());
  }

  /** What the others and a failure leave as it was. */
  ghost predicate GoesOn(cfg: Config, start: State, s: State, s': State) {
    && Went(cfg, start, s') && Went(cfg, s, s')
    && RowsEvolve(s.rows, s'.rows) && s.touched <= s'.touched && s.disturbed <= s'.disturbed
  }

  lemma GoesOnTwice(cfg: Config, start: State, p: State, q: State, r: State)
    requires Arises(cfg, start) && Went(cfg, start, p) && Went(cfg, p, q) && Went(cfg, q, r)
    ensures GoesOn(cfg, start, p, r)
  {
    WentOn(cfg, p, q, r);
    Later(cfg, start, p, r);
  }

  /** Everybody else runs; then the next statement or wait may fail, which ends what the worker was doing. */
  method Survives(p: Server, seat: Seat, ghost start: State) returns (ok: bool)
    requires Arises(p.cfg, start) && Went(p.cfg, start, p.Abs()) && Busy(p.mail, seat)
    modifies p
    ensures GoesOn(p.cfg, start, old(p.Abs()), p.Abs())
    ensures StaysOrDrops(old(p.mail), p.mail, seat, ok)
    ensures !ok ==> Held(old(p.mail), seat) <= p.touched && InClosing(old(p.mail), seat) <= p.disturbed
    ensures !ok && CannotFail(old(p.mail), seat) ==> p.cancelled
  {
    p.Others(seat, start);
    ghost var before := p.Abs();
    WentOn(p.cfg, start, old(p.Abs()), before);
    ok := true;
    if !CannotFail(p.mail, seat) || p.cancelled {
      ok := *;
    }
    if !ok {
      Abandon(p, seat, start);
    }
    GoesOnTwice(p.cfg, start, old(p.Abs()), before, p.Abs());
  }

  // ---------------------------------------------------------------- closing a job

  /** The worker in this seat is about to count the deliveries of the job. */
  predicate Counting(m: Mail, seat: Seat, job: nat) {
    match seat
    case NotifierSeat(i) => i < |m.notifiers| && m.notifiers[i] == NCount(job)
    case RetrierSeat(i) => i < |m.retriers| && m.retriers[i].RCount? && m.retriers[i].job == job
    case _ => false
  }

  /** It is about to write the status of the job. */
  predicate Writing(m: Mail, seat: Seat, job: nat, status: JobStatus) {
    match seat
    case NotifierSeat(i) => i < |m.notifiers| && m.notifiers[i] == NVerdict(job, status)
    case RetrierSeat(i) =>
      i < |m.retriers| && m.retriers[i].RVerdict? && m.retriers[i].job == job && m.retriers[i].status == status
    case _ => false
  }

  predicate InFinalizer(m: Mail, seat: Seat) {
    match seat
    case NotifierSeat(i) => i < |m.notifiers| && (m.notifiers[i].NCount? || m.notifiers[i].NVerdict?)
    case RetrierSeat(i) => i < |m.retriers| && (m.retriers[i].RCount? || m.retriers[i].RVerdict?)
    case _ => false
  }

  /** The mail part after the worker has counted, and after it has returned from the function. */
  function WithStatus(m: Mail, seat: Seat, job: nat, status: JobStatus): Mail
    requires InFinalizer(m, seat)
  {
    match seat
    case NotifierSeat(i) => SetNotifier(m, i, NVerdict(job, status))
    case RetrierSeat(i) => SetRetrier(m, i, RVerdict(job, status, m.retriers[i].dead))
  }

  function Returning(m: Mail, seat: Seat): Mail
    requires InFinalizer(m, seat)
  {
    match seat
    case NotifierSeat(i) => SetNotifier(m, i, NIdle)
    case RetrierSeat(i) => SetRetrier(m, i, AfterFinalize(m.retriers[i].dead))
  }

  predicate HasReturned(m: Mail, m': Mail, seat: Seat)
    requires InFinalizer(m, seat)
  {
    match seat
    case NotifierSeat(i) => i < |m'.notifiers| && m'.notifiers[i].NIdle?
    case RetrierSeat(i) => i < |m'.retriers| && m'.retriers[i] == AfterFinalize(m.retriers[i].dead)
  }

  lemma TallyOf(cfg: Config, start: State, s: State, seat: Seat, job: nat, status: Option<JobStatus>, s': State)
    requires Arises(cfg, start) && Went(cfg, start, s) && s'.now >= s.now && Counting(s.mail, seat, job)
    requires status == NotificationJobStatus(CountDeliveries(s.rows, job))
    requires s'.mail == if status.Some? then WithStatus(s.mail, seat, job, status.value) else Returning(s.mail, seat)
    requires s' == s.(now := s'.now, mail := s'.mail)
    ensures Went(cfg, start, s')
  {
    Unpanicked(cfg, start, s);
    match seat
    case NotifierSeat(i) => StepGoes(cfg, start, s, Notify(i, NTally), s'.now, s');
    case RetrierSeat(i) => StepGoes(cfg, start, s, Retry(i, RTally), s'.now, s');
  }

  /** The aggregate query and `notificationJobStatus`. */
  method Tally(p: Server, seat: Seat, job: nat, ghost start: State) returns (status: Option<JobStatus>)
    requires Arises(p.cfg, start) && Went(p.cfg, start, p.Abs()) && Counting(p.mail, seat, job)
    modifies p`now, p`mail
    ensures Went(p.cfg, start, p.Abs()) && status == NotificationJobStatus(CountDeliveries(p.rows, job))
    ensures p.mail == if status.Some? then WithStatus(old(p.mail), seat, job, status.value)
        else Returning(old(p.mail), seat)
  {
    ghost var s := p.Abs();
    p.Tick();
    status := NotificationJobStatus(CountDeliveries(p.rows, job));
    p.mail := if status.Some? then WithStatus(p.mail, seat, job, status.value) else Returning(p.mail, seat);
    TallyOf(p.cfg, start, s, seat, job, status, p.Abs());
  }

  lemma StatusOf(cfg: Config, start: State, s: State, seat: Seat, job: nat, status: JobStatus, s': State)
    requires Arises(cfg, start) && Went(cfg, start, s) && s'.now >= s.now && Writing(s.mail, seat, job, status)
    requires s'.jobs == WriteVerdict(s.jobs, job, Some(status)) && s'.mail == Returning(s.mail, seat)
    requires s' == s.(now := s'.now, jobs := s'.jobs, mail := s'.mail)
    ensures Went(cfg, start, s')
  {
    Unpanicked(cfg, start, s);
    match seat
    case NotifierSeat(i) => StepGoes(cfg, start, s, Notify(i, NFinalize), s'.now, s');
    case RetrierSeat(i) => StepGoes(cfg, start, s, Retry(i, RFinalize), s'.now, s');
  }

  /** `UPDATE jobs SET status = ? WHERE id = ? AND status = 'processing'` */
  method UpdateIfProcessing(p: Server, job: nat, status: JobStatus)
    modifies p`jobs
    ensures p.jobs == WriteVerdict(old(p.jobs), job, Some(status))
  {
    if job < |p.jobs| && p.jobs[job].status.JobProcessing? {
      p.jobs := p.jobs[job := p.jobs[job].(status := status)];
    }
  }

  method WriteStatus(p: Server, seat: Seat, job: nat, status: JobStatus, ghost start: State)
    requires Arises(p.cfg, start) && Went(p.cfg, start, p.Abs()) && Writing(p.mail, seat, job, status)
    modifies p`now, p`jobs, p`mail
    ensures Went(p.cfg, start, p.Abs()) && p.mail == Returning(old(p.mail), seat)
    ensures p.jobs == WriteVerdict(old(p.jobs), job, Some(status))
  {
    ghost var s := p.Abs();
    p.Tick();
    UpdateIfProcessing(p, job, status);
    p.mail := Returning(p.mail, seat);
    StatusOf(p.cfg, start, s, seat, job, status, p.Abs());
  }

  lemma WrittenIsFinal(cfg: Config, start: State, s: State, seat: Seat, job: nat, status: JobStatus)
    requires Arises(cfg, start) && Went(cfg, start, s) && Writing(s.mail, seat, job, status)
    ensures status.Final()
  {
    ArisesIsSafe(cfg, start, s);
    match seat
    case NotifierSeat(i) => assert NotifierVerdictOk(s.rows, s.mail.notifiers[i]);
    case RetrierSeat(i) => assert RetrierVerdictOk(s.rows, s.mail.retriers[i]);
  }

  /** All deliveries of the job are finished. */
  ghost predicate JobIsOver(rows: seq<Delivery>, job: nat) {
    HasRows(rows, job) && AllTerminal(rows, job)
  }

  ghost predicate HasVerdict(s: State, job: nat) {
    job < |s.jobs| && s.jobs[job].status.Final() && IsVerdict(s.rows, job, s.jobs[job].status)
  }

  lemma FinalIsRight(cfg: Config, start: State, s: State, job: nat)
    requires Arises(cfg, start) && Went(cfg, start, s) && HasRows(s.rows, job)
    requires job < |s.jobs| && s.jobs[job].status.Final()
    ensures HasVerdict(s, job)
  {
    ArisesIsSafe(cfg, start, s);
    assert JobVerdictOk(s, job);
  }

  /** A job that is over stays over, and if the worker has just lost it, it counts as disturbed. */
  method SurvivesClosing(p: Server, seat: Seat, job: nat, ghost start: State) returns (ok: bool)
    requires Arises(p.cfg, start) && Went(p.cfg, start, p.Abs()) && Busy(p.mail, seat)
    requires InFinalizer(p.mail, seat) && InClosing(p.mail, seat) == {job}
    modifies p
    ensures GoesOn(p.cfg, start, old(p.Abs()), p.Abs())
    ensures StaysOrDrops(old(p.mail), p.mail, seat, ok) && (!ok ==> job in p.disturbed)
    ensures JobIsOver(old(p.rows), job) ==> JobIsOver(p.rows, job)
  {
    ok := Survives(p, seat, start);
    if JobIsOver(old(p.rows), job) {
      LaterTerminal(p.cfg, start, old(p.Abs()), p.Abs(), job);
    }
  }

  lemma CanSettle(cfg: Config, start: State, s: State, seat: Seat, job: nat, status: JobStatus)
    requires Arises(cfg, start) && Went(cfg, start, s) && Writing(s.mail, seat, job, status)
    ensures status.Final()
    ensures HasRows(s.rows, job) && job !in s.disturbed ==>
              job < |s.jobs| && (s.jobs[job].status.Final() || s.jobs[job].status.JobProcessing?)
  {
    WrittenIsFinal(cfg, start, s, seat, job, status);
    if HasRows(s.rows, job) && job !in s.disturbed {
      UndisturbedIsOpenOrFinal(cfg, start, s, job);
    }
  }

  /** The update closes a job with deliveries that nothing has disturbed. */
  method Settle(p: Server, seat: Seat, job: nat, status: JobStatus, ghost start: State)
    requires Arises(p.cfg, start) && Went(p.cfg, start, p.Abs()) && Writing(p.mail, seat, job, status)
    modifies p`now, p`jobs, p`mail
    ensures Went(p.cfg, start, p.Abs()) && HasReturned(old(p.mail), p.mail, seat)
    ensures HasRows(p.rows, job) && job !in p.disturbed ==> HasVerdict(p.Abs(), job)
  {
    CanSettle(p.cfg, start, p.Abs(), seat, job, status);
    WriteStatus(p, seat, job, status, start);
    if HasRows(p.rows, job) && job < |p.jobs| && p.jobs[job].status.Final() {
      FinalIsRight(p.cfg, start, p.Abs(), job);
    }
  }

  /** The update, with everybody running before it. */
  method CloseJob(p: Server, seat: Seat, job: nat, status: JobStatus, ghost start: State)
    requires Arises(p.cfg, start) && Went(p.cfg, start, p.Abs()) && Writing(p.mail, seat, job, status)
    modifies p
    ensures Went(p.cfg, start, p.Abs()) && RowsEvolve(old(p.rows), p.rows) && old(p.disturbed) <= p.disturbed
    ensures HasReturned(old(p.mail), p.mail, seat)
    ensures JobIsOver(old(p.rows), job) && job !in p.disturbed ==> HasVerdict(p.Abs(), job)
  {
    var ok := SurvivesClosing(p, seat, job, start);
    if ok {
      Settle(p, seat, job, status, start);
    }
  }

  /** The whole of `finalizeNotificationJob`: count, then update, with everybody else running in between. If all
      deliveries of the job were finished at the call, the job has its verdict at the return, unless its closing was
      cut off or the job was put back to pending. */
  method FinalizeNotificationJob(p: Server, seat: Seat, job: nat, ghost start: State)
    requires Arises(p.cfg, start) && Went(p.cfg, start, p.Abs()) && Counting(p.mail, seat, job)
    modifies p
    ensures Went(p.cfg, start, p.Abs()) && RowsEvolve(old(p.rows), p.rows) && old(p.disturbed) <= p.disturbed
    ensures HasReturned(old(p.mail), p.mail, seat)
    ensures JobIsOver(old(p.rows), job) && job !in p.disturbed ==> HasVerdict(p.Abs(), job)
  {
    var ok := SurvivesClosing(p, seat, job, start);
    if !ok {
      return;
    }
    ghost var before := p.Abs();
    var status := Tally(p, seat, job, start);
    TallyMeaning(p.rows, job);
    if status.None? {
      return;
    }
    CloseJob(p, seat, job, status.value, start);
    RowsEvolveTransitively(old(p.rows), before.rows, p.rows);
  }
}
