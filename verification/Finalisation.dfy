/** Closing jobs: a status that is final is right and stays right; which jobs are always closed; and which are never. */
module Finalisation {
  import opened Pipeline
  import opened Frames
  import opened Deliveries
  import opened Interference
  import opened DeliverySets
  import opened Verdicts

  // ---------------------------------------------------------------- changes of a job's status

  /** The action writes the verdict `status` for `job`, if the job is still in processing. */
  ghost predicate Closes(m: Mail, a: Action, job: nat, status: JobStatus) {
    || (a.Notify? && a.n.NFinalize? && a.i < |m.notifiers| && m.notifiers[a.i] == NVerdict(job, status))
    || (a.Retry? && a.r.RFinalize? && a.i < |m.retriers| && m.retriers[a.i].RVerdict?
        && m.retriers[a.i].job == job && m.retriers[a.i].status == status)
  }

  ghost predicate StatusChange(s: State, a: Action, job: nat, status: JobStatus, status': JobStatus) {
    || status' == status
    || (status.JobProcessing? && Closes(s.mail, a, job, status'))
    || (ResetByFault(s.intake, a, job) && status'.JobPending?)
    || (status.JobProcessing? && ResetByRecovery(s.recovery, a, job) && status'.JobPending?)
  }

  lemma VerifierStatus(cfg: Config, s: State, i: nat, a: VerifierAction, job: nat)
    requires VerifierEnabled(cfg, s, i, a) && job < |s.jobs| && s.jobs[job].reportStored
    ensures var s' := VerifierNext(cfg, s, i, a);
            && job < |s'.jobs|
            && (a.VDbReset? && s.intake.verifiers[i] == VFetch(job) ==> s'.jobs[job].status.JobPending?)
            && (!(a.VDbReset? && s.intake.verifiers[i] == VFetch(job)) ==> s'.jobs[job].status == s.jobs[job].status)
  {
  }

  /** The verdict of a closing worker is written if the job is still in processing; nothing else happens to it. */
  ghost predicate VerdictWritten(s: State, a: Action, job: nat, s': State)
    requires job < |s.jobs|
  {
    && job < |s'.jobs|
    && (s'.jobs[job].status == s.jobs[job].status
        || (s.jobs[job].status.JobProcessing? && Closes(s.mail, a, job, s'.jobs[job].status)))
    && (forall status :: s.jobs[job].status.JobProcessing? && Closes(s.mail, a, job, status) ==>
        s'.jobs[job].status == status)
  }

  lemma MailStatus(cfg: Config, s: State, a: Action, job: nat)
    requires Enabled(cfg, s, a) && (a.Notify? || a.Retry?) && job < |s.jobs|
    ensures VerdictWritten(s, a, job, Next(cfg, s, a))
  {
    if a.Notify? && NotifierIsLocal(a.n) {
      var tally, l := NotifierWrites(cfg, s, a.i, a.n);
    } else if a.Retry? && RetrierIsLocal(a.r) {
      var tally, l := RetrierWrites(cfg, s, a.i, a.r);
    }
  }

  lemma RecoveryStatus(cfg: Config, s: State, a: RecoveryAction, job: nat)
    requires RecoveryEnabled(cfg, s, a) && job < |s.jobs|
    ensures var s' := RecoveryNext(cfg, s, a);
            && job < |s'.jobs|
            && (s'.jobs[job].status == s.jobs[job].status
                || (s.jobs[job].status.JobProcessing? && ResetByRecovery(s.recovery, Recover(a), job)
                    && s'.jobs[job].status.JobPending?
                    && (HasRows(s.rows, job) ==> job in s'.disturbed)))
  {
  }

  lemma ExtractorStatus(cfg: Config, s: State, i: nat, a: ExtractorAction, job: nat)
    requires BaseInv(cfg, s) && SetInv(cfg, s) && ExtractorEnabled(cfg, s, i, a)
    requires HasRows(s.rows, job) && job < |s.jobs|
    ensures var s' := ExtractorNext(cfg, s, i, a);
            |s'.jobs| == |s.jobs| && s'.jobs[job].status == s.jobs[job].status
  {
    if a.ECommit? {
      ExtractionOutcome(cfg, s, i);
      CommitStatusOfOthers(cfg, s, i, job);
    }
  }

  lemma ReportIsStored(jobs: seq<Job>, rows: seq<Delivery>, k: Intake, job: nat)
    requires ReportInv(jobs, rows, k) && HasRows(rows, job) && job < |jobs|
    ensures jobs[job].reportStored
  {
    var i :| 0 <= i < |rows| && rows[i].job == job;
    assert IsDescribed(jobs, rows[i].job);
  }

  /** Every way in which the status of a job with deliveries can change. */
  lemma StatusStep(cfg: Config, s: State, a: Action, job: nat)
    requires BaseInv(cfg, s) && SetInv(cfg, s) && ReportInv(s.jobs, s.rows, s.intake) && Enabled(cfg, s, a)
    requires HasRows(s.rows, job)
    ensures var s' := Next(cfg, s, a);
            job < |s.jobs| <= |s'.jobs| && StatusChange(s, a, job, s.jobs[job].status, s'.jobs[job].status)
  {
    RowsNameJobs(cfg, s, job);
    match a
    case Verify(i, v) =>
      ReportIsStored(s.jobs, s.rows, s.intake, job);
      VerifierStatus(cfg, s, i, v, job);
      VerifierLeaves(cfg, s, i, v);
    case ExtractUsers(i, e) => ExtractorStatus(cfg, s, i, e, job);
    case Shutdown(d) => ShutdownLeaves(s, d);
    case Notify(_, _) => MailStatus(cfg, s, a, job);
    case Retry(_, _) => MailStatus(cfg, s, a, job);
    case Recover(c) => RecoveryStatus(cfg, s, c, job);
    case Handler(_) =>
    case Crash(_) =>
  }

  lemma CommitStatusOfOthers(cfg: Config, s: State, i: nat, job: nat)
    requires ExtractorEnabled(cfg, s, i, ECommit) && job < |s.jobs|
    ensures var s' := ExtractorNext(cfg, s, i, ECommit);
            && |s'.jobs| == |s.jobs|
            && (job != s.intake.extractors[i].job ==> s'.jobs[job] == s.jobs[job])
            && (!HasRows(s.rows, job) && HasRows(s'.rows, job) && job == s.intake.extractors[i].job ==>
                s'.jobs[job].status.JobProcessing?)
  {
  }

  // ---------------------------------------------------------------- verdict soundness

  ghost predicate NotifierVerdictOk(rows: seq<Delivery>, w: Notifier) {
    w.NVerdict? ==> IsVerdict(rows, w.job, w.status)
  }

  ghost predicate RetrierVerdictOk(rows: seq<Delivery>, w: Retrier) {
    w.RVerdict? ==> IsVerdict(rows, w.job, w.status)
  }

  ghost predicate WorkerVerdictsOk(rows: seq<Delivery>, m: Mail) {
    && (forall i :: 0 <= i < |m.notifiers| ==> NotifierVerdictOk(rows, m.notifiers[i]))
    && (forall i :: 0 <= i < |m.retriers| ==> RetrierVerdictOk(rows, m.retriers[i]))
  }

  ghost predicate JobVerdictOk(s: State, job: nat) {
    job < |s.jobs| && HasRows(s.rows, job) && s.jobs[job].status.Final() ==> IsVerdict(s.rows, job, s.jobs[job].status)
  }

  ghost predicate VerdictInv(s: State) {
    && WorkerVerdictsOk(s.rows, s.mail)
    && forall job: nat :: JobVerdictOk(s, job)
  }

  ghost predicate FullInv(cfg: Config, s: State) {
    BaseInv(cfg, s) && SetInv(cfg, s) && ReportInv(s.jobs, s.rows, s.intake)
  }

  lemma NotifierKeepsVerdicts(cfg: Config, s: State, i: nat, a: NotifierAction)
    requires NotifierEnabled(cfg, s, i, a) && WorkerVerdictsOk(s.rows, s.mail)
    ensures WorkerVerdictsOk(s.rows, NotifierNext(cfg, s, i, a).mail)
  {
    NotifierLeaves(cfg, s, i, a);
    assert NotifierVerdictOk(s.rows, s.mail.notifiers[i]);
    if a.NTally? {
      TallyMeaning(s.rows, s.mail.notifiers[i].job);
    }
  }

  lemma RetrierKeepsVerdicts(cfg: Config, s: State, i: nat, a: RetrierAction)
    requires RetrierEnabled(cfg, s, i, a) && WorkerVerdictsOk(s.rows, s.mail)
    ensures WorkerVerdictsOk(s.rows, RetrierNext(cfg, s, i, a).mail)
  {
    RetrierLeaves(cfg, s, i, a);
    assert RetrierVerdictOk(s.rows, s.mail.retriers[i]);
    if a.RTally? {
      TallyMeaning(s.rows, s.mail.retriers[i].job);
    }
  }

  /** Verdicts that workers hold stay right when rows of that job evolve. */
  lemma WorkerVerdictsStand(cfg: Config, s: State, a: Action, m: Mail)
    requires FullInv(cfg, s) && Enabled(cfg, s, a) && WorkerVerdictsOk(s.rows, m)
    ensures WorkerVerdictsOk(Next(cfg, s, a).rows, m)
  {
    var rows' := Next(cfg, s, a).rows;
    forall i | 0 <= i < |m.notifiers| ensures NotifierVerdictOk(rows', m.notifiers[i]) {
      var w := m.notifiers[i];
      if w.NVerdict? {
        assert NotifierVerdictOk(s.rows, w);
        RowsOfJobStay(cfg, s, a, w.job);
        VerdictStands(s.rows, rows', w.job, w.status);
      }
    }
    forall i | 0 <= i < |m.retriers| ensures RetrierVerdictOk(rows', m.retriers[i]) {
      var w := m.retriers[i];
      if w.RVerdict? {
        assert RetrierVerdictOk(s.rows, w);
        RowsOfJobStay(cfg, s, a, w.job);
        VerdictStands(s.rows, rows', w.job, w.status);
      }
    }
  }

  lemma WorkersKeepVerdicts(cfg: Config, s: State, a: Action)
    requires FullInv(cfg, s) && VerdictInv(s) && Enabled(cfg, s, a)
    ensures WorkerVerdictsOk(s.rows, Next(cfg, s, a).mail)
  {
    match a
    case Notify(i, n) => NotifierKeepsVerdicts(cfg, s, i, n);
    case Retry(i, r) => RetrierKeepsVerdicts(cfg, s, i, r);
    case Crash(_) =>
    case _ => StepLeaves(cfg, s, a);
  }

  lemma JobKeepsVerdict(cfg: Config, s: State, a: Action, job: nat)
    requires FullInv(cfg, s) && VerdictInv(s) && Enabled(cfg, s, a)
    ensures JobVerdictOk(Next(cfg, s, a), job)
  {
    var s' := Next(cfg, s, a);
    if HasRows(s.rows, job) {
      StatusStep(cfg, s, a, job);
      RowsOfJobStay(cfg, s, a, job);
      assert JobVerdictOk(s, job);
      if s'.jobs[job].status.Final() {
        if s'.jobs[job].status != s.jobs[job].status {
          VerdictOfCloser(s, a, job, s'.jobs[job].status);
        }
        VerdictStands(s.rows, s'.rows, job, s'.jobs[job].status);
      }
    } else if HasRows(s'.rows, job) {
      NewRowsMeanProcessing(cfg, s, a, job);
    }
  }

  lemma VerdictOfCloser(s: State, a: Action, job: nat, status: JobStatus)
    requires WorkerVerdictsOk(s.rows, s.mail) && Closes(s.mail, a, job, status)
    ensures IsVerdict(s.rows, job, status)
  {
  }

  lemma BatchIsForOneJob(rows: seq<Delivery>, own: nat, ids: seq<nat>, job: nat)
    ensures job != own && HasRows(rows + NewRows(own, ids), job) ==> HasRows(rows, job)
  {
  }

  lemma NewRowsMeanProcessing(cfg: Config, s: State, a: Action, job: nat)
    requires BaseInv(cfg, s) && SetInv(cfg, s) && Enabled(cfg, s, a)
    requires !HasRows(s.rows, job) && HasRows(Next(cfg, s, a).rows, job)
    ensures job < |Next(cfg, s, a).jobs| && Next(cfg, s, a).jobs[job].status.JobProcessing?
    ensures !AllTerminal(Next(cfg, s, a).rows, job)
  {
    var s' := Next(cfg, s, a);
    if a.ExtractUsers? && a.e.ECommit? {
      var own := s.intake.extractors[a.i].job;
      ExtractionOutcome(cfg, s, a.i);
      BatchIsForOneJob(s.rows, own, Affected(cfg, s.users, s.jobs[own].place), job);
      CommitStatusOfOthers(cfg, s, a.i, job);
      var i :| 0 <= i < |s'.rows| && s'.rows[i].job == job;
      ExtractorFrame(cfg, s, a.i, ECommit);
      assert s'.rows[i].status.Pending?;
    } else {
      QuietRows(cfg, s, a);
      SameSets(s.rows, s'.rows, job);
    }
  }

  lemma NextKeepsVerdicts(cfg: Config, s: State, a: Action)
    requires FullInv(cfg, s) && VerdictInv(s) && Enabled(cfg, s, a)
    ensures VerdictInv(Next(cfg, s, a))
  {
    var s' := Next(cfg, s, a);
    WorkersKeepVerdicts(cfg, s, a);
    WorkerVerdictsStand(cfg, s, a, s'.mail);
    forall job: nat ensures JobVerdictOk(s', job) {
      JobKeepsVerdict(cfg, s, a, job);
    }
  }

  /** A job with a verdict keeps it in every step, except exactly when a database error during a repeated
      verification sends the job back to pending. */
  lemma VerdictStaysUnlessFault(cfg: Config, s: State, a: Action, job: nat)
    requires FullInv(cfg, s) && Enabled(cfg, s, a) && HasRows(s.rows, job)
    requires job < |s.jobs| && s.jobs[job].status.Final()
    ensures job < |Next(cfg, s, a).jobs|
    ensures Next(cfg, s, a).jobs[job].status == s.jobs[job].status <==> !ResetByFault(s.intake, a, job)
  {
    StatusStep(cfg, s, a, job);
    if ResetByFault(s.intake, a, job) {
      ReportIsStored(s.jobs, s.rows, s.intake, job);
      VerifierStatus(cfg, s, a.i, a.v, job);
    }
  }
}
