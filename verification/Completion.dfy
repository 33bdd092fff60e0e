/** Which jobs are closed in the end. The last finishing worker always closes the job, unless its closing is cut off
    or the job has been put back to pending; how a job becomes stuck is listed exactly, and a stuck job stays stuck. */
module Completion {
  import opened Pipeline
  import opened Frames
  import opened Deliveries
  import opened Interference
  import opened DeliverySets
  import opened Verdicts
  import opened Finalisation

  /** The worker is inside `finalizeNotificationJob` for the job. */
  predicate NotifierFinalizes(w: Notifier, job: nat) {
    (w.NCount? || w.NVerdict?) && w.job == job
  }

  predicate RetrierFinalizes(w: Retrier, job: nat) {
    (w.RCount? || w.RVerdict?) && w.job == job
  }

  ghost predicate BeingFinalized(m: Mail, job: nat) {
    || (exists i :: 0 <= i < |m.notifiers| && NotifierFinalizes(m.notifiers[i], job))
    || (exists i :: 0 <= i < |m.retriers| && RetrierFinalizes(m.retriers[i], job))
  }

  /** The worker that acts is closing the job. */
  predicate ActorFinalizes(m: Mail, a: Action, job: nat) {
    || (a.Notify? && a.i < |m.notifiers| && NotifierFinalizes(m.notifiers[a.i], job))
    || (a.Retry? && a.i < |m.retriers| && RetrierFinalizes(m.retriers[a.i], job))
  }

  /** Somebody else is. */
  ghost predicate OthersFinalize(m: Mail, a: Action, job: nat) {
    || (exists i :: 0 <= i < |m.notifiers| && !(a.Notify? && a.i == i) && NotifierFinalizes(m.notifiers[i], job))
    || (exists i :: 0 <= i < |m.retriers| && !(a.Retry? && a.i == i) && RetrierFinalizes(m.retriers[i], job))
  }

  /** All deliveries are finished, the status is not final, and nobody is closing the job. */
  ghost predicate Stuck(s: State, job: nat) {
    && job < |s.jobs| && HasRows(s.rows, job) && AllTerminal(s.rows, job)
    && !s.jobs[job].status.Final() && !BeingFinalized(s.mail, job)
  }

  /** The job is final, or still in processing with unfinished deliveries or a worker that is closing it. */
  ghost predicate Closing(s: State, job: nat)
    requires job < |s.jobs|
  {
    || s.jobs[job].status.Final()
    || (s.jobs[job].status.JobProcessing? && (!AllTerminal(s.rows, job) || BeingFinalized(s.mail, job)))
  }

  ghost predicate ClosingInv(s: State) {
    forall job: nat :: job < |s.jobs| && HasRows(s.rows, job) && job !in s.disturbed ==> Closing(s, job)
  }

  /** The ways in which a job with only finished deliveries gets stuck: a crash before it is closed; the last worker
      closing it gives up; that worker's update misses because the job is in pending; a verdict is taken back when
      nobody is closing the job any more. */
  ghost predicate Strands(s: State, a: Action, job: nat) {
    && job < |s.jobs| && HasRows(s.rows, job) && AllTerminal(s.rows, job)
    && (|| (a.Crash? && !s.jobs[job].status.Final())
        || (DropsClosing(s.mail, a, job) && !OthersFinalize(s.mail, a, job) && !s.jobs[job].status.Final())
        || (WritesVerdict(s.mail, a, job) && !OthersFinalize(s.mail, a, job) && s.jobs[job].status.JobPending?)
        || (ResetByFault(s.intake, a, job) && !BeingFinalized(s.mail, job)))
  }

  ghost predicate WritesVerdict(m: Mail, a: Action, job: nat) {
    exists status :: Closes(m, a, job, status)
  }

  // ---------------------------------------------------------------- who is closing the job after a step

  /** A worker starts to close a job only with its last delivery, and then goes on until it has written or gives up. */
  lemma NotifierFinalizesAfter(cfg: Config, s: State, i: nat, n: NotifierAction, job: nat)
    requires NotifierEnabled(cfg, s, i, n) && HasRows(s.rows, job) && AllTerminal(s.rows, job)
    ensures NotifierFinalizes(NotifierNext(cfg, s, i, n).mail.notifiers[i], job)
       <==> NotifierFinalizes(s.mail.notifiers[i], job) && !n.NDrop? && !n.NFinalize?
  {
    TallyMeaning(s.rows, job);
  }

  lemma RetrierFinalizesAfter(cfg: Config, s: State, i: nat, r: RetrierAction, job: nat)
    requires RetrierEnabled(cfg, s, i, r) && HasRows(s.rows, job) && AllTerminal(s.rows, job)
    ensures RetrierFinalizes(RetrierNext(cfg, s, i, r).mail.retriers[i], job)
       <==> RetrierFinalizes(s.mail.retriers[i], job) && !r.RDrop? && !r.RFinalize?
  {
    TallyMeaning(s.rows, job);
  }

  lemma FinalizersSplit(m: Mail, a: Action, job: nat)
    ensures BeingFinalized(m, job) <==> ActorFinalizes(m, a, job) || OthersFinalize(m, a, job)
  {
  }

  lemma OthersGoOn(s: State, a: Action, s': State, job: nat)
    requires Leaves(s, a, s')
    ensures OthersFinalize(s'.mail, a, job) <==> OthersFinalize(s.mail, a, job)
  {
    assert forall i :: 0 <= i < |s.mail.notifiers| && !(a.Notify? && a.i == i) ==>
        s'.mail.notifiers[i] == s.mail.notifiers[i];
    assert forall i :: 0 <= i < |s.mail.retriers| && !(a.Retry? && a.i == i) ==>
        s'.mail.retriers[i] == s.mail.retriers[i];
  }

  /** Of those who were closing the job all go on, except one that has just written or given up. */
  lemma FinalizesAfter(cfg: Config, s: State, a: Action, job: nat)
    requires Enabled(cfg, s, a) && !a.Crash? && HasRows(s.rows, job) && AllTerminal(s.rows, job)
    ensures BeingFinalized(Next(cfg, s, a).mail, job)
       <==> || OthersFinalize(s.mail, a, job)
            || (ActorFinalizes(s.mail, a, job) && !DropsClosing(s.mail, a, job) && !WritesVerdict(s.mail, a, job))
  {
    var s' := Next(cfg, s, a);
    FinalizersSplit(s'.mail, a, job);
    StepLeaves(cfg, s, a);
    OthersGoOn(s, a, s', job);
    if a.Notify? {
      NotifierFinalizesAfter(cfg, s, a.i, a.n, job);
      assert a.n.NFinalize? && NotifierFinalizes(s.mail.notifiers[a.i], job) ==>
          Closes(s.mail, a, job, s.mail.notifiers[a.i].status);
    } else if a.Retry? {
      RetrierFinalizesAfter(cfg, s, a.i, a.r, job);
      assert a.r.RFinalize? && RetrierFinalizes(s.mail.retriers[a.i], job) ==>
          Closes(s.mail, a, job, s.mail.retriers[a.i].status);
    }
  }

  // ---------------------------------------------------------------- jobs with unfinished deliveries

  lemma NotifierStartsClosing(cfg: Config, s: State, i: nat, a: NotifierAction, id: nat)
    requires NotifierEnabled(cfg, s, i, a) && id < |s.rows| && id < |NotifierNext(cfg, s, i, a).rows|
    requires !s.rows[id].Terminal() && NotifierNext(cfg, s, i, a).rows[id].Terminal()
    ensures NotifierFinalizes(NotifierNext(cfg, s, i, a).mail.notifiers[i], s.rows[id].job)
  {
  }

  lemma RetrierStartsClosing(cfg: Config, s: State, i: nat, a: RetrierAction, id: nat)
    requires RetrierEnabled(cfg, s, i, a) && id < |s.rows| && id < |RetrierNext(cfg, s, i, a).rows|
    requires !s.rows[id].Terminal() && RetrierNext(cfg, s, i, a).rows[id].Terminal()
    ensures RetrierFinalizes(RetrierNext(cfg, s, i, a).mail.retriers[i], s.rows[id].job)
  {
  }

  lemma OthersFinishNothing(cfg: Config, s: State, a: Action, id: nat)
    requires BaseInv(cfg, s) && Enabled(cfg, s, a) && !a.Notify? && !a.Retry? && id < |s.rows| && !s.rows[id].Terminal()
    ensures id < |Next(cfg, s, a).rows| && !Next(cfg, s, a).rows[id].Terminal()
  {
    match a
    case ExtractUsers(i, e) => ExtractorFrame(cfg, s, i, e);
    case Recover(c) => RecoveryFrame(cfg, s, c);
    case Crash(_) =>
    case _ => StepLeaves(cfg, s, a);
  }

  /** Whoever finishes the last delivery is then closing the job. */
  lemma LastDeliveryStartsClosing(cfg: Config, s: State, a: Action, job: nat, id: nat)
    requires FullInv(cfg, s) && Enabled(cfg, s, a)
    requires id < |s.rows| && s.rows[id].job == job && !s.rows[id].Terminal()
    ensures AllTerminal(Next(cfg, s, a).rows, job) ==> BeingFinalized(Next(cfg, s, a).mail, job)
  {
    var s' := Next(cfg, s, a);
    NextKeepsBase(cfg, s, a);
    assert RowEvolves(s.rows[id], s'.rows[id]);
    if s'.rows[id].Terminal() {
      match a
      case Notify(i, n) => NotifierStartsClosing(cfg, s, i, n, id);
      case Retry(i, r) => RetrierStartsClosing(cfg, s, i, r, id);
      case _ => OthersFinishNothing(cfg, s, a, id);
    }
  }

  // ---------------------------------------------------------------- how a job gets stuck

  lemma FinishedRowsStay(cfg: Config, s: State, a: Action, job: nat)
    requires FullInv(cfg, s) && Enabled(cfg, s, a) && HasRows(s.rows, job)
    ensures HasRows(Next(cfg, s, a).rows, job)
    ensures AllTerminal(s.rows, job) ==> AllTerminal(Next(cfg, s, a).rows, job)
  {
    var s' := Next(cfg, s, a);
    RowsOfJobStay(cfg, s, a, job);
    var k :| 0 <= k < |s.rows| && s.rows[k].job == job;
    assert RowEvolves(s.rows[k], s'.rows[k]) && s'.rows[k].job == job;
    if AllTerminal(s.rows, job) {
      forall i | 0 <= i < |s'.rows| && s'.rows[i].job == job ensures s'.rows[i].Terminal() {
        assert RowEvolves(s.rows[i], s'.rows[i]);
      }
    }
  }

  lemma MailStrands(cfg: Config, s: State, a: Action, job: nat)
    requires FullInv(cfg, s) && VerdictInv(s) && Enabled(cfg, s, a) && (a.Notify? || a.Retry?)
    requires job < |s.jobs| && HasRows(s.rows, job) && AllTerminal(s.rows, job)
    ensures Stuck(Next(cfg, s, a), job) <==> Stuck(s, job) || Strands(s, a, job)
  {
    FinishedRowsStay(cfg, s, a, job);
    MailStatus(cfg, s, a, job);
    FinalizesAfter(cfg, s, a, job);
    FinalizersSplit(s.mail, a, job);
    ClosersAreFinal(s, a, job);
  }

  lemma ClosersAreFinal(s: State, a: Action, job: nat)
    requires VerdictInv(s)
    ensures forall status :: Closes(s.mail, a, job, status) ==> status.Final() && ActorFinalizes(s.mail, a, job)
    ensures DropsClosing(s.mail, a, job) ==> ActorFinalizes(s.mail, a, job) && !WritesVerdict(s.mail, a, job)
  {
    forall status | Closes(s.mail, a, job, status) ensures status.Final() && ActorFinalizes(s.mail, a, job) {
      VerdictOfCloser(s, a, job, status);
    }
  }

  lemma OthersStrand(cfg: Config, s: State, a: Action, job: nat)
    requires FullInv(cfg, s) && VerdictInv(s) && Enabled(cfg, s, a) && !a.Notify? && !a.Retry?
    requires job < |s.jobs| && HasRows(s.rows, job) && AllTerminal(s.rows, job)
    ensures Stuck(Next(cfg, s, a), job) <==> Stuck(s, job) || Strands(s, a, job)
  {
    if !a.Crash? {
      FinishedRowsStay(cfg, s, a, job);
      StatusStep(cfg, s, a, job);
      FinalizesAfter(cfg, s, a, job);
      FinalizersSplit(s.mail, a, job);
      if ResetByFault(s.intake, a, job) && s.jobs[job].status.Final() {
        VerdictStaysUnlessFault(cfg, s, a, job);
      }
    }
  }

  /** A job is stuck after a step exactly if it was before or the step is one of the four that strand it. */
  lemma StrandingIsExact(cfg: Config, s: State, a: Action, job: nat)
    requires FullInv(cfg, s) && VerdictInv(s) && Enabled(cfg, s, a)
    ensures Stuck(Next(cfg, s, a), job) <==> Stuck(s, job) || Strands(s, a, job)
  {
    if !HasRows(s.rows, job) {
      if HasRows(Next(cfg, s, a).rows, job) {
        NewRowsMeanProcessing(cfg, s, a, job);
      }
    } else {
      RowsNameJobs(cfg, s, job);
      if AllTerminal(s.rows, job) {
        if a.Notify? || a.Retry? {
          MailStrands(cfg, s, a, job);
        } else {
          OthersStrand(cfg, s, a, job);
        }
      } else {
        var id :| 0 <= id < |s.rows| && s.rows[id].job == job && !s.rows[id].Terminal();
        LastDeliveryStartsClosing(cfg, s, a, job, id);
      }
    }
  }

  // ---------------------------------------------------------------- jobs that are closed

  /** A job with deliveries that nothing has disturbed is never stuck and never in pending. */
  lemma NextKeepsClosing(cfg: Config, s: State, a: Action)
    requires FullInv(cfg, s) && VerdictInv(s) && ClosingInv(s) && Enabled(cfg, s, a)
    ensures ClosingInv(Next(cfg, s, a))
  {
    var s' := Next(cfg, s, a);
    FlagsOfStep(cfg, s, a);
    forall job: nat | job < |s'.jobs| && HasRows(s'.rows, job) && job !in s'.disturbed ensures Closing(s', job) {
      assert !Disturbs(s, a, job);
      UndisturbedStep(cfg, s, a, job);
    }
  }

  lemma UndisturbedStep(cfg: Config, s: State, a: Action, job: nat)
    requires FullInv(cfg, s) && VerdictInv(s) && Enabled(cfg, s, a) && !Disturbs(s, a, job)
    requires job < |s.jobs| && HasRows(s.rows, job) ==> Closing(s, job)
    requires job < |Next(cfg, s, a).jobs| && HasRows(Next(cfg, s, a).rows, job)
    ensures Closing(Next(cfg, s, a), job)
  {
    if !HasRows(s.rows, job) {
      NewRowsMeanProcessing(cfg, s, a, job);
    } else {
      StatusStep(cfg, s, a, job);
      StrandingIsExact(cfg, s, a, job);
      ClosersAreFinal(s, a, job);
    }
  }

  /** Whoever holds a verdict for a job in processing closes it with its next statement, and rightly. */
  lemma NextStatementCloses(cfg: Config, s: State, a: Action, job: nat, status: JobStatus)
    requires FullInv(cfg, s) && VerdictInv(s) && Enabled(cfg, s, a) && Closes(s.mail, a, job, status)
    requires job < |s.jobs| && s.jobs[job].status.JobProcessing?
    ensures var s' := Next(cfg, s, a);
            job < |s'.jobs| && s'.jobs[job].status == status && IsVerdict(s'.rows, job, status)
  {
    MailStatus(cfg, s, a, job);
    VerdictOfCloser(s, a, job, status);
    RowsOfJobStay(cfg, s, a, job);
    VerdictStands(s.rows, Next(cfg, s, a).rows, job, status);
  }
}
