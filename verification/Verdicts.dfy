/** What the status of a job says about its deliveries, although counting and updating are separate statements
    that race with every other worker; and which jobs get a final status at all. */
module Verdicts {
  import opened Sequences
  import opened Pipeline
  import opened Frames
  import opened Deliveries
  import opened DeliverySets

  // ---------------------------------------------------------------- counting

  ghost predicate AllHave(rows: seq<Delivery>, job: nat, status: DeliveryStatus) {
    forall i :: 0 <= i < |rows| && rows[i].job == job ==> rows[i].status == status
  }

  /** The status that the finished deliveries of a job call for. */
  ghost predicate IsVerdict(rows: seq<Delivery>, job: nat, status: JobStatus) {
    && HasRows(rows, job) && AllTerminal(rows, job) && status.Final()
    && (status.JobDone? <==> AllHave(rows, job, Success))
    && (status.JobFailed? <==> AllHave(rows, job, Failed))
  }

  lemma {:induction false} CountMeaning(rows: seq<Delivery>, job: nat)
    ensures var c := CountDeliveries(rows, job);
            && c.total == c.successful + c.failed + c.unfinished
            && (c.total > 0 <==> HasRows(rows, job))
            && (c.unfinished == 0 <==> AllTerminal(rows, job))
            && (c.successful == c.total <==> AllHave(rows, job, Success))
            && (c.failed == c.total <==> AllHave(rows, job, Failed))
    decreases |rows|
  {
    if rows != [] {
      CountMeaning(Init(rows), job);
      var d := Last(rows);
      assert rows == Init(rows) + [d];
      assert d.job == job ==> HasRows(rows, job) by {
        assert rows[|rows| - 1] == d;
      }
      assert HasRows(Init(rows), job) ==> HasRows(rows, job) by {
        if HasRows(Init(rows), job) {
          var i :| 0 <= i < |Init(rows)| && Init(rows)[i].job == job;
          assert rows[i].job == job;
        }
      }
      assert AllTerminal(rows, job) <==> AllTerminal(Init(rows), job) && (d.job == job ==> d.Terminal());
      assert AllHave(rows, job, Success) <==> AllHave(Init(rows), job, Success) && (d.job == job ==> d.status.Success?);
      assert AllHave(rows, job, Failed) <==> AllHave(Init(rows), job, Failed) && (d.job == job ==> d.status.Failed?);
    }
  }

  /** The tally gives a status exactly when the job has deliveries and all of them are finished, and then the right
      one. */
  lemma TallyMeaning(rows: seq<Delivery>, job: nat)
    ensures var tally := NotificationJobStatus(CountDeliveries(rows, job));
            && (tally.Some? <==> HasRows(rows, job) && AllTerminal(rows, job))
            && (tally.Some? ==> IsVerdict(rows, job, tally.value))
  {
    CountMeaning(rows, job);
    if HasRows(rows, job) {
      var i :| 0 <= i < |rows| && rows[i].job == job;
      assert !(AllHave(rows, job, Success) && AllHave(rows, job, Failed));
    }
  }

  // ---------------------------------------------------------------- rows of a job that has some

  ghost predicate NoNewRows(rows: seq<Delivery>, rows': seq<Delivery>, job: nat) {
    forall i :: |rows| <= i < |rows'| ==> rows'[i].job != job
  }

  lemma RowsOfJobStay(cfg: Config, s: State, a: Action, job: nat)
    requires BaseInv(cfg, s) && SetInv(cfg, s) && Enabled(cfg, s, a) && HasRows(s.rows, job)
    ensures RowsEvolve(s.rows, Next(cfg, s, a).rows) && NoNewRows(s.rows, Next(cfg, s, a).rows, job)
  {
    NextKeepsBase(cfg, s, a);
    if a.ExtractUsers? && a.e.ECommit? {
      ExtractionOutcome(cfg, s, a.i);
    } else {
      QuietRows(cfg, s, a);
    }
  }

  lemma VerdictStands(rows: seq<Delivery>, rows': seq<Delivery>, job: nat, status: JobStatus)
    requires IsVerdict(rows, job, status) && RowsEvolve(rows, rows') && NoNewRows(rows, rows', job)
    ensures IsVerdict(rows', job, status)
  {
  }

  // ---------------------------------------------------------------- reports of jobs with rows

  ghost predicate IsDescribed(jobs: seq<Job>, job: nat) {
    job < |jobs| ==> jobs[job].described
  }

  ghost predicate StoredIfDescribed(jobs: seq<Job>) {
    forall j :: 0 <= j < |jobs| && jobs[j].described ==> jobs[j].reportStored
  }

  ghost predicate DescribedRows(jobs: seq<Job>, rows: seq<Delivery>) {
    forall i :: 0 <= i < |rows| ==> IsDescribed(jobs, rows[i].job)
  }

  ghost predicate DescribedQueue(jobs: seq<Job>, queue: seq<nat>) {
    forall k :: 0 <= k < |queue| ==> IsDescribed(jobs, queue[k])
  }

  ghost predicate DescribedVerifiers(jobs: seq<Job>, ws: seq<Verifier>) {
    forall i :: 0 <= i < |ws| && ws[i].VPublish? ==> IsDescribed(jobs, ws[i].job)
  }

  ghost predicate DescribedExtractors(jobs: seq<Job>, ws: seq<Extractor>) {
    forall i :: 0 <= i < |ws| && ws[i].EBuild? ==> IsDescribed(jobs, ws[i].job)
  }

  /** Only a well-described report is extracted, and such a report is never deleted. */
  ghost predicate ReportInv(jobs: seq<Job>, rows: seq<Delivery>, k: Intake) {
    && StoredIfDescribed(jobs) && DescribedRows(jobs, rows) && DescribedQueue(jobs, k.reports.queue)
    && DescribedVerifiers(jobs, k.verifiers) && DescribedExtractors(jobs, k.extractors)
  }

  lemma ReportsOfEvolvedJobs(cfg: Config, jobs: seq<Job>, jobs': seq<Job>, rows: seq<Delivery>, rows': seq<Delivery>,
                             k: Intake)
    requires ReportInv(jobs, rows, k) && JobsEvolve(jobs, jobs') && RowsEvolve(rows, rows') && |rows'| == |rows|
    requires RowsOk(cfg, |jobs|, rows) && IntakeOk(cfg, |rows|, |jobs|, k)
    ensures ReportInv(jobs', rows', k)
  {
  }

  lemma VerifierMovesDescribed(cfg: Config, s: State, i: nat, a: VerifierAction)
    requires VerifierEnabled(cfg, s, i, a) && ReportInv(s.jobs, s.rows, s.intake)
    ensures var s' := VerifierNext(cfg, s, i, a);
            ReportInv(s.jobs, s'.rows, s'.intake) && s'.rows == s.rows
  {
  }

  lemma ExtractorMovesDescribed(cfg: Config, s: State, i: nat, a: ExtractorAction)
    requires ExtractorEnabled(cfg, s, i, a) && ReportInv(s.jobs, s.rows, s.intake)
    ensures var s' := ExtractorNext(cfg, s, i, a); ReportInv(s.jobs, s'.rows, s'.intake)
  {
  }

  lemma OthersKeepReports(cfg: Config, s: State, a: Action)
    requires BaseInv(cfg, s) && ReportInv(s.jobs, s.rows, s.intake) && Enabled(cfg, s, a)
    requires a.Handler? || a.Notify? || a.Retry? || a.Recover? || a.Shutdown?
    ensures var s' := Next(cfg, s, a); ReportInv(s'.jobs, s'.rows, s'.intake)
  {
    var s' := Next(cfg, s, a);
    NextKeepsPlaces(cfg, s, a);
    QuietRows(cfg, s, a);
    StepLeaves(cfg, s, a);
    assert s'.intake.reports.queue == s.intake.reports.queue;
    ReportsOfEvolvedJobs(cfg, s.jobs, s'.jobs, s.rows, s'.rows, s.intake);
  }

  lemma NextKeepsReports(cfg: Config, s: State, a: Action)
    requires BaseInv(cfg, s) && ReportInv(s.jobs, s.rows, s.intake) && Enabled(cfg, s, a)
    ensures var s' := Next(cfg, s, a); ReportInv(s'.jobs, s'.rows, s'.intake)
  {
    var s' := Next(cfg, s, a);
    NextKeepsPlaces(cfg, s, a);
    NextKeepsBase(cfg, s, a);
    match a
    case Verify(i, v) =>
      VerifierMovesDescribed(cfg, s, i, v);
      VerifierLeaves(cfg, s, i, v);
      ReportsOfEvolvedJobs(cfg, s.jobs, s'.jobs, s'.rows, s'.rows, s'.intake);
    case ExtractUsers(i, e) =>
      ExtractorMovesDescribed(cfg, s, i, e);
      ExtractorFrame(cfg, s, i, e);
      ReportsOfEvolvedJobs(cfg, s.jobs, s'.jobs, s'.rows, s'.rows, s'.intake);
    case Crash(_) => ReportsOfEvolvedJobs(cfg, s.jobs, s'.jobs, s.rows, s'.rows, s.intake);
    case Handler(_) => OthersKeepReports(cfg, s, a);
    case Notify(_, _) => OthersKeepReports(cfg, s, a);
    case Retry(_, _) => OthersKeepReports(cfg, s, a);
    case Recover(_) => OthersKeepReports(cfg, s, a);
    case Shutdown(_) => OthersKeepReports(cfg, s, a);
  }
}
