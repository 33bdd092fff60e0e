/** What holds in every run from an empty database, over any interleaving and any number of restarts. */
module Guarantees {
  import opened Sequences
  import opened Pipeline
  import opened Frames
  import opened Deliveries
  import opened Interference
  import opened SendRecords
  import opened NoLostDelivery
  import opened NoLostJob
  import opened DeliverySets
  import opened Verdicts
  import opened Finalisation
  import opened Completion
  import opened LateResets
  import opened Wakeups
  import opened ShutdownSafety
  import ShutdownWork
  import Drain

  ghost predicate SafeInv(cfg: Config, s: State) {
    && FullInv(cfg, s) && SendInv(s) && CarriedInv(s) && VerdictInv(s) && ClosingInv(s) && OriginInv(s)
    && JobInv(s) && WakeInv(cfg, s) && ShutInv(s) && ChannelsFit(cfg, s.intake, s.mail)
  }

  // ---------------------------------------------------------------- every run keeps it

  lemma InitialIsSafe(cfg: Config, s: State)
    requires IsInitial(cfg, s)
    ensures SafeInv(cfg, s)
  {
  }

  lemma ActionKeepsSafe(cfg: Config, s: State, a: Action)
    requires SafeInv(cfg, s) && Enabled(cfg, s, a)
    ensures SafeInv(cfg, Next(cfg, s, a))
  {
    NextKeepsBase(cfg, s, a);
    NextKeepsSets(cfg, s, a);
    NextKeepsReports(cfg, s, a);
    NextKeepsSends(cfg, s, a);
    NextKeepsCarried(cfg, s, a);
    NextKeepsOrigins(cfg, s, a);
    NextKeepsJobs(cfg, s, a);
    NextKeepsVerdicts(cfg, s, a);
    NextKeepsClosing(cfg, s, a);
    NextKeepsWakes(cfg, s, a);
    NextKeepsShut(cfg, s, a);
    NextKeepsFit(cfg, s, a);
  }

  lemma TimeKeepsSafe(cfg: Config, s: State, at: int)
    requires SafeInv(cfg, s) && at >= s.now
    ensures SafeInv(cfg, s.(now := at))
  {
    var t := s.(now := at);
    forall job: nat ensures SetOk(cfg, t, job) && JobVerdictOk(t, job) {
      assert SetOk(cfg, s, job) && JobVerdictOk(s, job);
    }
    forall job: nat | job < |t.jobs| && HasRows(t.rows, job) && job !in t.disturbed ensures Closing(t, job) {
      assert Closing(s, job);
    }
    forall id: nat | id < |t.rows| && id !in t.dropped && !t.panicked ensures Carried(t, id) {
      assert Carried(s, id);
    }
    forall job: nat | IsOpen(t, job) && job !in t.dismissed && !t.panicked ensures OnItsWay(t, job) {
      assert IsOpen(s, job);
    }
    TimeKeepsSingle(cfg, s, at);
  }

  lemma StepKeepsSafe(cfg: Config, s: State, s': State)
    requires SafeInv(cfg, s) && Step(cfg, s, s')
    ensures SafeInv(cfg, s')
  {
    var a, at :| StepAt(cfg, s, a, at, s');
    TimeKeepsSafe(cfg, s, at);
    ActionKeepsSafe(cfg, s.(now := at), a);
  }

  // ---------------------------------------------------------------- how any two states of a run are related

  /** Logs only grow. */
  ghost predicate LogsGrow(s: State, s': State) {
    && s.dlq <= s'.dlq && |s.history| <= |s'.history|
    && forall id :: 0 <= id < |s.history| ==> s.history[id] <= s'.history[id]
  }

  /** A job with deliveries keeps exactly these, and its status only ever moves from processing to a verdict or
      to pending, or from a verdict to pending. */
  ghost predicate JobEvolved(s: State, s': State, job: nat) {
    HasRows(s.rows, job) ==>
      && HasRows(s'.rows, job) && NoNewRows(s.rows, s'.rows, job)
      && job < |s.jobs| <= |s'.jobs|
      && (s'.jobs[job].status == s.jobs[job].status || s.jobs[job].status.JobProcessing?
          || s'.jobs[job].status.JobPending?)
  }

  /** Reports stay what they are. */
  ghost predicate ReportsStay(jobs: seq<Job>, jobs': seq<Job>) {
    |jobs| <= |jobs'| && forall j :: 0 <= j < |jobs| ==>
        jobs'[j].place == jobs[j].place && jobs'[j].described == jobs[j].described
  }

  ghost predicate Evolved(s: State, s': State) {
    && ReportsStay(s.jobs, s'.jobs)
    && RowsEvolve(s.rows, s'.rows) && LogsGrow(s, s') && s.touched <= s'.touched && s.disturbed <= s'.disturbed
    && forall job: nat :: JobEvolved(s, s', job)
  }

  lemma MailGrowsLogs(cfg: Config, s: State, a: Action)
    requires BaseInv(cfg, s) && Enabled(cfg, s, a) && (a.Notify? || a.Retry?)
    ensures LogsGrow(s, Next(cfg, s, a))
  {
    if a.Notify? && NotifierIsLocal(a.n) {
      var tally, l := NotifierWrites(cfg, s, a.i, a.n);
    } else if a.Retry? && RetrierIsLocal(a.r) {
      var tally, l := RetrierWrites(cfg, s, a.i, a.r);
    }
  }

  lemma NextGrowsLogs(cfg: Config, s: State, a: Action)
    requires BaseInv(cfg, s) && Enabled(cfg, s, a)
    ensures LogsGrow(s, Next(cfg, s, a))
  {
    match a
    case ExtractUsers(i, e) => ExtractorFrame(cfg, s, i, e);
    case Recover(c) => RecoveryFrame(cfg, s, c);
    case Notify(_, _) => MailGrowsLogs(cfg, s, a);
    case Retry(_, _) => MailGrowsLogs(cfg, s, a);
    case Crash(_) =>
    case _ => StepLeaves(cfg, s, a);
  }

  lemma ActionEvolves(cfg: Config, s: State, a: Action)
    requires SafeInv(cfg, s) && Enabled(cfg, s, a)
    ensures Evolved(s, Next(cfg, s, a))
  {
    var s' := Next(cfg, s, a);
    NextKeepsBase(cfg, s, a);
    NextGrowsLogs(cfg, s, a);
    FlagsOfStep(cfg, s, a);
    NextKeepsPlaces(cfg, s, a);
    assert forall j :: 0 <= j < |s.jobs| ==> JobEvolves(s.jobs[j], s'.jobs[j]);
    forall job: nat ensures JobEvolved(s, s', job) {
      if HasRows(s.rows, job) {
        RowsOfJobStay(cfg, s, a, job);
        StatusStep(cfg, s, a, job);
        var k :| 0 <= k < |s.rows| && s.rows[k].job == job;
        assert RowEvolves(s.rows[k], s'.rows[k]);
      }
    }
  }

  lemma EvolvedTransitively(p: State, q: State, r: State)
    requires Evolved(p, q) && Evolved(q, r)
    ensures Evolved(p, r)
  {
    RowsEvolveTransitively(p.rows, q.rows, r.rows);
    forall id | 0 <= id < |p.history| ensures p.history[id] <= r.history[id] {
      assert p.history[id] <= q.history[id] <= r.history[id];
    }
    forall job: nat ensures JobEvolved(p, r, job) {
      assert JobEvolved(p, q, job) && JobEvolved(q, r, job);
      forall i | |p.rows| <= i < |r.rows| && HasRows(p.rows, job) ensures r.rows[i].job != job {
        assert i < |q.rows| ==> RowEvolves(q.rows[i], r.rows[i]);
      }
    }
  }

  lemma EvolvedAtRest(s: State)
    ensures (forall job: nat :: HasRows(s.rows, job) ==> job < |s.jobs|) ==> Evolved(s, s)
  {
  }

  lemma StepEvolves(cfg: Config, s: State, s': State)
    requires SafeInv(cfg, s) && Step(cfg, s, s')
    ensures Evolved(s, s')
  {
    var a, at :| StepAt(cfg, s, a, at, s');
    TimeKeepsSafe(cfg, s, at);
    ActionEvolves(cfg, s.(now := at), a);
    forall job: nat ensures JobEvolved(s, s', job) {
      assert JobEvolved(s.(now := at), s', job);
    }
  }

  // ---------------------------------------------------------------- runs

  lemma RunWithoutLast(cfg: Config, run: seq<State>)
    requires IsRun(cfg, run) && |run| > 1
    ensures IsRun(cfg, Init(run)) && Step(cfg, Last(Init(run)), Last(run))
  {
  }

  lemma {:induction false} RunIsSafe(cfg: Config, run: seq<State>)
    requires IsRun(cfg, run) && SafeInv(cfg, run[0])
    ensures SafeInv(cfg, Last(run)) && Evolved(run[0], Last(run))
    decreases |run|
  {
    if |run| == 1 {
      forall job: nat | HasRows(run[0].rows, job) ensures job < |run[0].jobs| {
        RowsNameJobs(cfg, run[0], job);
      }
      EvolvedAtRest(run[0]);
    } else {
      RunWithoutLast(cfg, run);
      RunIsSafe(cfg, Init(run));
      StepKeepsSafe(cfg, Last(Init(run)), Last(run));
      StepEvolves(cfg, Last(Init(run)), Last(run));
      EvolvedTransitively(run[0], Last(Init(run)), Last(run));
    }
  }

  lemma ReachableIsSafe(cfg: Config, s: State)
    requires Reachable(cfg, s)
    ensures SafeInv(cfg, s)
  {
    var start :| IsInitial(cfg, start) && Leads(cfg, start, s);
    var run :| IsRun(cfg, run) && run[0] == start && Last(run) == s;
    InitialIsSafe(cfg, start);
    RunIsSafe(cfg, run);
  }

  /** Whatever happens after a reachable state: no attempt is forgotten, finished deliveries stay as they are, logs
      only grow, and a job with deliveries keeps exactly these. */
  lemma LaterStatesEvolve(cfg: Config, s: State, s': State)
    requires Reachable(cfg, s) && Leads(cfg, s, s')
    ensures SafeInv(cfg, s') && Evolved(s, s')
  {
    ReachableIsSafe(cfg, s);
    var run :| IsRun(cfg, run) && run[0] == s && Last(run) == s';
    RunIsSafe(cfg, run);
  }

  // ---------------------------------------------------------------- what the record fields say of a run

  lemma {:induction false} RunIsSafeAt(cfg: Config, run: seq<State>, k: nat)
    requires IsRun(cfg, run) && SafeInv(cfg, run[0]) && k < |run|
    ensures SafeInv(cfg, run[k])
    decreases |run|
  {
    if k == |run| - 1 {
      RunIsSafe(cfg, run);
    } else {
      RunWithoutLast(cfg, run);
      RunIsSafeAt(cfg, Init(run), k);
    }
  }

  /** What comes about in exactly the steps with a certain cause, and never goes away, holds after exactly the runs
      that contain such a step. */
  lemma {:induction false} CameAboutInRun(run: seq<State>, holds: State -> bool, cause: (State, State) -> bool)
    requires run != [] && !holds(run[0])
    requires forall k :: 0 <= k < |run| - 1 ==> (holds(run[k + 1]) <==> holds(run[k]) || cause(run[k], run[k + 1]))
    ensures holds(Last(run)) <==> exists k :: 0 <= k < |run| - 1 && cause(run[k], run[k + 1])
    decreases |run|
  {
    if |run| > 1 {
      var before := Init(run);
      forall k | 0 <= k < |before| - 1
        ensures holds(before[k + 1]) <==> holds(before[k]) || cause(before[k], before[k + 1])
      {
        assert before[k] == run[k] && before[k + 1] == run[k + 1];
      }
      CameAboutInRun(before, holds, cause);
      var n := |run| - 2;
      assert holds(run[n + 1]) <==> holds(run[n]) || cause(run[n], run[n + 1]);
      if k :| 0 <= k < |before| - 1 && cause(before[k], before[k + 1]) {
        assert cause(run[k], run[k + 1]);
      }
      if k :| 0 <= k < |run| - 1 && cause(run[k], run[k + 1]) && !cause(run[n], run[n + 1]) {
        assert cause(before[k], before[k + 1]);
      }
    }
  }

  ghost predicate TouchingAction(cfg: Config, s: State, a: Action, at: int, s': State, id: nat) {
    StepAt(cfg, s, a, at, s') && id in Touches(cfg, s.(now := at), a)
  }

  /** The step interferes with the delivery. */
  ghost predicate TouchingStep(cfg: Config, s: State, s': State, id: nat) {
    exists a, at :: TouchingAction(cfg, s, a, at, s', id)
  }

  ghost predicate DisturbingAction(cfg: Config, s: State, a: Action, at: int, s': State, job: nat) {
    StepAt(cfg, s, a, at, s') && Disturbs(s.(now := at), a, job)
  }

  /** The step cuts the job off from its closing or puts it back to pending. */
  ghost predicate DisturbingStep(cfg: Config, s: State, s': State, job: nat) {
    exists a, at :: DisturbingAction(cfg, s, a, at, s', job)
  }

  ghost predicate StrandingAction(cfg: Config, s: State, a: Action, at: int, s': State, job: nat) {
    StepAt(cfg, s, a, at, s') && Strands(s.(now := at), a, job)
  }

  /** The step strands the job. */
  ghost predicate StrandingStep(cfg: Config, s: State, s': State, job: nat) {
    exists a, at :: StrandingAction(cfg, s, a, at, s', job)
  }

  lemma TouchedByStep(cfg: Config, s: State, s': State, id: nat)
    requires Step(cfg, s, s')
    ensures id in s'.touched <==> id in s.touched || TouchingStep(cfg, s, s', id)
  {
    var a, at :| StepAt(cfg, s, a, at, s');
    FlagsOfStep(cfg, s.(now := at), a);
    assert id in Touches(cfg, s.(now := at), a) ==> TouchingAction(cfg, s, a, at, s', id);
    if TouchingStep(cfg, s, s', id) {
      var b, on :| TouchingAction(cfg, s, b, on, s', id);
      FlagsOfStep(cfg, s.(now := on), b);
    }
  }

  /** `touched` holds exactly the deliveries that some step of the past has interfered with. */
  lemma TouchedMeansInterference(cfg: Config, run: seq<State>, id: nat)
    requires IsRun(cfg, run) && IsInitial(cfg, run[0])
    ensures id in Last(run).touched <==> exists k :: 0 <= k < |run| - 1 && TouchingStep(cfg, run[k], run[k + 1], id)
  {
    forall k | 0 <= k < |run| - 1
      ensures id in run[k + 1].touched <==> id in run[k].touched || TouchingStep(cfg, run[k], run[k + 1], id)
    {
      TouchedByStep(cfg, run[k], run[k + 1], id);
    }
    CameAboutInRun(run, (s: State) => id in s.touched, (s: State, s': State) => TouchingStep(cfg, s, s', id));
  }

  lemma DisturbedByStep(cfg: Config, s: State, s': State, job: nat)
    requires Step(cfg, s, s')
    ensures job in s'.disturbed <==> job in s.disturbed || DisturbingStep(cfg, s, s', job)
  {
    var a, at :| StepAt(cfg, s, a, at, s');
    FlagsOfStep(cfg, s.(now := at), a);
    assert Disturbs(s.(now := at), a, job) ==> DisturbingAction(cfg, s, a, at, s', job);
    if DisturbingStep(cfg, s, s', job) {
      var b, on :| DisturbingAction(cfg, s, b, on, s', job);
      FlagsOfStep(cfg, s.(now := on), b);
    }
  }

  /** `disturbed` holds exactly the jobs that some step of the past has disturbed. */
  lemma DisturbedMeansInterference(cfg: Config, run: seq<State>, job: nat)
    requires IsRun(cfg, run) && IsInitial(cfg, run[0])
    ensures job in Last(run).disturbed <==>
              exists k :: 0 <= k < |run| - 1 && DisturbingStep(cfg, run[k], run[k + 1], job)
  {
    forall k | 0 <= k < |run| - 1
      ensures job in run[k + 1].disturbed <==> job in run[k].disturbed || DisturbingStep(cfg, run[k], run[k + 1], job)
    {
      DisturbedByStep(cfg, run[k], run[k + 1], job);
    }
    CameAboutInRun(run, (s: State) => job in s.disturbed, (s: State, s': State) => DisturbingStep(cfg, s, s', job));
  }

  /** Like this for what a crash wipes out: it holds after exactly the runs that contain a step with the cause and no
      crash since. */
  lemma {:induction false} CameAboutSince(run: seq<State>, holds: State -> bool, cause: (State, State) -> bool,
                                          wipes: (State, State) -> bool)
    requires run != [] && !holds(run[0])
    requires forall k :: 0 <= k < |run| - 1 ==>
               (holds(run[k + 1]) <==> !wipes(run[k], run[k + 1]) && (holds(run[k]) || cause(run[k], run[k + 1])))
    ensures holds(Last(run)) <==> HappenedSince(run, cause, wipes)
    decreases |run|
  {
    if |run| > 1 {
      var before, n := Init(run), |run| - 2;
      forall k | 0 <= k < |before| - 1
        ensures holds(before[k + 1]) <==>
                  !wipes(before[k], before[k + 1]) && (holds(before[k]) || cause(before[k], before[k + 1]))
      {
        assert before[k] == run[k] && before[k + 1] == run[k + 1];
      }
      CameAboutSince(before, holds, cause, wipes);
      assert holds(run[n + 1]) <==> !wipes(run[n], run[n + 1]) && (holds(run[n]) || cause(run[n], run[n + 1]));
      OneStepMore(run, cause, wipes);
    }
  }

  ghost predicate HappenedAt(run: seq<State>, k: int, cause: (State, State) -> bool, wipes: (State, State) -> bool) {
    && 0 <= k < |run| - 1 && cause(run[k], run[k + 1])
    && forall j :: k <= j < |run| - 1 ==> !wipes(run[j], run[j + 1])
  }

  ghost predicate HappenedSince(run: seq<State>, cause: (State, State) -> bool, wipes: (State, State) -> bool) {
    exists k :: HappenedAt(run, k, cause, wipes)
  }

  lemma OneStepMore(run: seq<State>, cause: (State, State) -> bool, wipes: (State, State) -> bool)
    requires |run| > 1
    ensures var n := |run| - 2;
            HappenedSince(run, cause, wipes) <==>
              !wipes(run[n], run[n + 1]) && (HappenedSince(Init(run), cause, wipes) || cause(run[n], run[n + 1]))
  {
    var before, n := Init(run), |run| - 2;
    assert forall k :: 0 <= k < |before| ==> before[k] == run[k];
    if k :| HappenedAt(run, k, cause, wipes) {
      assert !wipes(run[n], run[n + 1]);
      assert k < n ==> HappenedAt(before, k, cause, wipes);
    }
    if !wipes(run[n], run[n + 1]) {
      if k :| HappenedAt(before, k, cause, wipes) {
        forall j | k <= j < |run| - 1 ensures !wipes(run[j], run[j + 1]) {
          assert j < n ==> !wipes(before[j], before[j + 1]);
        }
        assert HappenedAt(run, k, cause, wipes);
      }
      if cause(run[n], run[n + 1]) {
        assert HappenedAt(run, n, cause, wipes);
      }
    }
  }

  ghost predicate DismissingAction(cfg: Config, s: State, a: Action, at: int, s': State, job: nat) {
    StepAt(cfg, s, a, at, s') && job in Dismisses(cfg, s.(now := at), a)
  }

  /** The step lets go of the job. */
  ghost predicate DismissingStep(cfg: Config, s: State, s': State, job: nat) {
    exists a, at :: DismissingAction(cfg, s, a, at, s', job)
  }

  ghost predicate CrashStep(cfg: Config, s: State, s': State) {
    exists users, at :: StepAt(cfg, s, Crash(users), at, s')
  }

  lemma DismissedByStep(cfg: Config, s: State, s': State, job: nat)
    requires Step(cfg, s, s')
    ensures job in s'.dismissed <==>
              !CrashStep(cfg, s, s') && (job in s.dismissed || DismissingStep(cfg, s, s', job))
  {
    var a, at :| StepAt(cfg, s, a, at, s');
    FlagsOfStep(cfg, s.(now := at), a);
    assert a.Crash? ==> CrashStep(cfg, s, s') by {
      if a.Crash? {
        assert StepAt(cfg, s, Crash(a.newUsers), at, s');
      }
    }
    assert job in Dismisses(cfg, s.(now := at), a) ==> DismissingAction(cfg, s, a, at, s', job);
    if users, on :| StepAt(cfg, s, Crash(users), on, s') {
      FlagsOfStep(cfg, s.(now := on), Crash(users));
    } else if DismissingStep(cfg, s, s', job) {
      var b, on :| DismissingAction(cfg, s, b, on, s', job);
      FlagsOfStep(cfg, s.(now := on), b);
    }
  }

  /** `dismissed` holds exactly the jobs that some step since the last crash has let go of. */
  lemma DismissedMeansLetGo(cfg: Config, run: seq<State>, job: nat)
    requires IsRun(cfg, run) && IsInitial(cfg, run[0])
    ensures job in Last(run).dismissed <==>
              HappenedSince(run, (s: State, s': State) => DismissingStep(cfg, s, s', job),
                            (s: State, s': State) => CrashStep(cfg, s, s'))
  {
    forall k | 0 <= k < |run| - 1
      ensures job in run[k + 1].dismissed <==>
                !CrashStep(cfg, run[k], run[k + 1])
                && (job in run[k].dismissed || DismissingStep(cfg, run[k], run[k + 1], job))
    {
      DismissedByStep(cfg, run[k], run[k + 1], job);
    }
    CameAboutSince(run, (s: State) => job in s.dismissed, (s: State, s': State) => DismissingStep(cfg, s, s', job),
                   (s: State, s': State) => CrashStep(cfg, s, s'));
  }

  // ---------------------------------------------------------------- deliveries

  /** At most maxRetries + 1 calls of the provider for one delivery, whatever duplicates, errors and restarts there
      are. */
  lemma SendsAreBounded(cfg: Config, s: State, id: nat)
    requires Reachable(cfg, s) && id < |s.rows|
    ensures id < |s.history| && Sends(s.history[id]) <= s.rows[id].attempts <= cfg.maxRetries + 1
  {
    ReachableIsSafe(cfg, s);
    assert RowOk(cfg, s.rows[id])
        && Accounted(s.rows[id], s.history[id], InFlight(s.mail, id), SendRecords.Letters(s.dlq, id));
  }

  /** One dead letter for a failed delivery and none for any other; only used-up deliveries fail; `success` means
      that the provider has accepted the delivery. */
  lemma StatusesAreTrue(cfg: Config, s: State, id: nat)
    requires Reachable(cfg, s) && id < |s.rows|
    ensures id < |s.history|
    ensures SendRecords.Letters(s.dlq, id) == if s.rows[id].status.Failed? then 1 else 0
    ensures s.rows[id].status.Failed? ==> s.rows[id].attempts == cfg.maxRetries + 1
    ensures s.rows[id].status.Success? ==> WasAccepted(s.history[id])
  {
    ReachableIsSafe(cfg, s);
    assert RowOk(cfg, s.rows[id])
        && Accounted(s.rows[id], s.history[id], InFlight(s.mail, id), SendRecords.Letters(s.dlq, id));
  }

  /** Every unfinished delivery has a carrier, however many crashes there were before, unless its own holder has given
      up in this process or recovery has failed to wake it after something had interfered with it; so once everything
      is quiet, all others are finished. */
  lemma NoDeliveryIsLost(cfg: Config, s: State)
    requires Reachable(cfg, s)
    ensures forall id: nat :: id < |s.rows| && id !in s.dropped ==> Carried(s, id)
    ensures Quiet(s) ==> forall id: nat :: id < |s.rows| && id !in s.dropped ==> s.rows[id].Terminal()
  {
    ReachableIsSafe(cfg, s);
    if Quiet(s) {
      QuietMeansFinished(s);
    }
  }

  /** A delivery that nothing has interfered with has one wake-up until it is finished; its success is one accepted
      call after rejected ones only, its failure maxRetries + 1 rejected calls and a dead letter no earlier than
      2^(maxRetries + 1) - 2 seconds after the first rejection. */
  lemma UntouchedDeliveries(cfg: Config, s: State, id: nat)
    requires Reachable(cfg, s) && id < |s.rows| && id !in s.touched
    ensures id < |s.history|
    ensures var d, h := s.rows[id], s.history[id];
            && Tokens(s.mail, s.intake.extractors, id) == (if d.Terminal() then 0 else 1)
            && (d.status.Success? ==> AcceptedSends(h) == 1 && RejectedSends(h) == d.attempts - 1)
            && (d.status.Failed? ==> AcceptedSends(h) == 0 && RejectedSends(h) == cfg.maxRetries + 1)
            && (d.status.Failed? && cfg.maxRetries <= 32 ==>
                  |h| > 1 && h[1].Sent? && !h[1].accepted && Last(h).Buried?
                  && Last(h).at >= h[1].at + (Pow2(cfg.maxRetries + 1) - 2) * SECOND)
  {
    ReachableIsSafe(cfg, s);
    assert SingleAt(cfg, s, id);
    OutcomeOfUntouched(cfg, s, id);
    if s.rows[id].status.Failed? && cfg.maxRetries <= 32 {
      DeadLetterIsLate(cfg, s, id);
    }
  }

  /** In such a past every attempt after the first has waited out its backoff. */
  lemma UntouchedDeliveriesBackOff(cfg: Config, s: State, id: nat, k: nat)
    requires Reachable(cfg, s) && id < |s.rows| && id !in s.touched && 1 <= k < s.rows[id].attempts && k <= 33
    ensures id < |s.history|
    ensures var h := s.history[id];
            && 2 * k < |h| && h[2 * k].Claimed? && h[2 * k].attempt == k + 1
            && h[2 * k - 1].Sent? && h[2 * k - 1].attempt == k && !h[2 * k - 1].accepted
            && h[2 * k].at >= h[2 * k - 1].at + Pow2(k) * SECOND
  {
    ReachableIsSafe(cfg, s);
    assert SingleAt(cfg, s, id);
    assert RowOk(cfg, s.rows[id]);
    EveryAttemptWaited(cfg, s, id, k);
  }

  /** Such a delivery that waits for its next attempt is due exactly 2^attempts seconds after its last rejection. */
  lemma UntouchedDeliveriesAreDue(cfg: Config, s: State, id: nat)
    requires Reachable(cfg, s) && id < |s.rows| && id !in s.touched && s.rows[id].status.Retrying?
    requires s.rows[id].attempts <= 33
    ensures |s.history| == |s.rows|
    ensures var d, h := s.rows[id], s.history[id];
            && h != [] && Last(h).Sent? && !Last(h).accepted && Last(h).attempt == d.attempts
            && d.nextAttemptAt.Some?
            && d.nextAttemptAt.value == Last(h).at + Pow2(d.attempts) * 1_000_000_000
  {
    ReachableIsSafe(cfg, s);
    assert SingleAt(cfg, s, id);
    WaitingIsDue(cfg, s, id);
  }

  /** No delay the system ever computes overflows, as long as maxRetries is at most 32. */
  lemma BackoffNeverOverflows(cfg: Config, s: State, id: nat)
    requires Reachable(cfg, s) && id < |s.rows| && cfg.maxRetries <= 32
    ensures RetryDelay(s.rows[id].attempts) == Pow2(s.rows[id].attempts) * SECOND
  {
    SendsAreBounded(cfg, s, id);
    RetryDelayFits(s.rows[id].attempts);
  }

  // ---------------------------------------------------------------- jobs

  /** A stored job that is neither final nor has deliveries is on its way: with its handler, in a queue, with a worker
      of the intake, or, if it was stored before this process, with recovery, which has not scanned yet, has it on its
      list or is publishing it. The only exceptions are jobs that this process has let go of. */
  lemma NoJobIsLost(cfg: Config, s: State, job: nat)
    requires Reachable(cfg, s) && job < |s.jobs| && !s.jobs[job].status.Final() && !HasRows(s.rows, job)
    requires job !in s.dismissed
    ensures InIntake(s.intake, job) || (job < s.bootJobs && Awaits(s.recovery, s.jobs, job))
  {
    ReachableIsSafe(cfg, s);
    assert IsOpen(s, job);
  }

  /** No user gets two deliveries for one job, so no two deliveries share a provider key. */
  lemma DeliveriesAreDistinct(cfg: Config, s: State)
    requires Reachable(cfg, s)
    ensures forall i, k :: 0 <= i < k < |s.rows| ==>
              IdempotencyKey.Key(s.rows[i].job, s.rows[i].user) != IdempotencyKey.Key(s.rows[k].job, s.rows[k].user)
  {
    ReachableIsSafe(cfg, s);
    KeysNeverClash(s.rows);
  }

  /** The users a job notifies are settled the moment it has any deliveries. */
  lemma DeliverySetIsFixed(cfg: Config, s: State, s': State, job: nat)
    requires Reachable(cfg, s) && Leads(cfg, s, s') && HasRows(s.rows, job)
    ensures forall user :: HasRow(s'.rows, job, user) <==> HasRow(s.rows, job, user)
  {
    LaterStatesEvolve(cfg, s, s');
    assert JobEvolved(s, s', job);
    forall user | HasRow(s.rows, job, user) ensures HasRow(s'.rows, job, user) {
      var i :| 0 <= i < |s.rows| && s.rows[i].job == job && s.rows[i].user == user;
      assert RowEvolves(s.rows[i], s'.rows[i]);
      assert s'.rows[i].job == job && s'.rows[i].user == user;
    }
    forall user | HasRow(s'.rows, job, user) ensures HasRow(s.rows, job, user) {
      var i :| 0 <= i < |s'.rows| && s'.rows[i].job == job && s'.rows[i].user == user;
      assert RowEvolves(s.rows[i], s'.rows[i]);
    }
  }

  /** A final status is the right one. It stays right for ever, and no later status of the job is a different
      verdict. */
  lemma VerdictsAreSound(cfg: Config, s: State, s': State, job: nat)
    requires Reachable(cfg, s) && Leads(cfg, s, s') && HasRows(s.rows, job)
    requires job < |s.jobs| && s.jobs[job].status.Final()
    ensures IsVerdict(s.rows, job, s.jobs[job].status)
    ensures IsVerdict(s'.rows, job, s.jobs[job].status)
    ensures job < |s'.jobs| && (s'.jobs[job].status == s.jobs[job].status || s'.jobs[job].status.JobPending?)
  {
    ReachableIsSafe(cfg, s);
    LaterStatesEvolve(cfg, s, s');
    assert JobVerdictOk(s, job) && JobEvolved(s, s', job);
    VerdictStands(s.rows, s'.rows, job, s.jobs[job].status);
  }

  /** A job with deliveries that has gone back to pending is never closed. */
  lemma PendingJobsStayOpen(cfg: Config, s: State, s': State, job: nat)
    requires Reachable(cfg, s) && Leads(cfg, s, s') && HasRows(s.rows, job)
    requires job < |s.jobs| && s.jobs[job].status.JobPending?
    ensures job < |s'.jobs| && s'.jobs[job].status.JobPending?
  {
    LaterStatesEvolve(cfg, s, s');
    assert JobEvolved(s, s', job);
  }

  /** A job with deliveries that nothing has disturbed is final, or in processing with an unfinished delivery or a
      worker that is closing it. */
  lemma UndisturbedJobsClose(cfg: Config, s: State, job: nat)
    requires Reachable(cfg, s) && job < |s.jobs| && HasRows(s.rows, job) && job !in s.disturbed
    ensures || s.jobs[job].status.Final()
            || (s.jobs[job].status.JobProcessing? && (!AllTerminal(s.rows, job) || BeingFinalized(s.mail, job)))
  {
    ReachableIsSafe(cfg, s);
    assert Closing(s, job);
  }

  /** Of the deliveries of the job those that this process has given up are finished all the same. */
  ghost predicate DroppedAreFinishedOf(s: State, job: nat) {
    forall id :: id in s.dropped && id < |s.rows| && s.rows[id].job == job ==> s.rows[id].Terminal()
  }

  /** Once everything is quiet such a job has its verdict, however many crashes it has lived through, unless this
      process has given up one of its deliveries unfinished. */
  lemma QuietJobsAreClosed(cfg: Config, s: State, job: nat)
    requires Reachable(cfg, s) && Quiet(s) && job < |s.jobs| && HasRows(s.rows, job) && job !in s.disturbed
    requires DroppedAreFinishedOf(s, job)
    ensures s.jobs[job].status.Final() && IsVerdict(s.rows, job, s.jobs[job].status)
  {
    NoDeliveryIsLost(cfg, s);
    assert AllTerminal(s.rows, job);
    UndisturbedJobsClose(cfg, s, job);
    FinalIsRight(cfg, s, job);
  }

  lemma FinalIsRight(cfg: Config, s: State, job: nat)
    requires Reachable(cfg, s) && job < |s.jobs| && HasRows(s.rows, job)
    ensures s.jobs[job].status.Final() ==> IsVerdict(s.rows, job, s.jobs[job].status)
  {
    ReachableIsSafe(cfg, s);
    assert JobVerdictOk(s, job);
  }

  lemma StuckByStep(cfg: Config, s: State, s': State, job: nat)
    requires SafeInv(cfg, s) && Step(cfg, s, s')
    ensures Stuck(s', job) <==> Stuck(s, job) || StrandingStep(cfg, s, s', job)
  {
    var a, at :| StepAt(cfg, s, a, at, s');
    TimeKeepsSafe(cfg, s, at);
    StrandingIsExact(cfg, s.(now := at), a, job);
    assert Stuck(s.(now := at), job) <==> Stuck(s, job);
    assert Strands(s.(now := at), a, job) ==> StrandingAction(cfg, s, a, at, s', job);
    if StrandingStep(cfg, s, s', job) {
      var b, on :| StrandingAction(cfg, s, b, on, s', job);
      TimeKeepsSafe(cfg, s, on);
      StrandingIsExact(cfg, s.(now := on), b, job);
    }
  }

  /** A job is stuck exactly if some step of the past has stranded it. */
  lemma StuckExactlyAfterStranding(cfg: Config, run: seq<State>, job: nat)
    requires IsRun(cfg, run) && IsInitial(cfg, run[0])
    ensures Stuck(Last(run), job) <==> exists k :: 0 <= k < |run| - 1 && StrandingStep(cfg, run[k], run[k + 1], job)
  {
    InitialIsSafe(cfg, run[0]);
    forall k | 0 <= k < |run| - 1
      ensures Stuck(run[k + 1], job) <==> Stuck(run[k], job) || StrandingStep(cfg, run[k], run[k + 1], job)
    {
      RunIsSafeAt(cfg, run, k);
      StuckByStep(cfg, run[k], run[k + 1], job);
    }
    CameAboutInRun(run, (s: State) => Stuck(s, job), (s: State, s': State) => StrandingStep(cfg, s, s', job));
  }

  lemma QuietIsStuckOrFinal(cfg: Config, s: State, job: nat)
    requires Reachable(cfg, s) && Quiet(s) && job < |s.jobs| && HasRows(s.rows, job)
    requires DroppedAreFinishedOf(s, job)
    ensures s.jobs[job].status.Final() <==> !Stuck(s, job)
  {
    NoDeliveryIsLost(cfg, s);
    assert AllTerminal(s.rows, job);
  }

  /** So once everything is quiet, a job with deliveries has its verdict exactly if no step of the past has stranded it,
      unless this process has given up one of its deliveries unfinished. */
  lemma ClosedExactlyUnlessStranded(cfg: Config, run: seq<State>, job: nat)
    requires IsRun(cfg, run) && IsInitial(cfg, run[0]) && Quiet(Last(run))
    requires job < |Last(run).jobs| && HasRows(Last(run).rows, job)
    requires DroppedAreFinishedOf(Last(run), job)
    ensures Last(run).jobs[job].status.Final() <==>
              forall k :: 0 <= k < |run| - 1 ==> !StrandingStep(cfg, run[k], run[k + 1], job)
  {
    assert Leads(cfg, run[0], Last(run));
    QuietIsStuckOrFinal(cfg, Last(run), job);
    StuckExactlyAfterStranding(cfg, run, job);
  }

  lemma {:induction false} StuckThroughRun(cfg: Config, run: seq<State>, job: nat)
    requires IsRun(cfg, run) && SafeInv(cfg, run[0]) && Stuck(run[0], job)
    ensures Stuck(Last(run), job)
    decreases |run|
  {
    if |run| > 1 {
      RunWithoutLast(cfg, run);
      RunIsSafe(cfg, Init(run));
      StuckThroughRun(cfg, Init(run), job);
      StuckByStep(cfg, Last(Init(run)), Last(run), job);
    }
  }

  /** Nothing ever closes a stuck job, no restart and no recovery. */
  lemma StuckJobsStayStuck(cfg: Config, s: State, s': State, job: nat)
    requires Reachable(cfg, s) && Leads(cfg, s, s') && Stuck(s, job)
    ensures Stuck(s', job)
  {
    ReachableIsSafe(cfg, s);
    var run :| IsRun(cfg, run) && run[0] == s && Last(run) == s';
    StuckThroughRun(cfg, run, job);
  }

  // ---------------------------------------------------------------- shutdown

  /** No run sends on a closed channel or closes one twice. */
  lemma NothingPanics(cfg: Config, s: State, a: Action)
    requires Reachable(cfg, s) && Enabled(cfg, s, a)
    ensures !s.panicked && !Next(cfg, s, a).panicked
    ensures SendsOn(cfg, s, a).Some? ==> !SendsOn(cfg, s, a).value.closed
    ensures ShutdownSafety.Closes(cfg, s, a).Some? ==> !ShutdownSafety.Closes(cfg, s, a).value.closed
  {
    ReachableIsSafe(cfg, s);
    NextKeepsShut(cfg, s, a);
    NoChannelIsMisused(cfg, s, a);
  }

  /** The closed channels are always a prefix of the stages, as long as the phase says, and whoever could send on one
      of them is gone. */
  lemma ClosedChannelsHaveNoSenders(cfg: Config, s: State)
    requires Reachable(cfg, s)
    ensures ClosedPrefix(s.intake, s.mail) && ClosedAsPhaseSays(s.phase, ClosedStages(s.intake, s.mail))
    ensures SendersGone(s.intake, s.mail, s.recovery.Recovered?)
  {
    ReachableIsSafe(cfg, s);
  }

  /** Every stored job without deliveries is final, or one that this process has let go of. */
  ghost predicate JobsAreSettled(s: State) {
    forall job: nat :: job < |s.jobs| && !HasRows(s.rows, job) ==>
      s.jobs[job].status.Final() || job in s.dismissed
  }

  lemma EndSettlesJobs(s: State)
    requires JobInv(s) && !s.panicked && NothingInProcess(s)
    ensures JobsAreSettled(s)
  {
    forall job: nat | IsOpen(s, job) ensures job in s.dismissed {
      NothingOnItsWay(s, job);
    }
  }

  /** A shutdown that reaches its end without cancelling the workers leaves nothing in the process. Every delivery is
      finished unless it was given up, every undisturbed job without such an unfinished delivery is closed, and every
      job without deliveries is final or one that this process has let go of. */
  lemma GracefulEndIsComplete(cfg: Config, s: State)
    requires cfg.Valid() && Reachable(cfg, s) && s.phase.Drained? && !s.cancelled
    ensures NothingInProcess(s)
    ensures forall id: nat :: id < |s.rows| && id !in s.dropped ==> s.rows[id].Terminal()
    ensures forall job: nat :: job < |s.jobs| && ClosedInTheEnd(s, job) ==>
              s.jobs[job].status.Final() && IsVerdict(s.rows, job, s.jobs[job].status)
    ensures JobsAreSettled(s)
  {
    ReachableIsSafe(cfg, s);
    DrainedIsFinished(cfg, s);
    EndSettlesJobs(s);
    forall job: nat | job < |s.jobs| && ClosedInTheEnd(s, job)
      ensures s.jobs[job].status.Final() && IsVerdict(s.rows, job, s.jobs[job].status)
    {
      QuietJobsAreClosed(cfg, s, job);
    }
  }

  /** The job has deliveries, nothing has disturbed it, and none of its deliveries was given up unfinished. */
  ghost predicate ClosedInTheEnd(s: State, job: nat) {
    HasRows(s.rows, job) && job !in s.disturbed && DroppedAreFinishedOf(s, job)
  }

  /** From the first signal on the shutdown takes no more steps than there is work left, whatever fails on the way. */
  lemma DrainIsBounded(cfg: Config, s: State, run: seq<State>, faults: bool)
    requires Reachable(cfg, s) && Drain.ShuttingDown(s.phase) && !s.cancelled
    requires Drain.ShutdownRun(cfg, run, faults) && run[0] == s
    ensures |run| - 1 <= ShutdownWork.WorkLeft(cfg, s)
  {
    ReachableIsSafe(cfg, s);
    Drain.DrainsAreShort(cfg, run, faults);
  }

  /** And with room for every dead letter that can still come it cannot stop before its end. Then nothing is left in the
      process, every delivery is finished that was not given up, and every job without deliveries is final or let go of;
      without faults no more deliveries are given up. */
  lemma DrainTerminates(cfg: Config, s: State, run: seq<State>, faults: bool)
    requires cfg.Valid() && Reachable(cfg, s) && Drain.ShuttingDown(s.phase) && !s.cancelled
    requires ShutdownWork.LettersToCome(s) <= cfg.deadCapacity
    requires Drain.ShutdownRun(cfg, run, faults) && run[0] == s
    ensures Last(run).phase.Drained? <==> !Drain.CanGoOn(cfg, Last(run), faults)
    ensures Last(run).phase.Drained? ==>
              && NothingInProcess(Last(run))
              && JobsAreSettled(Last(run))
              && forall id: nat :: id < |Last(run).rows| && id !in Last(run).dropped ==> Last(run).rows[id].Terminal()
    ensures s.dropped <= Last(run).dropped && (!faults ==> Last(run).dropped == s.dropped)
  {
    ReachableIsSafe(cfg, s);
    Drain.DrainsAreShort(cfg, run, faults);
    Drain.DrainStopsOnlyAtItsEnd(cfg, Last(run), faults);
    DrainKeepsSafe(cfg, run, faults);
    if Last(run).phase.Drained? {
      DrainedIsFinished(cfg, Last(run));
      EndSettlesJobs(Last(run));
    }
  }

  lemma ShutdownStepKeepsSafe(cfg: Config, s: State, s': State, faults: bool)
    requires SafeInv(cfg, s) && Drain.ShutdownStep(cfg, s, s', faults)
    ensures SafeInv(cfg, s') && RowsEvolve(s.rows, s'.rows)
    ensures s.dropped <= s'.dropped && (!faults ==> s'.dropped == s.dropped)
  {
    var a, at :|
      (if faults then ShutdownWork.Continues(a) else ShutdownWork.IsProgress(a)) && StepAt(cfg, s, a, at, s');
    TimeKeepsSafe(cfg, s, at);
    ActionKeepsSafe(cfg, s.(now := at), a);
    FlagsOfStep(cfg, s.(now := at), a);
    NextKeepsBase(cfg, s.(now := at), a);
  }

  lemma {:induction false} DrainKeepsSafe(cfg: Config, run: seq<State>, faults: bool)
    requires Drain.ShutdownRun(cfg, run, faults) && SafeInv(cfg, run[0])
    ensures SafeInv(cfg, Last(run))
    ensures run[0].dropped <= Last(run).dropped && (!faults ==> Last(run).dropped == run[0].dropped)
    decreases |run|
  {
    if |run| > 1 {
      Drain.RunWithoutLast(cfg, run, faults);
      DrainKeepsSafe(cfg, Init(run), faults);
      ShutdownStepKeepsSafe(cfg, Last(Init(run)), Last(run), faults);
    }
  }
}
