/** Four runs. In three of them the one delivery of a report succeeds and its job is never closed: after a crash at the
    wrong moment; without any crash or fault, by a reset of recovery that comes too late; and by a failed lookup that
    takes a verdict back. In the fourth the graceful shutdown gets stuck. */
module Counterexamples {
  import opened Wrappers
  import opened Sequences
  import opened Sums
  import opened Pipeline
  import opened Completion
  import opened ShutdownWork
  import opened DrainHangs
  import opened Guarantees
  import opened Process

  function Small(): Config {
    Config(0, 1, 1, 1, (_: int, _: int) => true)
  }

  function Somebody(): seq<User> {
    [User(7, Some(0))]
  }

  function Two(): seq<User> {
    [User(7, Some(0)), User(8, Some(0))]
  }

  /** A process with one worker in each pool and one job for place 0. */
  function At(phase: Phase, users: seq<User>, status: JobStatus, rows: seq<Delivery>, history: seq<seq<Event>>,
              k: Intake, m: Mail, r: Recovery, disturbed: set<nat>): State {
    State(0, users, 0, [Job(status, 0, 0, true, true)], rows, [], history, k, m, r, phase, false, false, {}, {},
          disturbed, {})
  }

  function K(verification: seq<nat>, reports: seq<nat>, handlers: set<nat>, v: Verifier, e: Extractor): Intake {
    Intake(Channel(verification, false), Channel(reports, false), 0, handlers, [v], [e])
  }

  function M(deliveries: seq<nat>, n: Notifier): Mail {
    Mail(Channel(deliveries, false), Channel([], false), Channel([], false), [n], [RIdle])
  }

  function Row(status: DeliveryStatus, attempts: nat): seq<Delivery> {
    [Delivery(0, 7, status, attempts, None)]
  }

  lemma Go(start: State, s: State, a: Action, s': State)
    requires Leads(Small(), start, s) && Enabled(Small(), s, a) && s' == Next(Small(), s, a)
    ensures Leads(Small(), start, s')
  {
    assert s.(now := s.now) == s;
    assert StepAt(Small(), s, a, s.now, s');
    assert Step(Small(), s, s');
    StepLeads(Small(), start, s, s');
  }

  /** No job yet, and so many requests under way. */
  function First(users: seq<User>, r: Recovery, requests: nat, phase: Phase): State {
    State(0, users, 0, [], [], [], [], K([], [], {}, VIdle, EIdle).(requests := requests), M([], NIdle), r, phase,
          false, false, {}, {}, {}, {})
  }

  function Start(users: seq<User>): State {
    First(users, JobScan, 0, Serving)
  }

  lemma FirstIsInitial(users: seq<User>)
    requires DistinctUsers(users)
    ensures IsInitial(Small(), Start(users))
  {
  }

  // ---------------------------------------------------------------- the way of a report

  function Accepted(phase: Phase, users: seq<User>, status: JobStatus, r: Recovery): State {
    At(phase, users, status, [], [], K([], [], {0}, VIdle, EIdle), M([], NIdle), r, {})
  }

  function Building(phase: Phase, users: seq<User>, status: JobStatus, r: Recovery): State {
    At(phase, users, status, [], [], K([], [], {}, VIdle, EBuild(0)), M([], NIdle), r, {})
  }

  function Committed(status: JobStatus, v: Verifier, r: Recovery, disturbed: set<nat>): State {
    At(Serving, Somebody(), status, Row(Pending, 0), [[]], K([], [], {}, v, EPublish([0])), M([], NIdle), r, disturbed)
  }

  function Succeeded(status: JobStatus, v: Verifier, n: Notifier, r: Recovery, disturbed: set<nat>): State {
    At(Serving, Somebody(), status, Row(Success, 1), [[Claimed(1, 0), Sent(1, true, 0)]], K([], [], {}, v, EIdle),
       M([], n), r, disturbed)
  }

  lemma Begins(start: State, users: seq<User>, r: Recovery)
    requires Leads(Small(), start, First(users, r, 0, Serving))
    ensures Leads(Small(), start, First(users, r, 1, Serving))
  {
    Go(start, First(users, r, 0, Serving), Handler(Begin), First(users, r, 1, Serving));
  }

  lemma Accepts(start: State, phase: Phase, users: seq<User>, r: Recovery)
    requires Leads(Small(), start, First(users, r, 1, phase))
    ensures Leads(Small(), start, Accepted(phase, users, JobProcessing, r))
  {
    Go(start, First(users, r, 1, phase), Handler(Accept(0, true)), Accepted(phase, users, JobProcessing, r));
  }

  function Fetched(phase: Phase, users: seq<User>, status: JobStatus, v: Verifier, r: Recovery): State {
    At(phase, users, status, [], [], K([], [], {}, v, EIdle), M([], NIdle), r, {})
  }

  lemma Verifies(start: State, phase: Phase, users: seq<User>, status: JobStatus, r: Recovery)
    requires Leads(Small(), start, Accepted(phase, users, status, r))
    ensures Leads(Small(), start, Building(phase, users, status, r))
  {
    var queued := At(phase, users, status, [], [], K([0], [], {}, VIdle, EIdle), M([], NIdle), r, {});
    Go(start, Accepted(phase, users, status, r), Handler(Publish(0)), queued);
    Go(start, queued, Verify(0, VReceive), Fetched(phase, users, status, VFetch(0), r));
    Go(start, Fetched(phase, users, status, VFetch(0), r), Verify(0, VVerify(true)),
       Fetched(phase, users, status, VPublish(0), r));
    Publishes(start, phase, users, status, r);
  }

  lemma Publishes(start: State, phase: Phase, users: seq<User>, status: JobStatus, r: Recovery)
    requires Leads(Small(), start, Fetched(phase, users, status, VPublish(0), r))
    ensures Leads(Small(), start, Building(phase, users, status, r))
  {
    var published := At(phase, users, status, [], [], K([], [0], {}, VIdle, EIdle), M([], NIdle), r, {});
    Go(start, Fetched(phase, users, status, VPublish(0), r), Verify(0, VSend), published);
    Go(start, published, ExtractUsers(0, EReceive), Building(phase, users, status, r));
  }

  lemma Extracts(start: State, status: JobStatus, r: Recovery)
    requires Leads(Small(), start, Building(Serving, Somebody(), status, r))
    ensures Leads(Small(), start, Committed(JobProcessing, VIdle, r, {}))
  {
    assert Init(Somebody()) == [];
    assert Affected(Small(), Somebody(), 0) == [7];
    assert NewRows(0, [7]) == Row(Pending, 0) && Ids(0, 1) == [0];
    Go(start, Building(Serving, Somebody(), status, r), ExtractUsers(0, ECommit),
       Committed(JobProcessing, VIdle, r, {}));
  }

  lemma Sends(start: State, status: JobStatus, v: Verifier, r: Recovery, disturbed: set<nat>)
    requires Leads(Small(), start, Committed(status, v, r, disturbed))
    ensures Leads(Small(), start, Succeeded(status, v, NCount(0), r, disturbed))
  {
    var k := K([], [], {}, v, EIdle);
    var woken := At(Serving, Somebody(), status, Row(Pending, 0), [[]], k, M([0], NIdle), r, disturbed);
    var received := At(Serving, Somebody(), status, Row(Pending, 0), [[]], k, M([], NLoad(0)), r, disturbed);
    var loaded := At(Serving, Somebody(), status, Row(Pending, 0), [[]], k, M([], NClaim(0)), r, disturbed);
    Go(start, Committed(status, v, r, disturbed), ExtractUsers(0, ESend), woken);
    Go(start, woken, Notify(0, NReceive), received);
    Go(start, received, Notify(0, NRead), loaded);
    Delivers(start, status, k, r, disturbed);
  }

  lemma Delivers(start: State, status: JobStatus, k: Intake, r: Recovery, disturbed: set<nat>)
    requires Leads(Small(), start,
                   At(Serving, Somebody(), status, Row(Pending, 0), [[]], k, M([], NClaim(0)), r, disturbed))
    ensures Leads(Small(), start,
                  At(Serving, Somebody(), status, Row(Success, 1), [[Claimed(1, 0), Sent(1, true, 0)]], k,
                     M([], NCount(0)), r, disturbed))
  {
    var past := [Claimed(1, 0), Sent(1, true, 0)];
    var loaded := At(Serving, Somebody(), status, Row(Pending, 0), [[]], k, M([], NClaim(0)), r, disturbed);
    var claimed := At(Serving, Somebody(), status, Row(Processing, 1), [[Claimed(1, 0)]], k, M([], NSend(0)), r,
                      disturbed);
    var sent := At(Serving, Somebody(), status, Row(Processing, 1), [past], k, M([], NSent(0)), r, disturbed);
    var recorded := At(Serving, Somebody(), status, Row(Success, 1), [past], k, M([], NCount(0)), r, disturbed);
    assert [] + [Claimed(1, 0)] == [Claimed(1, 0)];
    assert [Claimed(1, 0)] + [Sent(1, true, 0)] == past;
    assert [[]][0 := [Claimed(1, 0)]] == [[Claimed(1, 0)]];
    assert Row(Pending, 0)[0 := Row(Processing, 1)[0]] == Row(Processing, 1);
    Go(start, loaded, Notify(0, NTryClaim), claimed);
    Go(start, claimed, Notify(0, NDeliver(true)), sent);
    Records(start, sent, recorded);
  }

  lemma Records(start: State, s: State, s': State)
    requires Leads(Small(), start, s) && !s.panicked && s.mail == M([], NSent(0)) && s.rows == Row(Processing, 1)
    requires s' == s.(rows := Row(Success, 1), mail := M([], NCount(0)))
    ensures Leads(Small(), start, s')
  {
    Go(start, s, Notify(0, NRecord), s');
  }

  lemma OneSuccess()
    ensures CountDeliveries(Row(Success, 1), 0) == Counts(1, 1, 0, 0)
  {
    assert Init(Row(Success, 1)) == [] && CountDeliveries([], 0) == Counts(0, 0, 0, 0);
  }

  /** The worker counts and writes what it has counted. */
  lemma Closes(start: State, status: JobStatus, v: Verifier, r: Recovery, disturbed: set<nat>)
    requires Leads(Small(), start, Succeeded(status, v, NCount(0), r, disturbed))
    ensures Leads(Small(), start, Succeeded(if status.JobProcessing? then JobDone else status, v, NIdle, r, disturbed))
  {
    OneSuccess();
    var counted := Succeeded(status, v, NVerdict(0, JobDone), r, disturbed);
    Go(start, Succeeded(status, v, NCount(0), r, disturbed), Notify(0, NTally), counted);
    Go(start, counted, Notify(0, NFinalize),
       Succeeded(if status.JobProcessing? then JobDone else status, v, NIdle, r, disturbed));
  }

  // ---------------------------------------------------------------- a crash before the job is closed

  /** The worker has recorded the success and is about to count when the process dies: the job stays in processing
      for ever, through every restart. */
  lemma CrashLeavesJobOpenForEver()
    ensures exists s :: && Reachable(Small(), s) && s.rows == Row(Success, 1)
                        && Stuck(s, 0) && s.jobs[0].status.JobProcessing?
                        && (forall s' :: Leads(Small(), s, s') ==> Stuck(s', 0))
  {
    var first := Start(Somebody());
    FirstIsInitial(Somebody());
    LeadsToItself(Small(), first);
    Begins(first, Somebody(), JobScan);
    Accepts(first, Serving, Somebody(), JobScan);
    Verifies(first, Serving, Somebody(), JobProcessing, JobScan);
    Extracts(first, JobProcessing, JobScan);
    Sends(first, JobProcessing, VIdle, JobScan, {});
    var s := Succeeded(JobProcessing, VIdle, NCount(0), JobScan, {});
    var s' := Boot(Small(), s, Somebody());
    Go(first, s, Crash(Somebody()), s');
    assert s.rows[0].job == 0;
    assert Stuck(s', 0);
    forall t | Leads(Small(), s', t) ensures Stuck(t, 0) {
      StuckJobsStayStuck(Small(), s', t, 0);
    }
  }

  // ---------------------------------------------------------------- a late reset

  /** No crash, no fault: recovery has listed the job before the handler queued it, and puts it back to pending when
      it has deliveries already. The worker that closes it finds it no longer in processing. */
  lemma LateResetLeavesJobOpenForEver()
    ensures exists s :: && Reachable(Small(), s) && s.rows == Row(Success, 1)
                        && Stuck(s, 0) && s.jobs[0].status.JobPending?
                        && s.dropped == {} && s.touched == {}
                        && (forall s' :: Leads(Small(), s, s') ==> Stuck(s', 0))
  {
    LateResetRun();
    FirstIsInitial(Somebody());
    var s := Succeeded(JobPending, VIdle, NIdle, JobPublish(0, []), {0});
    assert s.rows[0].job == 0;
    forall t | Leads(Small(), s, t) ensures Stuck(t, 0) {
      StuckJobsStayStuck(Small(), s, t, 0);
    }
  }

  lemma LateResetRun()
    ensures Leads(Small(), Start(Somebody()), Succeeded(JobPending, VIdle, NIdle, JobPublish(0, []), {0}))
  {
    var first, listed := Start(Somebody()), JobLoop([Stalled(0, true)]);
    Scans();
    Verifies(first, Serving, Somebody(), JobProcessing, listed);
    Extracts(first, JobProcessing, listed);
    var s := Committed(JobProcessing, VIdle, listed, {});
    assert s.rows[0].job == 0 && [Stalled(0, true)][1..] == [];
    Go(first, s, Recover(NextJob), Committed(JobPending, VIdle, JobPublish(0, []), {0}));
    Sends(first, JobPending, VIdle, JobPublish(0, []), {0});
    Closes(first, JobPending, VIdle, JobPublish(0, []), {0});
  }

  lemma Scans()
    ensures Leads(Small(), Start(Somebody()), Accepted(Serving, Somebody(), JobProcessing, JobLoop([Stalled(0, true)])))
  {
    var first, accepted := Start(Somebody()), Accepted(Serving, Somebody(), JobProcessing, JobScan);
    LeadsToItself(Small(), first);
    Begins(first, Somebody(), JobScan);
    Accepts(first, Serving, Somebody(), JobScan);
    assert Init(accepted.jobs) == [] && StalledJobs([], []) == [];
    assert StalledJobs(accepted.jobs, []) == [Stalled(0, true)];
    Go(first, accepted, Recover(ScanJobs), Accepted(Serving, Somebody(), JobProcessing, JobLoop([Stalled(0, true)])));
  }

  // ---------------------------------------------------------------- a verdict that is taken back

  /** No crash, and no fault until the job is done and all its mail is sent. It has been published twice, by recovery
      and by its handler; the second verification fails to look the report up and sends the job back to pending, and
      there it stays for ever. */
  lemma LookupTakesVerdictBackForEver()
    ensures exists s, s' :: && Reachable(Small(), s) && s.rows == Row(Success, 1) && TheJobIs(s, JobDone)
                            && s.dropped == {} && s.touched == {} && s.disturbed == {}
                            && Step(Small(), s, s') && s'.rows == s.rows && TheJobIs(s', JobPending)
                            && (forall t :: Leads(Small(), s', t) ==> TheJobIs(t, JobPending))
  {
    DoneWhileVerifiedAgain();
    FirstIsInitial(Somebody());
    var s := Succeeded(JobDone, VFetch(0), NIdle, JobLoop([]), {});
    var s' := Next(Small(), s, Verify(0, VDbReset));
    assert s.rows[0].job == 0;
    assert s.(now := s.now) == s;
    assert StepAt(Small(), s, Verify(0, VDbReset), s.now, s');
    StepLeads(Small(), Start(Somebody()), s, s');
    forall t | Leads(Small(), s', t) ensures TheJobIs(t, JobPending) {
      PendingJobsStayOpen(Small(), s', t, 0);
    }
  }

  predicate TheJobIs(s: State, status: JobStatus) {
    |s.jobs| > 0 && s.jobs[0].status == status
  }

  lemma DoneWhileVerifiedAgain()
    ensures Leads(Small(), Start(Somebody()), Succeeded(JobDone, VFetch(0), NIdle, JobLoop([]), {}))
  {
    var first, publishing := Start(Somebody()), JobPublish(0, []);
    Scans();
    assert [Stalled(0, true)][1..] == [];
    Go(first, Accepted(Serving, Somebody(), JobProcessing, JobLoop([Stalled(0, true)])), Recover(NextJob),
       Accepted(Serving, Somebody(), JobPending, publishing));
    Verifies(first, Serving, Somebody(), JobPending, publishing);
    Extracts(first, JobPending, publishing);
    var k := K([0], [], {}, VIdle, EPublish([0]));
    var again := At(Serving, Somebody(), JobProcessing, Row(Pending, 0), [[]], k, M([], NIdle), JobLoop([]), {});
    Go(first, Committed(JobProcessing, VIdle, publishing, {}), Recover(PublishJob), again);
    Go(first, again, Verify(0, VReceive), Committed(JobProcessing, VFetch(0), JobLoop([]), {}));
    Sends(first, JobProcessing, VFetch(0), JobLoop([]), {});
    Closes(first, JobProcessing, VFetch(0), JobLoop([]), {});
  }

  // ---------------------------------------------------------------- a shutdown that hangs

  function PendingPair(): seq<Delivery> {
    [Delivery(0, 7, Pending, 0, None), Delivery(0, 8, Pending, 0, None)]
  }

  /** Two deliveries are about to be sent, no retry is allowed, and the dead-letter channel has room for one. */
  function Leaving(phase: Phase): State {
    At(phase, Two(), JobProcessing, PendingPair(), [[], []], K([], [], {}, VIdle, EPublish([0, 1])), M([], NIdle),
       Recovered, {})
  }

  /** The first signal finds no job and one request in flight, which then stores its report. If the provider rejects
      both mails, the shutdown never ends, without a fault and without being cut short. */
  lemma ShutdownHangsForEver()
    ensures exists s, s' :: && Reachable(Small(), s) && s.phase.Stopping? && s.jobs == [] && s.intake.requests == 1
                            && Leads(Small(), s, s') && s'.phase.Draining? && !s'.cancelled && s'.dropped == {}
                            && CanHang(Small(), s')
  {
    var first, s := Start(Two()), First(Two(), Recovered, 1, Stopping);
    var s' := ShutdownNext(Leaving(AwaitRecovery), RecoveryDone);
    FirstIsInitial(Two());
    Recovers();
    Begins(first, Two(), Recovered);
    Go(first, First(Two(), Recovered, 1, Serving), Shutdown(Signal), s);
    Leaves(s);
    LeadsTransitively(Small(), first, s, s');
    HangsWithTwoLetters(s');
  }

  lemma HangsWithTwoLetters(s: State)
    requires Reachable(Small(), s) && s.phase.Draining? && !s.cancelled && s.dropped == {} && s.rows == PendingPair()
    requires ReportsDone(s.intake, s.recovery) && AcceptedAreRecorded(s.mail)
    ensures CanHang(Small(), s)
  {
    TwoLetters(s);
    HangsExactlyWithoutRoom(Small(), s);
  }

  lemma TwoLetters(s: State)
    requires s.rows == PendingPair()
    ensures LettersToCome(s) > 1
  {
    var rows := PendingPair();
    assert rows == [rows[0]] + [rows[1]];
    SumOfConcat([rows[0]], [rows[1]], OneIfOpen());
    SumOfOne(rows[0], OneIfOpen());
    SumOfOne(rows[1], OneIfOpen());
  }

  lemma Recovers()
    ensures Leads(Small(), Start(Two()), First(Two(), Recovered, 0, Serving))
  {
    var first := Start(Two());
    LeadsToItself(Small(), first);
    Go(first, first, Recover(ScanJobs), First(Two(), JobLoop([]), 0, Serving));
    Go(first, First(Two(), JobLoop([]), 0, Serving), Recover(NextJob), First(Two(), ResetRows, 0, Serving));
    assert ReleaseInterrupted([], 0) == [];
    Go(first, First(Two(), ResetRows, 0, Serving), Recover(ReleaseRows), First(Two(), Snapshot, 0, Serving));
    Go(first, First(Two(), Snapshot, 0, Serving), Recover(TakeSnapshot), First(Two(), WakeLoop([]), 0, Serving));
    Go(first, First(Two(), WakeLoop([]), 0, Serving), Recover(Finish), First(Two(), Recovered, 0, Serving));
  }

  lemma BothAreAffected()
    ensures Affected(Small(), Two(), 0) == [7, 8]
  {
    assert Init(Two()) == Somebody() && Init(Somebody()) == [];
    assert Affected(Small(), Somebody(), 0) == [7];
  }

  lemma ExtractsPair(start: State)
    requires Leads(Small(), start, Building(Stopping, Two(), JobProcessing, Recovered))
    ensures Leads(Small(), start, Leaving(Stopping))
  {
    BothAreAffected();
    assert NewRows(0, [7, 8]) == PendingPair() && Ids(0, 2) == [0, 1];
    var noHistory: seq<seq<Event>> := [];
    assert noHistory + seq(2, _ => []) == [[], []];
    Go(start, Building(Stopping, Two(), JobProcessing, Recovered), ExtractUsers(0, ECommit), Leaving(Stopping));
  }

  lemma Leaves(start: State)
    requires start == First(Two(), Recovered, 1, Stopping)
    ensures Leads(Small(), start, ShutdownNext(Leaving(AwaitRecovery), RecoveryDone))
  {
    LeadsToItself(Small(), start);
    Accepts(start, Stopping, Two(), Recovered);
    Verifies(start, Stopping, Two(), JobProcessing, Recovered);
    ExtractsPair(start);
    Go(start, Leaving(Stopping), Shutdown(HandlersDone), Leaving(AwaitRecovery));
    Go(start, Leaving(AwaitRecovery), Shutdown(RecoveryDone), ShutdownNext(Leaving(AwaitRecovery), RecoveryDone));
  }
}
