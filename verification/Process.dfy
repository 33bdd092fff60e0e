/** One running server: the database it works on, its channels and its goroutines. The workers below change its
    fields in place, one statement at a time; between two statements of one goroutine all the others may run. */
module Process {
  import opened Sequences
  import opened Pipeline
  import opened Frames
  import opened Deliveries
  import opened DeliverySets
  import opened Completion
  import opened Guarantees

  /** Whose steps a method takes itself; everybody else may run between two of them. */
  datatype Seat =
    | HandlerSeat(job: nat)
    | VerifierSeat(i: nat)
    | ExtractorSeat(i: nat)
    | NotifierSeat(i: nat)
    | RetrierSeat(i: nat)
    | RecoverySeat
    | ShutdownSeat

  predicate ActsFor(a: Action, seat: Seat) {
    match seat
    case HandlerSeat(job) => a == Handler(Publish(job))
    case VerifierSeat(i) => a.Verify? && a.i == i
    case ExtractorSeat(i) => a.ExtractUsers? && a.i == i
    case NotifierSeat(i) => a.Notify? && a.i == i
    case RetrierSeat(i) => a.Retry? && a.i == i
    case RecoverySeat => a.Recover?
    case ShutdownSeat => a.Shutdown? && !a.d.Cancel?
  }

  /** The goroutine in this seat is where it was. */
  ghost predicate Seated(s: State, s': State, seat: Seat) {
    match seat
    case HandlerSeat(job) => job in s.intake.handlers ==> job in s'.intake.handlers
    case VerifierSeat(i) =>
      |s'.intake.verifiers| == |s.intake.verifiers| && (i < |s.intake.verifiers| ==>
          s'.intake.verifiers[i] == s.intake.verifiers[i])
    case ExtractorSeat(i) =>
      |s'.intake.extractors| == |s.intake.extractors| && (i < |s.intake.extractors| ==>
          s'.intake.extractors[i] == s.intake.extractors[i])
    case NotifierSeat(i) =>
      |s'.mail.notifiers| == |s.mail.notifiers| && (i < |s.mail.notifiers| ==>
          s'.mail.notifiers[i] == s.mail.notifiers[i])
    case RetrierSeat(i) =>
      |s'.mail.retriers| == |s.mail.retriers| && (i < |s.mail.retriers| ==> s'.mail.retriers[i] == s.mail.retriers[i])
    case RecoverySeat => s'.recovery == s.recovery
    case ShutdownSeat => s'.phase == s.phase
  }

  lemma OthersLeaveSeat(s: State, s': State, a: Action, seat: Seat)
    requires Leaves(s, a, s') && !ActsFor(a, seat)
    ensures Seated(s, s', seat) && s'.users == s.users
  {
  }

  // ---------------------------------------------------------------- runs

  lemma LeadsToItself(cfg: Config, s: State)
    ensures Leads(cfg, s, s)
  {
    assert IsRun(cfg, [s]) && Last([s]) == s;
  }

  lemma LeadsTransitively(cfg: Config, p: State, q: State, r: State)
    requires Leads(cfg, p, q) && Leads(cfg, q, r)
    ensures Leads(cfg, p, r)
  {
    var first :| IsRun(cfg, first) && first[0] == p && Last(first) == q;
    var second :| IsRun(cfg, second) && second[0] == q && Last(second) == r;
    var run := first + second[1..];
    forall k | 0 <= k < |run| - 1 ensures Step(cfg, run[k], run[k + 1]) {
      if k + 1 < |first| {
        assert Step(cfg, first[k], first[k + 1]);
      } else {
        var j := k + 1 - |first|;
        assert run[k] == second[j] && run[k + 1] == second[j + 1];
        assert Step(cfg, second[j], second[j + 1]);
      }
    }
    assert Last(run) == r;
  }

  ghost predicate KeptByAll(cfg: Config, inv: State -> bool) {
    forall s, s' :: inv(s) && Step(cfg, s, s') ==> inv(s')
  }

  ghost predicate HoldsAtFirst(cfg: Config, inv: State -> bool) {
    forall s :: IsInitial(cfg, s) ==> inv(s)
  }

  /** Everything that holds of `s` and that every step keeps holds of `s'`. */
  ghost predicate Went(cfg: Config, s: State, s': State) {
    forall inv: State -> bool :: KeptByAll(cfg, inv) && inv(s) ==> inv(s')
  }

  /** Everything that holds of a first start and that every step keeps holds of `s`. */
  ghost predicate Arises(cfg: Config, s: State) {
    forall inv: State -> bool :: KeptByAll(cfg, inv) && HoldsAtFirst(cfg, inv) ==> inv(s)
  }

  lemma StepLeads(cfg: Config, p: State, q: State, r: State)
    requires Leads(cfg, p, q) && Step(cfg, q, r)
    ensures Leads(cfg, p, r)
  {
    var run := [q, r];
    assert IsRun(cfg, run) && run[0] == q && Last(run) == r;
    LeadsTransitively(cfg, p, q, r);
  }

  lemma {:induction false} KeptAlongRun(cfg: Config, run: seq<State>, inv: State -> bool)
    requires IsRun(cfg, run) && KeptByAll(cfg, inv) && inv(run[0])
    ensures inv(Last(run))
    decreases |run|
  {
    if |run| > 1 {
      RunWithoutLast(cfg, run);
      KeptAlongRun(cfg, Init(run), inv);
    }
  }

  /** Going from one state to another is the same as having a run between them. */
  lemma WentIsLeads(cfg: Config, s: State, s': State)
    ensures Went(cfg, s, s') <==> Leads(cfg, s, s')
  {
    if Went(cfg, s, s') {
      var inv := (x: State) => Leads(cfg, s, x);
      forall x, y | inv(x) && Step(cfg, x, y) ensures inv(y) {
        StepLeads(cfg, s, x, y);
      }
      LeadsToItself(cfg, s);
      assert KeptByAll(cfg, inv) && inv(s);
    }
    if Leads(cfg, s, s') {
      var run :| IsRun(cfg, run) && run[0] == s && Last(run) == s';
      forall inv: State -> bool | KeptByAll(cfg, inv) && inv(s) ensures inv(s') {
        KeptAlongRun(cfg, run, inv);
      }
    }
  }

  lemma ArisesIsReachable(cfg: Config, s: State)
    ensures Arises(cfg, s) <==> Reachable(cfg, s)
  {
    if Arises(cfg, s) {
      var inv := (x: State) => Reachable(cfg, x);
      forall x, y | inv(x) && Step(cfg, x, y) ensures inv(y) {
        var start :| IsInitial(cfg, start) && Leads(cfg, start, x);
        StepLeads(cfg, start, x, y);
      }
      forall x | IsInitial(cfg, x) ensures inv(x) {
        LeadsToItself(cfg, x);
      }
      assert KeptByAll(cfg, inv) && HoldsAtFirst(cfg, inv);
    }
    if Reachable(cfg, s) {
      var start :| IsInitial(cfg, start) && Leads(cfg, start, s);
      WentIsLeads(cfg, start, s);
    }
  }

  lemma ArisesLater(cfg: Config, s: State, s': State)
    requires Arises(cfg, s) && Went(cfg, s, s')
    ensures Arises(cfg, s')
  {
  }

  lemma StepGoes(cfg: Config, start: State, s: State, a: Action, at: int, s': State)
    requires Arises(cfg, start) && Went(cfg, start, s) && at >= s.now
    requires Enabled(cfg, s.(now := at, panicked := false), a) && s' == Next(cfg, s.(now := at, panicked := false), a)
    ensures Went(cfg, start, s')
  {
    ArisesLater(cfg, start, s);
    ArisesIsReachable(cfg, s);
    ReachableIsSafe(cfg, s);
    assert s.(now := at, panicked := false) == s.(now := at);
    assert StepAt(cfg, s, a, at, s');
    assert Step(cfg, s, s');
  }

  lemma ArisesIsSafe(cfg: Config, start: State, s: State)
    requires Arises(cfg, start) && Went(cfg, start, s)
    ensures SafeInv(cfg, s)
  {
    ArisesLater(cfg, start, s);
    ArisesIsReachable(cfg, s);
    ReachableIsSafe(cfg, s);
  }

  /** What a later state owes to an earlier one. */
  lemma Later(cfg: Config, start: State, s: State, s': State)
    requires Arises(cfg, start) && Went(cfg, start, s) && Went(cfg, s, s')
    ensures Went(cfg, start, s')
    ensures RowsEvolve(s.rows, s'.rows) && s.touched <= s'.touched && s.disturbed <= s'.disturbed && LogsGrow(s, s')
    ensures ReportsStay(s.jobs, s'.jobs)
  {
    ArisesLater(cfg, start, s);
    ArisesIsReachable(cfg, s);
    WentIsLeads(cfg, s, s');
    LaterStatesEvolve(cfg, s, s');
  }

  lemma WentOn(cfg: Config, p: State, q: State, r: State)
    requires Went(cfg, p, q) && Went(cfg, q, r)
    ensures Went(cfg, p, r)
  {
  }

  /** Finished deliveries of a job stay all there are. */
  lemma LaterTerminal(cfg: Config, start: State, s: State, s': State, job: nat)
    requires Arises(cfg, start) && Went(cfg, start, s) && Went(cfg, s, s')
    requires HasRows(s.rows, job) && AllTerminal(s.rows, job)
    ensures HasRows(s'.rows, job) && AllTerminal(s'.rows, job)
  {
    ArisesLater(cfg, start, s);
    ArisesIsReachable(cfg, s);
    WentIsLeads(cfg, s, s');
    LaterStatesEvolve(cfg, s, s');
    assert JobEvolved(s, s', job);
    forall i | 0 <= i < |s'.rows| && s'.rows[i].job == job ensures s'.rows[i].Terminal() {
      assert RowEvolves(s.rows[i], s'.rows[i]);
    }
  }

  /** A job with deliveries that nothing has disturbed is final or in processing. */
  lemma UndisturbedIsOpenOrFinal(cfg: Config, start: State, s: State, job: nat)
    requires Arises(cfg, start) && Went(cfg, start, s) && HasRows(s.rows, job) && job !in s.disturbed
    ensures job < |s.jobs| && (s.jobs[job].status.Final() || s.jobs[job].status.JobProcessing?)
  {
    ArisesIsSafe(cfg, start, s);
    RowsNameJobs(cfg, s, job);
    assert Closing(s, job);
  }

  lemma Unpanicked(cfg: Config, start: State, s: State)
    requires Arises(cfg, start) && Went(cfg, start, s)
    ensures !s.panicked && |s.history| == |s.rows|
  {
    ArisesIsSafe(cfg, start, s);
  }

  lemma Rebuilt(s: State)
    ensures s == State(s.now, s.users, s.bootJobs, s.jobs, s.rows, s.dlq, s.history, s.intake, s.mail,
                       s.recovery, s.phase, s.cancelled, s.panicked, s.dropped, s.touched, s.disturbed, s.dismissed)
  {
  }

  // ---------------------------------------------------------------- the server

  predicate IsFresh(c: Channel) {
    c.queue == [] && !c.closed
  }

  /** Nothing is in the intake yet, and its workers are idle. */
  predicate IdleIntake(cfg: Config, k: Intake) {
    && IsFresh(k.verification) && IsFresh(k.reports) && k.requests == 0 && k.handlers == {}
    && |k.verifiers| == |k.extractors| == cfg.poolSize
    && (forall i :: 0 <= i < |k.verifiers| ==> k.verifiers[i].VIdle?)
    && (forall i :: 0 <= i < |k.extractors| ==> k.extractors[i].EIdle?)
  }

  predicate IdleMail(cfg: Config, m: Mail) {
    && IsFresh(m.deliveries) && IsFresh(m.retries) && IsFresh(m.dead)
    && |m.notifiers| == |m.retriers| == cfg.poolSize
    && (forall i :: 0 <= i < |m.notifiers| ==> m.notifiers[i].NIdle?)
    && (forall i :: 0 <= i < |m.retriers| ==> m.retriers[i].RIdle?)
  }

  class Server {
    const cfg: Config
    var now: int
    var users: seq<User>
    var bootJobs: nat
    var jobs: seq<Job>
    var rows: seq<Delivery>
    var dlq: seq<DeadLetter>
    var history: seq<seq<Event>>
    var intake: Intake
    var mail: Mail
    var recovery: Recovery
    var phase: Phase
    var cancelled: bool
    var panicked: bool
    var dropped: set<nat>
    var touched: set<nat>
    var disturbed: set<nat>
    var dismissed: set<nat>

    /** The state of the step system that this server is in. */
    function Abs(): State
      reads this
    {
      State(now, users, bootJobs, jobs, rows, dlq, history,
            intake, mail, recovery, phase, cancelled, panicked, dropped, touched, disturbed, dismissed)
    }

    /** A first start, on an empty database. */
    constructor (cfg: Config, users: seq<User>)
      requires DistinctUsers(users)
      ensures this.cfg == cfg && Abs().users == users && IsInitial(cfg, Abs()) && Arises(cfg, Abs())
    {
      this.cfg, now, this.users, bootJobs := cfg, 0, users, 0;
      jobs, rows, dlq, history := [], [], [], [];
      intake := Intake(Channel([], false), Channel([], false), 0, {},
                       seq(cfg.poolSize, _ => VIdle), seq(cfg.poolSize, _ => EIdle));
      mail := Mail(Channel([], false), Channel([], false), Channel([], false),
                   seq(cfg.poolSize, _ => NIdle), seq(cfg.poolSize, _ => RIdle));
      recovery, phase := JobScan, Serving;
      cancelled, panicked, dropped, touched, disturbed, dismissed := false, false, {}, {}, {}, {};
      new;
      assert OpenRows(rows) == {} && UnclosedJobs(jobs, rows) == {};
      FirstStartArises(cfg, Abs());
    }

    method BecomeStored(s: State)
      modifies this`jobs, this`rows, this`dlq, this`history, this`users, this`bootJobs
      ensures jobs == s.jobs && rows == s.rows && dlq == s.dlq && history == s.history && users == s.users
      ensures bootJobs == s.bootJobs
    {
      jobs, rows, dlq, history, users, bootJobs := s.jobs, s.rows, s.dlq, s.history, s.users, s.bootJobs;
    }

    method BecomeRecorded(s: State)
      modifies this`cancelled, this`panicked, this`dropped, this`touched, this`disturbed, this`dismissed
      ensures cancelled == s.cancelled && panicked == s.panicked
      ensures dropped == s.dropped && touched == s.touched && disturbed == s.disturbed && dismissed == s.dismissed
    {
      cancelled, panicked, dropped := s.cancelled, s.panicked, s.dropped;
      touched, disturbed, dismissed := s.touched, s.disturbed, s.dismissed;
    }

    method Become(s: State)
      modifies this
      ensures Abs() == s
    {
      BecomeStored(s);
      BecomeRecorded(s);
      now, intake, mail, recovery, phase := s.now, s.intake, s.mail, s.recovery, s.phase;
      Rebuilt(s);
    }

    /** Time passes. */
    method Tick()
      modifies this`now
      ensures now >= old(now)
    {
      var elapsed: int := *;
      if elapsed > 0 {
        now := now + elapsed;
      }
    }

    /** Updates a delivery and notes what happened to it. */
    method Write(id: nat, d: Delivery, event: Event)
      requires id < |rows| == |history|
      modifies this`rows, this`history
      ensures rows == old(rows)[id := d] && history == old(history)[id := old(history)[id] + [event]]
    {
      rows := rows[id := d];
      history := history[id := history[id] + [event]];
    }

    /** The process dies and is started again: what is stored stays, everything else is as at a first start, and the
        stored jobs are all to be scanned. */
    method Restart(users: seq<User>)
      requires Arises(cfg, Abs()) && DistinctUsers(users)
      modifies this
      ensures Abs() == Boot(cfg, old(Abs()), users) && Went(cfg, old(Abs()), Abs())
      ensures jobs == old(jobs) && rows == old(rows) && dlq == old(dlq) && history == old(history)
      ensures this.users == users && bootJobs == |jobs| && IdleIntake(cfg, intake) && IdleMail(cfg, mail)
      ensures recovery.JobScan? && phase.Serving? && !cancelled && !panicked && dropped == {} && dismissed == {}
    {
      Become(Boot(cfg, Abs(), users));
      OneStep(cfg, old(Abs()), Crash(users), old(now), Abs());
    }

    /** Everybody but the given seat takes any number of steps. */
    method Others(seat: Seat, ghost start: State)
      requires Arises(cfg, start) && Went(cfg, start, Abs())
      modifies this
      ensures Went(cfg, old(Abs()), Abs()) && Seated(old(Abs()), Abs(), seat) && users == old(users)
    {
      var steps: int := *;
      while steps > 0
        invariant Went(cfg, old(Abs()), Abs()) && Seated(old(Abs()), Abs(), seat) && users == old(users)
        decreases steps
      {
        var a: Action, at: int := *, *;
        if at >= now && !a.Crash? && !ActsFor(a, seat) && Enabled(cfg, Abs().(now := at), a) {
          ghost var before := Abs();
          StepLeaves(cfg, Abs().(now := at), a);
          Become(Next(cfg, Abs().(now := at), a));
          OthersLeaveSeat(before.(now := at), Abs(), a, seat);
          OneStep(cfg, before, a, at, Abs());
        }
        steps := steps - 1;
      }
    }
  }

  lemma FirstStartArises(cfg: Config, s: State)
    requires IsInitial(cfg, s)
    ensures Arises(cfg, s)
  {
  }

  lemma OneStep(cfg: Config, s: State, a: Action, at: int, s': State)
    requires StepAt(cfg, s, a, at, s')
    ensures Went(cfg, s, s')
  {
  }
}
