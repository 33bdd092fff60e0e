/** `shutdownGracefully`: stop the intake, wait for recovery, then close stage after stage, each one when the stage
    before it has exited; a deadline may cut it short at any wait. */
module GracefulShutdown {
  import opened Pipeline
  import opened ShutdownSafety
  import opened Guarantees
  import opened Process

  lemma StepOf(cfg: Config, start: State, s: State, a: ShutdownAction, at: int, s': State)
    requires Arises(cfg, start) && Went(cfg, start, s) && at >= s.now && ShutdownEnabled(s, a)
    requires s' == ShutdownNext(s.(now := at), a)
    ensures Went(cfg, start, s')
  {
    Unpanicked(cfg, start, s);
    StepGoes(cfg, start, s, Shutdown(a), at, s');
  }

  // ---------------------------------------------------------------- waits

  /** No request is under way any more, neither before its transaction nor after it. */
  predicate NoRequests(k: Intake) {
    k.requests == 0 && k.handlers == {}
  }

  /** What `server.Shutdown` waits for. */
  method AwaitHandlers(p: Server, ghost start: State) returns (done: bool)
    requires Arises(p.cfg, start) && Went(p.cfg, start, p.Abs())
    modifies p
    ensures Went(p.cfg, start, p.Abs()) && p.phase == old(p.phase) && (done ==> NoRequests(p.intake))
  {
    var patience: int := *;
    done := NoRequests(p.intake);
    while !done && patience > 0
      invariant Went(p.cfg, start, p.Abs()) && p.phase == old(p.phase) && (done ==> NoRequests(p.intake))
      decreases patience
    {
      ghost var before := p.Abs();
      p.Others(ShutdownSeat, start);
      WentOn(p.cfg, start, before, p.Abs());
      done := NoRequests(p.intake);
      patience := patience - 1;
    }
  }

  method AwaitRecovered(p: Server, ghost start: State) returns (done: bool)
    requires Arises(p.cfg, start) && Went(p.cfg, start, p.Abs())
    modifies p
    ensures Went(p.cfg, start, p.Abs()) && p.phase == old(p.phase) && (done ==> p.recovery.Recovered?)
  {
    var patience: int := *;
    done := p.recovery.Recovered?;
    while !done && patience > 0
      invariant Went(p.cfg, start, p.Abs()) && p.phase == old(p.phase) && (done ==> p.recovery.Recovered?)
      decreases patience
    {
      ghost var before := p.Abs();
      p.Others(ShutdownSeat, start);
      WentOn(p.cfg, start, before, p.Abs());
      done := p.recovery.Recovered?;
      patience := patience - 1;
    }
  }

  method AwaitStage(p: Server, stage: nat, ghost start: State) returns (done: bool)
    requires Arises(p.cfg, start) && Went(p.cfg, start, p.Abs())
    modifies p
    ensures Went(p.cfg, start, p.Abs()) && p.phase == old(p.phase) && (done ==> StageExited(p.Abs(), stage))
  {
    var patience: int := *;
    done := StageExited(p.Abs(), stage);
    while !done && patience > 0
      invariant Went(p.cfg, start, p.Abs()) && p.phase == old(p.phase) && (done ==> StageExited(p.Abs(), stage))
      decreases patience
    {
      ghost var before := p.Abs();
      p.Others(ShutdownSeat, start);
      WentOn(p.cfg, start, before, p.Abs());
      done := StageExited(p.Abs(), stage);
      patience := patience - 1;
    }
  }

  // ---------------------------------------------------------------- steps

  method StopIntake(p: Server, ghost start: State)
    requires Arises(p.cfg, start) && Went(p.cfg, start, p.Abs()) && p.phase.Serving?
    modifies p`now, p`phase
    ensures Went(p.cfg, start, p.Abs()) && p.phase == Stopping
  {
    ghost var s := p.Abs();
    p.Tick();
    p.phase := Stopping;
    StepOf(p.cfg, start, s, Signal, p.now, p.Abs());
  }

  method IntakeStopped(p: Server, ghost start: State)
    requires Arises(p.cfg, start) && Went(p.cfg, start, p.Abs()) && p.phase.Stopping? && NoRequests(p.intake)
    modifies p`now, p`phase
    ensures Went(p.cfg, start, p.Abs()) && p.phase == AwaitRecovery
  {
    ghost var s := p.Abs();
    p.Tick();
    p.phase := AwaitRecovery;
    StepOf(p.cfg, start, s, HandlersDone, p.now, p.Abs());
  }

  /** Closes one channel and enters the next phase. */
  method CloseChannel(p: Server, stage: nat, phase: Phase)
    modifies p`intake, p`mail, p`phase, p`panicked
    ensures p.Abs() == Close(old(p.Abs()), stage, phase)
  {
    p.panicked := IsClosed(p.Abs(), stage);
    if stage == 0 {
      p.intake := p.intake.(verification := Shut(p.intake.verification));
    } else if stage == 1 {
      p.intake := p.intake.(reports := Shut(p.intake.reports));
    } else if stage == 2 {
      p.mail := p.mail.(deliveries := Shut(p.mail.deliveries));
    } else if stage == 3 {
      p.mail := p.mail.(retries := Shut(p.mail.retries));
    } else if stage == 4 {
      p.mail := p.mail.(dead := Shut(p.mail.dead));
    }
    p.phase := phase;
  }

  method CloseFirst(p: Server, ghost start: State)
    requires Arises(p.cfg, start) && Went(p.cfg, start, p.Abs()) && p.phase.AwaitRecovery? && p.recovery.Recovered?
    modifies p
    ensures Went(p.cfg, start, p.Abs()) && p.phase == Draining(0)
  {
    CloseChannel(p, 0, Draining(0));
    StepOf(p.cfg, start, old(p.Abs()), RecoveryDone, p.now, p.Abs());
  }

  method CloseNext(p: Server, ghost start: State)
    requires Arises(p.cfg, start) && Went(p.cfg, start, p.Abs())
    requires p.phase.Draining? && p.phase.stage < 4 && StageExited(p.Abs(), p.phase.stage)
    modifies p
    ensures Went(p.cfg, start, p.Abs())
    ensures p.phase == if old(p.phase.stage) == 3 then Drained else Draining(old(p.phase.stage) + 1)
  {
    var stage := p.phase.stage;
    CloseChannel(p, stage + 1, if stage == 3 then Drained else Draining(stage + 1));
    StepOf(p.cfg, start, old(p.Abs()), StageDone, p.now, p.Abs());
  }

  /** The deadline has passed: the workers are cancelled and nothing more is closed. */
  method GiveUpAndCancel(p: Server, ghost start: State)
    requires Arises(p.cfg, start) && Went(p.cfg, start, p.Abs())
    requires p.phase.Stopping? || p.phase.AwaitRecovery? || p.phase.Draining?
    modifies p
    ensures Went(p.cfg, start, p.Abs()) && p.phase == GaveUp && p.cancelled
  {
    p.phase := GaveUp;
    p.cancelled := true;
    StepOf(p.cfg, start, old(p.Abs()), GiveUp, p.now, p.Abs());
  }

  // ---------------------------------------------------------------- the whole shutdown

  /** The channels up to and including this stage's are closed, and no others. */
  ghost predicate ClosedUpTo(s: State, stage: nat) {
    forall k: nat :: k <= 4 ==> (IsClosed(s, k) <==> k <= stage)
  }

  lemma PhaseTellsClosed(cfg: Config, start: State, s: State)
    requires Arises(cfg, start) && Went(cfg, start, s)
    ensures s.phase.Draining? ==> ClosedUpTo(s, s.phase.stage)
    ensures s.phase.Drained? ==> ClosedUpTo(s, 4)
  {
    ArisesIsSafe(cfg, start, s);
  }

  /** The moment before a channel is closed: everybody who could send on it has left, and it is the next one. */
  ghost predicate ReadyToClose(s: State, stage: nat) {
    s.phase == Draining(stage) && StageExited(s, stage) && ClosedUpTo(s, stage)
  }

  /** Such moments, one for each stage so far, in this order. */
  ghost predicate InOrder(cfg: Config, start: State, now: State, moments: seq<State>) {
    && (forall k :: 0 <= k < |moments| ==> ReadyToClose(moments[k], k) && Went(cfg, moments[k], now))
    && (forall j, k :: 0 <= j < k < |moments| ==> Went(cfg, moments[j], moments[k]))
    && (forall k :: 0 <= k < |moments| ==> Went(cfg, start, moments[k]))
  }

  lemma InOrderLater(cfg: Config, start: State, now: State, later: State, moments: seq<State>)
    requires InOrder(cfg, start, now, moments) && Went(cfg, now, later)
    ensures InOrder(cfg, start, later, moments)
  {
    forall k | 0 <= k < |moments| ensures Went(cfg, moments[k], later) {
      WentOn(cfg, moments[k], now, later);
    }
  }

  lemma NextInOrder(cfg: Config, start: State, now: State, later: State, moments: seq<State>)
    requires InOrder(cfg, start, now, moments) && Went(cfg, start, now) && Went(cfg, now, later)
    requires ReadyToClose(now, |moments|)
    ensures InOrder(cfg, start, later, moments + [now])
  {
    InOrderLater(cfg, start, now, later, moments);
  }

  /** Waits for one stage and closes the channel behind it. */
  method DrainStage(p: Server, stage: nat, ghost start: State) returns (done: bool, ghost moment: State)
    requires Arises(p.cfg, start) && Went(p.cfg, start, p.Abs()) && p.phase == Draining(stage) && stage < 4
    modifies p
    ensures Went(p.cfg, start, moment) && Went(p.cfg, moment, p.Abs())
    ensures done ==> ReadyToClose(moment, stage) && p.phase == if stage == 3 then Drained else Draining(stage + 1)
    ensures !done ==> p.phase == Draining(stage)
  {
    done := AwaitStage(p, stage, start);
    moment := p.Abs();
    if done {
      PhaseTellsClosed(p.cfg, start, moment);
      ArisesLater(p.cfg, start, moment);
      CloseNext(p, moment);
    }
  }

  /** Closes stage after stage and waits for each. `moments` are the states in which a wait was over and the next
      channel was closed: in each of them the workers of that stage have exited and exactly the channels before are
      closed. */
  method DrainStages(p: Server, ghost start: State) returns (done: bool, ghost moments: seq<State>)
    requires Arises(p.cfg, start) && Went(p.cfg, start, p.Abs()) && p.phase == Draining(0)
    modifies p
    ensures Went(p.cfg, start, p.Abs()) && InOrder(p.cfg, start, p.Abs(), moments)
    ensures done ==> |moments| == 4 && p.phase.Drained? && ClosedUpTo(p.Abs(), 4)
    ensures !done ==> |moments| < 4 && p.phase == Draining(|moments|) && ClosedUpTo(p.Abs(), |moments|)
  {
    moments := [];
    for stage := 0 to 4
      invariant Went(p.cfg, start, p.Abs()) && InOrder(p.cfg, start, p.Abs(), moments) && |moments| == stage
      invariant p.phase == if stage == 4 then Drained else Draining(stage)
    {
      ghost var now := p.Abs();
      ghost var moment;
      ArisesLater(p.cfg, start, now);
      done, moment := DrainStage(p, stage, now);
      InOrderLater(p.cfg, start, now, moment, moments);
      WentOn(p.cfg, start, now, moment);
      WentOn(p.cfg, start, moment, p.Abs());
      if !done {
        InOrderLater(p.cfg, start, moment, p.Abs(), moments);
        PhaseTellsClosed(p.cfg, start, p.Abs());
        return;
      }
      NextInOrder(p.cfg, start, moment, p.Abs(), moments);
      moments := moments + [moment];
    }
    PhaseTellsClosed(p.cfg, start, p.Abs());
    done := true;
  }

  lemma EndIsComplete(cfg: Config, start: State, s: State)
    requires cfg.Valid() && Arises(cfg, start) && Went(cfg, start, s) && s.phase.Drained? && !s.cancelled
    ensures NothingInProcess(s) && JobsAreSettled(s)
    ensures forall id: nat :: id < |s.rows| && id !in s.dropped ==> s.rows[id].Terminal()
  {
    ArisesLater(cfg, start, s);
    ArisesIsReachable(cfg, s);
    GracefulEndIsComplete(cfg, s);
  }

  /** The first signal. Without an error, and unless the workers have been cancelled, all channels are closed and empty,
      all goroutines have ended, every delivery is finished whose holder has not given up, and every job without
      deliveries is final or one that this process has let go of. */
  method ShutDownGracefully(p: Server) returns (failed: bool)
    requires p.cfg.Valid() && Arises(p.cfg, p.Abs()) && p.phase.Serving?
    modifies p
    ensures Went(p.cfg, old(p.Abs()), p.Abs())
    ensures failed ==> p.phase.GaveUp? && p.cancelled
    ensures !failed ==> p.phase.Drained?
    ensures !failed && !p.cancelled ==>
              && NothingInProcess(p.Abs()) && JobsAreSettled(p.Abs())
              && forall id: nat :: id < |p.rows| && id !in p.dropped ==> p.rows[id].Terminal()
  {
    ghost var start := p.Abs();
    failed := Sequence(p, start);
    if failed {
      GiveUpAndCancel(p, start);
    } else if !p.cancelled {
      EndIsComplete(p.cfg, start, p.Abs());
    }
  }

  method Sequence(p: Server, ghost start: State) returns (failed: bool)
    requires Arises(p.cfg, start) && Went(p.cfg, start, p.Abs()) && p.phase.Serving?
    modifies p
    ensures Went(p.cfg, start, p.Abs())
    ensures if failed then p.phase.Stopping? || p.phase.AwaitRecovery? || p.phase.Draining? else p.phase.Drained?
  {
    StopIntake(p, start);
    var done := AwaitHandlers(p, start);
    if !done {
      return true;
    }
    IntakeStopped(p, start);
    done := AwaitRecovered(p, start);
    if !done {
      return true;
    }
    CloseFirst(p, start);
    ghost var moments;
    done, moments := DrainStages(p, start);
    failed := !done;
  }
}
