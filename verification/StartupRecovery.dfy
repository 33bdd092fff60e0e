/** The recovery goroutine that main starts: `RecoverUnfinishedJobs`, then `RecoverNotificationDeliveries`, while the
    workers and the handlers are already running. */
module StartupRecovery {
  import opened Wrappers
  import opened Sequences
  import opened Pipeline
  import opened Process
  import opened NoLostJob

  lemma StepOf(cfg: Config, start: State, s: State, a: RecoveryAction, at: int, s': State)
    requires Arises(cfg, start) && Went(cfg, start, s) && at >= s.now && RecoveryEnabled(cfg, s.(now := at), a)
    requires s' == RecoveryNext(cfg, s.(now := at), a)
    ensures Went(cfg, start, s')
  {
    Unpanicked(cfg, start, s);
    StepGoes(cfg, start, s, Recover(a), at, s');
  }

  // ---------------------------------------------------------------- between statements

  /** Everybody else runs; then the next statement or wait may fail, which ends the pass. */
  method Survives(p: Server, ghost start: State) returns (ok: bool)
    requires Arises(p.cfg, start) && Went(p.cfg, start, p.Abs()) && !p.recovery.Recovered?
    modifies p
    ensures Went(p.cfg, start, p.Abs())
    ensures p.recovery == if ok then old(p.recovery) else AfterFailure(old(p.recovery))
    ensures !ok && old(p.recovery).WakeLoop? ==> p.cancelled
  {
    p.Others(RecoverySeat, start);
    WentOn(p.cfg, start, old(p.Abs()), p.Abs());
    ok := true;
    if !p.recovery.WakeLoop? || p.cancelled {
      ok := *;
    }
    if !ok {
      ghost var s := p.Abs();
      p.dropped := p.dropped + Unwoken(p.recovery, p.rows, p.touched);
      p.dismissed := p.dismissed + Unrecovered(p.recovery, p.jobs, p.rows, p.bootJobs);
      p.recovery := AfterFailure(p.recovery);
      StepOf(p.cfg, start, s, RecoveryFails, p.now, p.Abs());
    }
  }

  /** How a pass ended: with its list worked off, cut short by an error, or waiting for room in a channel. */
  datatype PassEnd = Completed | CutShort | AwaitsRoom

  // ---------------------------------------------------------------- unfinished jobs

  method FindUnfinishedJobs(p: Server, ghost start: State)
    requires Arises(p.cfg, start) && Went(p.cfg, start, p.Abs()) && p.recovery.JobScan?
    modifies p`now, p`recovery
    ensures Went(p.cfg, start, p.Abs()) && p.recovery == JobLoop(StalledJobs(p.jobs, p.rows))
  {
    ghost var s := p.Abs();
    p.Tick();
    p.recovery := JobLoop(StalledJobs(p.jobs, p.rows));
    StepOf(p.cfg, start, s, ScanJobs, p.now, p.Abs());
  }

  /** The guarded update hits a job that was in processing when it was listed and still is. */
  predicate Hits(entry: Stalled, jobs: seq<Job>) {
    entry.wasProcessing && entry.job < |jobs| && jobs[entry.job].status.JobProcessing?
  }

  /** Queued is a job that was pending when it was listed, or is still in processing when its turn comes. */
  predicate IsQueued(entry: Stalled, jobs: seq<Job>) {
    !entry.wasProcessing || Hits(entry, jobs)
  }

  function Reset(entry: Stalled, jobs: seq<Job>): seq<Job> {
    if Hits(entry, jobs) then jobs[entry.job := jobs[entry.job].(status := JobPending)] else jobs
  }

  function AfterTurn(entry: Stalled, jobs: seq<Job>, rest: seq<Stalled>): Recovery {
    if IsQueued(entry, jobs) then JobPublish(entry.job, rest) else JobLoop(rest)
  }

  lemma ResetOf(cfg: Config, start: State, s: State, s': State)
    requires Arises(cfg, start) && Went(cfg, start, s) && s'.now >= s.now && s.recovery.JobLoop?
    requires s.recovery.jobs != []
    requires var next := s.recovery.jobs[0];
             && s'.recovery == AfterTurn(next, s.jobs, s.recovery.jobs[1..]) && s'.jobs == Reset(next, s.jobs)
             && s'.disturbed ==
                  if Hits(next, s.jobs) && HasRows(s.rows, next.job) then s.disturbed + {next.job} else s.disturbed
    requires s' == s.(now := s'.now, jobs := s'.jobs, recovery := s'.recovery, disturbed := s'.disturbed)
    ensures Went(cfg, start, s')
  {
    StepOf(cfg, start, s, NextJob, s'.now, s');
  }

  /** `UPDATE jobs SET status = 'pending' WHERE id = ? AND status = 'processing'`, only for a job that was listed in
      processing. */
  method ResetIfProcessing(p: Server, entry: Stalled) returns (publish: bool)
    modifies p`jobs, p`disturbed
    ensures publish == IsQueued(entry, old(p.jobs)) && p.jobs == Reset(entry, old(p.jobs))
    ensures p.disturbed == if Hits(entry, old(p.jobs)) && HasRows(p.rows, entry.job)
                           then old(p.disturbed) + {entry.job} else old(p.disturbed)
  {
    if !entry.wasProcessing {
      return true;
    }
    publish := entry.job < |p.jobs| && p.jobs[entry.job].status.JobProcessing?;
    if publish {
      p.jobs := p.jobs[entry.job := p.jobs[entry.job].(status := JobPending)];
      if HasRows(p.rows, entry.job) {
        p.disturbed := p.disturbed + {entry.job};
      }
    }
  }

  /** Puts one job that was found in processing back to pending, unless its status has changed since. */
  method TakeNextJob(p: Server, ghost start: State) returns (publish: bool)
    requires Arises(p.cfg, start) && Went(p.cfg, start, p.Abs()) && p.recovery.JobLoop? && p.recovery.jobs != []
    modifies p`now, p`jobs, p`recovery, p`disturbed
    ensures Went(p.cfg, start, p.Abs())
    ensures var next, rest := old(p.recovery.jobs)[0], old(p.recovery.jobs)[1..];
            && publish == IsQueued(next, old(p.jobs)) && p.jobs == Reset(next, old(p.jobs))
            && p.recovery == AfterTurn(next, old(p.jobs), rest)
    ensures var next, jobs := old(p.recovery.jobs)[0], old(p.jobs);
            var hit := next.wasProcessing && next.job < |jobs| && jobs[next.job].status.JobProcessing?;
            && publish == (!next.wasProcessing || hit)
            && p.jobs == (if hit then jobs[next.job := jobs[next.job].(status := JobPending)] else jobs)
  {
    ghost var s := p.Abs();
    p.Tick();
    var next := p.recovery.jobs[0];
    publish := ResetIfProcessing(p, next);
    p.recovery := if publish then JobPublish(next.job, p.recovery.jobs[1..]) else JobLoop(p.recovery.jobs[1..]);
    assert p.recovery == AfterTurn(next, s.jobs, s.recovery.jobs[1..]);
    ResetOf(p.cfg, start, s, p.Abs());
  }

  method Publish(p: Server, ghost start: State)
    requires Arises(p.cfg, start) && Went(p.cfg, start, p.Abs()) && p.recovery.JobPublish?
    requires Ready(p.intake.verification, p.cfg.capacity)
    modifies p`now, p`recovery, p`intake, p`panicked
    ensures Went(p.cfg, start, p.Abs()) && p.recovery == JobLoop(old(p.recovery.jobs))
    ensures p.intake == old(p.intake).(verification := Offer(old(p.intake.verification), old(p.recovery.job)))
  {
    ghost var s := p.Abs();
    p.Tick();
    p.panicked := p.intake.verification.closed;
    p.intake := p.intake.(verification := Offer(p.intake.verification, p.recovery.job));
    p.recovery := JobLoop(p.recovery.jobs);
    StepOf(p.cfg, start, s, PublishJob, p.now, p.Abs());
  }

  method EndJobs(p: Server, ghost start: State)
    requires Arises(p.cfg, start) && Went(p.cfg, start, p.Abs()) && p.recovery == JobLoop([])
    modifies p`now, p`recovery
    ensures Went(p.cfg, start, p.Abs()) && p.recovery == ResetRows
  {
    ghost var s := p.Abs();
    p.Tick();
    p.recovery := ResetRows;
    StepOf(p.cfg, start, s, NextJob, p.now, p.Abs());
  }

  /** One listed job's turn: `at` is the state in which its guarded update ran, `sent` the state right after its message
      was put into the verification channel, if it was. */
  datatype Turn = Turn(entry: Stalled, at: State, sent: Option<State>)

  ghost predicate SentTo(s: State, job: nat) {
    s.intake.verification.queue != [] && Last(s.intake.verification.queue) == job
  }

  /** The turn has been taken between `start` and `now`, as the job's status called for. */
  ghost predicate Taken(cfg: Config, start: State, now: State, turn: Turn) {
    && Went(cfg, start, turn.at) && Went(cfg, turn.at, now)
    && (turn.sent.Some? <==> IsQueued(turn.entry, turn.at.jobs))
    && (turn.sent.Some? ==>
          && Went(cfg, turn.at, turn.sent.value) && Went(cfg, turn.sent.value, now)
          && SentTo(turn.sent.value, turn.entry.job))
  }

  ghost predicate AllTaken(cfg: Config, start: State, now: State, listed: seq<Stalled>, turns: seq<Turn>) {
    && |turns| <= |listed|
    && forall k :: 0 <= k < |turns| ==> turns[k].entry == listed[k] && Taken(cfg, start, now, turns[k])
  }

  lemma TakenLater(cfg: Config, start: State, now: State, later: State, turn: Turn)
    requires Taken(cfg, start, now, turn) && Went(cfg, now, later)
    ensures Taken(cfg, start, later, turn)
  {
    WentOn(cfg, turn.at, now, later);
    if turn.sent.Some? {
      WentOn(cfg, turn.sent.value, now, later);
    }
  }

  lemma OneMoreTaken(cfg: Config, start: State, now: State, later: State, listed: seq<Stalled>, turns: seq<Turn>,
                     turn: Turn)
    requires AllTaken(cfg, start, now, listed, turns) && Went(cfg, start, now) && Went(cfg, now, later)
    requires |turns| < |listed| && turn.entry == listed[|turns|] && Taken(cfg, now, later, turn)
    ensures AllTaken(cfg, start, later, listed, turns + [turn])
  {
    forall k | 0 <= k < |turns| ensures Taken(cfg, start, later, turns[k]) {
      TakenLater(cfg, start, now, later, turns[k]);
    }
    WentOn(cfg, start, now, turn.at);
  }

  lemma AllTakenLater(cfg: Config, start: State, now: State, later: State, listed: seq<Stalled>, turns: seq<Turn>)
    requires AllTaken(cfg, start, now, listed, turns) && Went(cfg, now, later)
    ensures AllTaken(cfg, start, later, listed, turns)
  {
    forall k | 0 <= k < |turns| ensures Taken(cfg, start, later, turns[k]) {
      TakenLater(cfg, start, now, later, turns[k]);
    }
  }

  /** Between the two states the job was the last message of the verification channel. */
  ghost predicate WasQueued(cfg: Config, start: State, now: State, job: nat) {
    exists t :: Went(cfg, start, t) && Went(cfg, t, now) && SentTo(t, job)
  }

  /** Between the two states the job was not in processing. */
  ghost predicate WasElsewhere(cfg: Config, start: State, now: State, job: nat) {
    exists t :: Went(cfg, start, t) && Went(cfg, t, now)
        && !(job < |t.jobs| && t.jobs[job].status.JobProcessing?)
  }

  /** Every job that the scan has found has been queued, unless it was in processing then and no longer was at its
      turn. */
  ghost predicate AllQueued(cfg: Config, scan: State, now: State) {
    forall job: nat :: job < |scan.jobs| && !scan.jobs[job].status.Final() && !HasRows(scan.rows, job) ==>
      || WasQueued(cfg, scan, now, job)
      || (scan.jobs[job].status.JobProcessing? && WasElsewhere(cfg, scan, now, job))
  }

  lemma TurnsQueueAll(cfg: Config, scan: State, now: State, turns: seq<Turn>)
    requires AllTaken(cfg, scan, now, StalledJobs(scan.jobs, scan.rows), turns)
    requires |turns| == |StalledJobs(scan.jobs, scan.rows)|
    ensures AllQueued(cfg, scan, now)
  {
    forall job: nat | job < |scan.jobs| && !scan.jobs[job].status.Final() && !HasRows(scan.rows, job)
      ensures || WasQueued(cfg, scan, now, job)
              || (scan.jobs[job].status.JobProcessing? && WasElsewhere(cfg, scan, now, job))
    {
      var listed, entry := StalledJobs(scan.jobs, scan.rows), Stalled(job, scan.jobs[job].status.JobProcessing?);
      StalledJobsAre(scan.jobs, scan.rows, job, entry.wasProcessing);
      var k :| 0 <= k < |listed| && listed[k] == entry;
      var turn := turns[k];
      assert turn.entry == entry && Taken(cfg, scan, now, turn);
      if turn.sent.Some? {
        WentOn(cfg, scan, turn.at, turn.sent.value);
        assert WasQueued(cfg, scan, now, job);
      } else {
        assert WasElsewhere(cfg, scan, now, job);
      }
    }
  }

  /** Waits for room and queues the job that has been reset. */
  method PublishTurn(p: Server, ghost start: State) returns (how: PassEnd)
    requires Arises(p.cfg, start) && Went(p.cfg, start, p.Abs()) && p.recovery.JobPublish?
    modifies p
    ensures Went(p.cfg, start, p.Abs())
    ensures how.Completed? ==> p.recovery == JobLoop(old(p.recovery.jobs)) && SentTo(p.Abs(), old(p.recovery.job))
    ensures how.CutShort? ==> p.recovery == ResetRows
    ensures how.AwaitsRoom? ==> p.recovery == old(p.recovery)
  {
    var ok := Survives(p, start);
    if !ok {
      return CutShort;
    }
    if !Ready(p.intake.verification, p.cfg.capacity) {
      return AwaitsRoom;
    }
    VerificationIsOpen(p.cfg, start, p.Abs());
    Publish(p, start);
    how := Completed;
  }

  lemma VerificationIsOpen(cfg: Config, start: State, s: State)
    requires Arises(cfg, start) && Went(cfg, start, s) && !s.recovery.Recovered?
    ensures !s.intake.verification.closed && !s.mail.deliveries.closed && !s.mail.retries.closed
  {
    ArisesIsSafe(cfg, start, s);
  }

  /** One round of the loop. */
  method TakeTurn(p: Server, ghost start: State) returns (how: PassEnd, ghost turn: Turn)
    requires Arises(p.cfg, start) && Went(p.cfg, start, p.Abs()) && p.recovery.JobLoop? && p.recovery.jobs != []
    modifies p
    ensures Went(p.cfg, start, p.Abs())
    ensures how.Completed? ==>
              && p.recovery == JobLoop(old(p.recovery.jobs)[1..])
              && turn.entry == old(p.recovery.jobs)[0] && Taken(p.cfg, start, p.Abs(), turn)
    ensures how.CutShort? ==> p.recovery == ResetRows
    ensures how.AwaitsRoom? ==> p.recovery == JobPublish(old(p.recovery.jobs)[0].job, old(p.recovery.jobs)[1..])
  {
    var entry := p.recovery.jobs[0];
    turn := Turn(entry, p.Abs(), None);
    var ok := Survives(p, start);
    if !ok {
      return CutShort, turn;
    }
    ghost var at := p.Abs();
    ArisesLater(p.cfg, start, at);
    var publish := TakeNextJob(p, at);
    how := Completed;
    if publish {
      how := PublishTurn(p, at);
    }
    turn := Turn(entry, at, if publish then Some(p.Abs()) else None);
    WentOn(p.cfg, start, at, p.Abs());
  }

  /** The whole of `RecoverUnfinishedJobs`. `scan` is the state in which the jobs were listed. The listed jobs take
      their turns in order, all of them unless an error cuts the pass short or it waits for room in the channel;
      whichever was pending when listed or is still in processing at its turn is put into the verification channel, and
      no other. A completed pass has queued every job that was pending at the scan, and every job in processing then
      that had not left that status by its turn. */
  method RecoverUnfinishedJobs(p: Server, ghost start: State)
    returns (how: PassEnd, ghost scan: State, ghost turns: seq<Turn>)
    requires Arises(p.cfg, start) && Went(p.cfg, start, p.Abs()) && p.recovery.JobScan?
    modifies p
    ensures Went(p.cfg, start, scan) && Went(p.cfg, scan, p.Abs())
    ensures AllTaken(p.cfg, scan, p.Abs(), StalledJobs(scan.jobs, scan.rows), turns)
    ensures how.Completed? ==> |turns| == |StalledJobs(scan.jobs, scan.rows)| && p.recovery == ResetRows
    ensures how.Completed? ==> AllQueued(p.cfg, scan, p.Abs())
    ensures how.CutShort? ==> p.recovery == ResetRows
    ensures how.AwaitsRoom? ==>
              var listed := StalledJobs(scan.jobs, scan.rows);
              |turns| < |listed| && p.recovery == JobPublish(listed[|turns|].job, listed[|turns| + 1..])
  {
    turns := [];
    var ok := Survives(p, start);
    scan := p.Abs();
    if !ok {
      return CutShort, scan, turns;
    }
    FindUnfinishedJobs(p, start);
    scan := p.Abs();
    ghost var listed := StalledJobs(scan.jobs, scan.rows);
    ArisesLater(p.cfg, start, scan);
    while p.recovery.jobs != []
      invariant Went(p.cfg, scan, p.Abs()) && AllTaken(p.cfg, scan, p.Abs(), listed, turns)
      invariant p.recovery == JobLoop(listed[|turns|..])
      decreases |p.recovery.jobs|
    {
      ghost var now := p.Abs();
      ghost var turn;
      ArisesLater(p.cfg, scan, now);
      how, turn := TakeTurn(p, now);
      WentOn(p.cfg, scan, now, p.Abs());
      if !how.Completed? {
        AllTakenLater(p.cfg, scan, now, p.Abs(), listed, turns);
        return how, scan, turns;
      }
      OneMoreTaken(p.cfg, scan, now, p.Abs(), listed, turns, turn);
      turns := turns + [turn];
    }
    ghost var now := p.Abs();
    ArisesLater(p.cfg, scan, now);
    EndJobs(p, now);
    WentOn(p.cfg, scan, now, p.Abs());
    AllTakenLater(p.cfg, scan, now, p.Abs(), listed, turns);
    TurnsQueueAll(p.cfg, scan, p.Abs(), turns);
    how := Completed;
  }

  // ---------------------------------------------------------------- deliveries

  /** The rows in processing, and no others, have been made due for a retry. */
  ghost predicate Released(rows: seq<Delivery>, rows': seq<Delivery>, now: int) {
    && |rows'| == |rows|
    && forall i :: 0 <= i < |rows| ==>
         rows'[i] == if rows[i].status.Processing? then rows[i].(status := Retrying, nextAttemptAt := Some(now))
                     else rows[i]
  }

  method ReleaseInterruptedRows(p: Server, ghost start: State)
    requires Arises(p.cfg, start) && Went(p.cfg, start, p.Abs()) && p.recovery.ResetRows?
    modifies p`now, p`rows, p`recovery, p`touched
    ensures Went(p.cfg, start, p.Abs()) && p.recovery == Snapshot && Released(old(p.rows), p.rows, p.now)
  {
    ghost var s := p.Abs();
    p.Tick();
    p.touched := p.touched + InterruptedRows(p.rows);
    p.rows := ReleaseInterrupted(p.rows, p.now);
    p.recovery := Snapshot;
    StepOf(p.cfg, start, s, ReleaseRows, p.now, p.Abs());
  }

  method LoadRecoverable(p: Server, ghost start: State)
    requires Arises(p.cfg, start) && Went(p.cfg, start, p.Abs()) && p.recovery.Snapshot?
    modifies p`now, p`recovery, p`touched
    ensures Went(p.cfg, start, p.Abs()) && p.recovery == WakeLoop(Recoverable(p.rows))
  {
    ghost var s := p.Abs();
    p.Tick();
    p.touched := p.touched + WaitingRows(p.rows);
    p.recovery := WakeLoop(Recoverable(p.rows));
    StepOf(p.cfg, start, s, TakeSnapshot, p.now, p.Abs());
  }

  /** The snapshot holds exactly the waiting deliveries, each bound for the channel its status calls for. */
  lemma {:induction false} RecoverableAre(rows: seq<Delivery>, id: nat, toRetry: bool)
    ensures Wake(id, toRetry) in Recoverable(rows)
       <==> id < |rows| && (if toRetry then rows[id].status.Retrying? else rows[id].status.Pending?)
    decreases |rows|
  {
    if rows != [] {
      RecoverableAre(Init(rows), id, toRetry);
    }
  }

  method SendTo(p: Server, wake: Wake)
    modifies p`mail, p`panicked
    ensures p.panicked == if wake.toRetry then old(p.mail.retries.closed) else old(p.mail.deliveries.closed)
    ensures p.mail == if wake.toRetry then old(p.mail).(retries := Offer(old(p.mail.retries), wake.id))
                      else old(p.mail).(deliveries := Offer(old(p.mail.deliveries), wake.id))
  {
    if wake.toRetry {
      p.panicked := p.mail.retries.closed;
      p.mail := p.mail.(retries := Offer(p.mail.retries, wake.id));
    } else {
      p.panicked := p.mail.deliveries.closed;
      p.mail := p.mail.(deliveries := Offer(p.mail.deliveries, wake.id));
    }
  }

  /** Sends one snapshotted delivery to the channel for its status. */
  method WakeNext(p: Server, ghost start: State)
    requires Arises(p.cfg, start) && Went(p.cfg, start, p.Abs()) && p.recovery.WakeLoop? && p.recovery.todo != []
    requires Ready(if p.recovery.todo[0].toRetry then p.mail.retries else p.mail.deliveries, p.cfg.capacity)
    modifies p`now, p`recovery, p`mail, p`panicked
    ensures Went(p.cfg, start, p.Abs()) && p.recovery == WakeLoop(old(p.recovery.todo)[1..])
    ensures var wake := old(p.recovery.todo)[0];
            p.mail == if wake.toRetry then old(p.mail).(retries := Offer(old(p.mail).retries, wake.id))
                      else old(p.mail).(deliveries := Offer(old(p.mail).deliveries, wake.id))
  {
    ghost var s := p.Abs();
    p.Tick();
    SendTo(p, p.recovery.todo[0]);
    p.recovery := WakeLoop(p.recovery.todo[1..]);
    StepOf(p.cfg, start, s, SendWake, p.now, p.Abs());
  }

  method EndDeliveries(p: Server, ghost start: State)
    requires Arises(p.cfg, start) && Went(p.cfg, start, p.Abs()) && p.recovery == WakeLoop([])
    modifies p`now, p`recovery
    ensures Went(p.cfg, start, p.Abs()) && p.recovery == Recovered
  {
    ghost var s := p.Abs();
    p.Tick();
    p.recovery := Recovered;
    StepOf(p.cfg, start, s, Finish, p.now, p.Abs());
  }

  // ---------------------------------------------------------------- the whole second pass

  /** Right after it was sent the delivery is the last message of the channel for its status. */
  ghost predicate Woken(s: State, wake: Wake) {
    var c := if wake.toRetry then s.mail.retries else s.mail.deliveries;
    c.queue != [] && Last(c.queue) == wake.id
  }

  ghost predicate AllWoken(cfg: Config, start: State, now: State, listed: seq<Wake>, sent: seq<State>) {
    && |sent| <= |listed|
    && forall k :: 0 <= k < |sent| ==>
         Went(cfg, start, sent[k]) && Went(cfg, sent[k], now) && Woken(sent[k], listed[k])
  }

  lemma AllWokenLater(cfg: Config, start: State, now: State, later: State, listed: seq<Wake>, sent: seq<State>)
    requires AllWoken(cfg, start, now, listed, sent) && Went(cfg, now, later)
    ensures AllWoken(cfg, start, later, listed, sent)
  {
    forall k | 0 <= k < |sent| ensures Went(cfg, sent[k], later) {
      WentOn(cfg, sent[k], now, later);
    }
  }

  /** Every delivery that was waiting at the listing has since been the last message of the channel for its status. */
  ghost predicate AllWaitingWoken(cfg: Config, list: State, now: State) {
    forall id: nat :: id < |list.rows| ==>
      && (list.rows[id].status.Pending? ==> WasWoken(cfg, list, now, Wake(id, false)))
      && (list.rows[id].status.Retrying? ==> WasWoken(cfg, list, now, Wake(id, true)))
  }

  ghost predicate WasWoken(cfg: Config, start: State, now: State, wake: Wake) {
    exists t :: Went(cfg, start, t) && Went(cfg, t, now) && Woken(t, wake)
  }

  lemma WaitingAreWoken(cfg: Config, list: State, now: State, sent: seq<State>)
    requires AllWoken(cfg, list, now, Recoverable(list.rows), sent) && |sent| == |Recoverable(list.rows)|
    ensures AllWaitingWoken(cfg, list, now)
  {
    forall id: nat, toRetry | id < |list.rows| && Wake(id, toRetry) in Recoverable(list.rows)
      ensures WasWoken(cfg, list, now, Wake(id, toRetry))
    {
      var k :| 0 <= k < |sent| && Recoverable(list.rows)[k] == Wake(id, toRetry);
      assert Woken(sent[k], Wake(id, toRetry));
    }
    forall id: nat | id < |list.rows|
      ensures list.rows[id].status.Pending? ==> Wake(id, false) in Recoverable(list.rows)
      ensures list.rows[id].status.Retrying? ==> Wake(id, true) in Recoverable(list.rows)
    {
      RecoverableAre(list.rows, id, false);
      RecoverableAre(list.rows, id, true);
    }
  }

  /** One round of the loop. */
  method WakeOne(p: Server, ghost start: State) returns (how: PassEnd)
    requires Arises(p.cfg, start) && Went(p.cfg, start, p.Abs()) && p.recovery.WakeLoop? && p.recovery.todo != []
    modifies p
    ensures Went(p.cfg, start, p.Abs())
    ensures how.Completed? ==>
              p.recovery == WakeLoop(old(p.recovery.todo)[1..]) && Woken(p.Abs(), old(p.recovery.todo)[0])
    ensures how.CutShort? ==> p.recovery.Recovered? && p.cancelled
    ensures how.AwaitsRoom? ==> p.recovery == old(p.recovery)
  {
    var ok := Survives(p, start);
    if !ok {
      return CutShort;
    }
    if !Ready(if p.recovery.todo[0].toRetry then p.mail.retries else p.mail.deliveries, p.cfg.capacity) {
      return AwaitsRoom;
    }
    VerificationIsOpen(p.cfg, start, p.Abs());
    WakeNext(p, start);
    how := Completed;
  }

  /** Releases the interrupted rows and lists the waiting ones. */
  method ReleaseAndList(p: Server, ghost start: State)
    returns (ok: bool, ghost found: State, ghost released: State, ghost list: State)
    requires Arises(p.cfg, start) && Went(p.cfg, start, p.Abs()) && p.recovery.ResetRows?
    modifies p
    ensures Went(p.cfg, start, p.Abs())
    ensures !ok ==> p.recovery.Recovered?
    ensures ok ==>
              && Went(p.cfg, start, found) && Released(found.rows, released.rows, released.now)
              && Went(p.cfg, found, released) && Went(p.cfg, released, list) && list == p.Abs()
              && p.recovery == WakeLoop(Recoverable(list.rows))
  {
    ok := Survives(p, start);
    found, released, list := p.Abs(), p.Abs(), p.Abs();
    if !ok {
      return;
    }
    ArisesLater(p.cfg, start, found);
    ReleaseInterruptedRows(p, found);
    released := p.Abs();
    WentOn(p.cfg, start, found, released);
    ArisesLater(p.cfg, start, released);
    ok := Survives(p, released);
    if ok {
      LoadRecoverable(p, released);
      list := p.Abs();
    }
    WentOn(p.cfg, start, released, p.Abs());
  }

  /** The loop over the list. */
  method WakeAll(p: Server, ghost start: State) returns (how: PassEnd, ghost sent: seq<State>)
    requires Arises(p.cfg, start) && start == p.Abs() && p.recovery.WakeLoop?
    modifies p
    ensures Went(p.cfg, start, p.Abs()) && AllWoken(p.cfg, start, p.Abs(), old(p.recovery.todo), sent)
    ensures how.Completed? ==> |sent| == |old(p.recovery.todo)| && p.recovery.Recovered?
    ensures how.CutShort? ==> p.recovery.Recovered? && p.cancelled
    ensures how.AwaitsRoom? ==> p.recovery == WakeLoop(old(p.recovery.todo)[|sent|..])
  {
    ghost var listed := p.recovery.todo;
    sent := [];
    while p.recovery.todo != []
      invariant Went(p.cfg, start, p.Abs()) && AllWoken(p.cfg, start, p.Abs(), listed, sent)
      invariant p.recovery == WakeLoop(listed[|sent|..])
      decreases |p.recovery.todo|
    {
      ghost var now := p.Abs();
      ArisesLater(p.cfg, start, now);
      how := WakeOne(p, now);
      WentOn(p.cfg, start, now, p.Abs());
      AllWokenLater(p.cfg, start, now, p.Abs(), listed, sent);
      if !how.Completed? {
        return how, sent;
      }
      sent := sent + [p.Abs()];
    }
    ghost var now := p.Abs();
    ArisesLater(p.cfg, start, now);
    EndDeliveries(p, now);
    WentOn(p.cfg, start, now, p.Abs());
    AllWokenLater(p.cfg, start, now, p.Abs(), listed, sent);
    how := Completed;
  }

  /** What the second pass has achieved: the rows in processing in the state `found` were released, which led to
      `released`; those waiting in the state `list` were listed; and `sent` holds the states right after each of the
      first deliveries of this list was put into the channel for its status. */
  datatype Pass = Pass(found: State, released: State, list: State, sent: seq<State>)

  ghost predicate Passed(cfg: Config, start: State, now: State, pass: Pass) {
    && Went(cfg, start, pass.found) && Went(cfg, pass.found, pass.released)
    && Released(pass.found.rows, pass.released.rows, pass.released.now)
    && Went(cfg, pass.released, pass.list) && Went(cfg, pass.list, now)
    && AllWoken(cfg, pass.list, now, Recoverable(pass.list.rows), pass.sent)
  }

  /** The whole of `RecoverNotificationDeliveries`: unless an error comes before the list, every row in processing is
      released, and of those listed then every one is offered to its channel, in order, as far as there was room; only a
      forced shutdown cuts that short. */
  method RecoverNotificationDeliveries(p: Server, ghost start: State)
    returns (how: PassEnd, listed: bool, ghost pass: Pass)
    requires Arises(p.cfg, start) && Went(p.cfg, start, p.Abs()) && p.recovery.ResetRows?
    modifies p
    ensures Went(p.cfg, start, p.Abs())
    ensures listed ==> Passed(p.cfg, start, p.Abs(), pass)
    ensures how.CutShort? ==> !listed || p.cancelled
    ensures !how.CutShort? ==> listed
    ensures how.Completed? ==> |pass.sent| == |Recoverable(pass.list.rows)| && p.recovery.Recovered?
    ensures how.Completed? ==> AllWaitingWoken(p.cfg, pass.list, p.Abs())
    ensures how.CutShort? ==> p.recovery.Recovered?
    ensures how.AwaitsRoom? ==> p.recovery == WakeLoop(Recoverable(pass.list.rows)[|pass.sent|..])
  {
    ghost var found, released, list, sent := p.Abs(), p.Abs(), p.Abs(), [];
    listed, found, released, list := ReleaseAndList(p, start);
    how := CutShort;
    if listed {
      ArisesLater(p.cfg, start, list);
      how, sent := WakeAll(p, list);
      WentOn(p.cfg, start, list, p.Abs());
      if how.Completed? {
        WaitingAreWoken(p.cfg, list, p.Abs(), sent);
      }
    }
    pass := Pass(found, released, list, sent);
  }
}
