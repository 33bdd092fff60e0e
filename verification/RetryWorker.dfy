/** The retry worker: `processRetry` with its waits, claims and outcomes, and `moveDeliveryToDLQ`. Between two
    statements of this worker every other goroutine may run, and any statement may fail. */
module RetryWorker {
  import opened Wrappers
  import opened Sequences
  import opened Pipeline
  import opened Deliveries
  import opened Wakeups
  import opened Process
  import opened MailWorker

  // ---------------------------------------------------------------- what the worker can rely on

  /** The attempts that the worker has read or claimed. */
  function AttemptsKnown(w: Retrier): nat {
    match w
    case RWait(_, attempts, _) => attempts
    case RClaim(_, attempts) => attempts
    case RSend(_, attempt) => attempt
    case RFailed(_, attempt, _) => attempt
    case RSent(_, attempt) => attempt
    case RBury(_, attempts) => attempts
    case _ => 0
  }

  /** The holder of an untouched delivery knows what its row says. */
  lemma HolderIsUpToDate(cfg: Config, start: State, s: State, i: nat)
    requires Arises(cfg, start) && Went(cfg, start, s) && i < |s.mail.retriers|
    requires RetrierHolds(s.mail.retriers[i], RetrierRow(s.mail.retriers[i]))
    ensures var id := RetrierRow(s.mail.retriers[i]);
            && id < |s.rows| == |s.history| && s.rows[id].attempts <= cfg.maxRetries + 1
            && AttemptsKnown(s.mail.retriers[i]) <= s.rows[id].attempts
            && (id !in s.touched ==> RetrierFits(cfg, s.now, s.rows[id], s.history[id], s.mail.retriers[i]))
  {
    ArisesIsSafe(cfg, start, s);
    var w := s.mail.retriers[i];
    assert RetrierOk(cfg, s.rows, |s.jobs|, w) && RowOk(cfg, s.rows[RetrierRow(w)]);
    if RetrierRow(w) !in s.touched {
      assert SingleAt(cfg, s, RetrierRow(w));
    }
  }

  lemma StepOf(cfg: Config, start: State, s: State, i: nat, a: RetrierAction, at: int, s': State)
    requires Arises(cfg, start) && Went(cfg, start, s) && at >= s.now && RetrierEnabled(cfg, s.(now := at), i, a)
    requires s' == RetrierNext(cfg, s.(now := at), i, a)
    ensures Went(cfg, start, s')
  {
    Unpanicked(cfg, start, s);
    StepGoes(cfg, start, s, Retry(i, a), at, s');
  }

  // ---------------------------------------------------------------- single statements

  method LoadDelivery(p: Server, i: nat, ghost start: State) returns (d: Delivery)
    requires Arises(p.cfg, start) && Went(p.cfg, start, p.Abs()) && i < |p.mail.retriers| && p.mail.retriers[i].RLoad?
    requires p.mail.retriers[i].id < |p.rows|
    modifies p`now, p`mail
    ensures Went(p.cfg, start, p.Abs()) && d == p.rows[old(p.mail.retriers[i].id)]
    ensures var id := old(p.mail.retriers[i].id);
            p.mail == SetRetrier(old(p.mail), i, if d.attempts > p.cfg.maxRetries then RBury(id, d.attempts)
                else RWait(id, d.attempts, d.nextAttemptAt))
  {
    ghost var s := p.Abs();
    p.Tick();
    var id := p.mail.retriers[i].id;
    d := p.rows[id];
    var w := if d.attempts > p.cfg.maxRetries then RBury(id, d.attempts) else RWait(id, d.attempts, d.nextAttemptAt);
    p.mail := SetRetrier(p.mail, i, w);
    StepOf(p.cfg, start, s, i, RRead, p.now, p.Abs());
  }

  method Sleep(p: Server, due: Option<int>)
    modifies p`now
    ensures p.now >= old(p.now) && (due.Some? ==> p.now >= due.value)
  {
    p.Tick();
    if due.Some? && due.value > p.now {
      p.now := due.value;
    }
  }

  /** Waits until the backoff is over; a delivery without a due time is not waited for. */
  method WaitUntil(p: Server, i: nat, ghost start: State)
    requires Arises(p.cfg, start) && Went(p.cfg, start, p.Abs()) && i < |p.mail.retriers| && p.mail.retriers[i].RWait?
    modifies p`now, p`mail
    ensures Went(p.cfg, start, p.Abs())
    ensures var w := old(p.mail.retriers[i]);
            p.mail == SetRetrier(old(p.mail), i, RClaim(w.id, w.attempts)) && (w.due.Some? ==> p.now >= w.due.value)
  {
    ghost var s := p.Abs();
    var w := p.mail.retriers[i];
    Sleep(p, w.due);
    p.mail := SetRetrier(p.mail, i, RClaim(w.id, w.attempts));
    StepOf(p.cfg, start, s, i, RWake, p.now, p.Abs());
  }

  /** The update that the worker is about to make matches no row. */
  predicate Misses(rows: seq<Delivery>, w: Retrier) {
    match w
    case RClaim(id, attempts) => !MatchesAt(RowAt(rows, id), Retrying, attempts)
    case RBury(id, attempts) => !MatchesAt(RowAt(rows, id), Retrying, attempts)
    case RFailed(id, attempt, _) => !MatchesAt(RowAt(rows, id), Processing, attempt)
    case RSent(id, attempt) => !MatchesAt(RowAt(rows, id), Processing, attempt)
    case _ => false
  }

  /** Somebody else has moved the delivery on: the worker drops it. */
  method NoRowMatches(p: Server, i: nat, ghost start: State)
    requires Arises(p.cfg, start) && Went(p.cfg, start, p.Abs())
    requires i < |p.mail.retriers| && Misses(p.rows, p.mail.retriers[i])
    modifies p`now, p`mail
    ensures Went(p.cfg, start, p.Abs()) && p.mail == SetRetrier(old(p.mail), i, RIdle)
  {
    ghost var s := p.Abs();
    p.Tick();
    ghost var w := p.mail.retriers[i];
    p.mail := SetRetrier(p.mail, i, RIdle);
    StepOf(p.cfg, start, s, i, if w.RClaim? then RTryClaim else if w.RBury? then RTryBury else RRecord, p.now, p.Abs());
  }

  /** The claim of a row that matches. */
  method TakeRow(p: Server, i: nat, ghost start: State)
    requires Arises(p.cfg, start) && Went(p.cfg, start, p.Abs()) && i < |p.mail.retriers| && p.mail.retriers[i].RClaim?
    requires var w := p.mail.retriers[i];
             && w.id < |p.rows| == |p.history|
             && p.rows[w.id].status.Retrying? && p.rows[w.id].attempts == w.attempts
    modifies p`now, p`rows, p`history, p`mail
    ensures Went(p.cfg, start, p.Abs())
    ensures var w := old(p.mail.retriers[i]);
            var d := old(p.rows)[w.id];
            && p.rows == old(p.rows)[w.id := d.(status := Processing, attempts := w.attempts + 1,
                                                nextAttemptAt := None)]
            && p.history == old(p.history)[w.id := old(p.history)[w.id] + [Claimed(w.attempts + 1, p.now)]]
            && p.mail == SetRetrier(old(p.mail), i, RSend(w.id, w.attempts + 1))
  {
    ghost var s := p.Abs();
    p.Tick();
    var w := p.mail.retriers[i];
    var e := p.rows[w.id].(status := Processing, attempts := w.attempts + 1, nextAttemptAt := None);
    var event := Claimed(w.attempts + 1, p.now);
    p.Write(w.id, e, event);
    p.mail := SetRetrier(p.mail, i, RSend(w.id, w.attempts + 1));
    StepOf(p.cfg, start, s, i, RTryClaim, p.now, p.Abs());
  }

  method Claim(p: Server, i: nat, ghost start: State) returns (claimed: bool)
    requires Arises(p.cfg, start) && Went(p.cfg, start, p.Abs()) && i < |p.mail.retriers| && p.mail.retriers[i].RClaim?
    requires p.mail.retriers[i].id < |p.rows| == |p.history|
    modifies p`now, p`rows, p`history, p`mail
    ensures Went(p.cfg, start, p.Abs())
    ensures var w := old(p.mail.retriers[i]);
            var d := old(p.rows)[w.id];
            && claimed == (d.status.Retrying? && d.attempts == w.attempts)
            && p.rows == (if claimed
                then old(p.rows)[w.id := d.(status := Processing, attempts := w.attempts
                    + 1, nextAttemptAt := None)] else old(p.rows))
            && p.history == (if claimed
                then old(p.history)[w.id := old(p.history)[w.id] + [Claimed(w.attempts + 1, p.now)]]
                    else old(p.history))
            && p.mail == SetRetrier(old(p.mail), i, if claimed then RSend(w.id, w.attempts + 1) else RIdle)
  {
    var w := p.mail.retriers[i];
    var d := p.rows[w.id];
    claimed := d.status.Retrying? && d.attempts == w.attempts;
    if claimed {
      TakeRow(p, i, start);
    } else {
      NoRowMatches(p, i, start);
    }
  }

  /** Where the answer of the provider leaves the worker. */
  function AfterCall(w: Retrier, accepted: bool, now: int): Retrier
    requires w.RSend?
  {
    if accepted then RSent(w.id, w.attempt) else RFailed(w.id, w.attempt, now + RetryDelay(w.attempt))
  }

  /** The mail provider accepts the message or does not. */
  method SendEmail(p: Server, i: nat, ghost start: State) returns (accepted: bool)
    requires Arises(p.cfg, start) && Went(p.cfg, start, p.Abs()) && i < |p.mail.retriers| && p.mail.retriers[i].RSend?
    requires p.mail.retriers[i].id < |p.rows| == |p.history|
    modifies p`now, p`history, p`mail
    ensures Went(p.cfg, start, p.Abs())
    ensures var w := old(p.mail.retriers[i]);
            && p.history == old(p.history)[w.id := old(p.history)[w.id] + [Sent(w.attempt, accepted, p.now)]]
            && p.mail == SetRetrier(old(p.mail), i, AfterCall(w, accepted, p.now))
            && p.mail.retriers[i] == (if accepted then RSent(w.id, w.attempt)
                                      else RFailed(w.id, w.attempt, p.now + RetryDelay(w.attempt)))
  {
    ghost var s := p.Abs();
    p.Tick();
    var w := p.mail.retriers[i];
    accepted := *;
    p.history := p.history[w.id := p.history[w.id] + [Sent(w.attempt, accepted, p.now)]];
    p.mail := SetRetrier(p.mail, i, AfterCall(w, accepted, p.now));
    StepOf(p.cfg, start, s, i, RDeliver(accepted), p.now, p.Abs());
  }

  method RecordFailure(p: Server, i: nat, ghost start: State) returns (recorded: bool)
    requires Arises(p.cfg, start) && Went(p.cfg, start, p.Abs()) && i < |p.mail.retriers|
    requires p.mail.retriers[i].RFailed? && p.mail.retriers[i].id < |p.rows|
    modifies p`now, p`rows, p`mail
    ensures Went(p.cfg, start, p.Abs())
    ensures var w := old(p.mail.retriers[i]);
            var d := old(p.rows)[w.id];
            && recorded == (d.status.Processing? && d.attempts == w.attempt)
            && p.rows == (if recorded
                          then old(p.rows)[w.id := d.(status := Retrying, nextAttemptAt := Some(w.next))]
                          else old(p.rows))
            && p.mail == SetRetrier(old(p.mail), i, if recorded then RLoad(w.id) else RIdle)
  {
    var w := p.mail.retriers[i];
    var d := p.rows[w.id];
    recorded := d.status.Processing? && d.attempts == w.attempt;
    if !recorded {
      NoRowMatches(p, i, start);
      return;
    }
    ghost var s := p.Abs();
    p.Tick();
    p.rows := p.rows[w.id := d.(status := Retrying, nextAttemptAt := Some(w.next))];
    p.mail := SetRetrier(p.mail, i, RLoad(w.id));
    StepOf(p.cfg, start, s, i, RRecord, p.now, p.Abs());
  }

  method RecordSuccess(p: Server, i: nat, ghost start: State) returns (recorded: bool)
    requires Arises(p.cfg, start) && Went(p.cfg, start, p.Abs()) && i < |p.mail.retriers| && p.mail.retriers[i].RSent?
    requires p.mail.retriers[i].id < |p.rows|
    modifies p`now, p`rows, p`mail
    ensures Went(p.cfg, start, p.Abs())
    ensures var w := old(p.mail.retriers[i]);
            var d := old(p.rows)[w.id];
            && recorded == (d.status.Processing? && d.attempts == w.attempt)
            && p.rows == (if recorded then old(p.rows)[w.id := d.(status := Success)] else old(p.rows))
            && p.mail == SetRetrier(old(p.mail), i, if recorded then RCount(d.job, None) else RIdle)
  {
    var w := p.mail.retriers[i];
    var d := p.rows[w.id];
    recorded := d.status.Processing? && d.attempts == w.attempt;
    if !recorded {
      NoRowMatches(p, i, start);
      return;
    }
    ghost var s := p.Abs();
    p.Tick();
    p.rows := p.rows[w.id := d.(status := Success)];
    p.mail := SetRetrier(p.mail, i, RCount(d.job, None));
    StepOf(p.cfg, start, s, i, RRecord, p.now, p.Abs());
  }

  /** The transaction, for a row that matches. */
  method FailRow(p: Server, i: nat, ghost start: State)
    requires Arises(p.cfg, start) && Went(p.cfg, start, p.Abs()) && i < |p.mail.retriers| && p.mail.retriers[i].RBury?
    requires var w := p.mail.retriers[i];
             && w.id < |p.rows| == |p.history|
             && p.rows[w.id].status.Retrying? && p.rows[w.id].attempts == w.attempts
    modifies p`now, p`rows, p`history, p`dlq, p`mail
    ensures Went(p.cfg, start, p.Abs())
    ensures var w := old(p.mail.retriers[i]);
            var d := old(p.rows)[w.id];
            && p.rows == old(p.rows)[w.id := d.(status := Failed, nextAttemptAt := None)]
            && p.dlq == old(p.dlq) + [DeadLetter(w.id, d.job)]
            && p.history == old(p.history)[w.id := old(p.history)[w.id] + [Buried(p.now)]]
            && p.mail == SetRetrier(old(p.mail), i, RCount(d.job, Some(w.id)))
  {
    ghost var s := p.Abs();
    p.Tick();
    var w := p.mail.retriers[i];
    var d := p.rows[w.id];
    p.Write(w.id, d.(status := Failed, nextAttemptAt := None), Buried(p.now));
    p.dlq := p.dlq + [DeadLetter(w.id, d.job)];
    p.mail := SetRetrier(p.mail, i, RCount(d.job, Some(w.id)));
    StepOf(p.cfg, start, s, i, RTryBury, p.now, p.Abs());
  }

  /** Marks the delivery failed and adds its dead letter in one transaction. */
  method Bury(p: Server, i: nat, ghost start: State) returns (moved: bool)
    requires Arises(p.cfg, start) && Went(p.cfg, start, p.Abs()) && i < |p.mail.retriers| && p.mail.retriers[i].RBury?
    requires p.mail.retriers[i].id < |p.rows| == |p.history|
    modifies p`now, p`rows, p`history, p`dlq, p`mail
    ensures Went(p.cfg, start, p.Abs())
    ensures var w := old(p.mail.retriers[i]);
            var d := old(p.rows)[w.id];
            && moved == (d.status.Retrying? && d.attempts == w.attempts)
            && p.rows == (if moved then old(p.rows)[w.id := d.(status := Failed, nextAttemptAt := None)]
                          else old(p.rows))
            && p.dlq == (if moved then old(p.dlq) + [DeadLetter(w.id, d.job)] else old(p.dlq))
            && p.history == (if moved then old(p.history)[w.id := old(p.history)[w.id] + [Buried(p.now)]]
                             else old(p.history))
            && p.mail == SetRetrier(old(p.mail), i, if moved then RCount(d.job, Some(w.id)) else RIdle)
  {
    var w := p.mail.retriers[i];
    var d := p.rows[w.id];
    moved := d.status.Retrying? && d.attempts == w.attempts;
    if moved {
      FailRow(p, i, start);
    } else {
      NoRowMatches(p, i, start);
    }
  }

  // ---------------------------------------------------------------- dead letters

  /** How the work on one delivery ended: accepted by the provider, rejected once more, buried, buried by a worker that
      still waits for room in the dead-letter channel, or given up, because somebody else has moved the delivery on or
      because of an error. */
  datatype Outcome = Delivered | Rejected | DeadLettered(published: bool) | AwaitsRoom | GivenUp

  lemma DeadIsOpen(cfg: Config, start: State, s: State, i: nat)
    requires Arises(cfg, start) && Went(cfg, start, s) && i < |s.mail.retriers| && s.mail.retriers[i].RDead?
    ensures !s.mail.dead.closed
  {
    ArisesIsSafe(cfg, start, s);
  }

  method SendLetter(p: Server, i: nat, ghost start: State)
    requires Arises(p.cfg, start) && Went(p.cfg, start, p.Abs()) && i < |p.mail.retriers| && p.mail.retriers[i].RDead?
    requires Ready(p.mail.dead, p.cfg.deadCapacity)
    modifies p`now, p`mail, p`panicked
    ensures Went(p.cfg, start, p.Abs())
    ensures p.mail == SetRetrier(old(p.mail), i, RIdle).(dead := Offer(old(p.mail.dead), old(p.mail.retriers[i].id)))
  {
    ghost var s := p.Abs();
    p.Tick();
    p.panicked := p.mail.dead.closed;
    p.mail := SetRetrier(p.mail, i, RIdle).(dead := Offer(p.mail.dead, p.mail.retriers[i].id));
    StepOf(p.cfg, start, s, i, RSendDead, p.now, p.Abs());
  }

  /** Waits for room in the dead-letter channel, which it may be kept from; `AwaitsRoom` if there has been none yet. */
  method PublishDeadLetter(p: Server, i: nat, ghost start: State) returns (how: Outcome)
    requires Arises(p.cfg, start) && Went(p.cfg, start, p.Abs()) && i < |p.mail.retriers| && p.mail.retriers[i].RDead?
    modifies p
    ensures Went(p.cfg, start, p.Abs()) && RowsEvolve(old(p.rows), p.rows) && (how.DeadLettered? || how.AwaitsRoom?)
    ensures i < |p.mail.retriers| && p.mail.retriers[i] == if how.AwaitsRoom? then old(p.mail.retriers[i]) else RIdle
    ensures how == DeadLettered(true) ==>
              p.mail.dead.queue != [] && Last(p.mail.dead.queue) == old(p.mail.retriers[i].id)
    ensures how == DeadLettered(false) ==> p.cancelled
  {
    var ok := Survives(p, RetrierSeat(i), start);
    if !ok {
      return DeadLettered(false);
    }
    DeadIsOpen(p.cfg, start, p.Abs(), i);
    if !Ready(p.mail.dead, p.cfg.deadCapacity) {
      return AwaitsRoom;
    }
    SendLetter(p, i, start);
    how := DeadLettered(true);
  }

  /** The delivery has failed for good: its job is closed if it was the last, and its letter is published. */
  method CloseAndPublish(p: Server, i: nat, id: nat, job: nat, ghost start: State) returns (how: Outcome)
    requires Arises(p.cfg, start) && Went(p.cfg, start, p.Abs()) && i < |p.mail.retriers|
    requires p.mail.retriers[i] == RCount(job, Some(id)) && id < |p.rows| && p.rows[id].status.Failed?
    modifies p
    ensures Went(p.cfg, start, p.Abs()) && (how.DeadLettered? || how.AwaitsRoom?) && RowsEvolve(old(p.rows), p.rows)
    ensures i < |p.mail.retriers| && p.mail.retriers[i] == if how.AwaitsRoom? then RDead(id) else RIdle
    ensures how == DeadLettered(true) ==> p.mail.dead.queue != [] && Last(p.mail.dead.queue) == id
    ensures how == DeadLettered(false) ==> p.cancelled
  {
    FinalizeNotificationJob(p, RetrierSeat(i), job, start);
    ghost var rows := p.rows;
    how := PublishDeadLetter(p, i, start);
    RowsEvolveTransitively(old(p.rows), rows, p.rows);
  }

  /** The whole of `moveDeliveryToDLQ`. Unless somebody has interfered with the delivery, it has failed afterwards and
      its letter is in the channel, or the worker waits for room, or a forced shutdown has cut its wait off. */
  method MoveDeliveryToDLQ(p: Server, i: nat, ghost start: State) returns (how: Outcome)
    requires Arises(p.cfg, start) && Went(p.cfg, start, p.Abs()) && i < |p.mail.retriers| && p.mail.retriers[i].RBury?
    modifies p
    ensures Went(p.cfg, start, p.Abs()) && RowsEvolve(old(p.rows), p.rows)
    ensures !how.Delivered? && !how.Rejected? && i < |p.mail.retriers|
    ensures var id := old(p.mail.retriers[i].id);
            && id < |p.rows| && p.mail.retriers[i] == (if how.AwaitsRoom? then RDead(id) else RIdle)
            && (how.DeadLettered? || how.AwaitsRoom? ==> p.rows[id].status.Failed?)
            && (how == DeadLettered(true) ==> p.mail.dead.queue != [] && Last(p.mail.dead.queue) == id)
            && (how == DeadLettered(false) ==> p.cancelled)
            && (how.GivenUp? ==> id in p.touched)
  {
    var id := p.mail.retriers[i].id;
    HolderIsUpToDate(p.cfg, start, p.Abs(), i);
    var ok := Survives(p, RetrierSeat(i), start);
    if !ok {
      return GivenUp;
    }
    ghost var before := p.rows;
    how := BuryAndPublish(p, i, start);
    RowsEvolveTransitively(old(p.rows), before, p.rows);
  }

  method BuryAndPublish(p: Server, i: nat, ghost start: State) returns (how: Outcome)
    requires Arises(p.cfg, start) && Went(p.cfg, start, p.Abs()) && i < |p.mail.retriers| && p.mail.retriers[i].RBury?
    modifies p
    ensures Went(p.cfg, start, p.Abs()) && RowsEvolve(old(p.rows), p.rows)
    ensures !how.Delivered? && !how.Rejected? && i < |p.mail.retriers|
    ensures var id := old(p.mail.retriers[i].id);
            && id < |p.rows| && p.mail.retriers[i] == (if how.AwaitsRoom? then RDead(id) else RIdle)
            && (how.DeadLettered? || how.AwaitsRoom? ==> p.rows[id].status.Failed?)
            && (how == DeadLettered(true) ==> p.mail.dead.queue != [] && Last(p.mail.dead.queue) == id)
            && (how == DeadLettered(false) ==> p.cancelled)
            && (how.GivenUp? ==> id in p.touched)
  {
    var id := p.mail.retriers[i].id;
    HolderIsUpToDate(p.cfg, start, p.Abs(), i);
    var job := p.rows[id].job;
    var moved := Bury(p, i, start);
    if !moved {
      return GivenUp;
    }
    ghost var buried := p.rows;
    how := CloseAndPublish(p, i, id, job, start);
    assert RowEvolves(buried[id], p.rows[id]);
    RowsEvolveTransitively(old(p.rows), buried, p.rows);
  }

  // ---------------------------------------------------------------- one attempt after another

  /** A success is recorded, and the job closed if this was its last delivery. */
  method RecordDelivery(p: Server, i: nat, ghost start: State) returns (how: Outcome)
    requires Arises(p.cfg, start) && Went(p.cfg, start, p.Abs()) && i < |p.mail.retriers| && p.mail.retriers[i].RSent?
    requires var w := p.mail.retriers[i];
             && w.id < |p.rows|
             && (w.id in p.touched || (p.rows[w.id].status.Processing? && p.rows[w.id].attempts == w.attempt))
    modifies p
    ensures Went(p.cfg, start, p.Abs()) && i < |p.mail.retriers| && (how.Delivered? || how.GivenUp?)
    ensures var id := old(p.mail.retriers[i].id);
            && id < |p.rows| && p.rows[id].attempts >= old(p.rows)[id].attempts && p.mail.retriers[i].RIdle?
            && (how.Delivered? ==> p.rows[id].status.Success?)
            && (how.GivenUp? ==> id in p.touched)
  {
    var id := p.mail.retriers[i].id;
    var job := p.rows[id].job;
    var recorded := RecordSuccess(p, i, start);
    if !recorded {
      return GivenUp;
    }
    ghost var success := p.rows;
    FinalizeNotificationJob(p, RetrierSeat(i), job, start);
    assert RowEvolves(success[id], p.rows[id]);
    how := Delivered;
  }

  /** Records what the provider said. */
  method RecordOutcome(p: Server, i: nat, ghost start: State) returns (how: Outcome)
    requires Arises(p.cfg, start) && Went(p.cfg, start, p.Abs()) && i < |p.mail.retriers|
    requires p.mail.retriers[i].RFailed? || p.mail.retriers[i].RSent?
    modifies p
    ensures Went(p.cfg, start, p.Abs()) && i < |p.mail.retriers| && !how.DeadLettered? && !how.AwaitsRoom?
    ensures var w := old(p.mail.retriers[i]);
            && w.id < |p.rows| && p.rows[w.id].attempts >= w.attempt
            && p.mail.retriers[i] == (if how.Rejected? then RLoad(w.id) else RIdle)
            && (how.Rejected? ==> w.RFailed?)
            && (how.Delivered? ==> w.RSent? && p.rows[w.id].status.Success?)
            && (how.GivenUp? ==> w.id in p.touched)
  {
    var w := p.mail.retriers[i];
    HolderIsUpToDate(p.cfg, start, p.Abs(), i);
    var ok := Survives(p, RetrierSeat(i), start);
    assert RowEvolves(old(p.rows)[w.id], p.rows[w.id]);
    if !ok {
      return GivenUp;
    }
    HolderIsUpToDate(p.cfg, start, p.Abs(), i);
    if w.RFailed? {
      var recorded := RecordFailure(p, i, start);
      how := if recorded then Rejected else GivenUp;
    } else {
      how := RecordDelivery(p, i, start);
    }
  }

  /** Calls the provider for a claimed attempt and records what it said. */
  method SendAndRecord(p: Server, i: nat, ghost start: State) returns (how: Outcome)
    requires Arises(p.cfg, start) && Went(p.cfg, start, p.Abs()) && i < |p.mail.retriers| && p.mail.retriers[i].RSend?
    modifies p
    ensures Went(p.cfg, start, p.Abs()) && i < |p.mail.retriers| && !how.DeadLettered? && !how.AwaitsRoom?
    ensures var w := old(p.mail.retriers[i]);
            && w.id < |p.rows| && p.rows[w.id].attempts >= w.attempt
            && p.mail.retriers[i] == (if how.Rejected? then RLoad(w.id) else RIdle)
            && (how.Delivered? ==> p.rows[w.id].status.Success?)
            && (how.GivenUp? ==> w.id in p.touched)
  {
    p.Others(RetrierSeat(i), start);
    WentOn(p.cfg, start, old(p.Abs()), p.Abs());
    HolderIsUpToDate(p.cfg, start, p.Abs(), i);
    var accepted := SendEmail(p, i, start);
    how := RecordOutcome(p, i, start);
  }

  /** The wait for the backoff, which may be broken off like any statement. */
  method Wait(p: Server, i: nat, ghost start: State) returns (ok: bool)
    requires Arises(p.cfg, start) && Went(p.cfg, start, p.Abs()) && i < |p.mail.retriers| && p.mail.retriers[i].RWait?
    modifies p
    ensures Went(p.cfg, start, p.Abs()) && i < |p.mail.retriers|
    ensures var w := old(p.mail.retriers[i]);
            && w.id < |p.rows| && p.rows[w.id].attempts >= w.attempts
            && p.mail.retriers[i] == (if ok then RClaim(w.id, w.attempts) else RIdle)
            && (!ok ==> w.id in p.touched)
  {
    var id := p.mail.retriers[i].id;
    HolderIsUpToDate(p.cfg, start, p.Abs(), i);
    ok := Survives(p, RetrierSeat(i), start);
    assert RowEvolves(old(p.rows)[id], p.rows[id]);
    if ok {
      WaitUntil(p, i, start);
      ghost var rows := p.rows;
      ok := Survives(p, RetrierSeat(i), start);
      assert RowEvolves(rows[id], p.rows[id]);
    }
  }

  /** Waits for the backoff and claims the next attempt. */
  method WaitAndClaim(p: Server, i: nat, ghost start: State) returns (claimed: bool)
    requires Arises(p.cfg, start) && Went(p.cfg, start, p.Abs()) && i < |p.mail.retriers| && p.mail.retriers[i].RWait?
    modifies p
    ensures Went(p.cfg, start, p.Abs()) && i < |p.mail.retriers|
    ensures var w := old(p.mail.retriers[i]);
            && w.id < |p.rows| && p.rows[w.id].attempts >= w.attempts
            && p.mail.retriers[i] == (if claimed then RSend(w.id, w.attempts + 1) else RIdle)
            && (!claimed ==> w.id in p.touched)
  {
    claimed := Wait(p, i, start);
    if claimed {
      HolderIsUpToDate(p.cfg, start, p.Abs(), i);
      claimed := Claim(p, i, start);
    }
  }

  /** Waits, claims, sends and records one attempt. */
  method Attempt(p: Server, i: nat, ghost start: State) returns (sent: bool, how: Outcome)
    requires Arises(p.cfg, start) && Went(p.cfg, start, p.Abs()) && i < |p.mail.retriers| && p.mail.retriers[i].RWait?
    modifies p
    ensures Went(p.cfg, start, p.Abs()) && i < |p.mail.retriers| && !how.DeadLettered? && !how.AwaitsRoom?
    ensures var w := old(p.mail.retriers[i]);
            && w.id < |p.rows| && p.rows[w.id].attempts >= w.attempts + (if sent then 1 else 0)
            && p.mail.retriers[i] == (if how.Rejected? then RLoad(w.id) else RIdle)
            && (how.Rejected? || how.Delivered? ==> sent)
            && (how.Delivered? ==> p.rows[w.id].status.Success?)
            && (how.GivenUp? ==> w.id in p.touched)
  {
    sent := WaitAndClaim(p, i, start);
    if sent {
      how := SendAndRecord(p, i, start);
    } else {
      how := GivenUp;
    }
  }

  lemma AttemptsAreBounded(cfg: Config, start: State, s: State, id: nat)
    requires Arises(cfg, start) && Went(cfg, start, s) && id < |s.rows|
    ensures s.rows[id].attempts <= cfg.maxRetries + 1
  {
    ArisesIsSafe(cfg, start, s);
    assert RowOk(cfg, s.rows[id]);
  }

  /** Everybody else runs, then the row is read. */
  method Reload(p: Server, i: nat, id: nat, ghost start: State) returns (ok: bool, delivery: Delivery)
    requires Arises(p.cfg, start) && Went(p.cfg, start, p.Abs()) && id < |p.rows|
    requires i < |p.mail.retriers| && p.mail.retriers[i] == RLoad(id)
    modifies p
    ensures Went(p.cfg, start, p.Abs()) && i < |p.mail.retriers| && id < |p.rows|
    ensures delivery == p.rows[id] && delivery.attempts >= old(p.rows)[id].attempts
    ensures if !ok then p.mail.retriers[i] == RIdle && id in p.touched
            else p.mail.retriers[i] == if delivery.attempts > p.cfg.maxRetries then RBury(id, delivery.attempts)
                                       else RWait(id, delivery.attempts, delivery.nextAttemptAt)
  {
    ok := Survives(p, RetrierSeat(i), start);
    assert RowEvolves(old(p.rows)[id], p.rows[id]);
    delivery := p.rows[id];
    if ok {
      delivery := LoadDelivery(p, i, start);
    }
  }

  /** The whole of `processRetry`, for one message: a run of the system in which each call of the provider is paid for
      with an attempt, so that there are at most maxRetries + 1 - attempts calls. It ends with the delivery accepted or
      buried, or it gives up a delivery that somebody has interfered with. */
  method ProcessRetry(p: Server, i: nat) returns (calls: nat, how: Outcome)
    requires Arises(p.cfg, p.Abs()) && i < |p.mail.retriers| && p.mail.retriers[i].RLoad?
    modifies p
    ensures Went(p.cfg, old(p.Abs()), p.Abs()) && !how.Rejected? && i < |p.mail.retriers|
    ensures var id := old(p.mail.retriers[i].id);
            && id < |old(p.rows)| && id < |p.rows|
            && old(p.rows)[id].attempts + calls <= p.rows[id].attempts <= p.cfg.maxRetries + 1
            && p.mail.retriers[i] == (if how.AwaitsRoom? then RDead(id) else RIdle)
            && (how.Delivered? ==> p.rows[id].status.Success?)
            && (how.DeadLettered? || how.AwaitsRoom? ==> p.rows[id].status.Failed?)
            && (how == DeadLettered(true) ==> p.mail.dead.queue != [] && Last(p.mail.dead.queue) == id)
            && (how == DeadLettered(false) ==> p.cancelled)
            && (how.GivenUp? ==> id in p.touched)
  {
    ghost var start := p.Abs();
    var id := p.mail.retriers[i].id;
    HolderIsUpToDate(p.cfg, start, p.Abs(), i);
    calls, how := 0, Rejected;
    while how.Rejected?
      invariant Went(p.cfg, start, p.Abs()) && i < |p.mail.retriers| && id < |p.rows|
      invariant old(p.rows)[id].attempts + calls <= p.rows[id].attempts <= p.cfg.maxRetries + 1
      invariant how.Rejected? ==> p.mail.retriers[i] == RLoad(id)
      invariant !how.Rejected? ==> p.mail.retriers[i] == if how.AwaitsRoom? then RDead(id) else RIdle
      invariant how.Delivered? ==> p.rows[id].status.Success?
      invariant how.DeadLettered? || how.AwaitsRoom? ==> p.rows[id].status.Failed?
      invariant how == DeadLettered(true) ==> p.mail.dead.queue != [] && Last(p.mail.dead.queue) == id
      invariant how == DeadLettered(false) ==> p.cancelled
      invariant how.GivenUp? ==> id in p.touched
      decreases how.Rejected?, p.cfg.maxRetries + 1 - p.rows[id].attempts
    {
      var ok, delivery := Reload(p, i, id, start);
      if !ok {
        how := GivenUp;
      } else if delivery.attempts > p.cfg.maxRetries {
        ghost var before := p.rows;
        how := MoveDeliveryToDLQ(p, i, start);
        assert RowEvolves(before[id], p.rows[id]);
      } else {
        var sent;
        sent, how := Attempt(p, i, start);
        calls := calls + if sent then 1 else 0;
      }
      AttemptsAreBounded(p.cfg, start, p.Abs(), id);
    }
  }
}
