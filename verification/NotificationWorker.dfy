/** The first-attempt worker: `processDelivery` with its claim, its one send and the hand-over to the retry workers. */
module NotificationWorker {
  import opened Wrappers
  import opened Sequences
  import opened Pipeline
  import opened Deliveries
  import opened Wakeups
  import opened Process
  import opened MailWorker

  // ---------------------------------------------------------------- what the worker can rely on

  lemma HolderIsUpToDate(cfg: Config, start: State, s: State, i: nat)
    requires Arises(cfg, start) && Went(cfg, start, s)
    requires i < |s.mail.notifiers| && NotifierHolds(s.mail.notifiers[i], NotifierRow(s.mail.notifiers[i]))
    ensures var id := NotifierRow(s.mail.notifiers[i]);
            && id < |s.rows| == |s.history|
            && (s.mail.notifiers[i].NSend? ==> s.rows[id].attempts >= 1)
            && (id !in s.touched ==> NotifierFits(s.rows[id], s.history[id], s.mail.notifiers[i]))
  {
    ArisesIsSafe(cfg, start, s);
    assert NotifierOk(s.rows, |s.jobs|, s.mail.notifiers[i]);
    if NotifierRow(s.mail.notifiers[i]) !in s.touched {
      assert SingleAt(cfg, s, NotifierRow(s.mail.notifiers[i]));
    }
  }

  lemma StepOf(cfg: Config, start: State, s: State, i: nat, a: NotifierAction, at: int, s': State)
    requires Arises(cfg, start) && Went(cfg, start, s) && at >= s.now && NotifierEnabled(cfg, s.(now := at), i, a)
    requires s' == NotifierNext(cfg, s.(now := at), i, a)
    ensures Went(cfg, start, s')
  {
    Unpanicked(cfg, start, s);
    StepGoes(cfg, start, s, Notify(i, a), at, s');
  }

  // ---------------------------------------------------------------- single statements

  method LoadDelivery(p: Server, i: nat, ghost start: State)
    requires Arises(p.cfg, start) && Went(p.cfg, start, p.Abs())
    requires i < |p.mail.notifiers| && p.mail.notifiers[i].NLoad? && p.mail.notifiers[i].id < |p.rows|
    modifies p`now, p`mail
    ensures Went(p.cfg, start, p.Abs()) && p.mail == SetNotifier(old(p.mail), i, NClaim(old(p.mail.notifiers[i].id)))
  {
    ghost var s := p.Abs();
    p.Tick();
    var id := p.mail.notifiers[i].id;
    p.mail := SetNotifier(p.mail, i, NClaim(id));
    StepOf(p.cfg, start, s, i, NRead, p.now, p.Abs());
  }

  method NoRowMatches(p: Server, i: nat, a: NotifierAction, ghost start: State)
    requires Arises(p.cfg, start) && Went(p.cfg, start, p.Abs()) && i < |p.mail.notifiers|
    requires NotifierReady(p.mail.notifiers[i], a)
    requires a.NTryClaim? || a.NRecord?
    requires NotifierLocal(p.now, RowAt(p.rows, NotifierRow(p.mail.notifiers[i])), None, p.mail.notifiers[i],
        a) == Moves(NIdle)
    modifies p`now, p`mail
    ensures Went(p.cfg, start, p.Abs()) && p.mail == SetNotifier(old(p.mail), i, NIdle)
  {
    ghost var s := p.Abs();
    p.Tick();
    p.mail := SetNotifier(p.mail, i, NIdle);
    StepOf(p.cfg, start, s, i, a, p.now, p.Abs());
  }

  method Claim(p: Server, i: nat, ghost start: State) returns (claimed: bool)
    requires Arises(p.cfg, start) && Went(p.cfg, start, p.Abs())
    requires i < |p.mail.notifiers| && p.mail.notifiers[i].NClaim? && p.mail.notifiers[i].id < |p.rows| == |p.history|
    modifies p`now, p`rows, p`history, p`mail
    ensures Went(p.cfg, start, p.Abs())
    ensures var id := old(p.mail.notifiers[i].id);
            var d := old(p.rows)[id];
            && claimed == d.status.Pending?
            && p.rows == (if claimed
                then old(p.rows)[id := d.(status := Processing, attempts := 1, nextAttemptAt := None)] else old(p.rows))
            && p.history == (if claimed then old(p.history)[id := old(p.history)[id] + [Claimed(1, p.now)]]
                else old(p.history))
            && p.mail == SetNotifier(old(p.mail), i, if claimed then NSend(id) else NIdle)
  {
    var id := p.mail.notifiers[i].id;
    var d := p.rows[id];
    claimed := d.status.Pending?;
    if !claimed {
      NoRowMatches(p, i, NTryClaim, start);
      return;
    }
    ghost var s := p.Abs();
    p.Tick();
    var e := d.(status := Processing, attempts := 1, nextAttemptAt := None);
    p.Write(id, e, Claimed(1, p.now));
    p.mail := SetNotifier(p.mail, i, NSend(id));
    StepOf(p.cfg, start, s, i, NTryClaim, p.now, p.Abs());
  }

  /** Where the answer of the provider leaves the worker. */
  function AfterCall(id: nat, accepted: bool, now: int): Notifier {
    if accepted then NSent(id) else NFailed(id, now + RetryDelay(1))
  }

  /** The mail provider accepts the message or does not. */
  method SendEmail(p: Server, i: nat, ghost start: State) returns (accepted: bool)
    requires Arises(p.cfg, start) && Went(p.cfg, start, p.Abs())
    requires i < |p.mail.notifiers| && p.mail.notifiers[i].NSend? && p.mail.notifiers[i].id < |p.rows| == |p.history|
    modifies p`now, p`history, p`mail
    ensures Went(p.cfg, start, p.Abs())
    ensures var id := old(p.mail.notifiers[i].id);
            && p.history == old(p.history)[id := old(p.history)[id] + [Sent(1, accepted, p.now)]]
            && p.mail == SetNotifier(old(p.mail), i, AfterCall(id, accepted, p.now))
            && p.mail.notifiers[i] == (if accepted then NSent(id) else NFailed(id, p.now + RetryDelay(1)))
  {
    ghost var s := p.Abs();
    p.Tick();
    var id := p.mail.notifiers[i].id;
    accepted := *;
    p.history := p.history[id := p.history[id] + [Sent(1, accepted, p.now)]];
    p.mail := SetNotifier(p.mail, i, AfterCall(id, accepted, p.now));
    StepOf(p.cfg, start, s, i, NDeliver(accepted), p.now, p.Abs());
  }

  method RecordFailure(p: Server, i: nat, ghost start: State) returns (recorded: bool)
    requires Arises(p.cfg, start) && Went(p.cfg, start, p.Abs())
    requires i < |p.mail.notifiers| && p.mail.notifiers[i].NFailed? && p.mail.notifiers[i].id < |p.rows|
    modifies p`now, p`rows, p`mail
    ensures Went(p.cfg, start, p.Abs())
    ensures var w := old(p.mail.notifiers[i]);
            var d := old(p.rows)[w.id];
            && recorded == d.status.Processing?
            && p.rows == (if recorded
                then old(p.rows)[w.id := d.(status := Retrying, nextAttemptAt := Some(w.next))] else old(p.rows))
            && p.mail == SetNotifier(old(p.mail), i, if recorded then NRetry(w.id) else NIdle)
  {
    var w := p.mail.notifiers[i];
    var d := p.rows[w.id];
    recorded := d.status.Processing?;
    if !recorded {
      NoRowMatches(p, i, NRecord, start);
      return;
    }
    ghost var s := p.Abs();
    p.Tick();
    var e := d.(status := Retrying, nextAttemptAt := Some(w.next));
    p.rows := p.rows[w.id := e];
    p.mail := SetNotifier(p.mail, i, NRetry(w.id));
    StepOf(p.cfg, start, s, i, NRecord, p.now, p.Abs());
  }

  method RecordSuccess(p: Server, i: nat, ghost start: State) returns (recorded: bool)
    requires Arises(p.cfg, start) && Went(p.cfg, start, p.Abs())
    requires i < |p.mail.notifiers| && p.mail.notifiers[i].NSent? && p.mail.notifiers[i].id < |p.rows|
    modifies p`now, p`rows, p`mail
    ensures Went(p.cfg, start, p.Abs())
    ensures var w := old(p.mail.notifiers[i]);
            var d := old(p.rows)[w.id];
            && recorded == d.status.Processing?
            && p.rows == (if recorded then old(p.rows)[w.id := d.(status := Success)] else old(p.rows))
            && p.mail == SetNotifier(old(p.mail), i, if recorded then NCount(d.job) else NIdle)
  {
    var w := p.mail.notifiers[i];
    var d := p.rows[w.id];
    recorded := d.status.Processing?;
    if !recorded {
      NoRowMatches(p, i, NRecord, start);
      return;
    }
    ghost var s := p.Abs();
    p.Tick();
    var e := d.(status := Success);
    p.rows := p.rows[w.id := e];
    p.mail := SetNotifier(p.mail, i, NCount(d.job));
    StepOf(p.cfg, start, s, i, NRecord, p.now, p.Abs());
  }

  // ---------------------------------------------------------------- the first attempt

  /** How the first attempt ended: accepted by the provider, handed over to the retry workers, rejected by a worker that
      still waits for room in their channel, or given up, because somebody else has moved the delivery on or because
      of an error. */
  datatype Outcome = Delivered | HandedOver | AwaitsRoom | GivenUp

  lemma RetriesAreOpen(cfg: Config, start: State, s: State, i: nat)
    requires Arises(cfg, start) && Went(cfg, start, s) && i < |s.mail.notifiers| && s.mail.notifiers[i].NRetry?
    ensures !s.mail.retries.closed
  {
    ArisesIsSafe(cfg, start, s);
  }

  method SendRetry(p: Server, i: nat, ghost start: State)
    requires Arises(p.cfg, start) && Went(p.cfg, start, p.Abs()) && i < |p.mail.notifiers|
    requires p.mail.notifiers[i].NRetry? && Ready(p.mail.retries, p.cfg.capacity)
    modifies p`now, p`mail, p`panicked
    ensures Went(p.cfg, start, p.Abs())
    ensures p.mail == SetNotifier(old(p.mail), i, NIdle).(retries := Offer(old(p.mail.retries),
                                                                           old(p.mail.notifiers[i].id)))
  {
    ghost var s := p.Abs();
    p.Tick();
    p.panicked := p.mail.retries.closed;
    p.mail := SetNotifier(p.mail, i, NIdle).(retries := Offer(p.mail.retries, p.mail.notifiers[i].id));
    StepOf(p.cfg, start, s, i, NHandOver, p.now, p.Abs());
  }

  /** Waits for room in the retry channel; `AwaitsRoom` if there has been none so far. */
  method HandOver(p: Server, i: nat, ghost start: State) returns (how: Outcome)
    requires Arises(p.cfg, start) && Went(p.cfg, start, p.Abs()) && i < |p.mail.notifiers|
    requires p.mail.notifiers[i].NRetry?
    modifies p
    ensures Went(p.cfg, start, p.Abs()) && RowsEvolve(old(p.rows), p.rows) && !how.Delivered? && i < |p.mail.notifiers|
    ensures var id := old(p.mail.notifiers[i].id);
            && p.mail.notifiers[i] == (if how.AwaitsRoom? then NRetry(id) else NIdle)
            && (how.HandedOver? ==> p.mail.retries.queue != [] && Last(p.mail.retries.queue) == id)
            && (how.GivenUp? ==> id in p.touched)
  {
    var ok := Survives(p, NotifierSeat(i), start);
    if !ok {
      return GivenUp;
    }
    RetriesAreOpen(p.cfg, start, p.Abs(), i);
    if !Ready(p.mail.retries, p.cfg.capacity) {
      return AwaitsRoom;
    }
    SendRetry(p, i, start);
    how := HandedOver;
  }

  /** A rejection is recorded and handed over. */
  method RecordRejection(p: Server, i: nat, ghost start: State) returns (how: Outcome)
    requires Arises(p.cfg, start) && Went(p.cfg, start, p.Abs()) && i < |p.mail.notifiers|
    requires p.mail.notifiers[i].NFailed? && p.mail.notifiers[i].id < |p.rows| == |p.history|
    requires p.mail.notifiers[i].id in p.touched || p.rows[p.mail.notifiers[i].id].status.Processing?
    modifies p
    ensures Went(p.cfg, start, p.Abs()) && i < |p.mail.notifiers| && !how.Delivered?
    ensures var id := old(p.mail.notifiers[i].id);
            && id < |p.rows| && old(p.rows)[id].attempts <= p.rows[id].attempts
            && p.mail.notifiers[i] == (if how.AwaitsRoom? then NRetry(id) else NIdle)
            && (how.HandedOver? ==> p.mail.retries.queue != [] && Last(p.mail.retries.queue) == id)
            && (how.GivenUp? ==> id in p.touched)
  {
    var id := p.mail.notifiers[i].id;
    var recorded := RecordFailure(p, i, start);
    if !recorded {
      return GivenUp;
    }
    ghost var rows := p.rows;
    how := HandOver(p, i, start);
    assert RowEvolves(rows[id], p.rows[id]);
  }

  /** A success is recorded, and the job closed if this was its last delivery. */
  method RecordDelivery(p: Server, i: nat, ghost start: State) returns (how: Outcome)
    requires Arises(p.cfg, start) && Went(p.cfg, start, p.Abs()) && i < |p.mail.notifiers|
    requires p.mail.notifiers[i].NSent? && p.mail.notifiers[i].id < |p.rows| == |p.history|
    requires p.mail.notifiers[i].id in p.touched || p.rows[p.mail.notifiers[i].id].status.Processing?
    modifies p
    ensures Went(p.cfg, start, p.Abs()) && i < |p.mail.notifiers| && (how.Delivered? || how.GivenUp?)
    ensures var id := old(p.mail.notifiers[i].id);
            && id < |p.rows| && old(p.rows)[id].attempts <= p.rows[id].attempts && p.mail.notifiers[i].NIdle?
            && (how.Delivered? ==> p.rows[id].status.Success?)
            && (how.GivenUp? ==> id in p.touched)
  {
    var id := p.mail.notifiers[i].id;
    var job := p.rows[id].job;
    var recorded := RecordSuccess(p, i, start);
    if !recorded {
      return GivenUp;
    }
    ghost var rows := p.rows;
    FinalizeNotificationJob(p, NotifierSeat(i), job, start);
    assert RowEvolves(rows[id], p.rows[id]);
    how := Delivered;
  }

  /** Records what the provider said, and hands a rejected delivery over. */
  method RecordOutcome(p: Server, i: nat, ghost start: State) returns (how: Outcome)
    requires Arises(p.cfg, start) && Went(p.cfg, start, p.Abs()) && i < |p.mail.notifiers|
    requires p.mail.notifiers[i].NFailed? || p.mail.notifiers[i].NSent?
    modifies p
    ensures Went(p.cfg, start, p.Abs()) && i < |p.mail.notifiers|
    ensures var w := old(p.mail.notifiers[i]);
            && w.id < |old(p.rows)| && w.id < |p.rows| && old(p.rows)[w.id].attempts <= p.rows[w.id].attempts
            && p.mail.notifiers[i] == (if how.AwaitsRoom? then NRetry(w.id) else NIdle)
            && (how.Delivered? ==> w.NSent? && p.rows[w.id].status.Success?)
            && (how.HandedOver? ==> w.NFailed? && p.mail.retries.queue != [] && Last(p.mail.retries.queue) == w.id)
            && (how.AwaitsRoom? ==> w.NFailed?)
            && (how.GivenUp? ==> w.id in p.touched)
  {
    var w := p.mail.notifiers[i];
    HolderIsUpToDate(p.cfg, start, p.Abs(), i);
    var ok := Survives(p, NotifierSeat(i), start);
    assert RowEvolves(old(p.rows)[w.id], p.rows[w.id]);
    if !ok {
      return GivenUp;
    }
    HolderIsUpToDate(p.cfg, start, p.Abs(), i);
    if w.NFailed? {
      how := RecordRejection(p, i, start);
    } else {
      how := RecordDelivery(p, i, start);
    }
  }

  /** Everybody else runs, then the provider is called. */
  method SendAndRecord(p: Server, i: nat, ghost start: State) returns (how: Outcome)
    requires Arises(p.cfg, start) && Went(p.cfg, start, p.Abs()) && i < |p.mail.notifiers|
    requires p.mail.notifiers[i].NSend?
    modifies p
    ensures Went(p.cfg, start, p.Abs()) && i < |p.mail.notifiers|
    ensures var id := old(p.mail.notifiers[i].id);
            && id < |p.rows| && p.rows[id].attempts >= 1
            && p.mail.notifiers[i] == (if how.AwaitsRoom? then NRetry(id) else NIdle)
            && (how.Delivered? ==> p.rows[id].status.Success?)
            && (how.HandedOver? ==> p.mail.retries.queue != [] && Last(p.mail.retries.queue) == id)
            && (how.GivenUp? ==> id in p.touched)
  {
    p.Others(NotifierSeat(i), start);
    WentOn(p.cfg, start, old(p.Abs()), p.Abs());
    HolderIsUpToDate(p.cfg, start, p.Abs(), i);
    var accepted := SendEmail(p, i, start);
    how := RecordOutcome(p, i, start);
  }

  /** Claims the first attempt, makes it and records it. */
  method FirstAttempt(p: Server, i: nat, ghost start: State) returns (sent: bool, how: Outcome)
    requires Arises(p.cfg, start) && Went(p.cfg, start, p.Abs()) && i < |p.mail.notifiers|
    requires p.mail.notifiers[i].NClaim?
    modifies p
    ensures Went(p.cfg, start, p.Abs()) && i < |p.mail.notifiers| && (sent || how.GivenUp?)
    ensures var id := old(p.mail.notifiers[i].id);
            && id < |p.rows| && (sent ==> p.rows[id].attempts >= 1)
            && p.mail.notifiers[i] == (if how.AwaitsRoom? then NRetry(id) else NIdle)
            && (how.Delivered? ==> p.rows[id].status.Success?)
            && (how.HandedOver? ==> p.mail.retries.queue != [] && Last(p.mail.retries.queue) == id)
            && (how.GivenUp? ==> id in p.touched)
  {
    HolderIsUpToDate(p.cfg, start, p.Abs(), i);
    sent := Claim(p, i, start);
    if sent {
      how := SendAndRecord(p, i, start);
    } else {
      how := GivenUp;
    }
  }

  /** Loads the row; the worker may be abandoned before or after. */
  method Load(p: Server, i: nat, id: nat, ghost start: State) returns (ok: bool)
    requires Arises(p.cfg, start) && Went(p.cfg, start, p.Abs()) && id < |p.rows|
    requires i < |p.mail.notifiers| && p.mail.notifiers[i] == NLoad(id)
    modifies p
    ensures Went(p.cfg, start, p.Abs()) && i < |p.mail.notifiers| && id < |p.rows|
    ensures if ok then p.mail.notifiers[i] == NClaim(id) else p.mail.notifiers[i].NIdle? && id in p.touched
  {
    ok := Survives(p, NotifierSeat(i), start);
    if ok {
      LoadDelivery(p, i, start);
      ok := Survives(p, NotifierSeat(i), start);
    }
  }

  /** The whole of `processDelivery`, for one message: a run of the system in which the provider is called at most once.
      It ends with the delivery accepted, or rejected and in the retry channel, or gives up a delivery that somebody
      has interfered with; the worker may still be waiting for room. */
  method ProcessDelivery(p: Server, i: nat) returns (sent: bool, how: Outcome)
    requires Arises(p.cfg, p.Abs()) && i < |p.mail.notifiers| && p.mail.notifiers[i].NLoad?
    modifies p
    ensures Went(p.cfg, old(p.Abs()), p.Abs()) && i < |p.mail.notifiers| && (sent || how.GivenUp?)
    ensures var id := old(p.mail.notifiers[i].id);
            && id < |p.rows| && (sent ==> p.rows[id].attempts >= 1)
            && p.mail.notifiers[i] == (if how.AwaitsRoom? then NRetry(id) else NIdle)
            && (how.Delivered? ==> p.rows[id].status.Success?)
            && (how.HandedOver? ==> p.mail.retries.queue != [] && Last(p.mail.retries.queue) == id)
            && (how.GivenUp? ==> id in p.touched)
  {
    ghost var start := p.Abs();
    HolderIsUpToDate(p.cfg, start, p.Abs(), i);
    var ok := Load(p, i, p.mail.notifiers[i].id, start);
    if !ok {
      return false, GivenUp;
    }
    sent, how := FirstAttempt(p, i, start);
  }
}
