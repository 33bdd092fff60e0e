/** `CreateReport` from its transaction on: the job is stored first, then there is one attempt to queue it that never
    blocks. */
module ReportIntake {
  import opened Sequences
  import opened Pipeline
  import opened Process

  lemma StepOf(cfg: Config, start: State, s: State, a: HandlerAction, at: int, s': State)
    requires Arises(cfg, start) && Went(cfg, start, s) && at >= s.now && HandlerEnabled(s, a)
    requires s' == HandlerNext(cfg, s.(now := at), a)
    ensures Went(cfg, start, s')
  {
    Unpanicked(cfg, start, s);
    StepGoes(cfg, start, s, Handler(a), at, s');
  }

  /** The request ends with an error before anything is stored. */
  method RejectReport(p: Server, ghost start: State)
    requires Arises(p.cfg, start) && Went(p.cfg, start, p.Abs()) && p.intake.requests > 0
    modifies p`now, p`intake
    ensures Went(p.cfg, start, p.Abs())
    ensures p.intake == old(p.intake).(requests := old(p.intake.requests) - 1)
  {
    ghost var s := p.Abs();
    p.Tick();
    p.intake := p.intake.(requests := p.intake.requests - 1);
    StepOf(p.cfg, start, s, Decline, p.now, p.Abs());
  }

  /** The transaction: report and job are stored together, the job already in processing. */
  method StoreReport(p: Server, place: int, described: bool, ghost start: State) returns (job: nat)
    requires Arises(p.cfg, start) && Went(p.cfg, start, p.Abs()) && p.intake.requests > 0
    modifies p`now, p`jobs, p`intake
    ensures Went(p.cfg, start, p.Abs())
    ensures job == |old(p.jobs)| && p.jobs == old(p.jobs) + [Job(JobProcessing, 0, place, described, true)]
    ensures p.intake == old(p.intake).(requests := old(p.intake.requests) - 1,
                                       handlers := old(p.intake.handlers) + {job})
  {
    ghost var s := p.Abs();
    p.Tick();
    job := |p.jobs|;
    p.intake := p.intake.(requests := p.intake.requests - 1, handlers := p.intake.handlers + {job});
    p.jobs := p.jobs + [Job(JobProcessing, 0, place, described, true)];
    StepOf(p.cfg, start, s, Accept(place, described), p.now, p.Abs());
  }

  method Leave(p: Server, job: nat, queued: bool)
    modifies p`intake, p`panicked, p`dismissed
    ensures p.intake == var k := old(p.intake).(handlers := old(p.intake.handlers) - {job});
                        if queued then k.(verification := Offer(k.verification, job)) else k
    ensures p.panicked == if queued then old(p.intake.verification.closed) else old(p.panicked)
    ensures p.dismissed == if queued then old(p.dismissed) else old(p.dismissed) + {job}
  {
    p.intake := p.intake.(handlers := p.intake.handlers - {job});
    if queued {
      p.panicked := p.intake.verification.closed;
      p.intake := p.intake.(verification := Offer(p.intake.verification, job));
    } else {
      p.dismissed := p.dismissed + {job};
    }
  }

  /** Queues the job if there is room; otherwise it is left to the recovery of the next start. */
  method TryToQueue(p: Server, job: nat, ghost start: State) returns (queued: bool)
    requires Arises(p.cfg, start) && Went(p.cfg, start, p.Abs()) && job in p.intake.handlers
    modifies p`now, p`intake, p`panicked, p`dismissed
    ensures Went(p.cfg, start, p.Abs()) && queued == Ready(old(p.intake.verification), p.cfg.capacity)
    ensures p.intake == var k := old(p.intake).(handlers := old(p.intake.handlers) - {job});
                        if queued then k.(verification := Offer(k.verification, job)) else k
    ensures p.dismissed == if queued then old(p.dismissed) else old(p.dismissed) + {job}
  {
    ghost var s := p.Abs();
    p.Tick();
    queued := Ready(p.intake.verification, p.cfg.capacity);
    Leave(p, job, queued);
    StepOf(p.cfg, start, s, Publish(job), p.now, p.Abs());
  }

  lemma HandlerFindsChannelOpen(cfg: Config, start: State, s: State, job: nat)
    requires Arises(cfg, start) && Went(cfg, start, s) && job in s.intake.handlers
    ensures !s.intake.verification.closed && |s.intake.verification.queue| <= cfg.capacity
  {
    ArisesIsSafe(cfg, start, s);
  }

  /** One request that has begun, before or after the first signal. Either it ends with an error and stores nothing, or
      the job is stored whether or not it could be queued, and no later event takes that back. The answer is right:
      after `queued` the job is the last message of the verification channel, and otherwise that channel is full. */
  method CreateReport(p: Server, place: int, described: bool) returns (stored: bool, job: nat, queued: bool)
    requires Arises(p.cfg, p.Abs()) && p.intake.requests > 0
    modifies p
    ensures Went(p.cfg, old(p.Abs()), p.Abs())
    ensures !stored ==> !queued && p.jobs == old(p.jobs)
    ensures stored ==>
              && |old(p.jobs)| <= job < |p.jobs| && p.jobs[job].place == place && p.jobs[job].described == described
              && job !in p.intake.handlers && (!queued ==> job in p.dismissed)
              && if queued then p.intake.verification.queue != [] && Last(p.intake.verification.queue) == job
                 else |p.intake.verification.queue| == p.cfg.capacity
  {
    ghost var start := p.Abs();
    stored, job, queued := *, 0, false;
    if !stored {
      RejectReport(p, start);
      return;
    }
    job := StoreReport(p, place, described, start);
    ghost var before := p.Abs();
    p.Others(HandlerSeat(job), start);
    Later(p.cfg, start, before, p.Abs());
    HandlerFindsChannelOpen(p.cfg, start, p.Abs(), job);
    queued := TryToQueue(p, job, start);
  }
}
