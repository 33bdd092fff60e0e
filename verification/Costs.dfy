/** Prices for everything in the pipeline, and what a step does to the total. */
module Costs {
  import opened Wrappers
  import opened Sums
  import opened Pipeline
  import opened Frames

  /** A price for every request, handler, message, worker and row, and for where recovery stands. */
  datatype Prices = Prices(request: nat, handler: nat, verification: nat, verifier: Verifier -> nat,
                           reports: nat, extractor: Extractor -> nat, row: Delivery -> nat,
                           delivery: nat, notifier: Notifier -> nat, retry: nat, retrier: Retrier -> nat,
                           dead: nat, recovery: Recovery -> nat)

  function Each<T>(price: nat): T -> nat {
    (_: T) => price
  }

  function IntakeTotal(p: Prices, k: Intake): nat {
    Times(k.requests, p.request) + Times(|k.handlers|, p.handler)
    + Sum(k.verification.queue, Each(p.verification)) + Sum(k.verifiers, p.verifier)
    + Sum(k.reports.queue, Each(p.reports)) + Sum(k.extractors, p.extractor)
  }

  function MailTotal(p: Prices, m: Mail): nat {
    Sum(m.deliveries.queue, Each(p.delivery)) + Sum(m.notifiers, p.notifier)
    + Sum(m.retries.queue, Each(p.retry)) + Sum(m.retriers, p.retrier) + Sum(m.dead.queue, Each(p.dead))
  }

  function Total(p: Prices, s: State): nat {
    IntakeTotal(p, s.intake) + MailTotal(p, s.mail) + Sum(s.rows, p.row) + p.recovery(s.recovery)
  }

  /** A step takes `out` away and brings `back` in; it loses no more than that unless it panics. */
  ghost predicate Flows(p: Prices, s: State, s': State, out: nat, back: nat) {
    && Total(p, s') + out <= Total(p, s) + back
    && (!s'.panicked ==> Total(p, s') + out == Total(p, s) + back)
  }

  // ---------------------------------------------------------------- channels

  lemma TakeCosts(c: Channel, price: nat)
    requires c.queue != []
    ensures Sum(c.queue, Each(price)) == Sum(Take(c).queue, Each(price)) + price
  {
    SumOfTail(c.queue, Each(price));
  }

  lemma OfferCosts(c: Channel, x: nat, price: nat)
    ensures Sum(Offer(c, x).queue, Each(price)) == Sum(c.queue, Each(price)) + if c.closed then 0 else price
  {
    SumOfSnoc(c.queue, x, Each(price));
  }

  // ---------------------------------------------------------------- intake

  lemma OneHandlerMore(handlers: set<nat>, job: nat, price: nat)
    requires job !in handlers
    ensures Times(|handlers + {job}|, price) == Times(|handlers|, price) + price
  {
    assert |handlers + {job}| == |handlers| + 1;
  }

  /** What a handler takes out of the intake, and what it leaves there: a request ends or turns into a handler; a
      handler leaves a message or, when the queue is full, nothing. */
  function TakenByHandler(p: Prices, a: HandlerAction): nat {
    if a.Publish? then p.handler else p.request
  }

  function LeftByHandler(p: Prices, a: HandlerAction): nat {
    match a
    case Publish(_) => p.verification
    case Accept(_, _) => p.handler
    case _ => 0
  }

  lemma PublishIntake(cfg: Config, p: Prices, s: State, job: nat)
    requires HandlerEnabled(s, Publish(job))
    ensures IntakeTotal(p, HandlerNext(cfg, s, Publish(job)).intake) + p.handler
         <= IntakeTotal(p, s.intake) + p.verification
  {
    OneHandlerMore(s.intake.handlers - {job}, job, p.handler);
    assert s.intake.handlers - {job} + {job} == s.intake.handlers;
    OfferCosts(s.intake.verification, job, p.verification);
  }

  lemma HandlerIntake(cfg: Config, p: Prices, s: State, a: HandlerAction)
    requires HandlerEnabled(s, a) && !a.Begin? && |s.jobs| !in s.intake.handlers
    ensures IntakeTotal(p, HandlerNext(cfg, s, a).intake) + TakenByHandler(p, a)
         <= IntakeTotal(p, s.intake) + LeftByHandler(p, a)
  {
    match a
    case Accept(_, _) => OneHandlerMore(s.intake.handlers, |s.jobs|, p.handler);
    case Publish(job) => PublishIntake(cfg, p, s, job);
    case _ =>
  }

  lemma HandlerFlow(cfg: Config, p: Prices, s: State, a: HandlerAction)
    requires HandlerEnabled(s, a) && !a.Begin? && |s.jobs| !in s.intake.handlers
    ensures Total(p, HandlerNext(cfg, s, a)) + TakenByHandler(p, a) <= Total(p, s) + LeftByHandler(p, a)
  {
    HandlerIntake(cfg, p, s, a);
    HandlerLeaves(cfg, s, a);
  }

  lemma VerifierFlow(cfg: Config, p: Prices, s: State, i: nat, a: VerifierAction)
    requires VerifierEnabled(cfg, s, i, a)
    ensures var s', w := VerifierNext(cfg, s, i, a), s.intake.verifiers[i];
            && i < |s'.intake.verifiers|
            && Flows(p, s, s', p.verifier(w) + if a.VReceive? then p.verification else 0,
                     p.verifier(s'.intake.verifiers[i]) + if a.VSend? then p.reports else 0)
  {
    var s' := VerifierNext(cfg, s, i, a);
    SumOfUpdate(s.intake.verifiers, i, s'.intake.verifiers[i], p.verifier);
    if a.VReceive? {
      TakeCosts(s.intake.verification, p.verification);
    } else if a.VSend? {
      OfferCosts(s.intake.reports, s.intake.verifiers[i].job, p.reports);
    }
  }

  lemma CommitFlow(cfg: Config, p: Prices, s: State, i: nat)
    requires ExtractorEnabled(cfg, s, i, ECommit)
    ensures var s', w := ExtractorNext(cfg, s, i, ECommit), s.intake.extractors[i];
            && i < |s'.intake.extractors| && |s.rows| <= |s'.rows|
            && Total(p, s') + p.extractor(w)
               <= Total(p, s) + p.extractor(s'.intake.extractors[i]) + Sum(s'.rows[|s.rows|..], p.row)
  {
    var s' := ExtractorNext(cfg, s, i, ECommit);
    SumOfUpdate(s.intake.extractors, i, s'.intake.extractors[i], p.extractor);
    assert s'.rows == s.rows + s'.rows[|s.rows|..];
    SumOfConcat(s.rows, s'.rows[|s.rows|..], p.row);
  }

  lemma ExtractorFlow(cfg: Config, p: Prices, s: State, i: nat, a: ExtractorAction)
    requires ExtractorEnabled(cfg, s, i, a) && !a.ECommit?
    ensures var s', w := ExtractorNext(cfg, s, i, a), s.intake.extractors[i];
            && i < |s'.intake.extractors|
            && Flows(p, s, s', p.extractor(w) + if a.EReceive? then p.reports else 0,
                     p.extractor(s'.intake.extractors[i]) + if a.ESend? then p.delivery else 0)
  {
    var s' := ExtractorNext(cfg, s, i, a);
    SumOfUpdate(s.intake.extractors, i, s'.intake.extractors[i], p.extractor);
    if a.EReceive? {
      TakeCosts(s.intake.reports, p.reports);
    } else if a.ESend? {
      OfferCosts(s.mail.deliveries, s.intake.extractors[i].todo[0], p.delivery);
    }
  }

  // ---------------------------------------------------------------- mail

  function Part(price: Delivery -> nat, d: Option<Delivery>): nat {
    if d.Some? then price(d.value) else 0
  }

  lemma RowFlow(price: Delivery -> nat, rows: seq<Delivery>, id: nat, row: Option<Delivery>)
    ensures Sum(WriteRow(rows, id, row), price) + Part(price, RowAt(rows, id))
         == Sum(rows, price) + Part(price, RowAt(WriteRow(rows, id, row), id))
  {
    if row.Some? && id < |rows| {
      SumOfUpdate(rows, id, row.value, price);
    }
  }

  /** A first-attempt worker moves on, and with it the row that it works on. */
  lemma NotifierFlow(cfg: Config, p: Prices, s: State, i: nat, a: NotifierAction)
    requires NotifierEnabled(cfg, s, i, a)
    ensures var s', w := NotifierNext(cfg, s, i, a), s.mail.notifiers[i];
            && i < |s'.mail.notifiers|
            && Flows(p, s, s',
                     p.notifier(w) + Part(p.row, RowAt(s.rows, NotifierRow(w)))
                       + if a.NReceive? then p.delivery else 0,
                     p.notifier(s'.mail.notifiers[i]) + Part(p.row, RowAt(s'.rows, NotifierRow(w)))
                       + if a.NHandOver? then p.retry else 0)
  {
    var s', w := NotifierNext(cfg, s, i, a), s.mail.notifiers[i];
    SumOfUpdate(s.mail.notifiers, i, s'.mail.notifiers[i], p.notifier);
    if NotifierIsLocal(a) {
      var l := NotifierLocal(s.now, RowAt(s.rows, NotifierRow(w)),
                             NotificationJobStatus(CountDeliveries(s.rows, NotifierJob(w))), w, a);
      RowFlow(p.row, s.rows, NotifierRow(w), l.row);
    } else if a.NReceive? {
      TakeCosts(s.mail.deliveries, p.delivery);
    } else if a.NHandOver? {
      OfferCosts(s.mail.retries, w.id, p.retry);
    }
  }

  lemma RetrierFlow(cfg: Config, p: Prices, s: State, i: nat, a: RetrierAction)
    requires RetrierEnabled(cfg, s, i, a)
    ensures var s', w := RetrierNext(cfg, s, i, a), s.mail.retriers[i];
            && i < |s'.mail.retriers|
            && Flows(p, s, s',
                     p.retrier(w) + Part(p.row, RowAt(s.rows, RetrierRow(w))) + if a.RReceive? then p.retry else 0,
                     p.retrier(s'.mail.retriers[i]) + Part(p.row, RowAt(s'.rows, RetrierRow(w)))
                       + if a.RSendDead? then p.dead else 0)
  {
    var s', w := RetrierNext(cfg, s, i, a), s.mail.retriers[i];
    SumOfUpdate(s.mail.retriers, i, s'.mail.retriers[i], p.retrier);
    if RetrierIsLocal(a) {
      var l := RetrierLocal(cfg, s.now, RowAt(s.rows, RetrierRow(w)),
                            NotificationJobStatus(CountDeliveries(s.rows, RetrierJob(w))), w, a);
      RowFlow(p.row, s.rows, RetrierRow(w), l.row);
    } else if a.RReceive? {
      TakeCosts(s.mail.retries, p.retry);
    } else if a.RSendDead? {
      OfferCosts(s.mail.dead, w.id, p.dead);
    }
  }

  // ---------------------------------------------------------------- recovery and shutdown

  /** What recovery puts into a channel. */
  function SentByRecovery(p: Prices, r: Recovery, a: RecoveryAction): nat {
    if a.PublishJob? then p.verification
    else if a.SendWake? && r.WakeLoop? && r.todo != [] then if r.todo[0].toRetry then p.retry else p.delivery
    else 0
  }

  /** Nothing has moved but recovery. */
  lemma SameTotal(p: Prices, s: State, s': State)
    requires SameMessages(s.intake, s.mail, s'.intake, s'.mail) && s'.rows == s.rows
    requires s'.intake.verifiers == s.intake.verifiers && s'.intake.extractors == s.intake.extractors
    requires s'.mail.notifiers == s.mail.notifiers && s'.mail.retriers == s.mail.retriers
    ensures Total(p, s') + p.recovery(s.recovery) == Total(p, s) + p.recovery(s'.recovery)
  {
  }

  lemma RecoveryMessageFlow(cfg: Config, p: Prices, s: State, a: RecoveryAction)
    requires RecoveryEnabled(cfg, s, a) && (a.PublishJob? || a.SendWake?)
    ensures var s' := RecoveryNext(cfg, s, a);
            Flows(p, s, s', p.recovery(s.recovery), p.recovery(s'.recovery) + SentByRecovery(p, s.recovery, a))
  {
    if a.PublishJob? {
      OfferCosts(s.intake.verification, s.recovery.job, p.verification);
    } else {
      OfferCosts(s.mail.retries, s.recovery.todo[0].id, p.retry);
      OfferCosts(s.mail.deliveries, s.recovery.todo[0].id, p.delivery);
    }
  }

  /** Released rows have to be worth what they were. */
  lemma RecoveryFlow(cfg: Config, p: Prices, s: State, a: RecoveryAction)
    requires RecoveryEnabled(cfg, s, a)
    requires a.ReleaseRows? ==>
               forall i :: 0 <= i < |s.rows| ==> p.row(ReleaseInterrupted(s.rows, s.now)[i]) == p.row(s.rows[i])
    ensures var s' := RecoveryNext(cfg, s, a);
            Flows(p, s, s', p.recovery(s.recovery), p.recovery(s'.recovery) + SentByRecovery(p, s.recovery, a))
  {
    if a.PublishJob? || a.SendWake? {
      RecoveryMessageFlow(cfg, p, s, a);
    } else if a.ReleaseRows? {
      SumOfEqual(ReleaseInterrupted(s.rows, s.now), s.rows, p.row);
    } else {
      SameTotal(p, s, RecoveryNext(cfg, s, a));
    }
  }

  lemma ShutdownFlow(p: Prices, s: State, a: ShutdownAction)
    requires ShutdownEnabled(s, a)
    ensures Total(p, ShutdownNext(s, a)) == Total(p, s)
  {
    ShutdownLeaves(s, a);
    SameTotal(p, s, ShutdownNext(s, a));
  }
}
