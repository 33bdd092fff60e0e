/** No delivery is ever lost: every delivery that is not finished has a carrier that is going to act on it, unless its
    own holder has given up in this process after a database error or an abandoned wait, or recovery has failed before
    waking it after something had interfered with it. A crash loses every message and every worker, and the recovery of
    the next process takes all deliveries over. */
module NoLostDelivery {
  import opened Wrappers
  import opened Sequences
  import opened Sums
  import opened Pipeline
  import opened Deliveries
  import opened Interference
  import opened Wakeups

  // ---------------------------------------------------------------- carriers

  /** A first-attempt worker that is going to move a row like `d` on. */
  predicate NotifierCarries(d: Delivery, id: nat, w: Notifier) {
    match d.status
    case Pending => w == NLoad(id) || w == NClaim(id)
    case Processing => d.attempts == 1 && (w == NSend(id) || w == NSent(id) || (w.NFailed? && w.id == id))
    case Retrying => w == NRetry(id)
    case _ => false
  }

  /** A retry worker that has not read the row yet, or whose reading or claim is up to date. */
  predicate RetrierCarries(d: Delivery, id: nat, w: Retrier) {
    match d.status
    case Processing =>
      w == RSend(id, d.attempts) || w == RSent(id, d.attempts) || (w.RFailed? && w.id == id && w.attempt == d.attempts)
    case Retrying =>
      || w == RLoad(id)
      || (w.RWait? && w.id == id && w.attempts == d.attempts)
      || w == RClaim(id, d.attempts)
      || w == RBury(id, d.attempts)
    case _ => false
  }

  ghost predicate QueueCarries(d: Delivery, id: nat, deliveries: seq<nat>, retries: seq<nat>) {
    (d.status.Pending? && id in deliveries) || (d.status.Retrying? && id in retries)
  }

  /** Before it releases interrupted rows recovery will see every row; until its snapshot, every waiting row. */
  ghost predicate RecoveryCarries(d: Delivery, id: nat, r: Recovery) {
    match r
    case JobScan | JobLoop(_) | JobPublish(_, _) | ResetRows => true
    case Snapshot => d.status.Pending? || d.status.Retrying?
    case WakeLoop(todo) => (d.status.Pending? && Wake(id, false) in todo)
        || (d.status.Retrying? && Wake(id, true) in todo)
    case Recovered => false
  }

  ghost predicate ExtractorsCarry(d: Delivery, id: nat, ws: seq<Extractor>) {
    d.status.Pending? && exists i :: 0 <= i < |ws| && ws[i].EPublish? && id in ws[i].todo
  }

  ghost predicate NotifiersCarry(d: Delivery, id: nat, ws: seq<Notifier>) {
    exists i :: 0 <= i < |ws| && NotifierCarries(d, id, ws[i])
  }

  ghost predicate RetriersCarry(d: Delivery, id: nat, ws: seq<Retrier>) {
    exists i :: 0 <= i < |ws| && RetrierCarries(d, id, ws[i])
  }

  /** Somebody other than recovery carries the delivery. */
  ghost predicate Held(d: Delivery, id: nat, m: Mail, ws: seq<Extractor>) {
    || QueueCarries(d, id, m.deliveries.queue, m.retries.queue)
    || NotifiersCarry(d, id, m.notifiers)
    || RetriersCarry(d, id, m.retriers)
    || ExtractorsCarry(d, id, ws)
  }

  ghost predicate Carried(s: State, id: nat)
    requires id < |s.rows|
  {
    var d := s.rows[id];
    || d.Terminal()
    || Held(d, id, s.mail, s.intake.extractors)
    || RecoveryCarries(d, id, s.recovery)
  }

  ghost predicate CarriedInv(s: State) {
    !s.panicked ==> forall id: nat :: id < |s.rows| && id !in s.dropped ==> Carried(s, id)
  }

  /** Empty queues, idle or exited workers, finished recovery. */
  ghost predicate Quiet(s: State) {
    && s.mail.deliveries.queue == [] && s.mail.retries.queue == []
    && (forall i :: 0 <= i < |s.mail.notifiers| ==> s.mail.notifiers[i].NIdle? || s.mail.notifiers[i].NExited?)
    && (forall i :: 0 <= i < |s.mail.retriers| ==> s.mail.retriers[i].RIdle? || s.mail.retriers[i].RExited?)
    && (forall i :: 0 <= i < |s.intake.extractors| ==> !s.intake.extractors[i].EPublish?)
    && s.recovery.Recovered?
  }

  lemma QuietMeansFinished(s: State)
    requires CarriedInv(s) && !s.panicked && Quiet(s)
    ensures forall id: nat :: id < |s.rows| && id !in s.dropped ==> s.rows[id].Terminal()
  {
    forall id: nat | id < |s.rows| && id !in s.dropped ensures s.rows[id].Terminal() {
      assert Carried(s, id);
    }
  }

  // ---------------------------------------------------------------- pools and queues

  lemma NotifiersStillCarry(d: Delivery, id: nat, ws: seq<Notifier>, i: nat, w: Notifier)
    requires i < |ws| && NotifiersCarry(d, id, ws)
    requires NotifierCarries(d, id, ws[i]) ==> NotifierCarries(d, id, w)
    ensures NotifiersCarry(d, id, ws[i := w])
  {
    var k :| 0 <= k < |ws| && NotifierCarries(d, id, ws[k]);
    assert NotifierCarries(d, id, ws[i := w][k]);
  }

  lemma RetriersStillCarry(d: Delivery, id: nat, ws: seq<Retrier>, i: nat, w: Retrier)
    requires i < |ws| && RetriersCarry(d, id, ws)
    requires RetrierCarries(d, id, ws[i]) ==> RetrierCarries(d, id, w)
    ensures RetriersCarry(d, id, ws[i := w])
  {
    var k :| 0 <= k < |ws| && RetrierCarries(d, id, ws[k]);
    assert RetrierCarries(d, id, ws[i := w][k]);
  }

  lemma ExtractorsStillCarry(d: Delivery, id: nat, ws: seq<Extractor>, i: nat, w: Extractor)
    requires i < |ws| && ExtractorsCarry(d, id, ws)
    requires ws[i].EPublish? && id in ws[i].todo ==> w.EPublish? && id in w.todo
    ensures ExtractorsCarry(d, id, ws[i := w])
  {
    var k :| 0 <= k < |ws| && ws[k].EPublish? && id in ws[k].todo;
    assert ws[i := w][k].EPublish? && id in ws[i := w][k].todo;
  }

  /** The one wake-up of an untouched delivery is a carrier. */
  lemma UntouchedAreHeld(cfg: Config, s: State, id: nat)
    requires id < |s.rows| == |s.history| && SingleAt(cfg, s, id) && !s.rows[id].Terminal()
    ensures Held(s.rows[id], id, s.mail, s.intake.extractors)
  {
    var m, ws := s.mail, s.intake.extractors;
    InQueue(m.deliveries.queue, id);
    InQueue(m.retries.queue, id);
    if Sum(m.notifiers, NotifierTokens(id)) > 0 {
      var i := SumIsPositive(m.notifiers, NotifierTokens(id));
      assert NotifierCarries(s.rows[id], id, m.notifiers[i]);
    } else if Sum(m.retriers, RetrierTokens(id)) > 0 {
      var i := SumIsPositive(m.retriers, RetrierTokens(id));
      assert RetrierCarries(s.rows[id], id, m.retriers[i]);
    } else if Sum(ws, ExtractorTokens(id)) > 0 {
      var i := SumIsPositive(ws, ExtractorTokens(id));
      InQueue(ws[i].todo, id);
    }
  }

  // ---------------------------------------------------------------- one statement of a worker

  /** Every action of a first-attempt worker, seen from one delivery. */
  lemma NotifierHandsOn(cfg: Config, s: State, i: nat, a: NotifierAction, id: nat)
    requires NotifierEnabled(cfg, s, i, a) && id < |s.rows|
    requires a.NDrop? ==> id !in NotifierHeld(s.mail.notifiers[i])
    requires NotifierOk(s.rows, |s.jobs|, s.mail.notifiers[i])
    ensures var s' := NotifierNext(cfg, s, i, a);
            var d, d', w, w' := s.rows[id], s'.rows[id], s.mail.notifiers[i], s'.mail.notifiers[i];
            && |s'.rows| == |s.rows|
            && (d' != d ==> d'.Terminal() || NotifierCarries(d', id, w'))
            && (d' == d && NotifierCarries(d, id, w) && !s'.panicked ==>
                  NotifierCarries(d, id, w') || (a.NHandOver? && d.status.Retrying? && id in s'.mail.retries.queue))
            && (a.NReceive? ==> w' == NLoad(s.mail.deliveries.queue[0]))
            && s'.mail.deliveries.queue ==
                (if a.NReceive? then s.mail.deliveries.queue[1..] else s.mail.deliveries.queue)
            && (forall k :: k in s.mail.retries.queue ==> k in s'.mail.retries.queue)
  {
  }

  ghost predicate HandedOn(rows: seq<Delivery>, rows': seq<Delivery>, w: Retrier, w': Retrier, id: nat)
    requires id < |rows|
  {
    && |rows'| == |rows|
    && (rows'[id] != rows[id] ==> rows'[id].Terminal() || RetrierCarries(rows'[id], id, w'))
    && (rows'[id] == rows[id] && RetrierCarries(rows[id], id, w) ==> RetrierCarries(rows[id], id, w'))
  }

  lemma RetrierStatementHandsOn(cfg: Config, now: int, rows: seq<Delivery>, jobs: nat, tally: Option<JobStatus>,
                                w: Retrier, a: RetrierAction, id: nat)
    requires RetrierReady(now, w, a) && RetrierIsLocal(a) && RetrierOk(cfg, rows, jobs, w) && id < |rows|
    ensures var l := RetrierLocal(cfg, now, RowAt(rows, RetrierRow(w)), tally, w, a);
            HandedOn(rows, WriteRow(rows, RetrierRow(w), l.row), w, l.w, id)
  {
  }

  lemma RetrierHandsOn(cfg: Config, s: State, i: nat, a: RetrierAction, id: nat)
    requires RetrierEnabled(cfg, s, i, a) && id < |s.rows|
    requires a.RDrop? ==> id !in RetrierHeld(s.mail.retriers[i])
    requires RetrierOk(cfg, s.rows, |s.jobs|, s.mail.retriers[i])
    ensures var s' := RetrierNext(cfg, s, i, a);
            && HandedOn(s.rows, s'.rows, s.mail.retriers[i], s'.mail.retriers[i], id)
            && (a.RReceive? ==> s'.mail.retriers[i] == RLoad(s.mail.retries.queue[0]))
            && s'.mail.retries.queue == (if a.RReceive? then s.mail.retries.queue[1..] else s.mail.retries.queue)
            && s'.mail.deliveries == s.mail.deliveries
  {
    if RetrierIsLocal(a) {
      var tally, l := RetrierWrites(cfg, s, i, a);
      RetrierStatementHandsOn(cfg, s.now, s.rows, |s.jobs|, tally, s.mail.retriers[i], a, id);
    }
  }

  // ---------------------------------------------------------------- one action

  lemma NotifierKeepsCarried(cfg: Config, s: State, i: nat, a: NotifierAction, id: nat)
    requires NotifierEnabled(cfg, s, i, a) && id < |s.rows| && Carried(s, id)
    requires a.NDrop? ==> id !in NotifierHeld(s.mail.notifiers[i])
    requires NotifierOk(s.rows, |s.jobs|, s.mail.notifiers[i])
    ensures var s' := NotifierNext(cfg, s, i, a); |s'.rows| == |s.rows| && (!s'.panicked ==> Carried(s', id))
  {
    var s' := NotifierNext(cfg, s, i, a);
    NotifierFrame(cfg, s, i, a);
    NotifierHandsOn(cfg, s, i, a, id);
    CarriedAfterNotifier(s, s', i, a, id);
  }

  lemma CarriedAfterNotifier(s: State, s': State, i: nat, a: NotifierAction, id: nat)
    requires id < |s.rows| == |s'.rows| && Carried(s, id) && i < |s.mail.notifiers| == |s'.mail.notifiers|
    requires s'.mail.notifiers == s.mail.notifiers[i := s'.mail.notifiers[i]]
    requires s'.mail.retriers == s.mail.retriers && s'.intake == s.intake && s'.recovery == s.recovery
    requires s'.rows[id] != s.rows[id] ==>
        s'.rows[id].Terminal() || NotifierCarries(s'.rows[id], id, s'.mail.notifiers[i])
    requires s'.rows[id] == s.rows[id] && NotifierCarries(s.rows[id], id, s.mail.notifiers[i]) && !s'.panicked ==>
               || NotifierCarries(s.rows[id], id, s'.mail.notifiers[i])
               || (a.NHandOver? && s.rows[id].status.Retrying? && id in s'.mail.retries.queue)
    requires a.NReceive? ==> s.mail.deliveries.queue != [] && s'.mail.notifiers[i] == NLoad(s.mail.deliveries.queue[0])
    requires s'.mail.deliveries.queue == if a.NReceive? then s.mail.deliveries.queue[1..] else s.mail.deliveries.queue
    requires forall k :: k in s.mail.retries.queue ==> k in s'.mail.retries.queue
    ensures !s'.panicked ==> Carried(s', id)
  {
    var d, w' := s'.rows[id], s'.mail.notifiers[i];
    if s'.panicked || d.Terminal() {
    } else if NotifierCarries(d, id, w') {
      assert s'.mail.notifiers[i] == w';
    } else if NotifiersCarry(d, id, s.mail.notifiers)
        && !QueueCarries(d, id, s'.mail.deliveries.queue, s'.mail.retries.queue) {
      NotifiersStillCarry(d, id, s.mail.notifiers, i, w');
    }
  }

  lemma RetrierKeepsCarried(cfg: Config, s: State, i: nat, a: RetrierAction, id: nat)
    requires RetrierEnabled(cfg, s, i, a) && id < |s.rows| && Carried(s, id)
    requires a.RDrop? ==> id !in RetrierHeld(s.mail.retriers[i])
    requires RetrierOk(cfg, s.rows, |s.jobs|, s.mail.retriers[i])
    ensures var s' := RetrierNext(cfg, s, i, a); |s'.rows| == |s.rows| && Carried(s', id)
  {
    var s' := RetrierNext(cfg, s, i, a);
    RetrierFrame(cfg, s, i, a);
    RetrierHandsOn(cfg, s, i, a, id);
    CarriedAfterRetrier(s, s', i, a, id);
  }

  lemma CarriedAfterRetrier(s: State, s': State, i: nat, a: RetrierAction, id: nat)
    requires id < |s.rows| == |s'.rows| && Carried(s, id) && i < |s.mail.retriers| == |s'.mail.retriers|
    requires s'.mail.retriers == s.mail.retriers[i := s'.mail.retriers[i]]
    requires s'.mail.notifiers == s.mail.notifiers && s'.intake == s.intake && s'.recovery == s.recovery
    requires s'.rows[id] != s.rows[id] ==>
        s'.rows[id].Terminal() || RetrierCarries(s'.rows[id], id, s'.mail.retriers[i])
    requires s'.rows[id] == s.rows[id] && RetrierCarries(s.rows[id], id, s.mail.retriers[i]) ==>
               RetrierCarries(s.rows[id], id, s'.mail.retriers[i])
    requires a.RReceive? ==> s.mail.retries.queue != [] && s'.mail.retriers[i] == RLoad(s.mail.retries.queue[0])
    requires s'.mail.retries.queue == if a.RReceive? then s.mail.retries.queue[1..] else s.mail.retries.queue
    requires s'.mail.deliveries == s.mail.deliveries
    ensures Carried(s', id)
  {
    var d, w' := s'.rows[id], s'.mail.retriers[i];
    if d.Terminal() {
    } else if RetrierCarries(d, id, w') {
      assert s'.mail.retriers[i] == w';
    } else if RetriersCarry(d, id, s.mail.retriers) {
      RetriersStillCarry(d, id, s.mail.retriers, i, w');
    }
  }

  lemma ExtractorHandsOn(cfg: Config, s: State, i: nat, a: ExtractorAction, id: nat)
    requires ExtractorEnabled(cfg, s, i, a) && |s.history| == |s.rows|
    requires ExtractorOk(|s.rows|, |s.jobs|, s.intake.extractors[i])
    requires a.EDrop? ==> id !in Unpublished(s.intake.extractors[i])
    requires id < |ExtractorNext(cfg, s, i, a).rows|
    ensures var s' := ExtractorNext(cfg, s, i, a);
            var w, w' := s.intake.extractors[i], s'.intake.extractors[i];
            && (id >= |s.rows| ==> w'.EPublish? && id in w'.todo)
            && (w.EPublish? && id in w.todo && !s'.panicked ==>
                (w'.EPublish? && id in w'.todo) || id in s'.mail.deliveries.queue)
            && (forall k :: k in s.mail.deliveries.queue ==> k in s'.mail.deliveries.queue)
  {
    if a.ECommit? && id >= |s.rows| {
      var batch := Batch(cfg, s.users, s.jobs, s.intake.extractors[i].job);
      assert Ids(|s.rows|, |batch|)[id - |s.rows|] == id;
    }
  }

  lemma ExtractorKeepsCarried(cfg: Config, s: State, i: nat, a: ExtractorAction, id: nat)
    requires ExtractorEnabled(cfg, s, i, a) && |s.history| == |s.rows|
    requires ExtractorOk(|s.rows|, |s.jobs|, s.intake.extractors[i])
    requires a.EDrop? ==> id !in Unpublished(s.intake.extractors[i])
    requires id < |s.rows| ==> Carried(s, id)
    requires id < |ExtractorNext(cfg, s, i, a).rows|
    ensures var s' := ExtractorNext(cfg, s, i, a); !s'.panicked ==> Carried(s', id)
  {
    var s' := ExtractorNext(cfg, s, i, a);
    ExtractorFrame(cfg, s, i, a);
    ExtractorHandsOn(cfg, s, i, a, id);
    CarriedAfterExtractor(s, s', i, id);
  }

  lemma CarriedAfterExtractor(s: State, s': State, i: nat, id: nat)
    requires id < |s'.rows| && i < |s.intake.extractors| == |s'.intake.extractors|
    requires FreshRows(s.rows, s'.rows, s.history, s'.history)
    requires id < |s.rows| ==> Carried(s, id)
    requires s'.intake.extractors == s.intake.extractors[i := s'.intake.extractors[i]]
    requires s'.mail.notifiers == s.mail.notifiers && s'.mail.retriers == s.mail.retriers
    requires s'.mail.retries == s.mail.retries && s'.recovery == s.recovery
    requires id >= |s.rows| ==> s'.intake.extractors[i].EPublish? && id in s'.intake.extractors[i].todo
    requires s.intake.extractors[i].EPublish? && id in s.intake.extractors[i].todo && !s'.panicked ==>
               || (s'.intake.extractors[i].EPublish? && id in s'.intake.extractors[i].todo)
               || id in s'.mail.deliveries.queue
    requires forall k :: k in s.mail.deliveries.queue ==> k in s'.mail.deliveries.queue
    ensures !s'.panicked ==> Carried(s', id)
  {
    var d, w' := s'.rows[id], s'.intake.extractors[i];
    if s'.panicked || d.Terminal() || (d.status.Pending? && id in s'.mail.deliveries.queue) {
    } else if d.status.Pending? && w'.EPublish? && id in w'.todo {
      assert s'.intake.extractors[i] == w';
    } else if ExtractorsCarry(d, id, s.intake.extractors) {
      ExtractorsStillCarry(d, id, s.intake.extractors, i, w');
    }
  }

  lemma {:induction false} RecoverableIsComplete(rows: seq<Delivery>, id: nat)
    requires id < |rows| && (rows[id].status.Pending? || rows[id].status.Retrying?)
    ensures Wake(id, rows[id].status.Retrying?) in Recoverable(rows)
    decreases |rows|
  {
    if id < |rows| - 1 {
      RecoverableIsComplete(Init(rows), id);
    }
  }

  lemma RecoveryHandsOn(cfg: Config, s: State, a: RecoveryAction, id: nat)
    requires RecoveryEnabled(cfg, s, a) && id < |s.rows|
    requires a.RecoveryFails? ==> id !in Unwoken(s.recovery, s.rows, s.touched)
    requires id !in s.touched && !s.rows[id].Terminal() ==> Held(s.rows[id], id, s.mail, s.intake.extractors)
    ensures var s' := RecoveryNext(cfg, s, a); var d, d' := s.rows[id], s'.rows[id];
            && |s'.rows| == |s.rows|
            && (d' != d ==> RecoveryCarries(d', id, s'.recovery))
            && (d' == d && RecoveryCarries(d, id, s.recovery) && !s'.panicked ==>
                  || d.Terminal()
                  || RecoveryCarries(d, id, s'.recovery) || Held(d, id, s.mail, s.intake.extractors)
                      || QueueCarries(d, id, s'.mail.deliveries.queue, s'.mail.retries.queue))
            && (forall k :: k in s.mail.deliveries.queue ==> k in s'.mail.deliveries.queue)
            && (forall k :: k in s.mail.retries.queue ==> k in s'.mail.retries.queue)
  {
    if a.TakeSnapshot? && (s.rows[id].status.Pending? || s.rows[id].status.Retrying?) {
      RecoverableIsComplete(s.rows, id);
    }
  }

  lemma RecoveryKeepsCarried(cfg: Config, s: State, a: RecoveryAction, id: nat)
    requires RecoveryEnabled(cfg, s, a) && id < |s.rows| && Carried(s, id)
    requires a.RecoveryFails? ==> id !in Unwoken(s.recovery, s.rows, s.touched)
    requires id !in s.touched && !s.rows[id].Terminal() ==> Held(s.rows[id], id, s.mail, s.intake.extractors)
    ensures var s' := RecoveryNext(cfg, s, a); |s'.rows| == |s.rows| && (!s'.panicked ==> Carried(s', id))
  {
    RecoveryFrame(cfg, s, a);
    RecoveryHandsOn(cfg, s, a, id);
    CarriedAfterRecovery(s, RecoveryNext(cfg, s, a), id);
  }

  lemma CarriedAfterRecovery(s: State, s': State, id: nat)
    requires id < |s.rows| == |s'.rows| && Carried(s, id)
    requires s'.mail.notifiers == s.mail.notifiers && s'.mail.retriers == s.mail.retriers
    requires s'.intake.extractors == s.intake.extractors
    requires s'.rows[id] != s.rows[id] ==> RecoveryCarries(s'.rows[id], id, s'.recovery)
    requires s'.rows[id] == s.rows[id] && RecoveryCarries(s.rows[id], id, s.recovery) && !s'.panicked ==>
               || s.rows[id].Terminal() || RecoveryCarries(s.rows[id], id, s'.recovery)
               || Held(s.rows[id], id, s.mail, s.intake.extractors)
               || QueueCarries(s.rows[id], id, s'.mail.deliveries.queue, s'.mail.retries.queue)
    requires forall k :: k in s.mail.deliveries.queue ==> k in s'.mail.deliveries.queue
    requires forall k :: k in s.mail.retries.queue ==> k in s'.mail.retries.queue
    ensures !s'.panicked ==> Carried(s', id)
  {
  }

  lemma NextKeepsCarriedFor(cfg: Config, s: State, a: Action, id: nat)
    requires BaseInv(cfg, s) && Enabled(cfg, s, a) && !a.Crash? && id !in Drops(cfg, s, a)
    requires id < |s.rows| ==> Carried(s, id)
    requires id < |s.rows| && id !in s.touched && !s.rows[id].Terminal() ==>
               Held(s.rows[id], id, s.mail, s.intake.extractors)
    requires id < |Next(cfg, s, a).rows|
    ensures !Next(cfg, s, a).panicked ==> Carried(Next(cfg, s, a), id)
  {
    match a
    case Notify(i, n) =>
      assert NotifierOk(s.rows, |s.jobs|, s.mail.notifiers[i]);
      NotifierFrame(cfg, s, i, n);
      NotifierKeepsCarried(cfg, s, i, n, id);
    case Retry(i, r) =>
      assert RetrierOk(cfg, s.rows, |s.jobs|, s.mail.retriers[i]);
      RetrierFrame(cfg, s, i, r);
      RetrierKeepsCarried(cfg, s, i, r, id);
    case ExtractUsers(i, e) =>
      assert ExtractorOk(|s.rows|, |s.jobs|, s.intake.extractors[i]);
      ExtractorKeepsCarried(cfg, s, i, e, id);
    case Recover(c) =>
      RecoveryFrame(cfg, s, c);
      RecoveryKeepsCarried(cfg, s, c, id);
    case _ => UpstreamFrame(cfg, s, a);
  }

  lemma NextKeepsCarried(cfg: Config, s: State, a: Action)
    requires BaseInv(cfg, s) && CarriedInv(s) && WakeInv(cfg, s) && Enabled(cfg, s, a)
    ensures CarriedInv(Next(cfg, s, a))
  {
    var s' := Next(cfg, s, a);
    FlagsOfStep(cfg, s, a);
    forall id: nat | id < |s'.rows| && id !in s'.dropped && !s'.panicked ensures Carried(s', id) {
      if !a.Crash? {
        if id < |s.rows| {
          assert Carried(s, id);
          if id !in s.touched && !s.rows[id].Terminal() {
            UntouchedAreHeld(cfg, s, id);
          }
        }
        NextKeepsCarriedFor(cfg, s, a, id);
      }
    }
  }
}
