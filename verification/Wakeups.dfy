/** Deliveries that no crash, fault or recovery has touched: there is exactly one wake-up for each of them, their
    past is one rejected attempt after another, each waiting out its backoff, and the end of that past is what
    their status says. */
module Wakeups {
  import opened Wrappers
  import opened Sequences
  import opened Sums
  import opened Pipeline
  import opened Frames
  import opened Deliveries
  import opened Interference
  import opened DeliverySets

  // ---------------------------------------------------------------- counting wake-ups

  function Is(id: nat): nat -> nat {
    (x: nat) => if x == id then 1 else 0
  }

  predicate NotifierHolds(w: Notifier, id: nat) {
    match w
    case NLoad(x) => x == id
    case NClaim(x) => x == id
    case NSend(x) => x == id
    case NFailed(x, _) => x == id
    case NSent(x) => x == id
    case NRetry(x) => x == id
    case _ => false
  }

  predicate RetrierHolds(w: Retrier, id: nat) {
    match w
    case RLoad(x) => x == id
    case RWait(x, _, _) => x == id
    case RClaim(x, _) => x == id
    case RSend(x, _) => x == id
    case RFailed(x, _, _) => x == id
    case RSent(x, _) => x == id
    case RBury(x, _) => x == id
    case _ => false
  }

  function NotifierTokens(id: nat): Notifier -> nat {
    (w: Notifier) => if NotifierHolds(w, id) then 1 else 0
  }

  function RetrierTokens(id: nat): Retrier -> nat {
    (w: Retrier) => if RetrierHolds(w, id) then 1 else 0
  }

  function ExtractorTokens(id: nat): Extractor -> nat {
    (w: Extractor) => if w.EPublish? then Sum(w.todo, Is(id)) else 0
  }

  /** All wake-ups for one delivery: queued messages, messages about to be published, and workers holding it. */
  function Tokens(m: Mail, ws: seq<Extractor>, id: nat): nat {
    Sum(m.deliveries.queue, Is(id)) + Sum(m.retries.queue, Is(id))
    + Sum(m.notifiers, NotifierTokens(id)) + Sum(m.retriers, RetrierTokens(id)) + Sum(ws, ExtractorTokens(id))
  }

  // ---------------------------------------------------------------- the past of one delivery

  /** Attempt k + 1: claimed no earlier than its backoff allows, then rejected. */
  ghost predicate Rejected(h: seq<Event>, k: nat)
    requires 2 * k + 1 < |h|
  {
    && IsClaimed(h, k)
    && h[2 * k + 1].Sent? && h[2 * k + 1].attempt == k + 1 && !h[2 * k + 1].accepted
    && h[2 * k].at <= h[2 * k + 1].at
  }

  ghost predicate IsClaimed(h: seq<Event>, k: nat)
    requires 2 * k < |h|
  {
    && h[2 * k].Claimed? && h[2 * k].attempt == k + 1
    && (k > 0 ==> h[2 * k].at >= h[2 * k - 1].at + RetryDelay(k))
  }

  /** The past begins with `n` rejected attempts. */
  ghost predicate Rejections(h: seq<Event>, n: nat) {
    |h| >= 2 * n && forall k: nat :: k < n ==> Rejected(h, k)
  }

  ghost predicate PastOk(cfg: Config, d: Delivery, h: seq<Event>) {
    var a := d.attempts;
    match d.status
    case Pending => h == []
    case Retrying =>
      && a > 0 && |h| == 2 * a && Rejections(h, a)
      && d.nextAttemptAt == Some(h[2 * a - 1].at + RetryDelay(a))
    case Processing =>
      && a > 0 && (|h| == 2 * a - 1 || |h| == 2 * a) && Rejections(h, a - 1) && IsClaimed(h, a - 1)
      && (|h| == 2 * a ==> h[2 * a - 1].Sent? && h[2 * a - 1].attempt == a && h[2 * a - 2].at <= h[2 * a - 1].at)
    case Success =>
      && a > 0 && |h| == 2 * a && Rejections(h, a - 1) && IsClaimed(h, a - 1)
      && h[2 * a - 1].Sent? && h[2 * a - 1].attempt == a && h[2 * a - 1].accepted
    case Failed =>
      && a == cfg.maxRetries + 1 && |h| == 2 * a + 1 && Rejections(h, a) && h[2 * a].Buried?
      && h[2 * a - 1].at <= h[2 * a].at
  }

  ghost predicate InThePast(h: seq<Event>, now: int) {
    h != [] ==> Last(h).at <= now
  }

  /** What a worker holding the delivery knows about it. */
  ghost predicate NotifierFits(d: Delivery, h: seq<Event>, w: Notifier) {
    match w
    case NLoad(_) | NClaim(_) => d.status.Pending?
    case NSend(_) => d.status.Processing? && d.attempts == 1 && |h| == 1
    case NFailed(_, next) =>
      d.status.Processing? && d.attempts == 1 && |h| == 2 && h[1].Sent? && !h[1].accepted
          && next == h[1].at + RetryDelay(1)
    case NSent(_) => d.status.Processing? && d.attempts == 1 && |h| == 2 && h[1].Sent? && h[1].accepted
    case NRetry(_) => d.status.Retrying?
    case _ => true
  }

  ghost predicate RetrierFits(cfg: Config, now: int, d: Delivery, h: seq<Event>, w: Retrier) {
    match w
    case RLoad(_) => d.status.Retrying?
    case RWait(_, a, due) => d.status.Retrying? && d.attempts == a && due == d.nextAttemptAt
    case RClaim(_, a) => d.status.Retrying? && d.attempts == a && d.nextAttemptAt.Some? && d.nextAttemptAt.value <= now
    case RSend(_, k) => d.status.Processing? && d.attempts == k && |h| == 2 * k - 1
    case RFailed(_, k, next) =>
      && d.status.Processing? && d.attempts == k && k > 0 && |h| == 2 * k && h[2 * k - 1].Sent?
      && !h[2 * k - 1].accepted
      && next == h[2 * k - 1].at + RetryDelay(k)
    case RSent(_, k) =>
      d.status.Processing? && d.attempts == k && k > 0 && |h| == 2 * k && h[2 * k - 1].Sent? && h[2 * k - 1].accepted
    case RBury(_, a) => d.status.Retrying? && d.attempts == a == cfg.maxRetries + 1
    case _ => true
  }

  ghost predicate HoldersFit(cfg: Config, now: int, d: Delivery, h: seq<Event>, id: nat, m: Mail, ws: seq<Extractor>) {
    && (forall i :: 0 <= i < |m.notifiers| && NotifierHolds(m.notifiers[i], id) ==> NotifierFits(d, h, m.notifiers[i]))
    && (forall i :: 0 <= i < |m.retriers| && RetrierHolds(m.retriers[i], id) ==>
        RetrierFits(cfg, now, d, h, m.retriers[i]))
    && (forall i :: 0 <= i < |ws| && ws[i].EPublish? && id in ws[i].todo ==> d.status.Pending?)
    && (id in m.deliveries.queue ==> d.status.Pending?)
    && (id in m.retries.queue ==> d.status.Retrying?)
  }

  ghost predicate Single(cfg: Config, now: int, d: Delivery, h: seq<Event>, id: nat, m: Mail, ws: seq<Extractor>) {
    && Tokens(m, ws, id) == (if d.Terminal() then 0 else 1)
    && PastOk(cfg, d, h)
    && InThePast(h, now)
    && HoldersFit(cfg, now, d, h, id, m, ws)
  }

  ghost predicate SingleAt(cfg: Config, s: State, id: nat)
    requires id < |s.rows| && id < |s.history|
  {
    Single(cfg, s.now, s.rows[id], s.history[id], id, s.mail, s.intake.extractors)
  }

  ghost predicate TodoTouched(r: Recovery, touched: set<nat>) {
    r.WakeLoop? ==> forall k :: 0 <= k < |r.todo| ==> r.todo[k].id in touched
  }

  ghost predicate WakeInv(cfg: Config, s: State) {
    && |s.history| == |s.rows|
    && TodoTouched(s.recovery, s.touched)
    && (!s.panicked ==> forall id: nat :: id < |s.rows| && id !in s.touched ==> SingleAt(cfg, s, id))
  }

  // ---------------------------------------------------------------- one statement

  lemma RejectionsOfLonger(h: seq<Event>, e: Event, n: nat)
    requires Rejections(h, n)
    ensures Rejections(h + [e], n)
  {
    forall k: nat | k < n ensures Rejected(h + [e], k) {
      assert Rejected(h, k);
    }
  }

  lemma OneMoreRejection(h: seq<Event>, n: nat)
    requires Rejections(h, n) && |h| >= 2 * (n + 1) && Rejected(h, n)
    ensures Rejections(h, n + 1)
  {
  }

  /** The holder of an untouched delivery always finds the row as it expects it, and leaves it so for the next. */
  lemma NotifierLocalFits(cfg: Config, now: int, d: Delivery, h: seq<Event>, tally: Option<JobStatus>, w: Notifier,
                          a: NotifierAction, id: nat)
    requires NotifierReady(w, a) && NotifierIsLocal(a) && NotifierHolds(w, id)
    requires NotifierFits(d, h, w) && PastOk(cfg, d, h) && InThePast(h, now) && RowOk(cfg, d)
    ensures var l := NotifierLocal(now, Some(d), tally, w, a);
            var d' := if l.row.Some? then l.row.value else d;
            var h' := if l.event.Some? then h + [l.event.value] else h;
            && PastOk(cfg, d', h') && InThePast(h', now) && NotifierFits(d', h', l.w)
            && (if d'.Terminal() then !NotifierHolds(l.w, id) else NotifierHolds(l.w, id))
  {
  }

  lemma RetrierLocalFits(cfg: Config, now: int, d: Delivery, h: seq<Event>, tally: Option<JobStatus>, w: Retrier,
                         a: RetrierAction, id: nat)
    requires RetrierReady(now, w, a) && RetrierIsLocal(a) && RetrierHolds(w, id)
    requires RetrierFits(cfg, now, d, h, w) && PastOk(cfg, d, h) && InThePast(h, now) && RowOk(cfg, d)
    ensures var l := RetrierLocal(cfg, now, Some(d), tally, w, a);
            var d' := if l.row.Some? then l.row.value else d;
            var h' := if l.event.Some? then h + [l.event.value] else h;
            && PastOk(cfg, d', h') && InThePast(h', now) && RetrierFits(cfg, now, d', h', l.w)
            && (if d'.Terminal() then !RetrierHolds(l.w, id) else RetrierHolds(l.w, id))
  {
    var l := RetrierLocal(cfg, now, Some(d), tally, w, a);
    match a
    case RTryClaim => RejectionsOfLonger(h, l.event.value, d.attempts);
    case RDeliver(_) => RejectionsOfLonger(h, l.event.value, d.attempts - 1);
    case RTryBury => RejectionsOfLonger(h, l.event.value, d.attempts);
    case RRecord =>
      if w.RFailed? {
        OneMoreRejection(h, d.attempts - 1);
      }
    case _ =>
  }

  // ---------------------------------------------------------------- the only holder

  lemma {:induction false} InQueue(q: seq<nat>, id: nat)
    ensures Sum(q, Is(id)) > 0 <==> id in q
  {
    if id in q {
      var k :| 0 <= k < |q| && q[k] == id;
      SumIsAtLeast(q, k, Is(id));
    } else {
      SumIsZero(q, Is(id));
    }
  }

  lemma TodoToken(ws: seq<Extractor>, i: nat, id: nat)
    requires i < |ws| && ws[i].EPublish? && id in ws[i].todo
    ensures Sum(ws, ExtractorTokens(id)) >= 1
  {
    InQueue(ws[i].todo, id);
    SumIsAtLeast(ws, i, ExtractorTokens(id));
  }

  lemma NotifierIsOnlyHolder(m: Mail, ws: seq<Extractor>, i: nat, id: nat)
    requires i < |m.notifiers| && NotifierHolds(m.notifiers[i], id) && Tokens(m, ws, id) <= 1
    ensures Tokens(m, ws, id) == 1 && id !in m.deliveries.queue && id !in m.retries.queue
    ensures forall k :: 0 <= k < |m.notifiers| && k != i ==> !NotifierHolds(m.notifiers[k], id)
    ensures forall k :: 0 <= k < |m.retriers| ==> !RetrierHolds(m.retriers[k], id)
    ensures forall k :: 0 <= k < |ws| && ws[k].EPublish? ==> id !in ws[k].todo
  {
    SumIsAtLeast(m.notifiers, i, NotifierTokens(id));
    InQueue(m.deliveries.queue, id);
    InQueue(m.retries.queue, id);
    forall k | 0 <= k < |m.notifiers| && k != i ensures !NotifierHolds(m.notifiers[k], id) {
      SumIsAtLeastTwo(m.notifiers, if k < i then k else i, if k < i then i else k, NotifierTokens(id));
    }
    forall k | 0 <= k < |m.retriers| ensures !RetrierHolds(m.retriers[k], id) {
      SumIsAtLeast(m.retriers, k, RetrierTokens(id));
    }
    forall k | 0 <= k < |ws| && ws[k].EPublish? ensures id !in ws[k].todo {
      if id in ws[k].todo {
        TodoToken(ws, k, id);
      }
    }
  }

  lemma RetrierIsOnlyHolder(m: Mail, ws: seq<Extractor>, i: nat, id: nat)
    requires i < |m.retriers| && RetrierHolds(m.retriers[i], id) && Tokens(m, ws, id) <= 1
    ensures Tokens(m, ws, id) == 1 && id !in m.deliveries.queue && id !in m.retries.queue
    ensures forall k :: 0 <= k < |m.notifiers| ==> !NotifierHolds(m.notifiers[k], id)
    ensures forall k :: 0 <= k < |m.retriers| && k != i ==> !RetrierHolds(m.retriers[k], id)
    ensures forall k :: 0 <= k < |ws| && ws[k].EPublish? ==> id !in ws[k].todo
  {
    SumIsAtLeast(m.retriers, i, RetrierTokens(id));
    InQueue(m.deliveries.queue, id);
    InQueue(m.retries.queue, id);
    forall k | 0 <= k < |m.notifiers| ensures !NotifierHolds(m.notifiers[k], id) {
      SumIsAtLeast(m.notifiers, k, NotifierTokens(id));
    }
    forall k | 0 <= k < |m.retriers| && k != i ensures !RetrierHolds(m.retriers[k], id) {
      SumIsAtLeastTwo(m.retriers, if k < i then k else i, if k < i then i else k, RetrierTokens(id));
    }
    forall k | 0 <= k < |ws| && ws[k].EPublish? ensures id !in ws[k].todo {
      if id in ws[k].todo {
        TodoToken(ws, k, id);
      }
    }
  }

  // ---------------------------------------------------------------- one action of a mail worker

  /** A statement on another delivery leaves this one alone. */
  lemma NotifierLocalElsewhere(now: int, d: Option<Delivery>, tally: Option<JobStatus>, w: Notifier,
                               a: NotifierAction, id: nat)
    requires NotifierReady(w, a) && NotifierIsLocal(a) && !NotifierHolds(w, id)
    ensures var l := NotifierLocal(now, d, tally, w, a);
            !NotifierHolds(l.w, id) && (NotifierRow(w) == id ==> l.row.None? && l.event.None?)
  {
  }

  lemma RetrierLocalElsewhere(cfg: Config, now: int, d: Option<Delivery>, tally: Option<JobStatus>, w: Retrier,
                              a: RetrierAction, id: nat)
    requires RetrierReady(now, w, a) && RetrierIsLocal(a) && !RetrierHolds(w, id)
    ensures var l := RetrierLocal(cfg, now, d, tally, w, a);
            !RetrierHolds(l.w, id) && (RetrierRow(w) == id ==> l.row.None? && l.event.None?)
  {
  }

  lemma NotifierStatementKeepsSingle(cfg: Config, now: int, rows: seq<Delivery>, history: seq<seq<Event>>, id: nat,
                                     m: Mail, ws: seq<Extractor>, i: nat, tally: Option<JobStatus>, a: NotifierAction,
                                     l: Local<Notifier>)
    requires id < |rows| == |history| && RowOk(cfg, rows[id]) && Single(cfg, now, rows[id], history[id], id, m, ws)
    requires i < |m.notifiers| && NotifierReady(m.notifiers[i], a) && NotifierIsLocal(a)
    requires l == NotifierLocal(now, RowAt(rows, NotifierRow(m.notifiers[i])), tally, m.notifiers[i], a)
    ensures var x := NotifierRow(m.notifiers[i]);
            Single(cfg, now, WriteRow(rows, x, l.row)[id], WriteEvent(history, x, l.event)[id], id, SetNotifier(m, i,
                l.w), ws)
  {
    var w := m.notifiers[i];
    SumOfUpdate(m.notifiers, i, l.w, NotifierTokens(id));
    if NotifierHolds(w, id) {
      NotifierIsOnlyHolder(m, ws, i, id);
      NotifierLocalFits(cfg, now, rows[id], history[id], tally, w, a, id);
    } else {
      NotifierLocalElsewhere(now, RowAt(rows, NotifierRow(w)), tally, w, a, id);
    }
  }

  /** The worker holds the delivery and executes a statement on it. */
  lemma RetrierWorks(cfg: Config, now: int, d: Delivery, h: seq<Event>, id: nat, m: Mail, ws: seq<Extractor>, i: nat,
                     tally: Option<JobStatus>, a: RetrierAction)
    requires Single(cfg, now, d, h, id, m, ws) && i < |m.retriers| && RetrierHolds(m.retriers[i], id) && RowOk(cfg, d)
    requires RetrierReady(now, m.retriers[i], a) && RetrierIsLocal(a)
    ensures var l := RetrierLocal(cfg, now, Some(d), tally, m.retriers[i], a);
            Single(cfg, now, if l.row.Some? then l.row.value else d, if l.event.Some? then h + [l.event.value] else h,
                   id, SetRetrier(m, i, l.w), ws)
  {
    var l := RetrierLocal(cfg, now, Some(d), tally, m.retriers[i], a);
    RetrierIsOnlyHolder(m, ws, i, id);
    RetrierLocalFits(cfg, now, d, h, tally, m.retriers[i], a, id);
    SumOfUpdate(m.retriers, i, l.w, RetrierTokens(id));
  }

  lemma RetrierStatementKeepsSingle(cfg: Config, now: int, rows: seq<Delivery>, history: seq<seq<Event>>, id: nat,
                                    m: Mail, ws: seq<Extractor>, i: nat, tally: Option<JobStatus>, a: RetrierAction,
                                    l: Local<Retrier>)
    requires id < |rows| == |history| && RowOk(cfg, rows[id]) && Single(cfg, now, rows[id], history[id], id, m, ws)
    requires i < |m.retriers| && RetrierReady(now, m.retriers[i], a) && RetrierIsLocal(a)
    requires l == RetrierLocal(cfg, now, RowAt(rows, RetrierRow(m.retriers[i])), tally, m.retriers[i], a)
    ensures var x := RetrierRow(m.retriers[i]);
            Single(cfg, now, WriteRow(rows, x, l.row)[id], WriteEvent(history, x, l.event)[id], id, SetRetrier(m, i,
                l.w), ws)
  {
    var w := m.retriers[i];
    if RetrierHolds(w, id) {
      RetrierWorks(cfg, now, rows[id], history[id], id, m, ws, i, tally, a);
    } else {
      RetrierLocalElsewhere(cfg, now, RowAt(rows, RetrierRow(w)), tally, w, a, id);
      SumOfUpdate(m.retriers, i, l.w, RetrierTokens(id));
    }
  }

  lemma TokensAfterNotifier(m: Mail, ws: seq<Extractor>, i: nat, w: Notifier, id: nat)
    requires i < |m.notifiers|
    ensures Tokens(SetNotifier(m, i, w), ws, id) + NotifierTokens(id)(m.notifiers[i])
         == Tokens(m, ws, id) + NotifierTokens(id)(w)
  {
    SumOfUpdate(m.notifiers, i, w, NotifierTokens(id));
  }

  lemma OfferedToken(c: Channel, x: nat, id: nat)
    requires !c.closed
    ensures Sum(Offer(c, x).queue, Is(id)) == Sum(c.queue, Is(id)) + Is(id)(x)
    ensures id in Offer(c, x).queue ==> id in c.queue || id == x
  {
  }

  lemma NotifierHandsOver(cfg: Config, now: int, d: Delivery, h: seq<Event>, id: nat, m: Mail, ws: seq<Extractor>,
                          i: nat)
    requires Single(cfg, now, d, h, id, m, ws) && i < |m.notifiers| && m.notifiers[i].NRetry? && !m.retries.closed
    ensures Single(cfg, now, d, h, id, SetNotifier(m, i, NIdle).(retries := Offer(m.retries, m.notifiers[i].id)), ws)
  {
    TokensAfterNotifier(m, ws, i, NIdle, id);
    OfferedToken(m.retries, m.notifiers[i].id, id);
  }

  lemma NotifierMessageKeepsSingle(cfg: Config, s: State, i: nat, a: NotifierAction, id: nat)
    requires NotifierEnabled(cfg, s, i, a) && !NotifierIsLocal(a) && !a.NHandOver?
    requires a.NDrop? ==> !NotifierHolds(s.mail.notifiers[i], id)
    requires id < |s.rows| == |s.history| && SingleAt(cfg, s, id)
    ensures var s' := NotifierNext(cfg, s, i, a);
            |s'.rows| == |s.rows| == |s'.history| && (!s'.panicked ==> SingleAt(cfg, s', id))
  {
    var w' := NotifierNext(cfg, s, i, a).mail.notifiers[i];
    SumOfUpdate(s.mail.notifiers, i, w', NotifierTokens(id));
    if a.NReceive? {
      SumOfTail(s.mail.deliveries.queue, Is(id));
    }
  }

  lemma RetrierMessageKeepsSingle(cfg: Config, s: State, i: nat, a: RetrierAction, id: nat)
    requires RetrierEnabled(cfg, s, i, a) && !RetrierIsLocal(a)
    requires a.RDrop? ==> !RetrierHolds(s.mail.retriers[i], id)
    requires id < |s.rows| == |s.history| && SingleAt(cfg, s, id)
    ensures var s' := RetrierNext(cfg, s, i, a);
            |s'.rows| == |s.rows| == |s'.history| && (!s'.panicked ==> SingleAt(cfg, s', id))
  {
    var w' := RetrierNext(cfg, s, i, a).mail.retriers[i];
    SumOfUpdate(s.mail.retriers, i, w', RetrierTokens(id));
    if a.RReceive? {
      SumOfTail(s.mail.retries.queue, Is(id));
    }
  }

  lemma NotifierKeepsSingle(cfg: Config, s: State, s': State, i: nat, a: NotifierAction, id: nat)
    requires NotifierEnabled(cfg, s, i, a) && s' == NotifierNext(cfg, s, i, a)
    requires a.NDrop? ==> id !in NotifierHeld(s.mail.notifiers[i])
    requires id < |s.rows| == |s.history| && RowOk(cfg, s.rows[id]) && SingleAt(cfg, s, id)
    ensures |s'.rows| == |s.rows| == |s'.history| && (!s'.panicked ==> SingleAt(cfg, s', id))
  {
    if NotifierIsLocal(a) {
      var tally, l := NotifierWrites(cfg, s, i, a);
      NotifierStatementKeepsSingle(cfg, s.now, s.rows, s.history, id, s.mail, s.intake.extractors, i, tally, a, l);
    } else if a.NHandOver? {
      if !s.mail.retries.closed {
        NotifierHandsOver(cfg, s.now, s.rows[id], s.history[id], id, s.mail, s.intake.extractors, i);
      }
    } else {
      NotifierMessageKeepsSingle(cfg, s, i, a, id);
    }
  }

  lemma RetrierKeepsSingle(cfg: Config, s: State, s': State, i: nat, a: RetrierAction, id: nat)
    requires RetrierEnabled(cfg, s, i, a) && s' == RetrierNext(cfg, s, i, a)
    requires a.RDrop? ==> id !in RetrierHeld(s.mail.retriers[i])
    requires id < |s.rows| == |s.history| && RowOk(cfg, s.rows[id]) && SingleAt(cfg, s, id)
    ensures |s'.rows| == |s.rows| == |s'.history| && (!s'.panicked ==> SingleAt(cfg, s', id))
  {
    if RetrierIsLocal(a) {
      var tally, l := RetrierWrites(cfg, s, i, a);
      RetrierStatementKeepsSingle(cfg, s.now, s.rows, s.history, id, s.mail, s.intake.extractors, i, tally, a, l);
    } else {
      RetrierMessageKeepsSingle(cfg, s, i, a, id);
    }
  }

  // ---------------------------------------------------------------- extraction

  lemma {:induction false} TokensOfIds(from: nat, count: nat, id: nat)
    ensures Sum(Ids(from, count), Is(id)) == if from <= id < from + count then 1 else 0
    decreases count
  {
    if count > 0 {
      TokensOfIds(from, count - 1, id);
      assert Init(Ids(from, count)) == Ids(from, count - 1);
    }
  }

  /** An extraction worker that publishes nothing about the delivery before or after. */
  lemma ExtractorElsewhere(cfg: Config, now: int, d: Delivery, h: seq<Event>, id: nat, m: Mail, ws: seq<Extractor>,
                           i: nat, w: Extractor)
    requires Single(cfg, now, d, h, id, m, ws) && i < |ws|
    requires ExtractorTokens(id)(ws[i]) == 0 && ExtractorTokens(id)(w) == 0
    ensures Single(cfg, now, d, h, id, m, ws[i := w])
  {
    SumOfUpdate(ws, i, w, ExtractorTokens(id));
    if w.EPublish? {
      InQueue(w.todo, id);
    }
  }

  lemma ExtractorPublishes(cfg: Config, now: int, d: Delivery, h: seq<Event>, id: nat, m: Mail, ws: seq<Extractor>,
                           i: nat)
    requires Single(cfg, now, d, h, id, m, ws) && i < |ws| && ws[i].EPublish? && ws[i].todo != []
    requires !m.deliveries.closed
    ensures var w' := if |ws[i].todo| == 1 then EIdle else EPublish(ws[i].todo[1..]);
            Single(cfg, now, d, h, id, m.(deliveries := Offer(m.deliveries, ws[i].todo[0])), ws[i := w'])
  {
    var todo := ws[i].todo;
    var w' := if |todo| == 1 then EIdle else EPublish(todo[1..]);
    SumOfTail(todo, Is(id));
    assert |todo| == 1 ==> todo[1..] == [];
    SumOfUpdate(ws, i, w', ExtractorTokens(id));
    OfferedToken(m.deliveries, todo[0], id);
  }

  lemma NoTokens(cfg: Config, s: State, id: nat)
    requires BaseInv(cfg, s) && id >= |s.rows|
    ensures Tokens(s.mail, s.intake.extractors, id) == 0
    ensures forall i :: 0 <= i < |s.mail.notifiers| ==> !NotifierHolds(s.mail.notifiers[i], id)
    ensures forall i :: 0 <= i < |s.mail.retriers| ==> !RetrierHolds(s.mail.retriers[i], id)
    ensures forall i :: 0 <= i < |s.intake.extractors| && s.intake.extractors[i].EPublish? ==>
        id !in s.intake.extractors[i].todo
    ensures id !in s.mail.deliveries.queue && id !in s.mail.retries.queue
  {
    var m, ws := s.mail, s.intake.extractors;
    forall i | 0 <= i < |m.notifiers| ensures !NotifierHolds(m.notifiers[i], id) {
      assert NotifierOk(s.rows, |s.jobs|, m.notifiers[i]);
    }
    forall i | 0 <= i < |m.retriers| ensures !RetrierHolds(m.retriers[i], id) {
      assert RetrierOk(cfg, s.rows, |s.jobs|, m.retriers[i]);
    }
    forall i | 0 <= i < |ws| ensures ExtractorTokens(id)(ws[i]) == 0 && (ws[i].EPublish? ==> id !in ws[i].todo) {
      assert ExtractorOk(|s.rows|, |s.jobs|, ws[i]);
      if ws[i].EPublish? {
        InQueue(ws[i].todo, id);
      }
    }
    InQueue(m.deliveries.queue, id);
    InQueue(m.retries.queue, id);
    SumIsZero(m.notifiers, NotifierTokens(id));
    SumIsZero(m.retriers, RetrierTokens(id));
    SumIsZero(ws, ExtractorTokens(id));
  }

  /** Every row of a committed batch starts with the one wake-up its extraction worker is about to publish. */
  lemma NewRowIsSingle(cfg: Config, s: State, i: nat, batch: seq<Delivery>, id: nat)
    requires BaseInv(cfg, s) && i < |s.intake.extractors| && s.intake.extractors[i].EBuild?
    requires |s.rows| <= id < |s.rows| + |batch|
    requires batch[id - |s.rows|].status.Pending?
    ensures Single(cfg, s.now, batch[id - |s.rows|], [], id, s.mail,
                   s.intake.extractors[i := EPublish(Ids(|s.rows|, |batch|))])
  {
    var ids := Ids(|s.rows|, |batch|);
    NoTokens(cfg, s, id);
    TokensOfIds(|s.rows|, |batch|, id);
    SumOfUpdate(s.intake.extractors, i, EPublish(ids), ExtractorTokens(id));
  }

  lemma CommitKeepsSingle(cfg: Config, s: State, i: nat, id: nat)
    requires BaseInv(cfg, s) && ExtractorEnabled(cfg, s, i, ECommit)
    requires id < |s.rows| ==> SingleAt(cfg, s, id)
    requires id < |ExtractorNext(cfg, s, i, ECommit).rows|
    ensures var s' := ExtractorNext(cfg, s, i, ECommit);
            |s'.rows| == |s'.history| && SingleAt(cfg, s', id)
  {
    var job := s.intake.extractors[i].job;
    var batch := Batch(cfg, s.users, s.jobs, job);
    if id >= |s.rows| {
      NewRowIsSingle(cfg, s, i, batch, id);
    } else {
      TokensOfIds(|s.rows|, |batch|, id);
      var w' := if Commits(s.rows, batch) then EPublish(Ids(|s.rows|, |batch|)) else EIdle;
      ExtractorElsewhere(cfg, s.now, s.rows[id], s.history[id], id, s.mail, s.intake.extractors, i, w');
    }
  }

  lemma ExtractorKeepsSingle(cfg: Config, s: State, i: nat, a: ExtractorAction, id: nat)
    requires BaseInv(cfg, s) && ExtractorEnabled(cfg, s, i, a)
    requires a.EDrop? ==> id !in Unpublished(s.intake.extractors[i])
    requires id < |s.rows| ==> SingleAt(cfg, s, id)
    requires id < |ExtractorNext(cfg, s, i, a).rows|
    ensures var s' := ExtractorNext(cfg, s, i, a);
            |s'.rows| == |s'.history| && (!s'.panicked ==> SingleAt(cfg, s', id))
  {
    match a
    case ECommit => CommitKeepsSingle(cfg, s, i, id);
    case ESend =>
      if !s.mail.deliveries.closed {
        ExtractorPublishes(cfg, s.now, s.rows[id], s.history[id], id, s.mail, s.intake.extractors, i);
      }
    case EReceive =>
      ExtractorElsewhere(cfg, s.now, s.rows[id], s.history[id], id, s.mail, s.intake.extractors, i,
          EBuild(s.intake.reports.queue[0]));
    case EExit => ExtractorElsewhere(cfg, s.now, s.rows[id], s.history[id], id, s.mail, s.intake.extractors, i,
        EExited);
    case EDrop =>
      if s.intake.extractors[i].EPublish? {
        InQueue(s.intake.extractors[i].todo, id);
      }
      ExtractorElsewhere(cfg, s.now, s.rows[id], s.history[id], id, s.mail, s.intake.extractors, i, EIdle);
  }

  // ---------------------------------------------------------------- recovery

  lemma {:induction false} RecoverableAreWaiting(rows: seq<Delivery>, k: nat)
    requires k < |Recoverable(rows)|
    ensures var id := Recoverable(rows)[k].id;
            id < |rows| && (rows[id].status.Pending? || rows[id].status.Retrying?)
    decreases |rows|
  {
    if k < |Recoverable(Init(rows))| {
      RecoverableAreWaiting(Init(rows), k);
    }
  }

  lemma RecoveryTouches(cfg: Config, s: State, a: RecoveryAction)
    requires RecoveryEnabled(cfg, s, a) && TodoTouched(s.recovery, s.touched)
    ensures TodoTouched(RecoveryNext(cfg, s, a).recovery, RecoveryNext(cfg, s, a).touched)
  {
    if a.TakeSnapshot? {
      forall k | 0 <= k < |Recoverable(s.rows)| ensures Recoverable(s.rows)[k].id in RecoveryNext(cfg, s, a).touched {
        RecoverableAreWaiting(s.rows, k);
      }
    }
  }

  lemma WakeKeepsSingle(cfg: Config, now: int, d: Delivery, h: seq<Event>, id: nat, m: Mail, ws: seq<Extractor>, x: nat)
    requires Single(cfg, now, d, h, id, m, ws) && x != id
    ensures !m.retries.closed ==> Single(cfg, now, d, h, id, m.(retries := Offer(m.retries, x)), ws)
    ensures !m.deliveries.closed ==> Single(cfg, now, d, h, id, m.(deliveries := Offer(m.deliveries, x)), ws)
  {
  }

  /** Recovery resets, snapshots and wakes only deliveries that it touches. */
  lemma RecoveryLeavesUntouched(cfg: Config, s: State, a: RecoveryAction, id: nat)
    requires RecoveryEnabled(cfg, s, a) && TodoTouched(s.recovery, s.touched)
    requires id < |s.rows| && id !in RecoveryNext(cfg, s, a).touched
    ensures var s' := RecoveryNext(cfg, s, a);
            && |s'.rows| == |s.rows| && s'.rows[id] == s.rows[id] && s'.now == s.now
            && (a.SendWake? ==> s.recovery.todo[0].id != id)
            && (!a.SendWake? ==> s'.mail == s.mail)
            && (a.SendWake? && s.recovery.todo[0].toRetry ==>
                  s'.mail == s.mail.(retries := Offer(s.mail.retries, s.recovery.todo[0].id))
                      && s'.panicked == s.mail.retries.closed)
            && (a.SendWake? && !s.recovery.todo[0].toRetry ==>
                  s'.mail == s.mail.(deliveries := Offer(s.mail.deliveries, s.recovery.todo[0].id))
                      && s'.panicked == s.mail.deliveries.closed)
  {
  }

  lemma RecoveryKeepsSingle(cfg: Config, s: State, s': State, a: RecoveryAction, id: nat)
    requires RecoveryEnabled(cfg, s, a) && TodoTouched(s.recovery, s.touched)
    requires s' == RecoveryNext(cfg, s, a)
    requires id < |s.rows| == |s.history| && id !in s'.touched && SingleAt(cfg, s, id)
    ensures |s'.rows| == |s.rows| == |s'.history| && (!s'.panicked ==> SingleAt(cfg, s', id))
  {
    RecoveryFrame(cfg, s, a);
    RecoveryLeavesUntouched(cfg, s, a, id);
    if a.SendWake? {
      WakeKeepsSingle(cfg, s.now, s.rows[id], s.history[id], id, s.mail, s.intake.extractors, s.recovery.todo[0].id);
    }
  }

  // ---------------------------------------------------------------- one action of the system

  lemma TimeKeepsSingle(cfg: Config, s: State, at: int)
    requires WakeInv(cfg, s) && at >= s.now
    ensures WakeInv(cfg, s.(now := at))
  {
  }

  /** A restart leaves no wake-up behind, and none is needed for what is finished. */
  lemma BootKeepsSingle(cfg: Config, s: State, users: seq<User>, id: nat)
    requires id < |s.rows| == |s.history| && id !in Boot(cfg, s, users).touched && SingleAt(cfg, s, id)
    ensures SingleAt(cfg, Boot(cfg, s, users), id)
  {
    var s' := Boot(cfg, s, users);
    assert s.rows[id].Terminal();
    SumIsZero(s'.mail.notifiers, NotifierTokens(id));
    SumIsZero(s'.mail.retriers, RetrierTokens(id));
    SumIsZero(s'.intake.extractors, ExtractorTokens(id));
  }

  lemma UpstreamKeepsSingle(cfg: Config, s: State, a: Action, id: nat)
    requires Enabled(cfg, s, a) && IsUpstream(a) && id < |s.rows| == |s.history| && SingleAt(cfg, s, id)
    ensures id < |Next(cfg, s, a).rows| == |Next(cfg, s, a).history| && SingleAt(cfg, Next(cfg, s, a), id)
  {
    UpstreamFrame(cfg, s, a);
  }

  lemma NextKeepsSingle(cfg: Config, s: State, a: Action, id: nat)
    requires BaseInv(cfg, s) && TodoTouched(s.recovery, s.touched) && Enabled(cfg, s, a)
    requires id < |s.rows| ==> RowOk(cfg, s.rows[id]) && SingleAt(cfg, s, id)
    requires id < |Next(cfg, s, a).rows| && id !in Next(cfg, s, a).touched && !Next(cfg, s, a).panicked
    ensures id < |Next(cfg, s, a).history| && SingleAt(cfg, Next(cfg, s, a), id)
  {
    var s' := Next(cfg, s, a);
    FlagsOfStep(cfg, s, a);
    if a.ExtractUsers? {
      ExtractorKeepsSingle(cfg, s, a.i, a.e, id);
    } else {
      QuietRows(cfg, s, a);
      match a
      case Notify(i, n) => NotifierKeepsSingle(cfg, s, s', i, n, id);
      case Retry(i, r) => RetrierKeepsSingle(cfg, s, s', i, r, id);
      case Recover(c) => RecoveryKeepsSingle(cfg, s, s', c, id);
      case Crash(users) => BootKeepsSingle(cfg, s, users, id);
      case _ => UpstreamKeepsSingle(cfg, s, a, id);
    }
  }

  lemma NextKeepsWakes(cfg: Config, s: State, a: Action)
    requires BaseInv(cfg, s) && WakeInv(cfg, s) && Enabled(cfg, s, a) && !s.panicked
    ensures WakeInv(cfg, Next(cfg, s, a))
  {
    var s' := Next(cfg, s, a);
    NextKeepsBase(cfg, s, a);
    FlagsOfStep(cfg, s, a);
    if a.Recover? {
      RecoveryTouches(cfg, s, a.c);
    } else if !a.Crash? {
      StepLeaves(cfg, s, a);
    }
    forall id: nat | id < |s'.rows| && id !in s'.touched && !s'.panicked ensures SingleAt(cfg, s', id) {
      if id < |s.rows| {
        assert RowOk(cfg, s.rows[id]) && SingleAt(cfg, s, id);
      }
      NextKeepsSingle(cfg, s, a, id);
    }
  }

  // ---------------------------------------------------------------- what the past says

  function IsAccepted(): Event -> nat {
    (e: Event) => if e.Sent? && e.accepted then 1 else 0
  }

  function IsRejected(): Event -> nat {
    (e: Event) => if e.Sent? && !e.accepted then 1 else 0
  }

  function AcceptedSends(h: seq<Event>): nat {
    Sum(h, IsAccepted())
  }

  function RejectedSends(h: seq<Event>): nat {
    Sum(h, IsRejected())
  }

  lemma {:induction false} SendsOfRejections(h: seq<Event>, n: nat)
    requires Rejections(h, n)
    ensures AcceptedSends(h[..2 * n]) == 0 && RejectedSends(h[..2 * n]) == n
    decreases n
  {
    if n > 0 {
      SendsOfRejections(h, n - 1);
      var before, claim, sent := h[..2 * n - 2], h[2 * n - 2], h[2 * n - 1];
      assert Rejected(h, n - 1);
      assert h[..2 * n - 1] == before + [claim] && h[..2 * n] == h[..2 * n - 1] + [sent];
      SumOfSnoc(before, claim, IsAccepted());
      SumOfSnoc(before, claim, IsRejected());
      SumOfSnoc(h[..2 * n - 1], sent, IsAccepted());
      SumOfSnoc(h[..2 * n - 1], sent, IsRejected());
    }
  }

  /** `success` is one accepted send after attempts - 1 rejected ones; `failed` is maxRetries + 1 rejected sends. */
  lemma OutcomeOfUntouched(cfg: Config, s: State, id: nat)
    requires id < |s.rows| && id < |s.history| && SingleAt(cfg, s, id)
    ensures var d, h := s.rows[id], s.history[id];
            && Tokens(s.mail, s.intake.extractors, id) == (if d.Terminal() then 0 else 1)
            && (d.status.Success? ==> AcceptedSends(h) == 1 && RejectedSends(h) == d.attempts - 1)
            && (d.status.Failed? ==> AcceptedSends(h) == 0 && RejectedSends(h) == cfg.maxRetries + 1)
  {
    var d, h := s.rows[id], s.history[id];
    var a := d.attempts;
    if d.status.Success? {
      SendsOfRejections(h, a - 1);
      var before := h[..2 * (a - 1)];
      assert h == before + [h[2 * a - 2]] + [h[2 * a - 1]];
      SumOfSnoc(before, h[2 * a - 2], IsAccepted());
      SumOfSnoc(before, h[2 * a - 2], IsRejected());
      SumOfSnoc(before + [h[2 * a - 2]], h[2 * a - 1], IsAccepted());
      SumOfSnoc(before + [h[2 * a - 2]], h[2 * a - 1], IsRejected());
    } else if d.status.Failed? {
      SendsOfRejections(h, a);
      assert h == h[..2 * a] + [h[2 * a]];
      SumOfSnoc(h[..2 * a], h[2 * a], IsAccepted());
      SumOfSnoc(h[..2 * a], h[2 * a], IsRejected());
    }
  }

  // ---------------------------------------------------------------- backoff

  lemma {:induction false} Pow2Grows(n: nat)
    ensures Pow2(n) >= 1
  {
    if n > 0 {
      Pow2Grows(n - 1);
    }
  }

  lemma {:induction false} Pow2IsMonotone(m: nat, n: nat)
    requires m <= n
    ensures Pow2(m) <= Pow2(n)
    decreases n - m
  {
    if m < n {
      Pow2IsMonotone(m + 1, n);
      Pow2Grows(m);
    }
  }

  /** The delay is 2^attempts seconds, without overflow, exactly up to 33 attempts. */
  lemma RetryDelayFits(attempts: nat)
    ensures RetryDelay(attempts) == Pow2(attempts) * SECOND <==> attempts <= 33
  {
    assert Pow2(33) == 0x2_0000_0000 by {
      assert Pow2(8) == 256;
      assert Pow2(16) == 65536;
      assert Pow2(24) == 0x100_0000;
      assert Pow2(32) == 0x1_0000_0000;
    }
    if attempts <= 33 {
      Pow2IsMonotone(attempts, 33);
    } else {
      Pow2IsMonotone(34, attempts);
      assert Pow2(34) == 2 * Pow2(33);
    }
  }

  /** After n rejected attempts at least 2^n - 2 seconds have passed since the first rejection. */
  lemma {:induction false} BackoffAddsUp(h: seq<Event>, n: nat)
    requires Rejections(h, n) && 1 <= n <= 34
    ensures h[2 * n - 1].at >= h[1].at + (Pow2(n) - 2) * SECOND
    decreases n
  {
    if n == 1 {
      assert Pow2(1) == 2;
    } else {
      BackoffAddsUp(h, n - 1);
      assert Rejected(h, n - 1);
      RetryDelayFits(n - 1);
      assert Pow2(n) == 2 * Pow2(n - 1);
    }
  }

  /** Attempt k + 1 is claimed no earlier than 2^k seconds after attempt k was rejected. */
  lemma EveryAttemptWaited(cfg: Config, s: State, id: nat, k: nat)
    requires id < |s.rows| && id < |s.history| && SingleAt(cfg, s, id) && RowOk(cfg, s.rows[id])
    requires 1 <= k < s.rows[id].attempts && k <= 33
    ensures var h := s.history[id];
            && 2 * k < |h| && h[2 * k].Claimed? && h[2 * k].attempt == k + 1
            && h[2 * k - 1].Sent? && h[2 * k - 1].attempt == k && !h[2 * k - 1].accepted
            && h[2 * k].at >= h[2 * k - 1].at + Pow2(k) * SECOND
  {
    var d, h := s.rows[id], s.history[id];
    RetryDelayFits(k);
    assert Rejections(h, d.attempts - 1) && 2 * k < |h|;
    assert Rejected(h, k - 1);
    assert IsClaimed(h, k) by {
      assert k < d.attempts - 1 ==> Rejected(h, k);
      assert d.status.Retrying? || d.status.Failed? ==> Rejected(h, d.attempts - 1);
    }
  }

  /** A delivery that waits for its next attempt is due exactly 2^attempts seconds after its last rejection. */
  lemma WaitingIsDue(cfg: Config, s: State, id: nat)
    requires id < |s.rows| && id < |s.history| && SingleAt(cfg, s, id) && s.rows[id].status.Retrying?
    requires s.rows[id].attempts <= 33
    ensures var d, h := s.rows[id], s.history[id];
            && h != [] && Last(h).Sent? && !Last(h).accepted && Last(h).attempt == d.attempts
            && d.nextAttemptAt == Some(Last(h).at + Pow2(d.attempts) * 1_000_000_000)
  {
    assert Rejected(s.history[id], s.rows[id].attempts - 1);
    RetryDelayFits(s.rows[id].attempts);
  }

  /** A dead letter comes no earlier than 2^(maxRetries + 1) - 2 seconds after the first rejection. */
  lemma DeadLetterIsLate(cfg: Config, s: State, id: nat)
    requires id < |s.rows| && id < |s.history| && SingleAt(cfg, s, id) && s.rows[id].status.Failed?
    requires cfg.maxRetries <= 32
    ensures var h := s.history[id];
            |h| > 1 && h[1].Sent? && !h[1].accepted && Last(h).Buried?
            && Last(h).at >= h[1].at + (Pow2(cfg.maxRetries + 1) - 2) * SECOND
  {
    var h := s.history[id];
    assert Rejected(h, 0);
    BackoffAddsUp(h, cfg.maxRetries + 1);
  }
}
