/** What the rows say about the mail provider: how often a delivery was sent, what `success` and `failed` mean,
    and which deliveries have a dead letter. All of it holds in every run, with duplicated wake-ups, database
    errors and any number of restarts. */
module SendRecords {
  import opened Wrappers
  import opened Sums
  import opened Pipeline
  import opened Deliveries

  function IsClaim(): Event -> nat {
    (e: Event) => if e.Claimed? then 1 else 0
  }

  function IsSend(): Event -> nat {
    (e: Event) => if e.Sent? then 1 else 0
  }

  /** How often the delivery was claimed for an attempt, and how often the provider was called for it. */
  function Claims(h: seq<Event>): nat {
    Sum(h, IsClaim())
  }

  function Sends(h: seq<Event>): nat {
    Sum(h, IsSend())
  }

  ghost predicate WasAccepted(h: seq<Event>) {
    exists k :: 0 <= k < |h| && h[k].Sent? && h[k].accepted
  }

  function NotifierSending(id: nat): Notifier -> nat {
    (w: Notifier) => if w == NSend(id) then 1 else 0
  }

  function RetrierSending(id: nat): Retrier -> nat {
    (w: Retrier) => if w.RSend? && w.id == id then 1 else 0
  }

  /** Workers that have claimed the delivery and not called the provider yet. */
  function InFlight(m: Mail, id: nat): nat {
    Sum(m.notifiers, NotifierSending(id)) + Sum(m.retriers, RetrierSending(id))
  }

  function IsLetterFor(id: nat): DeadLetter -> nat {
    (l: DeadLetter) => if l.delivery == id then 1 else 0
  }

  function Letters(dlq: seq<DeadLetter>, id: nat): nat {
    Sum(dlq, IsLetterFor(id))
  }

  /** Claims and calls of one delivery agree with its row and the workers holding it. */
  ghost predicate Accounted(d: Delivery, h: seq<Event>, inFlight: nat, letters: nat) {
    && Claims(h) == d.attempts
    && Sends(h) + inFlight <= Claims(h)
    && (d.status.Success? ==> WasAccepted(h))
    && letters == if d.status.Failed? then 1 else 0
  }

  ghost predicate AllAccounted(rows: seq<Delivery>, history: seq<seq<Event>>, m: Mail, dlq: seq<DeadLetter>) {
    && |history| == |rows|
    && forall id :: 0 <= id < |rows| ==> Accounted(rows[id], history[id], InFlight(m, id), Letters(dlq, id))
  }

  ghost predicate SentIsAccepted(history: seq<seq<Event>>, m: Mail) {
    && (forall i :: 0 <= i < |m.notifiers| && m.notifiers[i].NSent? ==>
          m.notifiers[i].id < |history| && WasAccepted(history[m.notifiers[i].id]))
    && (forall i :: 0 <= i < |m.retriers| && m.retriers[i].RSent? ==>
          m.retriers[i].id < |history| && WasAccepted(history[m.retriers[i].id]))
  }

  ghost predicate LettersName(rows: seq<Delivery>, dlq: seq<DeadLetter>) {
    forall k :: 0 <= k < |dlq| ==> dlq[k].delivery < |rows| && dlq[k].job == rows[dlq[k].delivery].job
  }

  ghost predicate SendInv(s: State) {
    && AllAccounted(s.rows, s.history, s.mail, s.dlq)
    && SentIsAccepted(s.history, s.mail)
    && LettersName(s.rows, s.dlq)
  }

  // ---------------------------------------------------------------- counting

  lemma CountsAfter(h: seq<Event>, e: Event)
    ensures Claims(h + [e]) == Claims(h) + if e.Claimed? then 1 else 0
    ensures Sends(h + [e]) == Sends(h) + if e.Sent? then 1 else 0
    ensures WasAccepted(h + [e]) <==> WasAccepted(h) || (e.Sent? && e.accepted)
  {
  }

  lemma InFlightAfterNotifier(m: Mail, i: nat, w: Notifier, id: nat)
    requires i < |m.notifiers|
    ensures InFlight(SetNotifier(m, i, w), id) + NotifierSending(id)(m.notifiers[i]) == InFlight(m, id)
        + NotifierSending(id)(w)
  {
    SumOfUpdate(m.notifiers, i, w, NotifierSending(id));
  }

  lemma InFlightAfterRetrier(m: Mail, i: nat, w: Retrier, id: nat)
    requires i < |m.retriers|
    ensures InFlight(SetRetrier(m, i, w), id) + RetrierSending(id)(m.retriers[i]) == InFlight(m, id)
        + RetrierSending(id)(w)
  {
    SumOfUpdate(m.retriers, i, w, RetrierSending(id));
  }

  lemma LettersAfter(dlq: seq<DeadLetter>, id: nat, job: nat, event: Option<Event>, of: nat)
    ensures Letters(WriteDeadLetter(dlq, id, job, event), of)
         == Letters(dlq, of) + if event.Some? && event.value.Buried? && id == of then 1 else 0
  {
    SumOfSnoc(dlq, DeadLetter(id, job), IsLetterFor(of));
  }

  // ---------------------------------------------------------------- one statement

  lemma NotifierAccounts(cfg: Config, now: int, d: Delivery, h: seq<Event>, inFlight: nat, letters: nat,
                         tally: Option<JobStatus>, w: Notifier, a: NotifierAction)
    requires NotifierReady(w, a) && NotifierIsLocal(a) && RowOk(cfg, d)
    requires Accounted(d, h, inFlight, letters)
    requires w.NSend? ==> inFlight >= 1
    requires w.NSent? ==> WasAccepted(h)
    ensures var l := NotifierLocal(now, Some(d), tally, w, a);
            var d' := if l.row.Some? then l.row.value else d;
            var h' := if l.event.Some? then h + [l.event.value] else h;
            && Accounted(d', h', inFlight + (if l.w.NSend? then 1 else 0) - (if w.NSend? then 1 else 0), letters)
            && (WasAccepted(h) ==> WasAccepted(h')) && (l.w.NSent? ==> WasAccepted(h'))
  {
    var l := NotifierLocal(now, Some(d), tally, w, a);
    if l.event.Some? {
      CountsAfter(h, l.event.value);
    }
  }

  lemma RetrierAccounts(cfg: Config, now: int, d: Delivery, h: seq<Event>, inFlight: nat, letters: nat,
                        tally: Option<JobStatus>, w: Retrier, a: RetrierAction)
    requires RetrierReady(now, w, a) && RetrierIsLocal(a) && RowOk(cfg, d)
    requires Accounted(d, h, inFlight, letters)
    requires w.RSend? ==> inFlight >= 1
    requires w.RSent? ==> WasAccepted(h)
    ensures var l := RetrierLocal(cfg, now, Some(d), tally, w, a);
            var d' := if l.row.Some? then l.row.value else d;
            var h' := if l.event.Some? then h + [l.event.value] else h;
            && Accounted(d', h', inFlight + (if l.w.RSend? then 1 else 0) - (if w.RSend? then 1 else 0),
                         letters + if l.event.Some? && l.event.value.Buried? then 1 else 0)
            && (WasAccepted(h) ==> WasAccepted(h')) && (l.w.RSent? ==> WasAccepted(h'))
  {
    var l := RetrierLocal(cfg, now, Some(d), tally, w, a);
    if l.event.Some? {
      CountsAfter(h, l.event.value);
    }
  }

  // ---------------------------------------------------------------- one action

  lemma NotifierAccountsFor(cfg: Config, s: State, i: nat, a: NotifierAction, tally: Option<JobStatus>, id: nat)
    requires i < |s.mail.notifiers| && NotifierReady(s.mail.notifiers[i], a) && NotifierIsLocal(a)
    requires NotifierOk(s.rows, |s.jobs|, s.mail.notifiers[i])
    requires id < |s.rows| == |s.history| && RowOk(cfg, s.rows[id])
    requires Accounted(s.rows[id], s.history[id], InFlight(s.mail, id), Letters(s.dlq, id))
    requires s.mail.notifiers[i].NSent? && id == s.mail.notifiers[i].id ==> WasAccepted(s.history[id])
    ensures var w, row := s.mail.notifiers[i], NotifierRow(s.mail.notifiers[i]);
            var d := RowAt(s.rows, row);
            var l := NotifierLocal(s.now, d, tally, w, a);
            var h' := WriteEvent(s.history, row, l.event)[id];
            && Accounted(WriteRow(s.rows, row, l.row)[id], h', InFlight(SetNotifier(s.mail, i, l.w), id),
                         Letters(s.dlq, id))
            && (WasAccepted(s.history[id]) ==> WasAccepted(h'))
            && (l.w.NSent? && id == l.w.id ==> WasAccepted(h'))
  {
    var w := s.mail.notifiers[i];
    var d := RowAt(s.rows, NotifierRow(w));
    var l := NotifierLocal(s.now, d, tally, w, a);
    InFlightAfterNotifier(s.mail, i, l.w, id);
    SumIsAtLeast(s.mail.notifiers, i, NotifierSending(id));
    if id == NotifierRow(w) && !a.NTally? && !a.NFinalize? {
      NotifierAccounts(cfg, s.now, s.rows[id], s.history[id], InFlight(s.mail, id), Letters(s.dlq, id), tally, w, a);
    }
  }

  lemma RetrierAccountsFor(cfg: Config, s: State, i: nat, a: RetrierAction, tally: Option<JobStatus>, id: nat)
    requires i < |s.mail.retriers| && RetrierReady(s.now, s.mail.retriers[i], a) && RetrierIsLocal(a)
    requires RetrierOk(cfg, s.rows, |s.jobs|, s.mail.retriers[i])
    requires id < |s.rows| == |s.history| && RowOk(cfg, s.rows[id])
    requires Accounted(s.rows[id], s.history[id], InFlight(s.mail, id), Letters(s.dlq, id))
    requires s.mail.retriers[i].RSent? && id == s.mail.retriers[i].id ==> WasAccepted(s.history[id])
    ensures var w, row := s.mail.retriers[i], RetrierRow(s.mail.retriers[i]);
            var d := RowAt(s.rows, row);
            var l := RetrierLocal(cfg, s.now, d, tally, w, a);
            var h' := WriteEvent(s.history, row, l.event)[id];
            && Accounted(WriteRow(s.rows, row, l.row)[id], h', InFlight(SetRetrier(s.mail, i, l.w), id),
                         Letters(s.dlq, id) + if l.event.Some? && l.event.value.Buried? && id == row then 1 else 0)
            && (WasAccepted(s.history[id]) ==> WasAccepted(h'))
            && (l.w.RSent? && id == l.w.id ==> WasAccepted(h'))
  {
    var w := s.mail.retriers[i];
    var d := RowAt(s.rows, RetrierRow(w));
    var l := RetrierLocal(cfg, s.now, d, tally, w, a);
    InFlightAfterRetrier(s.mail, i, l.w, id);
    SumIsAtLeast(s.mail.retriers, i, RetrierSending(id));
    if id == RetrierRow(w) && !a.RTally? && !a.RFinalize? {
      RetrierAccounts(cfg, s.now, s.rows[id], s.history[id], InFlight(s.mail, id), Letters(s.dlq, id), tally, w, a);
    }
  }

  /** What the per-delivery facts above add up to. */
  lemma Assemble(s: State, s': State)
    requires SendInv(s) && |s'.rows| == |s.rows| == |s'.history| && LettersName(s'.rows, s'.dlq)
    requires forall id :: 0 <= id < |s.rows| ==>
               && Accounted(s'.rows[id], s'.history[id], InFlight(s'.mail, id), Letters(s'.dlq, id))
               && (WasAccepted(s.history[id]) ==> WasAccepted(s'.history[id]))
    requires forall i :: 0 <= i < |s'.mail.notifiers| && s'.mail.notifiers[i].NSent? ==>
               || (i < |s.mail.notifiers| && s'.mail.notifiers[i] == s.mail.notifiers[i])
               || (s'.mail.notifiers[i].id < |s'.history| && WasAccepted(s'.history[s'.mail.notifiers[i].id]))
    requires forall i :: 0 <= i < |s'.mail.retriers| && s'.mail.retriers[i].RSent? ==>
               || (i < |s.mail.retriers| && s'.mail.retriers[i] == s.mail.retriers[i])
               || (s'.mail.retriers[i].id < |s'.history| && WasAccepted(s'.history[s'.mail.retriers[i].id]))
    ensures SendInv(s')
  {
  }

  /** What a mail worker leaves behind, seen from one delivery; `sent` is the delivery its provider has accepted. */
  ghost predicate StillAccounted(s: State, s': State, id: nat, sent: Option<nat>)
    requires id < |s.rows| == |s.history|
  {
    && |s'.rows| == |s.rows| == |s'.history|
    && Accounted(s'.rows[id], s'.history[id], InFlight(s'.mail, id), Letters(s'.dlq, id))
    && (WasAccepted(s.history[id]) ==> WasAccepted(s'.history[id]))
    && (sent == Some(id) ==> WasAccepted(s'.history[id]))
  }

  function NotifierSent(w: Notifier): Option<nat> {
    if w.NSent? then Some(w.id) else None
  }

  function RetrierSent(w: Retrier): Option<nat> {
    if w.RSent? then Some(w.id) else None
  }

  lemma NotifierAccountsForAll(cfg: Config, s: State, i: nat, a: NotifierAction, id: nat)
    requires NotifierEnabled(cfg, s, i, a) && NotifierOk(s.rows, |s.jobs|, s.mail.notifiers[i])
    requires id < |s.rows| == |s.history| && RowOk(cfg, s.rows[id])
    requires Accounted(s.rows[id], s.history[id], InFlight(s.mail, id), Letters(s.dlq, id))
    requires s.mail.notifiers[i].NSent? && id == s.mail.notifiers[i].id ==> WasAccepted(s.history[id])
    ensures var s' := NotifierNext(cfg, s, i, a);
            i < |s'.mail.notifiers| && StillAccounted(s, s', id, NotifierSent(s'.mail.notifiers[i]))
  {
    if NotifierIsLocal(a) {
      var tally, l := NotifierWrites(cfg, s, i, a);
      NotifierAccountsFor(cfg, s, i, a, tally, id);
    } else {
      InFlightAfterNotifier(s.mail, i, NotifierNext(cfg, s, i, a).mail.notifiers[i], id);
    }
  }

  lemma NotifierAccountsAt(cfg: Config, s: State, i: nat, a: NotifierAction, id: nat)
    requires BaseInv(cfg, s) && SendInv(s) && NotifierEnabled(cfg, s, i, a) && id < |s.rows|
    ensures var s' := NotifierNext(cfg, s, i, a);
            && |s.history| == |s.rows| && i < |s'.mail.notifiers|
            && StillAccounted(s, s', id, NotifierSent(s'.mail.notifiers[i]))
  {
    assert NotifierOk(s.rows, |s.jobs|, s.mail.notifiers[i]) && RowOk(cfg, s.rows[id]);
    assert Accounted(s.rows[id], s.history[id], InFlight(s.mail, id), Letters(s.dlq, id));
    NotifierAccountsForAll(cfg, s, i, a, id);
  }

  lemma NotifierKeepsSends(cfg: Config, s: State, i: nat, a: NotifierAction)
    requires BaseInv(cfg, s) && SendInv(s) && NotifierEnabled(cfg, s, i, a)
    ensures SendInv(NotifierNext(cfg, s, i, a))
  {
    var w, s' := s.mail.notifiers[i], NotifierNext(cfg, s, i, a);
    assert NotifierOk(s.rows, |s.jobs|, w);
    NotifierFrame(cfg, s, i, a);
    assert LettersName(s'.rows, s'.dlq) by {
      NotifierKeepsBase(cfg, s, i, a);
      LettersStayNamed(s.rows, s'.rows, s.dlq, s'.dlq, NotifierRow(w));
    }
    forall id | 0 <= id < |s.rows|
      ensures Accounted(s'.rows[id], s'.history[id], InFlight(s'.mail, id), Letters(s'.dlq, id))
      ensures WasAccepted(s.history[id]) ==> WasAccepted(s'.history[id])
      ensures s'.mail.notifiers[i].NSent? && id == s'.mail.notifiers[i].id ==> WasAccepted(s'.history[id])
    {
      NotifierAccountsAt(cfg, s, i, a, id);
    }
    Assemble(s, s');
  }

  lemma LettersStayNamed(rows: seq<Delivery>, rows': seq<Delivery>, dlq: seq<DeadLetter>, dlq': seq<DeadLetter>,
                         id: nat)
    requires LettersName(rows, dlq) && RowsEvolve(rows, rows')
    requires dlq' == dlq || (id < |rows| && dlq' == dlq + [DeadLetter(id, rows[id].job)])
    ensures LettersName(rows', dlq')
  {
  }

  lemma RetrierStatementAccounts(cfg: Config, s: State, i: nat, a: RetrierAction, id: nat)
    requires RetrierEnabled(cfg, s, i, a) && RetrierIsLocal(a) && RetrierOk(cfg, s.rows, |s.jobs|, s.mail.retriers[i])
    requires id < |s.rows| == |s.history| && RowOk(cfg, s.rows[id])
    requires Accounted(s.rows[id], s.history[id], InFlight(s.mail, id), Letters(s.dlq, id))
    requires s.mail.retriers[i].RSent? && id == s.mail.retriers[i].id ==> WasAccepted(s.history[id])
    ensures var s' := RetrierNext(cfg, s, i, a);
            i < |s'.mail.retriers| && StillAccounted(s, s', id, RetrierSent(s'.mail.retriers[i]))
  {
    var x := RetrierRow(s.mail.retriers[i]);
    var tally, l := RetrierWrites(cfg, s, i, a);
    RetrierAccountsFor(cfg, s, i, a, tally, id);
    LettersAfter(s.dlq, x, if x < |s.rows| then s.rows[x].job else 0, l.event, id);
  }

  lemma RetrierAccountsForAll(cfg: Config, s: State, i: nat, a: RetrierAction, id: nat)
    requires RetrierEnabled(cfg, s, i, a) && RetrierOk(cfg, s.rows, |s.jobs|, s.mail.retriers[i])
    requires id < |s.rows| == |s.history| && RowOk(cfg, s.rows[id])
    requires Accounted(s.rows[id], s.history[id], InFlight(s.mail, id), Letters(s.dlq, id))
    requires s.mail.retriers[i].RSent? && id == s.mail.retriers[i].id ==> WasAccepted(s.history[id])
    ensures var s' := RetrierNext(cfg, s, i, a);
            i < |s'.mail.retriers| && StillAccounted(s, s', id, RetrierSent(s'.mail.retriers[i]))
  {
    if RetrierIsLocal(a) {
      RetrierStatementAccounts(cfg, s, i, a, id);
    } else {
      InFlightAfterRetrier(s.mail, i, RetrierNext(cfg, s, i, a).mail.retriers[i], id);
    }
  }

  lemma RetrierKeepsSends(cfg: Config, s: State, i: nat, a: RetrierAction)
    requires BaseInv(cfg, s) && SendInv(s) && RetrierEnabled(cfg, s, i, a)
    ensures SendInv(RetrierNext(cfg, s, i, a))
  {
    var w, s' := s.mail.retriers[i], RetrierNext(cfg, s, i, a);
    assert RetrierOk(cfg, s.rows, |s.jobs|, w);
    RetrierFrame(cfg, s, i, a);
    assert LettersName(s'.rows, s'.dlq) by {
      RetrierKeepsBase(cfg, s, i, a);
      LettersStayNamed(s.rows, s'.rows, s.dlq, s'.dlq, RetrierRow(w));
    }
    forall id | 0 <= id < |s.rows|
      ensures Accounted(s'.rows[id], s'.history[id], InFlight(s'.mail, id), Letters(s'.dlq, id))
      ensures WasAccepted(s.history[id]) ==> WasAccepted(s'.history[id])
      ensures s'.mail.retriers[i].RSent? && id == s'.mail.retriers[i].id ==> WasAccepted(s'.history[id])
    {
      assert RowOk(cfg, s.rows[id]) && Accounted(s.rows[id], s.history[id], InFlight(s.mail, id), Letters(s.dlq, id));
      RetrierAccountsForAll(cfg, s, i, a, id);
    }
    Assemble(s, s');
  }

  lemma NothingInFlight(cfg: Config, rows: seq<Delivery>, jobs: nat, m: Mail, id: nat)
    requires NotifiersOk(rows, jobs, m.notifiers) && RetriersOk(cfg, rows, jobs, m.retriers) && id >= |rows|
    ensures InFlight(m, id) == 0
  {
    forall i | 0 <= i < |m.notifiers| ensures NotifierSending(id)(m.notifiers[i]) == 0 {
      assert NotifierOk(rows, jobs, m.notifiers[i]);
    }
    forall i | 0 <= i < |m.retriers| ensures RetrierSending(id)(m.retriers[i]) == 0 {
      assert RetrierOk(cfg, rows, jobs, m.retriers[i]);
    }
    SumIsZero(m.notifiers, NotifierSending(id));
    SumIsZero(m.retriers, RetrierSending(id));
  }

  lemma NoLetters(rows: seq<Delivery>, dlq: seq<DeadLetter>, id: nat)
    requires LettersName(rows, dlq) && id >= |rows|
    ensures Letters(dlq, id) == 0
  {
    SumIsZero(dlq, IsLetterFor(id));
  }

  lemma FreshRowsAreAccounted(cfg: Config, s: State, s': State)
    requires BaseInv(cfg, s) && SendInv(s) && FreshRows(s.rows, s'.rows, s.history, s'.history)
    requires s'.mail.notifiers == s.mail.notifiers && s'.mail.retriers == s.mail.retriers && s'.dlq == s.dlq
    ensures SendInv(s')
  {
    forall id | 0 <= id < |s'.rows|
      ensures Accounted(s'.rows[id], s'.history[id], InFlight(s'.mail, id), Letters(s'.dlq, id))
    {
      if id < |s.rows| {
        assert Accounted(s.rows[id], s.history[id], InFlight(s.mail, id), Letters(s.dlq, id));
      } else {
        NothingInFlight(cfg, s.rows, |s.jobs|, s.mail, id);
        NoLetters(s.rows, s.dlq, id);
      }
    }
  }

  /** Neither attempts nor ends of deliveries differ. */
  lemma SameCallsKeepSends(s: State, s': State)
    requires SendInv(s) && s'.history == s.history && s'.dlq == s.dlq && |s'.rows| == |s.rows|
    requires forall i :: 0 <= i < |s.rows| ==>
               s'.rows[i] == s.rows[i] || (s'.rows[i].attempts == s.rows[i].attempts && s'.rows[i].job == s.rows[i].job
                   && !s.rows[i].Terminal() && !s'.rows[i].Terminal())
    requires s'.mail.notifiers == s.mail.notifiers && s'.mail.retriers == s.mail.retriers
    ensures SendInv(s')
  {
  }

  lemma RecoveryKeepsSends(cfg: Config, s: State, a: RecoveryAction)
    requires SendInv(s) && RecoveryEnabled(cfg, s, a)
    ensures SendInv(RecoveryNext(cfg, s, a))
  {
    RecoveryFrame(cfg, s, a);
    SameCallsKeepSends(s, RecoveryNext(cfg, s, a));
  }

  lemma CrashKeepsSends(cfg: Config, s: State, users: seq<User>)
    requires SendInv(s)
    ensures SendInv(Boot(cfg, s, users))
  {
    var s' := Boot(cfg, s, users);
    forall id | 0 <= id < |s'.rows|
      ensures Accounted(s'.rows[id], s'.history[id], InFlight(s'.mail, id), Letters(s'.dlq, id))
    {
      assert Accounted(s.rows[id], s.history[id], InFlight(s.mail, id), Letters(s.dlq, id));
      SumIsZero(s'.mail.notifiers, NotifierSending(id));
      SumIsZero(s'.mail.retriers, RetrierSending(id));
    }
  }

  lemma NextKeepsSends(cfg: Config, s: State, a: Action)
    requires BaseInv(cfg, s) && SendInv(s) && Enabled(cfg, s, a)
    ensures SendInv(Next(cfg, s, a))
  {
    match a
    case Notify(i, n) => NotifierKeepsSends(cfg, s, i, n);
    case Retry(i, r) => RetrierKeepsSends(cfg, s, i, r);
    case ExtractUsers(i, e) =>
      ExtractorFrame(cfg, s, i, e);
      FreshRowsAreAccounted(cfg, s, Next(cfg, s, a));
    case Recover(c) => RecoveryKeepsSends(cfg, s, c);
    case Crash(users) => CrashKeepsSends(cfg, s, users);
    case _ =>
      UpstreamFrame(cfg, s, a);
      SameCallsKeepSends(s, Next(cfg, s, a));
  }
}
