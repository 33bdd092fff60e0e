/** The staged shutdown: channels are closed from upstream to downstream, each one only when nobody is left to send
    on it, so that no step ever sends on a closed channel or closes one twice; and a shutdown that runs to its end
    without being cut short leaves nothing undone. */
module ShutdownSafety {
  import opened Wrappers
  import opened Pipeline
  import opened Frames
  import opened Deliveries
  import opened NoLostDelivery

  // ---------------------------------------------------------------- which channels are closed

  function IsShut(c: Channel): nat {
    if c.closed then 1 else 0
  }

  function ClosedStages(k: Intake, m: Mail): nat {
    IsShut(k.verification) + IsShut(k.reports) + IsShut(m.deliveries) + IsShut(m.retries) + IsShut(m.dead)
  }

  predicate ClosedPrefix(k: Intake, m: Mail) {
    && (k.reports.closed ==> k.verification.closed)
    && (m.deliveries.closed ==> k.reports.closed)
    && (m.retries.closed ==> m.deliveries.closed)
    && (m.dead.closed ==> m.retries.closed)
  }

  /** How far the shutdown has got: no channel is closed before the first stage, stage k has closed k + 1 of
      them, and the end closes all five. */
  predicate ClosedAsPhaseSays(phase: Phase, n: nat) {
    match phase
    case Serving | Stopping | AwaitRecovery => n == 0
    case Draining(stage) => stage <= 3 && n == stage + 1
    case Drained => n == 5
    case GaveUp => n <= 4
  }

  ghost predicate VerifiersExited(ws: seq<Verifier>) {
    forall i :: 0 <= i < |ws| ==> ws[i].VExited?
  }

  ghost predicate ExtractorsExited(ws: seq<Extractor>) {
    forall i :: 0 <= i < |ws| ==> ws[i].EExited?
  }

  ghost predicate NotifiersExited(ws: seq<Notifier>) {
    forall i :: 0 <= i < |ws| ==> ws[i].NExited?
  }

  ghost predicate RetriersExited(ws: seq<Retrier>) {
    forall i :: 0 <= i < |ws| ==> ws[i].RExited?
  }

  /** Whoever sends on a closed channel is gone: requests, handlers and recovery, then pool after pool. */
  ghost predicate SendersGone(k: Intake, m: Mail, recovered: bool) {
    && (k.verification.closed ==> k.requests == 0 && k.handlers == {} && recovered)
    && (k.reports.closed ==> VerifiersExited(k.verifiers))
    && (m.deliveries.closed ==> ExtractorsExited(k.extractors))
    && (m.retries.closed ==> NotifiersExited(m.notifiers))
    && (m.dead.closed ==> RetriersExited(m.retriers))
  }

  /** A worker leaves only when its channel is closed and empty, unless the workers were cancelled. */
  ghost predicate ExitsJustified(k: Intake, m: Mail) {
    && ((exists i :: 0 <= i < |k.verifiers| && k.verifiers[i].VExited?) ==> AtEnd(k.verification))
    && ((exists i :: 0 <= i < |k.extractors| && k.extractors[i].EExited?) ==> AtEnd(k.reports))
    && ((exists i :: 0 <= i < |m.notifiers| && m.notifiers[i].NExited?) ==> AtEnd(m.deliveries))
    && ((exists i :: 0 <= i < |m.retriers| && m.retriers[i].RExited?) ==> AtEnd(m.retries))
  }

  ghost predicate ShutInv(s: State) {
    && !s.panicked
    && ClosedPrefix(s.intake, s.mail)
    && ClosedAsPhaseSays(s.phase, ClosedStages(s.intake, s.mail))
    && SendersGone(s.intake, s.mail, s.recovery.Recovered?)
    && (!s.phase.Serving? && !s.phase.Stopping? && !s.phase.GaveUp? ==>
          s.intake.requests == 0 && s.intake.handlers == {})
    && (!s.cancelled ==> ExitsJustified(s.intake, s.mail))
  }

  // ---------------------------------------------------------------- what a panic is

  /** The channel an action sends on, if any. */
  function SendsOn(cfg: Config, s: State, a: Action): Option<Channel>
    requires Enabled(cfg, s, a)
  {
    match a
    case Handler(h) => if h.Publish? && Ready(s.intake.verification, cfg.capacity)
        then Some(s.intake.verification) else None
    case Verify(_, v) => if v.VSend? then Some(s.intake.reports) else None
    case ExtractUsers(_, e) => if e.ESend? then Some(s.mail.deliveries) else None
    case Notify(_, n) => if n.NHandOver? then Some(s.mail.retries) else None
    case Retry(_, r) => if r.RSendDead? then Some(s.mail.dead) else None
    case Recover(c) =>
      if c.PublishJob? then Some(s.intake.verification)
      else if c.SendWake? then Some(if s.recovery.todo[0].toRetry then s.mail.retries else s.mail.deliveries)
      else None
    case _ => None
  }

  /** The channel an action closes, if any. */
  function Closes(cfg: Config, s: State, a: Action): Option<Channel>
    requires Enabled(cfg, s, a)
  {
    if !a.Shutdown? then None
    else if a.d.RecoveryDone? then Some(s.intake.verification)
    else if !a.d.StageDone? then None
    else if s.phase.stage == 0 then Some(s.intake.reports)
    else if s.phase.stage == 1 then Some(s.mail.deliveries)
    else if s.phase.stage == 2 then Some(s.mail.retries)
    else Some(s.mail.dead)
  }

  lemma PanicIsMisuse(cfg: Config, s: State, a: Action)
    requires Enabled(cfg, s, a) && !s.panicked
    ensures Next(cfg, s, a).panicked <==>
              || (SendsOn(cfg, s, a).Some? && SendsOn(cfg, s, a).value.closed)
              || (Closes(cfg, s, a).Some? && Closes(cfg, s, a).value.closed)
  {
    match a
    case Handler(h) =>
    case Verify(i, v) =>
    case ExtractUsers(i, e) =>
    case Notify(i, n) =>
    case Retry(i, r) =>
    case Recover(c) =>
    case Shutdown(d) =>
    case Crash(_) =>
  }

  // ---------------------------------------------------------------- every step

  lemma HandlerKeepsShut(cfg: Config, s: State, a: HandlerAction)
    requires ShutInv(s) && HandlerEnabled(s, a)
    ensures ShutInv(HandlerNext(cfg, s, a))
  {
  }

  lemma VerifierKeepsShut(cfg: Config, s: State, i: nat, a: VerifierAction)
    requires ShutInv(s) && VerifierEnabled(cfg, s, i, a)
    ensures ShutInv(VerifierNext(cfg, s, i, a))
  {
  }

  lemma ExtractorKeepsShut(cfg: Config, s: State, i: nat, a: ExtractorAction)
    requires ShutInv(s) && ExtractorEnabled(cfg, s, i, a)
    ensures ShutInv(ExtractorNext(cfg, s, i, a))
  {
  }

  lemma NotifierKeepsShut(cfg: Config, s: State, i: nat, a: NotifierAction)
    requires ShutInv(s) && NotifierEnabled(cfg, s, i, a)
    ensures ShutInv(NotifierNext(cfg, s, i, a))
  {
    if NotifierIsLocal(a) {
      var tally, l := NotifierWrites(cfg, s, i, a);
    }
  }

  lemma RetrierKeepsShut(cfg: Config, s: State, i: nat, a: RetrierAction)
    requires ShutInv(s) && RetrierEnabled(cfg, s, i, a)
    ensures ShutInv(RetrierNext(cfg, s, i, a))
  {
    if RetrierIsLocal(a) {
      var tally, l := RetrierWrites(cfg, s, i, a);
    }
  }

  lemma RecoveryKeepsShut(cfg: Config, s: State, a: RecoveryAction)
    requires ShutInv(s) && RecoveryEnabled(cfg, s, a)
    ensures ShutInv(RecoveryNext(cfg, s, a))
  {
  }

  lemma ShutdownKeepsShut(s: State, a: ShutdownAction)
    requires ShutInv(s) && ShutdownEnabled(s, a)
    ensures ShutInv(ShutdownNext(s, a))
  {
  }

  lemma NextKeepsShut(cfg: Config, s: State, a: Action)
    requires ShutInv(s) && Enabled(cfg, s, a)
    ensures ShutInv(Next(cfg, s, a))
  {
    match a
    case Handler(h) => HandlerKeepsShut(cfg, s, h);
    case Verify(i, v) => VerifierKeepsShut(cfg, s, i, v);
    case ExtractUsers(i, e) => ExtractorKeepsShut(cfg, s, i, e);
    case Notify(i, n) => NotifierKeepsShut(cfg, s, i, n);
    case Retry(i, r) => RetrierKeepsShut(cfg, s, i, r);
    case Recover(c) => RecoveryKeepsShut(cfg, s, c);
    case Shutdown(d) => ShutdownKeepsShut(s, d);
    case Crash(_) =>
  }

  /** Nobody sends on a closed channel, nobody closes one twice. */
  lemma NoChannelIsMisused(cfg: Config, s: State, a: Action)
    requires ShutInv(s) && Enabled(cfg, s, a)
    ensures SendsOn(cfg, s, a).Some? ==> !SendsOn(cfg, s, a).value.closed
    ensures Closes(cfg, s, a).Some? ==> !Closes(cfg, s, a).value.closed
  {
  }

  // ---------------------------------------------------------------- room

  /** No channel holds more messages than it was made for. */
  ghost predicate ChannelsFit(cfg: Config, k: Intake, m: Mail) {
    && |k.verification.queue| <= cfg.capacity && |k.reports.queue| <= cfg.capacity
    && |m.deliveries.queue| <= cfg.capacity && |m.retries.queue| <= cfg.capacity
    && |m.dead.queue| <= cfg.deadCapacity
  }

  lemma MailWorkersFit(cfg: Config, s: State, a: Action)
    requires ChannelsFit(cfg, s.intake, s.mail) && Enabled(cfg, s, a) && (a.Notify? || a.Retry?)
    ensures ChannelsFit(cfg, Next(cfg, s, a).intake, Next(cfg, s, a).mail)
  {
    if a.Notify? && NotifierIsLocal(a.n) {
      var tally, l := NotifierWrites(cfg, s, a.i, a.n);
    } else if a.Retry? && RetrierIsLocal(a.r) {
      var tally, l := RetrierWrites(cfg, s, a.i, a.r);
    }
  }

  lemma RecoveryFits(cfg: Config, s: State, a: RecoveryAction)
    requires ChannelsFit(cfg, s.intake, s.mail) && RecoveryEnabled(cfg, s, a)
    ensures ChannelsFit(cfg, RecoveryNext(cfg, s, a).intake, RecoveryNext(cfg, s, a).mail)
  {
  }

  lemma ExtractorFits(cfg: Config, s: State, i: nat, a: ExtractorAction)
    requires ChannelsFit(cfg, s.intake, s.mail) && ExtractorEnabled(cfg, s, i, a)
    ensures ChannelsFit(cfg, ExtractorNext(cfg, s, i, a).intake, ExtractorNext(cfg, s, i, a).mail)
  {
  }

  lemma NextKeepsFit(cfg: Config, s: State, a: Action)
    requires ChannelsFit(cfg, s.intake, s.mail) && Enabled(cfg, s, a)
    ensures ChannelsFit(cfg, Next(cfg, s, a).intake, Next(cfg, s, a).mail)
  {
    match a
    case Notify(_, _) => MailWorkersFit(cfg, s, a);
    case Retry(_, _) => MailWorkersFit(cfg, s, a);
    case Recover(c) => RecoveryFits(cfg, s, c);
    case Shutdown(d) => ShutdownLeaves(s, d);
    case ExtractUsers(i, e) => ExtractorFits(cfg, s, i, e);
    case Handler(_) =>
    case Verify(_, _) =>
    case Crash(_) =>
  }

  // ---------------------------------------------------------------- the end of a graceful shutdown

  ghost predicate NothingInProcess(s: State) {
    && AtEnd(s.intake.verification) && AtEnd(s.intake.reports) && AtEnd(s.mail.deliveries) && AtEnd(s.mail.retries)
    && s.mail.dead.closed && s.intake.requests == 0 && s.intake.handlers == {} && s.recovery.Recovered?
    && VerifiersExited(s.intake.verifiers) && ExtractorsExited(s.intake.extractors)
    && NotifiersExited(s.mail.notifiers) && RetriersExited(s.mail.retriers)
  }

  /** A drain that comes to its end without cancelling the workers leaves no message, handler or worker behind. */
  lemma DrainedIsEmpty(cfg: Config, s: State)
    requires cfg.Valid() && BaseInv(cfg, s) && ShutInv(s) && s.phase.Drained? && !s.cancelled
    ensures NothingInProcess(s)
  {
    assert s.intake.verifiers[0].VExited?;
    assert s.intake.extractors[0].EExited?;
    assert s.mail.notifiers[0].NExited?;
    assert s.mail.retriers[0].RExited?;
  }

  /** And every delivery is finished, unless its own holder has given up. */
  lemma DrainedIsFinished(cfg: Config, s: State)
    requires cfg.Valid() && BaseInv(cfg, s) && ShutInv(s) && CarriedInv(s) && s.phase.Drained? && !s.cancelled
    ensures NothingInProcess(s) && forall id: nat :: id < |s.rows| && id !in s.dropped ==> s.rows[id].Terminal()
  {
    DrainedIsEmpty(cfg, s);
    QuietMeansFinished(s);
  }
}
