/** What a step leaves alone: each action moves one goroutine and the few things that it works on. */
module Frames {
  import opened Pipeline

  /** Of a pool at most one worker has moved. */
  predicate OnlyMoves<W(==)>(ws: seq<W>, ws': seq<W>, moves: bool, i: nat) {
    |ws'| == |ws| && ws' == if moves && i < |ws| then ws[i := ws'[i]] else ws
  }

  function Actor(a: Action): nat {
    if a.Verify? || a.ExtractUsers? || a.Notify? || a.Retry? then a.i else 0
  }

  /** Workers other than the one that acts stay where they are. */
  predicate OthersStay(k: Intake, m: Mail, a: Action, k': Intake, m': Mail) {
    && OnlyMoves(k.verifiers, k'.verifiers, a.Verify?, Actor(a))
    && OnlyMoves(k.extractors, k'.extractors, a.ExtractUsers?, Actor(a))
    && OnlyMoves(m.notifiers, m'.notifiers, a.Notify?, Actor(a))
    && OnlyMoves(m.retriers, m'.retriers, a.Retry?, Actor(a))
  }

  /** Closing a channel leaves its messages where they are. */
  predicate SameMessages(k: Intake, m: Mail, k': Intake, m': Mail) {
    && k'.verification.queue == k.verification.queue && k'.reports.queue == k.reports.queue
    && m'.deliveries.queue == m.deliveries.queue && m'.retries.queue == m.retries.queue && m'.dead.queue == m.dead.queue
    && k'.requests == k.requests && k'.handlers == k.handlers
  }

  ghost predicate Leaves(s: State, a: Action, s': State) {
    && s'.now == s.now && s'.users == s.users && s'.bootJobs == s.bootJobs
    && (a.Recover? || s'.recovery == s.recovery)
    && ((a.Shutdown? && !a.d.Cancel?) || s'.phase == s.phase) && (a.Shutdown? || s'.cancelled == s.cancelled)
    && (a.Shutdown? ==> s'.jobs == s.jobs && SameMessages(s.intake, s.mail, s'.intake, s'.mail))
    && (a.Notify? || a.Retry? ==> s'.intake == s.intake)
    && (a.Handler? || a.Verify? ==> s'.mail == s.mail)
    && (a.Handler? || a.Verify? || a.Shutdown? ==> s'.rows == s.rows && s'.history == s.history)
    && (a.Retry? || s'.dlq == s.dlq)
    && (a.Retry? || a.Shutdown? || s'.mail.dead == s.mail.dead)
    && ((a.Handler? && a.h.Accept?) || |s'.jobs| == |s.jobs|)
    && (forall j :: j in s.intake.handlers && a != Handler(Publish(j)) ==> j in s'.intake.handlers)
    && OthersStay(s.intake, s.mail, a, s'.intake, s'.mail)
  }

  lemma HandlerLeaves(cfg: Config, s: State, a: HandlerAction)
    requires HandlerEnabled(s, a)
    ensures Leaves(s, Handler(a), HandlerNext(cfg, s, a))
  {
  }

  lemma VerifierLeaves(cfg: Config, s: State, i: nat, a: VerifierAction)
    requires VerifierEnabled(cfg, s, i, a)
    ensures Leaves(s, Verify(i, a), VerifierNext(cfg, s, i, a))
  {
  }

  lemma ShutdownLeaves(s: State, a: ShutdownAction)
    requires ShutdownEnabled(s, a)
    ensures Leaves(s, Shutdown(a), ShutdownNext(s, a))
  {
  }

  lemma NotifierLeaves(cfg: Config, s: State, i: nat, a: NotifierAction)
    requires NotifierEnabled(cfg, s, i, a)
    ensures Leaves(s, Notify(i, a), NotifierNext(cfg, s, i, a))
  {
  }

  lemma RetrierLeaves(cfg: Config, s: State, i: nat, a: RetrierAction)
    requires RetrierEnabled(cfg, s, i, a)
    ensures Leaves(s, Retry(i, a), RetrierNext(cfg, s, i, a))
  {
  }

  lemma ExtractorLeaves(cfg: Config, s: State, i: nat, a: ExtractorAction)
    requires ExtractorEnabled(cfg, s, i, a)
    ensures Leaves(s, ExtractUsers(i, a), ExtractorNext(cfg, s, i, a))
  {
  }

  lemma RecoveryLeaves(cfg: Config, s: State, a: RecoveryAction)
    requires RecoveryEnabled(cfg, s, a)
    ensures Leaves(s, Recover(a), RecoveryNext(cfg, s, a))
  {
  }

  lemma StepLeaves(cfg: Config, s: State, a: Action)
    requires Enabled(cfg, s, a) && !a.Crash?
    ensures Leaves(s, a, Next(cfg, s, a))
  {
    match a
    case Notify(i, n) => NotifierLeaves(cfg, s, i, n);
    case Retry(i, r) => RetrierLeaves(cfg, s, i, r);
    case ExtractUsers(i, e) => ExtractorLeaves(cfg, s, i, e);
    case Recover(c) => RecoveryLeaves(cfg, s, c);
    case Handler(h) => HandlerLeaves(cfg, s, h);
    case Verify(i, v) => VerifierLeaves(cfg, s, i, v);
    case Shutdown(d) => ShutdownLeaves(s, d);
  }
}
