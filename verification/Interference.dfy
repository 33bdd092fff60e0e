/** What the record fields of the state mean: which deliveries lost their holder in this process, which ones were cut
    off from their wake-up or given another one, which jobs were cut off from their closing or put back to pending, and
    which ones this process has let go of. */
module Interference {
  import opened Pipeline

  /** The actions that stand for a database error, an abandoned wait or a forced shutdown. */
  predicate IsFault(a: Action) {
    match a
    case Verify(_, v) => v.VDrop? || v.VDbReset?
    case ExtractUsers(_, e) => e.EDrop?
    case Notify(_, n) => n.NDrop?
    case Retry(_, r) => r.RDrop?
    case Recover(c) => c.RecoveryFails?
    case Shutdown(d) => d.GiveUp? || d.Cancel?
    case _ => false
  }

  /** The deliveries an action interferes with: a crash with every unfinished one, an abandoned worker with the one
      it held or was about to publish, recovery with those it resets or is going to wake. */
  function Touches(cfg: Config, s: State, a: Action): set<nat>
    requires Enabled(cfg, s, a)
  {
    match a
    case ExtractUsers(i, e) => if e.EDrop? then Unpublished(s.intake.extractors[i]) else {}
    case Notify(i, n) => if n.NDrop? then NotifierHeld(s.mail.notifiers[i]) else {}
    case Retry(i, r) => if r.RDrop? then RetrierHeld(s.mail.retriers[i]) else {}
    case Recover(c) =>
      if c.ReleaseRows? then InterruptedRows(s.rows) else if c.TakeSnapshot? then WaitingRows(s.rows) else {}
    case Crash(_) => OpenRows(s.rows)
    case _ => {}
  }

  /** The deliveries whose holder gives up. */
  function Drops(cfg: Config, s: State, a: Action): set<nat>
    requires Enabled(cfg, s, a)
  {
    match a
    case ExtractUsers(i, e) => if e.EDrop? then Unpublished(s.intake.extractors[i]) else {}
    case Notify(i, n) => if n.NDrop? then NotifierHeld(s.mail.notifiers[i]) else {}
    case Retry(i, r) => if r.RDrop? then RetrierHeld(s.mail.retriers[i]) else {}
    case Recover(c) => if c.RecoveryFails? then Unwoken(s.recovery, s.rows, s.touched) else {}
    case _ => {}
  }

  /** The jobs that an action lets go of: a handler that finds no room, a verification that does not end with the job
      about to be published, an extraction that does not take place, and what a failing recovery has not published. */
  function Dismisses(cfg: Config, s: State, a: Action): set<nat>
    requires Enabled(cfg, s, a)
  {
    match a
    case Handler(h) => if h.Publish? && !Ready(s.intake.verification, cfg.capacity) then {h.job} else {}
    case Verify(i, v) =>
      if v.VDrop? || v.VDbReset? || (v.VVerify? && !Passes(s.jobs, s.intake.verifiers[i].job, v.located))
      then {s.intake.verifiers[i].job} else {}
    case ExtractUsers(i, e) => if e.EDrop? then Unextracted(s.intake.extractors[i]) else {}
    case Recover(c) => if c.RecoveryFails? then Unrecovered(s.recovery, s.jobs, s.rows, s.bootJobs) else {}
    case _ => {}
  }

  /** The report of the job is to be published: it is stored, user and report have coordinates, and its text is long
      enough. */
  predicate Passes(jobs: seq<Job>, job: nat, located: bool) {
    job < |jobs| && jobs[job].reportStored && located && jobs[job].described
  }

  /** A database error during a repeated verification sends `job` back to pending. */
  predicate ResetByFault(k: Intake, a: Action, job: nat) {
    a.Verify? && a.v.VDbReset? && a.i < |k.verifiers| && k.verifiers[a.i] == VFetch(job)
  }

  /** Recovery is about to reset `job`, which its earlier scan found in processing. */
  predicate ResetByRecovery(r: Recovery, a: Action, job: nat) {
    a.Recover? && a.c.NextJob? && r.JobLoop? && r.jobs != [] && r.jobs[0] == Stalled(job, true)
  }

  /** The action makes a worker drop the closing of `job`. */
  predicate DropsClosing(m: Mail, a: Action, job: nat) {
    || (a.Notify? && a.n.NDrop? && a.i < |m.notifiers| && job in NotifierClosing(m.notifiers[a.i]))
    || (a.Retry? && a.r.RDrop? && a.i < |m.retriers| && job in RetrierClosing(m.retriers[a.i]))
  }

  /** The action cuts `job` off from its closing or puts it back to pending, in spite of its deliveries. */
  predicate Disturbs(s: State, a: Action, job: nat) {
    || (a.Crash? && job in UnclosedJobs(s.jobs, s.rows))
    || DropsClosing(s.mail, a, job)
    || (ResetByFault(s.intake, a, job) && HasRows(s.rows, job))
    || (ResetByRecovery(s.recovery, a, job) && HasRows(s.rows, job)
        && job < |s.jobs| && s.jobs[job].status.JobProcessing?)
  }

  /** The flags after an action. */
  ghost predicate Recorded(cfg: Config, s: State, a: Action, s': State)
    requires Enabled(cfg, s, a)
  {
    && s'.dropped == (if a.Crash? then {} else s.dropped + Drops(cfg, s, a))
    && s'.touched == s.touched + Touches(cfg, s, a)
    && s'.dismissed == (if a.Crash? then {} else s.dismissed + Dismisses(cfg, s, a))
    && (forall job: nat :: job in s'.disturbed <==> job in s.disturbed || Disturbs(s, a, job))
  }

  lemma FlagsOfMail(cfg: Config, s: State, a: Action)
    requires Enabled(cfg, s, a) && (a.Notify? || a.Retry?)
    ensures Recorded(cfg, s, a, Next(cfg, s, a))
  {
  }

  lemma FlagsOfVerification(cfg: Config, s: State, a: Action)
    requires Enabled(cfg, s, a) && a.Verify?
    ensures Recorded(cfg, s, a, Next(cfg, s, a))
  {
  }

  lemma FlagsOfRecovery(cfg: Config, s: State, a: Action)
    requires Enabled(cfg, s, a) && a.Recover?
    ensures Recorded(cfg, s, a, Next(cfg, s, a))
  {
  }

  lemma FlagsOfExtraction(cfg: Config, s: State, a: Action)
    requires Enabled(cfg, s, a) && a.ExtractUsers?
    ensures Recorded(cfg, s, a, Next(cfg, s, a))
  {
  }

  /** What each step adds to the record, and that it adds no more. */
  lemma FlagsOfStep(cfg: Config, s: State, a: Action)
    requires Enabled(cfg, s, a)
    ensures Recorded(cfg, s, a, Next(cfg, s, a))
  {
    if a.Notify? || a.Retry? {
      FlagsOfMail(cfg, s, a);
    } else if a.Verify? {
      FlagsOfVerification(cfg, s, a);
    } else if a.ExtractUsers? {
      FlagsOfExtraction(cfg, s, a);
    } else if a.Recover? {
      FlagsOfRecovery(cfg, s, a);
    }
  }
}
