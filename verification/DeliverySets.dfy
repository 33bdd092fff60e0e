/** The set of deliveries of a job: it appears in one step, it is exactly the set of affected users that this
    process loaded at its start, and it never changes afterwards, however often the job is verified and extracted. */
module DeliverySets {
  import opened Sequences
  import opened Pipeline
  import opened Frames
  import opened Deliveries
  import IdempotencyKey

  // ---------------------------------------------------------------- jobs that may still be extracted

  predicate VerifierHolds(w: Verifier, job: nat) {
    w == VFetch(job) || w == VPublish(job)
  }

  ghost predicate VerifiersHold(ws: seq<Verifier>, job: nat) {
    exists i :: 0 <= i < |ws| && VerifierHolds(ws[i], job)
  }

  ghost predicate ExtractorsHold(ws: seq<Extractor>, job: nat) {
    exists i :: 0 <= i < |ws| && ws[i] == EBuild(job)
  }

  ghost predicate InIntake(k: Intake, job: nat) {
    || job in k.handlers
    || job in k.verification.queue
    || VerifiersHold(k.verifiers, job)
    || job in k.reports.queue
    || ExtractorsHold(k.extractors, job)
  }

  ghost predicate InRecovery(r: Recovery, job: nat) {
    match r
    case JobLoop(todo) => exists k :: 0 <= k < |todo| && todo[k].job == job
    case JobPublish(next, todo) => next == job || exists k :: 0 <= k < |todo| && todo[k].job == job
    case _ => false
  }

  ghost predicate IsLive(s: State, job: nat) {
    InIntake(s.intake, job) || InRecovery(s.recovery, job)
  }

  // ---------------------------------------------------------------- the invariant

  ghost predicate HasRow(rows: seq<Delivery>, job: nat, user: nat) {
    exists i :: 0 <= i < |rows| && rows[i].job == job && rows[i].user == user
  }

  /** The rows of a job are for exactly the users its report affects. */
  ghost predicate Matched(cfg: Config, users: seq<User>, place: int, rows: seq<Delivery>, job: nat) {
    forall user :: HasRow(rows, job, user) <==> user in Affected(cfg, users, place)
  }

  ghost predicate SetOk(cfg: Config, s: State, job: nat) {
    job < |s.jobs| && HasRows(s.rows, job) && IsLive(s, job) ==> Matched(cfg, s.users, s.jobs[job].place, s.rows, job)
  }

  ghost predicate SetInv(cfg: Config, s: State) {
    && UniqueIndex(s.rows)
    && DistinctUsers(s.users)
    && forall job: nat :: SetOk(cfg, s, job)
  }

  // ---------------------------------------------------------------- extraction

  lemma {:induction false} AffectedAreUsers(cfg: Config, users: seq<User>, place: int, k: nat)
    requires k < |Affected(cfg, users, place)|
    ensures exists i :: 0 <= i < |users| && users[i].id == Affected(cfg, users, place)[k]
    decreases |users|
  {
    var rest := Affected(cfg, Init(users), place);
    if k < |rest| {
      AffectedAreUsers(cfg, Init(users), place, k);
      var i :| 0 <= i < |Init(users)| && Init(users)[i].id == rest[k];
      assert users[i].id == rest[k];
    } else {
      assert users[|users| - 1].id == Affected(cfg, users, place)[k];
    }
  }

  ghost predicate Distinct(ids: seq<nat>) {
    forall i, k :: 0 <= i < k < |ids| ==> ids[i] != ids[k]
  }

  lemma {:induction false} AffectedAreDistinct(cfg: Config, users: seq<User>, place: int)
    requires DistinctUsers(users)
    ensures Distinct(Affected(cfg, users, place))
    decreases |users|
  {
    if users != [] {
      var rest, ids := Affected(cfg, Init(users), place), Affected(cfg, users, place);
      AffectedAreDistinct(cfg, Init(users), place);
      forall i, k | 0 <= i < k < |ids| ensures ids[i] != ids[k] {
        assert ids[i] == rest[i];
        if k == |rest| {
          AffectedAreUsers(cfg, Init(users), place, i);
          var u :| 0 <= u < |Init(users)| && Init(users)[u].id == rest[i];
          assert users[u].id != users[|users| - 1].id;
        }
      }
    }
  }

  /** A job without rows always gets its whole batch. */
  lemma FirstExtractionCommits(rows: seq<Delivery>, job: nat, ids: seq<nat>)
    requires UniqueIndex(rows) && !HasRows(rows, job)
    requires Distinct(ids)
    ensures UniqueIndex(rows + NewRows(job, ids))
  {
  }

  lemma RowsAfterBatch(rows: seq<Delivery>, job: nat, ids: seq<nat>)
    requires !HasRows(rows, job)
    ensures forall user :: HasRow(rows + NewRows(job, ids), job, user) <==> user in ids
  {
    var all := rows + NewRows(job, ids);
    forall user | HasRow(all, job, user) ensures user in ids {
      var i :| 0 <= i < |all| && all[i].job == job && all[i].user == user;
      assert i >= |rows| && ids[i - |rows|] == user;
    }
    forall user | user in ids ensures HasRow(all, job, user) {
      var k :| 0 <= k < |ids| && ids[k] == user;
      assert all[|rows| + k].job == job && all[|rows| + k].user == user;
    }
  }

  /** A second extraction collides on the unique index and rolls back. */
  lemma SecondExtractionCollides(cfg: Config, users: seq<User>, place: int, rows: seq<Delivery>, job: nat)
    requires HasRows(rows, job) && Matched(cfg, users, place, rows, job)
    ensures var batch := NewRows(job, Affected(cfg, users, place)); batch != [] && !UniqueIndex(rows + batch)
  {
    var batch := NewRows(job, Affected(cfg, users, place));
    var i :| 0 <= i < |rows| && rows[i].job == job;
    assert HasRow(rows, job, rows[i].user);
    var k :| 0 <= k < |Affected(cfg, users, place)| && Affected(cfg, users, place)[k] == rows[i].user;
    assert (rows + batch)[|rows| + k] == batch[k] && (rows + batch)[i] == rows[i];
  }

  /** What committing a live job does to rows: nothing if it has rows already, otherwise exactly its affected users. */
  lemma ExtractionOutcome(cfg: Config, s: State, i: nat)
    requires BaseInv(cfg, s) && SetInv(cfg, s)
    requires ExtractorEnabled(cfg, s, i, ECommit)
    ensures var job, s' := s.intake.extractors[i].job, ExtractorNext(cfg, s, i, ECommit);
            && job < |s.jobs|
            && (HasRows(s.rows, job) ==> s'.rows == s.rows && s'.jobs == s.jobs)
            && (!HasRows(s.rows, job) ==>
                  && s'.rows == s.rows + NewRows(job, Affected(cfg, s.users, s.jobs[job].place))
                  && UniqueIndex(s'.rows) && Matched(cfg, s.users, s.jobs[job].place, s'.rows, job))
  {
    var job := s.intake.extractors[i].job;
    var place := s.jobs[job].place;
    assert ExtractorOk(|s.rows|, |s.jobs|, s.intake.extractors[i]);
    assert ExtractorsHold(s.intake.extractors, job);
    assert SetOk(cfg, s, job);
    if HasRows(s.rows, job) {
      SecondExtractionCollides(cfg, s.users, place, s.rows, job);
    } else {
      AffectedAreDistinct(cfg, s.users, place);
      FirstExtractionCommits(s.rows, job, Affected(cfg, s.users, place));
      RowsAfterBatch(s.rows, job, Affected(cfg, s.users, place));
      assert s.rows + [] == s.rows;
    }
  }

  // ---------------------------------------------------------------- jobs only move along the pipeline

  lemma ExtractorsHoldAfter(ws: seq<Extractor>, i: nat, w: Extractor, job: nat)
    requires i < |ws| && ExtractorsHold(ws[i := w], job)
    ensures w == EBuild(job) || ExtractorsHold(ws, job)
  {
  }

  lemma ExtractorLive(cfg: Config, s: State, i: nat, a: ExtractorAction, job: nat)
    requires ExtractorEnabled(cfg, s, i, a) && InIntake(ExtractorNext(cfg, s, i, a).intake, job)
    ensures InIntake(s.intake, job)
  {
    var w' := ExtractorNext(cfg, s, i, a).intake.extractors[i];
    if ExtractorsHold(s.intake.extractors[i := w'], job) {
      ExtractorsHoldAfter(s.intake.extractors, i, w', job);
    }
  }

  lemma {:induction false} StalledJobsHaveNoRows(jobs: seq<Job>, rows: seq<Delivery>, k: nat)
    requires k < |StalledJobs(jobs, rows)|
    ensures !HasRows(rows, StalledJobs(jobs, rows)[k].job)
    decreases |jobs|
  {
    if k < |StalledJobs(Init(jobs), rows)| {
      StalledJobsHaveNoRows(Init(jobs), rows, k);
    }
  }

  lemma RecoveryLive(cfg: Config, s: State, a: RecoveryAction, job: nat)
    requires RecoveryEnabled(cfg, s, a)
    requires var s' := RecoveryNext(cfg, s, a); IsLive(s', job) && HasRows(s.rows, job)
    ensures IsLive(s, job)
  {
    var s' := RecoveryNext(cfg, s, a);
    if a.ScanJobs? {
      if InRecovery(s'.recovery, job) {
        var k :| 0 <= k < |s'.recovery.jobs| && s'.recovery.jobs[k].job == job;
        StalledJobsHaveNoRows(s.jobs, s.rows, k);
      }
    } else if a.NextJob? && s.recovery.jobs != [] {
      if InRecovery(s'.recovery, job) {
        RecoveryListShrinks(s.recovery.jobs, s'.recovery, job);
      }
    }
  }

  lemma RecoveryListShrinks(todo: seq<Stalled>, r: Recovery, job: nat)
    requires todo != [] && InRecovery(r, job)
    requires r == JobPublish(todo[0].job, todo[1..]) || r == JobLoop(todo[1..])
    ensures InRecovery(JobLoop(todo), job)
  {
  }

  // ---------------------------------------------------------------- jobs keep what they are about

  ghost predicate JobEvolves(j: Job, j': Job) {
    j'.place == j.place && j'.described == j.described && (j.described && j.reportStored ==> j'.reportStored)
  }

  ghost predicate JobsEvolve(jobs: seq<Job>, jobs': seq<Job>) {
    && |jobs| <= |jobs'|
    && (forall j :: 0 <= j < |jobs| ==> JobEvolves(jobs[j], jobs'[j]))
    && (forall j :: |jobs| <= j < |jobs'| ==> jobs'[j].reportStored)
  }

  lemma ExtractorKeepsPlaces(cfg: Config, s: State, i: nat, a: ExtractorAction)
    requires ExtractorEnabled(cfg, s, i, a)
    ensures JobsEvolve(s.jobs, ExtractorNext(cfg, s, i, a).jobs)
  {
  }

  lemma MailKeepsPlaces(cfg: Config, s: State, a: Action)
    requires Enabled(cfg, s, a) && (a.Notify? || a.Retry?)
    ensures JobsEvolve(s.jobs, Next(cfg, s, a).jobs)
  {
    if a.Notify? && NotifierIsLocal(a.n) {
      var tally, l := NotifierWrites(cfg, s, a.i, a.n);
    } else if a.Retry? && RetrierIsLocal(a.r) {
      var tally, l := RetrierWrites(cfg, s, a.i, a.r);
    }
  }

  lemma NextKeepsPlaces(cfg: Config, s: State, a: Action)
    requires Enabled(cfg, s, a)
    ensures JobsEvolve(s.jobs, Next(cfg, s, a).jobs)
  {
    match a
    case ExtractUsers(i, e) => ExtractorKeepsPlaces(cfg, s, i, e);
    case Notify(_, _) => MailKeepsPlaces(cfg, s, a);
    case Retry(_, _) => MailKeepsPlaces(cfg, s, a);
    case Shutdown(d) => ShutdownLeaves(s, d);
    case Handler(_) =>
    case Verify(_, _) =>
    case Recover(_) =>
    case Crash(_) =>
  }

  // ---------------------------------------------------------------- one action

  lemma SameSets(rows: seq<Delivery>, rows': seq<Delivery>, job: nat)
    requires RowsEvolve(rows, rows') && |rows| == |rows'|
    ensures HasRows(rows', job) <==> HasRows(rows, job)
    ensures forall user :: HasRow(rows', job, user) <==> HasRow(rows, job, user)
  {
  }

  lemma SetsOfOtherJobs(rows: seq<Delivery>, batch: seq<Delivery>, job: nat)
    requires forall k :: 0 <= k < |batch| ==> batch[k].job != job
    ensures HasRows(rows + batch, job) <==> HasRows(rows, job)
    ensures forall user :: HasRow(rows + batch, job, user) <==> HasRow(rows, job, user)
  {
    var all := rows + batch;
    forall i | |rows| <= i < |all| ensures all[i].job != job {
      assert all[i] == batch[i - |rows|];
    }
    if HasRows(rows, job) {
      var i :| 0 <= i < |rows| && rows[i].job == job;
      assert all[i].job == job;
    }
    forall user | HasRow(rows, job, user) ensures HasRow(all, job, user) {
      var i :| 0 <= i < |rows| && rows[i].job == job && rows[i].user == user;
      assert all[i] == rows[i];
    }
    forall user | HasRow(all, job, user) ensures HasRow(rows, job, user) {
      var i :| 0 <= i < |all| && all[i].job == job && all[i].user == user;
      assert i < |rows|;
    }
  }

  lemma UniqueIndexOfEvolved(rows: seq<Delivery>, rows': seq<Delivery>)
    requires UniqueIndex(rows) && RowsEvolve(rows, rows') && |rows| == |rows'|
    ensures UniqueIndex(rows')
  {
  }

  /** Outside the extraction transaction and a crash, rows keep their jobs and users and no job with rows becomes
      live. */
  lemma LiveFlows(cfg: Config, s: State, a: Action, job: nat)
    requires BaseInv(cfg, s) && Enabled(cfg, s, a) && !a.Crash?
    requires IsLive(Next(cfg, s, a), job) && HasRows(s.rows, job)
    ensures IsLive(s, job)
  {
    StepLeaves(cfg, s, a);
    RowsNameJobs(cfg, s, job);
    match a
    case ExtractUsers(i, e) => if InIntake(Next(cfg, s, a).intake, job) { ExtractorLive(cfg, s, i, e, job); }
    case Recover(c) => RecoveryLive(cfg, s, c, job);
    case Verify(_, _) =>
    case Notify(_, _) =>
    case Retry(_, _) =>
    case Shutdown(_) =>
    case Handler(_) =>
  }

  lemma QuietRows(cfg: Config, s: State, a: Action)
    requires BaseInv(cfg, s) && Enabled(cfg, s, a) && !(a.ExtractUsers? && a.e.ECommit?)
    ensures |Next(cfg, s, a).rows| == |s.rows| && RowsEvolve(s.rows, Next(cfg, s, a).rows)
  {
    NextKeepsBase(cfg, s, a);
    if a.Notify? {
      assert NotifierOk(s.rows, |s.jobs|, s.mail.notifiers[a.i]);
      NotifierFrame(cfg, s, a.i, a.n);
    } else if a.Retry? {
      assert RetrierOk(cfg, s.rows, |s.jobs|, s.mail.retriers[a.i]);
      RetrierFrame(cfg, s, a.i, a.r);
    } else if IsUpstream(a) {
      UpstreamFrame(cfg, s, a);
    }
  }

  lemma QuietStepKeepsSets(cfg: Config, s: State, a: Action)
    requires BaseInv(cfg, s) && SetInv(cfg, s) && Enabled(cfg, s, a) && !a.Crash? && !(a.ExtractUsers? && a.e.ECommit?)
    ensures SetInv(cfg, Next(cfg, s, a))
  {
    var s' := Next(cfg, s, a);
    QuietRows(cfg, s, a);
    NextKeepsPlaces(cfg, s, a);
    UniqueIndexOfEvolved(s.rows, s'.rows);
    StepLeaves(cfg, s, a);
    forall job: nat ensures SetOk(cfg, s', job) {
      SameSets(s.rows, s'.rows, job);
      if HasRows(s.rows, job) && IsLive(s', job) {
        LiveFlows(cfg, s, a, job);
        RowsNameJobs(cfg, s, job);
        assert SetOk(cfg, s, job);
        assert JobEvolves(s.jobs[job], s'.jobs[job]);
      }
    }
  }

  lemma RowsNameJobs(cfg: Config, s: State, job: nat)
    requires RowsOk(cfg, |s.jobs|, s.rows) && HasRows(s.rows, job)
    ensures job < |s.jobs|
  {
  }

  lemma CommitKeepsSets(cfg: Config, s: State, i: nat)
    requires BaseInv(cfg, s) && SetInv(cfg, s) && ExtractorEnabled(cfg, s, i, ECommit)
    ensures SetInv(cfg, ExtractorNext(cfg, s, i, ECommit))
  {
    var s', own := ExtractorNext(cfg, s, i, ECommit), s.intake.extractors[i].job;
    ExtractionOutcome(cfg, s, i);
    ExtractorKeepsPlaces(cfg, s, i, ECommit);
    forall job: nat ensures SetOk(cfg, s', job) {
      if HasRows(s'.rows, job) && IsLive(s', job) && job < |s'.jobs| {
        assert JobEvolves(s.jobs[job], s'.jobs[job]);
        if job != own && !HasRows(s.rows, own) {
          SetsOfOtherJobs(s.rows, NewRows(own, Affected(cfg, s.users, s.jobs[own].place)), job);
        }
        if HasRows(s.rows, job) {
          if InIntake(s'.intake, job) {
            ExtractorLive(cfg, s, i, ECommit, job);
          }
          assert SetOk(cfg, s, job);
        }
      }
    }
  }

  lemma CrashKeepsSets(cfg: Config, s: State, users: seq<User>)
    requires SetInv(cfg, s) && DistinctUsers(users)
    ensures SetInv(cfg, Boot(cfg, s, users))
  {
  }

  lemma NextKeepsSets(cfg: Config, s: State, a: Action)
    requires BaseInv(cfg, s) && SetInv(cfg, s) && Enabled(cfg, s, a)
    ensures SetInv(cfg, Next(cfg, s, a))
  {
    match a
    case Crash(users) => CrashKeepsSets(cfg, s, users);
    case ExtractUsers(i, ECommit) => CommitKeepsSets(cfg, s, i);
    case _ => QuietStepKeepsSets(cfg, s, a);
  }

  // ---------------------------------------------------------------- what this means

  /** A step that gives a job its first rows gives it all of them; a step never adds rows to a job that has some. */
  lemma SetsAppearAtOnceAndStay(cfg: Config, s: State, a: Action, job: nat)
    requires BaseInv(cfg, s) && SetInv(cfg, s) && Enabled(cfg, s, a)
    ensures var s' := Next(cfg, s, a);
            && (HasRows(s.rows, job) ==> forall user :: HasRow(s'.rows, job, user) <==> HasRow(s.rows, job, user))
            && (!HasRows(s.rows, job) && HasRows(s'.rows, job) ==>
                  job < |s.jobs| && Matched(cfg, s.users, s.jobs[job].place, s'.rows, job))
  {
    var s' := Next(cfg, s, a);
    if a.ExtractUsers? && a.e.ECommit? {
      var own := s.intake.extractors[a.i].job;
      ExtractionOutcome(cfg, s, a.i);
      if job != own && !HasRows(s.rows, own) {
        SetsOfOtherJobs(s.rows, NewRows(own, Affected(cfg, s.users, s.jobs[own].place)), job);
      }
    } else {
      QuietRows(cfg, s, a);
      SameSets(s.rows, s'.rows, job);
    }
  }

  /** No two deliveries share a provider key, in one process or across restarts. */
  lemma KeysNeverClash(rows: seq<Delivery>)
    ensures UniqueIndex(rows) <==>
              forall i, k :: 0 <= i < k < |rows| ==>
                IdempotencyKey.Key(rows[i].job, rows[i].user) != IdempotencyKey.Key(rows[k].job, rows[k].user)
  {
    forall i, k | 0 <= i < k < |rows|
      ensures IdempotencyKey.Key(rows[i].job, rows[i].user) == IdempotencyKey.Key(rows[k].job, rows[k].user)
         <==> rows[i].job == rows[k].job && rows[i].user == rows[k].user
    {
      IdempotencyKey.KeyIsInjective(rows[i].job, rows[i].user, rows[k].job, rows[k].user);
    }
  }
}
