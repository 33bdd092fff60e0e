/** The verification worker: `processCurrentJob` and `VerifyReportPostedByUser`. */
module Verification {
  import opened Sequences
  import opened Pipeline
  import opened Deliveries
  import opened Process

  lemma StepOf(cfg: Config, start: State, s: State, i: nat, a: VerifierAction, at: int, s': State)
    requires Arises(cfg, start) && Went(cfg, start, s) && at >= s.now && VerifierEnabled(cfg, s.(now := at), i, a)
    requires s' == VerifierNext(cfg, s.(now := at), i, a)
    ensures Went(cfg, start, s')
  {
    Unpanicked(cfg, start, s);
    StepGoes(cfg, start, s, Verify(i, a), at, s');
  }

  /** Everybody else runs; then a lookup may fail, or a forced shutdown ends the wait for the reports channel. */
  method Survives(p: Server, i: nat, ghost start: State) returns (ok: bool)
    requires Arises(p.cfg, start) && Went(p.cfg, start, p.Abs())
    requires i < |p.intake.verifiers| && (p.intake.verifiers[i].VFetch? || p.intake.verifiers[i].VPublish?)
    modifies p
    ensures Went(p.cfg, start, p.Abs())
    ensures i < |p.intake.verifiers| && p.intake.verifiers[i] == if ok then old(p.intake.verifiers[i]) else VIdle
    ensures !ok ==> old(p.intake.verifiers[i].job) in p.dismissed
    ensures !ok && old(p.intake.verifiers[i]).VPublish? ==> p.cancelled
  {
    p.Others(VerifierSeat(i), start);
    WentOn(p.cfg, start, old(p.Abs()), p.Abs());
    ok := true;
    if p.intake.verifiers[i].VFetch? || p.cancelled {
      ok := *;
    }
    if !ok {
      ghost var s := p.Abs();
      p.dismissed := p.dismissed + {p.intake.verifiers[i].job};
      p.intake := SetVerifier(p.intake, i, VIdle);
      StepOf(p.cfg, start, s, i, VDrop, p.now, p.Abs());
    }
  }

  /** What becomes of a job whose report is looked up: the job goes back to pending because there is no report or
      because the lookup fails; nothing happens for want of coordinates; the report is deleted because its text is too
      short; or it is to be published. */
  datatype Judgement = Missing | LookupFailed | Unlocated | Deleted | ToPublish

  function Judged(job: Job, located: bool): Judgement {
    if !job.reportStored then Missing else if !located then Unlocated else if job.described then ToPublish else Deleted
  }

  function JudgedJob(job: Job, j: Judgement): Job {
    match j
    case Missing => job.(status := JobPending, attempts := job.attempts + 1)
    case LookupFailed => job.(status := JobPending, attempts := job.attempts + 1)
    case Deleted => job.(reportStored := false)
    case _ => job
  }

  /** What each judgement says about the job and its report. */
  predicate Justified(job: Job, located: bool, j: Judgement) {
    match j
    case Missing => !job.reportStored
    case LookupFailed => true
    case Unlocated => job.reportStored && !located
    case Deleted => job.reportStored && located && !job.described
    case ToPublish => job.reportStored && located && job.described
  }

  /** Only the job of the message has changed: a reset adds exactly one attempt, a deletion takes the report. */
  ghost predicate OnlyJob(jobs: seq<Job>, jobs': seq<Job>, id: nat, j: Judgement) {
    && |jobs'| == |jobs| && id < |jobs|
    && (j.Missing? || j.LookupFailed? ==>
          var Job(_, attempts, place, described, reportStored) := jobs[id];
          jobs'[id] == Job(JobPending, attempts + 1, place, described, reportStored))
    && (j.Deleted? ==>
          var Job(status, attempts, place, described, _) := jobs[id];
          jobs'[id] == Job(status, attempts, place, described, false))
    && (j.Unlocated? || j.ToPublish? ==> jobs'[id] == jobs[id])
    && forall k :: 0 <= k < |jobs| && k != id ==> jobs'[k] == jobs[k]
  }

  /** The judgement is the one of the step system. */
  lemma JudgesAlike(jobs: seq<Job>, id: nat, located: bool)
    requires id < |jobs|
    ensures var r, j := Judge(JobAt(jobs, id), located, id), Judged(jobs[id], located);
            && r.0 == (if j.ToPublish? then VPublish(id) else VIdle)
            && WriteJob(jobs, id, r.1) == jobs[id := JudgedJob(jobs[id], j)]
  {
  }

  lemma VerifiedOf(cfg: Config, start: State, s: State, i: nat, located: bool, s': State)
    requires Arises(cfg, start) && Went(cfg, start, s) && s'.now >= s.now && i < |s.intake.verifiers|
    requires s.intake.verifiers[i].VFetch? && s.intake.verifiers[i].job < |s.jobs|
    requires var id := s.intake.verifiers[i].job;
             var j := Judged(s.jobs[id], located);
             && s'.jobs == s.jobs[id := JudgedJob(s.jobs[id], j)]
             && s'.intake == SetVerifier(s.intake, i, if j.ToPublish? then VPublish(id) else VIdle)
             && s'.dismissed == if j.ToPublish? then s.dismissed else s.dismissed + {id}
    requires s' == s.(now := s'.now, jobs := s'.jobs, intake := s'.intake, dismissed := s'.dismissed)
    ensures Went(cfg, start, s')
  {
    JudgesAlike(s.jobs, s.intake.verifiers[i].job, located);
    StepOf(cfg, start, s, i, VVerify(located), s'.now, s');
  }

  method JudgeReport(p: Server, id: nat, located: bool) returns (j: Judgement)
    requires id < |p.jobs|
    modifies p`jobs
    ensures Justified(old(p.jobs)[id], located, j) && !j.LookupFailed? && OnlyJob(old(p.jobs), p.jobs, id, j)
    ensures j == Judged(old(p.jobs)[id], located) && p.jobs == old(p.jobs)[id := JudgedJob(old(p.jobs)[id], j)]
  {
    var job := p.jobs[id];
    if !job.reportStored {
      p.jobs := p.jobs[id := job.(status := JobPending, attempts := job.attempts + 1)];
      j := Missing;
    } else if !located {
      j := Unlocated;
    } else if job.described {
      j := ToPublish;
    } else {
      p.jobs := p.jobs[id := job.(reportStored := false)];
      j := Deleted;
    }
  }

  /** The worker goes on to publish the report, or lets go of the job. */
  method MoveOn(p: Server, i: nat, id: nat, j: Judgement)
    requires i < |p.intake.verifiers|
    modifies p`intake, p`dismissed
    ensures p.intake == SetVerifier(old(p.intake), i, if j.ToPublish? then VPublish(id) else VIdle)
    ensures p.dismissed == if j.ToPublish? then old(p.dismissed) else old(p.dismissed) + {id}
  {
    if j.ToPublish? {
      p.intake := SetVerifier(p.intake, i, VPublish(id));
    } else {
      p.intake := SetVerifier(p.intake, i, VIdle);
      p.dismissed := p.dismissed + {id};
    }
  }

  /** Looks job and report up and judges the report. `located` says whether user and report have coordinates. */
  method VerifyReport(p: Server, i: nat, located: bool, ghost start: State) returns (j: Judgement)
    requires Arises(p.cfg, start) && Went(p.cfg, start, p.Abs()) && i < |p.intake.verifiers|
    requires p.intake.verifiers[i].VFetch? && p.intake.verifiers[i].job < |p.jobs|
    modifies p`now, p`jobs, p`intake, p`dismissed
    ensures Went(p.cfg, start, p.Abs()) && !j.LookupFailed?
    ensures var id := old(p.intake.verifiers[i].job);
            && Justified(old(p.jobs)[id], located, j) && OnlyJob(old(p.jobs), p.jobs, id, j)
            && p.intake == SetVerifier(old(p.intake), i, if j.ToPublish? then VPublish(id) else VIdle)
            && p.dismissed == if j.ToPublish? then old(p.dismissed) else old(p.dismissed) + {id}
  {
    ghost var s := p.Abs();
    p.Tick();
    var id := p.intake.verifiers[i].job;
    j := JudgeReport(p, id, located);
    MoveOn(p, i, id, j);
    VerifiedOf(p.cfg, start, s, i, located, p.Abs());
  }

  /** `UPDATE jobs SET status = 'pending', attempts = attempts + 1 WHERE id = ?` */
  method ReturnToPending(p: Server, id: nat)
    requires id < |p.jobs|
    modifies p`jobs, p`disturbed
    ensures p.jobs == WriteJob(old(p.jobs), id, Returned(JobAt(old(p.jobs), id)))
    ensures p.disturbed == if HasRows(p.rows, id) then old(p.disturbed) + {id} else old(p.disturbed)
  {
    p.jobs := p.jobs[id := p.jobs[id].(status := JobPending, attempts := p.jobs[id].attempts + 1)];
    if HasRows(p.rows, id) {
      p.disturbed := p.disturbed + {id};
    }
  }

  /** The lookup of the report or the user fails: the job goes back to pending, whatever its status. */
  method ResetJob(p: Server, i: nat, ghost start: State)
    requires Arises(p.cfg, start) && Went(p.cfg, start, p.Abs()) && i < |p.intake.verifiers|
    requires p.intake.verifiers[i].VFetch? && p.intake.verifiers[i].job < |p.jobs|
    modifies p`now, p`jobs, p`intake, p`disturbed, p`dismissed
    ensures Went(p.cfg, start, p.Abs()) && p.intake == SetVerifier(old(p.intake), i, VIdle)
    ensures OnlyJob(old(p.jobs), p.jobs, old(p.intake.verifiers[i].job), LookupFailed)
    ensures var id := old(p.intake.verifiers[i].job);
            && p.disturbed == (if HasRows(p.rows, id) then old(p.disturbed) + {id} else old(p.disturbed))
            && p.dismissed == old(p.dismissed) + {id}
  {
    ghost var s := p.Abs();
    p.Tick();
    var id := p.intake.verifiers[i].job;
    ReturnToPending(p, id);
    p.dismissed := p.dismissed + {id};
    p.intake := SetVerifier(p.intake, i, VIdle);
    StepOf(p.cfg, start, s, i, VDbReset, p.now, p.Abs());
  }

  method PublishReport(p: Server, i: nat, ghost start: State)
    requires Arises(p.cfg, start) && Went(p.cfg, start, p.Abs()) && i < |p.intake.verifiers|
    requires p.intake.verifiers[i].VPublish?
    requires Ready(p.intake.reports, p.cfg.capacity)
    modifies p`now, p`intake, p`panicked
    ensures Went(p.cfg, start, p.Abs())
    ensures p.intake == SetVerifier(old(p.intake), i, VIdle).(reports := Offer(old(p.intake).reports,
        old(p.intake.verifiers[i].job)))
  {
    ghost var s := p.Abs();
    p.Tick();
    p.panicked := p.intake.reports.closed;
    p.intake := SetVerifier(p.intake, i, VIdle).(reports := Offer(p.intake.reports, p.intake.verifiers[i].job));
    StepOf(p.cfg, start, s, i, VSend, p.now, p.Abs());
  }

  lemma MessageNamesJob(cfg: Config, start: State, s: State, i: nat)
    requires Arises(cfg, start) && Went(cfg, start, s) && i < |s.intake.verifiers|
    requires s.intake.verifiers[i].VFetch? || s.intake.verifiers[i].VPublish?
    ensures s.intake.verifiers[i].job < |s.jobs| && (s.intake.verifiers[i].VPublish? ==> !s.intake.reports.closed)
  {
    ArisesIsSafe(cfg, start, s);
    assert VerifierOk(|s.jobs|, s.intake.verifiers[i]);
  }

  /** How the work on a message ended: broken off by an error, or judged, with the report published, still waiting for
      room in the reports channel, or held back by a forced shutdown, if that was the judgement. */
  datatype Outcome = Broken | Settled(judgement: Judgement) | Published | AwaitsRoom | HeldBack

  method FetchAndJudge(p: Server, i: nat, located: bool, ghost start: State) returns (j: Judgement)
    requires Arises(p.cfg, start) && Went(p.cfg, start, p.Abs()) && i < |p.intake.verifiers|
    requires p.intake.verifiers[i].VFetch? && p.intake.verifiers[i].job < |p.jobs|
    modifies p`now, p`jobs, p`intake, p`disturbed, p`dismissed
    ensures Went(p.cfg, start, p.Abs())
    ensures var id := old(p.intake.verifiers[i].job);
            && Justified(old(p.jobs)[id], located, j) && OnlyJob(old(p.jobs), p.jobs, id, j)
            && p.intake == SetVerifier(old(p.intake), i, if j.ToPublish? then VPublish(id) else VIdle)
            && (!j.ToPublish? ==> id in p.dismissed)
  {
    var fails: bool := *;
    if fails {
      ResetJob(p, i, start);
      j := LookupFailed;
    } else {
      j := VerifyReport(p, i, located, start);
    }
  }

  /** Waits for room in the reports channel. */
  method Send(p: Server, i: nat, ghost start: State) returns (how: Outcome)
    requires Arises(p.cfg, start) && Went(p.cfg, start, p.Abs()) && i < |p.intake.verifiers|
    requires p.intake.verifiers[i].VPublish?
    modifies p
    ensures Went(p.cfg, start, p.Abs()) && !how.Settled? && !how.Broken?
    ensures var id := old(p.intake.verifiers[i].job);
            && i < |p.intake.verifiers|
            && p.intake.verifiers[i] == (if how.AwaitsRoom? then VPublish(id) else VIdle)
            && (how.HeldBack? ==> id in p.dismissed && p.cancelled)
            && (how.Published? ==> p.intake.reports.queue != [] && Last(p.intake.reports.queue) == id)
  {
    var ok := Survives(p, i, start);
    if !ok {
      return HeldBack;
    }
    MessageNamesJob(p.cfg, start, p.Abs(), i);
    if !Ready(p.intake.reports, p.cfg.capacity) {
      return AwaitsRoom;
    }
    PublishReport(p, i, start);
    how := Published;
  }

  /** The whole of `processCurrentJob`, for one message. `seen` is the state in which job and report were looked up: the
      judgement is the one that this state calls for, or the lookup failed; a job that is not to be published is left
      as the judgement says, and no other job is changed with it; a report to be published is then in the reports
      channel, unless the worker still waits for room or a forced shutdown has ended its wait. */
  method ProcessCurrentJob(p: Server, i: nat, located: bool) returns (how: Outcome, ghost seen: State)
    requires Arises(p.cfg, p.Abs()) && i < |p.intake.verifiers| && p.intake.verifiers[i].VFetch?
    modifies p
    ensures Went(p.cfg, old(p.Abs()), seen) && Went(p.cfg, seen, p.Abs())
    ensures var id := old(p.intake.verifiers[i].job);
            && i < |p.intake.verifiers| && id < |seen.jobs|
            && p.intake.verifiers[i] == (if how.AwaitsRoom? then VPublish(id) else VIdle)
            && (how.Settled? ==>
                  && Justified(seen.jobs[id], located, how.judgement) && !how.judgement.ToPublish?
                  && OnlyJob(seen.jobs, p.jobs, id, how.judgement))
            && (how.Settled? || how.Broken? || how.HeldBack? ==> id in p.dismissed)
            && (how.HeldBack? ==> p.cancelled)
            && (how.Published? || how.AwaitsRoom? || how.HeldBack? ==>
                  located && seen.jobs[id].reportStored && seen.jobs[id].described)
            && (how.Published? ==> p.intake.reports.queue != [] && Last(p.intake.reports.queue) == id)
  {
    ghost var start := p.Abs();
    MessageNamesJob(p.cfg, start, p.Abs(), i);
    seen := p.Abs();
    var ok := Survives(p, i, start);
    if !ok {
      return Broken, seen;
    }
    MessageNamesJob(p.cfg, start, p.Abs(), i);
    seen := p.Abs();
    ArisesLater(p.cfg, start, seen);
    var j := FetchAndJudge(p, i, located, seen);
    if !j.ToPublish? {
      return Settled(j), seen;
    }
    how := Send(p, i, seen);
  }
}
