/** The extraction worker: the loop over the users loaded at the start, the transaction that stores all deliveries of
    a job, and the publication of their ids. */
module Extraction {
  import opened Wrappers
  import opened Sequences
  import opened Pipeline
  import opened Deliveries
  import opened DeliverySets
  import opened Guarantees
  import opened Process

  // ---------------------------------------------------------------- who is affected

  predicate IsAffected(cfg: Config, u: User, place: int) {
    u.place.Some? && cfg.near(place, u.place.value)
  }

  method CollectAffected(cfg: Config, users: seq<User>, place: int) returns (ids: seq<nat>)
    ensures ids == Affected(cfg, users, place)
    ensures forall id :: id in ids <==>
        exists k :: 0 <= k < |users| && users[k].id == id && IsAffected(cfg, users[k], place)
  {
    ids := [];
    for k := 0 to |users|
      invariant ids == Affected(cfg, users[..k], place)
      invariant forall j :: 0 <= j < k && IsAffected(cfg, users[j], place) ==> users[j].id in ids
      invariant forall id :: id in ids ==>
          exists j :: 0 <= j < k && users[j].id == id && IsAffected(cfg, users[j], place)
    {
      assert Init(users[..k + 1]) == users[..k];
      if users[k].place.Some? && cfg.near(place, users[k].place.value) {
        ids := ids + [users[k].id];
        assert users[k].id in ids;
      }
    }
    assert users[..|users|] == users;
  }

  // ---------------------------------------------------------------- the transaction

  predicate Collides(rows: seq<Delivery>, d: Delivery) {
    exists i :: 0 <= i < |rows| && rows[i].job == d.job && rows[i].user == d.user
  }

  /** Inserts row after row; the first violation of the unique index rolls everything back. */
  method InsertAll(rows: seq<Delivery>, batch: seq<Delivery>) returns (inserted: bool, rows': seq<Delivery>)
    requires UniqueIndex(rows)
    ensures inserted <==> UniqueIndex(rows + batch)
    ensures rows' == if inserted then rows + batch else rows
  {
    rows' := rows;
    assert rows + batch[..0] == rows;
    for k := 0 to |batch|
      invariant rows' == rows + batch[..k] && UniqueIndex(rows')
    {
      assert rows + batch[..k + 1] == rows' + [batch[k]];
      if Collides(rows', batch[k]) {
        var i :| 0 <= i < |rows'| && rows'[i].job == batch[k].job && rows'[i].user == batch[k].user;
        assert (rows + batch)[i] == rows'[i] && (rows + batch)[|rows| + k] == batch[k];
        return false, rows;
      }
      rows' := rows' + [batch[k]];
    }
    assert batch[..|batch|] == batch;
    inserted := true;
  }

  // ---------------------------------------------------------------- steps of the worker

  lemma StepOf(cfg: Config, start: State, s: State, i: nat, a: ExtractorAction, at: int, s': State)
    requires Arises(cfg, start) && Went(cfg, start, s) && at >= s.now && ExtractorEnabled(cfg, s.(now := at), i, a)
    requires s' == ExtractorNext(cfg, s.(now := at), i, a)
    ensures Went(cfg, start, s')
  {
    Unpanicked(cfg, start, s);
    StepGoes(cfg, start, s, ExtractUsers(i, a), at, s');
  }

  /** The worker gives up: the ids that are still to be sent stay unsent, and a report in its hand is let go of. */
  method GiveUp(p: Server, i: nat, ghost start: State)
    requires Arises(p.cfg, start) && Went(p.cfg, start, p.Abs())
    requires i < |p.intake.extractors| && (p.intake.extractors[i].EBuild? || p.intake.extractors[i].EPublish?)
    modifies p`intake, p`dropped, p`touched, p`dismissed
    ensures Went(p.cfg, start, p.Abs()) && p.intake == SetExtractor(old(p.intake), i, EIdle)
    ensures Unpublished(old(p.intake.extractors[i])) <= p.touched
    ensures Unextracted(old(p.intake.extractors[i])) <= p.dismissed
  {
    ghost var s := p.Abs();
    var w := p.intake.extractors[i];
    p.dropped, p.touched := p.dropped + Unpublished(w), p.touched + Unpublished(w);
    p.dismissed := p.dismissed + Unextracted(w);
    p.intake := SetExtractor(p.intake, i, EIdle);
    StepOf(p.cfg, start, s, i, EDrop, p.now, p.Abs());
  }

  /** Everybody else runs; then a statement or a wait may fail. */
  method Survives(p: Server, i: nat, ghost start: State) returns (ok: bool)
    requires Arises(p.cfg, start) && Went(p.cfg, start, p.Abs())
    requires i < |p.intake.extractors| && (p.intake.extractors[i].EBuild? || p.intake.extractors[i].EPublish?)
    modifies p
    ensures Went(p.cfg, start, p.Abs()) && Went(p.cfg, old(p.Abs()), p.Abs()) && p.users == old(p.users)
    ensures i < |p.intake.extractors| && p.intake.extractors[i] == if ok then old(p.intake.extractors[i]) else EIdle
    ensures !ok ==>
              && Unpublished(old(p.intake.extractors[i])) <= p.touched
              && Unextracted(old(p.intake.extractors[i])) <= p.dismissed
  {
    ArisesLater(p.cfg, start, p.Abs());
    p.Others(ExtractorSeat(i), start);
    ok := *;
    if !ok {
      GiveUp(p, i, old(p.Abs()));
    }
    WentOn(p.cfg, start, old(p.Abs()), p.Abs());
  }

  /** What a worker with a report in hand can rely on. */
  lemma ReportIsLive(cfg: Config, start: State, s: State, i: nat)
    requires Arises(cfg, start) && Went(cfg, start, s) && i < |s.intake.extractors| && s.intake.extractors[i].EBuild?
    ensures var job := s.intake.extractors[i].job;
            && job < |s.jobs| && UniqueIndex(s.rows) && |s.history| == |s.rows|
            && var ids, batch := Affected(cfg, s.users, s.jobs[job].place), Batch(cfg, s.users, s.jobs, job);
               var rows := if Commits(s.rows, batch) then s.rows + batch else s.rows;
               && (batch != [] ==> (UniqueIndex(s.rows + batch) <==> !HasRows(s.rows, job)))
               && forall user :: HasRow(rows, job, user) <==> user in ids
  {
    ArisesIsSafe(cfg, start, s);
    ExtractionOutcome(cfg, s, i);
    var job := s.intake.extractors[i].job;
    assert ExtractorsHold(s.intake.extractors, job);
    assert SetOk(cfg, s, job);
    assert Matched(cfg, s.users, s.jobs[job].place, ExtractorNext(cfg, s, i, ECommit).rows, job);
    if HasRows(s.rows, job) {
      SecondExtractionCollides(cfg, s.users, s.jobs[job].place, s.rows, job);
    }
  }

  lemma CommitOf(cfg: Config, start: State, s: State, i: nat, batch: seq<Delivery>, s': State)
    requires Arises(cfg, start) && Went(cfg, start, s) && s'.now >= s.now
    requires i < |s.intake.extractors| && s.intake.extractors[i].EBuild? && s.intake.extractors[i].job < |s.jobs|
    requires var job := s.intake.extractors[i].job;
             && batch == NewRows(job, Affected(cfg, s.users, s.jobs[job].place))
             && s'.jobs == s.jobs[job := ExtractedJob(s.jobs[job], s.rows, batch)]
    requires s'.rows == (if Commits(s.rows, batch) then s.rows + batch else s.rows)
    requires s'.history == (if Commits(s.rows, batch) then s.history + seq(|batch|, _ => []) else s.history)
    requires s'.intake == SetExtractor(s.intake, i, if Commits(s.rows, batch)
        then EPublish(Ids(|s.rows|, |batch|)) else EIdle)
    requires s' == s.(now := s'.now, jobs := s'.jobs, rows := s'.rows, history := s'.history, intake := s'.intake)
    ensures Went(cfg, start, s')
  {
    StepOf(cfg, start, s, i, ECommit, s'.now, s');
  }

  /** Nobody is affected: the job is done. */
  method FinishJob(p: Server, i: nat, ghost start: State)
    requires Arises(p.cfg, start) && Went(p.cfg, start, p.Abs()) && i < |p.intake.extractors|
    requires p.intake.extractors[i].EBuild?
    requires p.intake.extractors[i].job < |p.jobs|
    requires Affected(p.cfg, p.users, p.jobs[p.intake.extractors[i].job].place) == []
    modifies p`now, p`jobs, p`intake
    ensures Went(p.cfg, start, p.Abs()) && p.intake == SetExtractor(old(p.intake), i, EIdle)
    ensures var job := old(p.intake.extractors[i].job);
            p.jobs == old(p.jobs)[job := old(p.jobs)[job].(status := JobDone)]
  {
    ghost var s := p.Abs();
    p.Tick();
    var job := p.intake.extractors[i].job;
    p.jobs := p.jobs[job := p.jobs[job].(status := JobDone)];
    p.intake := SetExtractor(p.intake, i, EIdle);
    CommitOf(p.cfg, start, s, i, [], p.Abs());
  }

  method RollBack(p: Server, i: nat, batch: seq<Delivery>, ghost start: State)
    requires Arises(p.cfg, start) && Went(p.cfg, start, p.Abs()) && i < |p.intake.extractors|
    requires p.intake.extractors[i].EBuild?
    requires p.intake.extractors[i].job < |p.jobs| && batch != [] && !Commits(p.rows, batch)
    requires var job := p.intake.extractors[i].job; batch == NewRows(job, Affected(p.cfg, p.users, p.jobs[job].place))
    modifies p`now, p`intake
    ensures Went(p.cfg, start, p.Abs()) && p.intake == SetExtractor(old(p.intake), i, EIdle)
  {
    ghost var s := p.Abs();
    p.Tick();
    p.intake := SetExtractor(p.intake, i, EIdle);
    CommitOf(p.cfg, start, s, i, batch, p.Abs());
  }

  method StoreBatch(p: Server, i: nat, batch: seq<Delivery>, ghost start: State)
    requires Arises(p.cfg, start) && Went(p.cfg, start, p.Abs()) && i < |p.intake.extractors|
    requires p.intake.extractors[i].EBuild?
    requires p.intake.extractors[i].job < |p.jobs| && Commits(p.rows, batch)
    requires var job := p.intake.extractors[i].job; batch == NewRows(job, Affected(p.cfg, p.users, p.jobs[job].place))
    modifies p`now, p`jobs, p`rows, p`history, p`intake
    ensures Went(p.cfg, start, p.Abs()) && p.rows == old(p.rows) + batch
    ensures p.intake == SetExtractor(old(p.intake), i, EPublish(Ids(|old(p.rows)|, |batch|)))
    ensures var job := old(p.intake.extractors[i].job);
            p.jobs == old(p.jobs)[job := old(p.jobs)[job].(status := JobProcessing)]
  {
    ghost var s := p.Abs();
    p.Tick();
    var job := p.intake.extractors[i].job;
    p.intake := SetExtractor(p.intake, i, EPublish(Ids(|p.rows|, |batch|)));
    p.rows := p.rows + batch;
    p.history := p.history + seq(|batch|, _ => []);
    p.jobs := p.jobs[job := p.jobs[job].(status := JobProcessing)];
    CommitOf(p.cfg, start, s, i, batch, p.Abs());
  }

  /** What the transaction does for a job and its affected users: without any it is done; with deliveries already it
      stays as it is; otherwise it gets a new delivery for each of them, whose ids are then to be sent, in order. */
  ghost predicate Stored(s: State, s': State, i: nat, job: nat, ids: seq<nat>) {
    && i < |s'.intake.extractors| && job < |s.jobs| == |s'.jobs|
    && (forall k :: 0 <= k < |s.jobs| && k != job ==> s'.jobs[k] == s.jobs[k])
    && if ids == [] then
         s'.jobs[job] == s.jobs[job].(status := JobDone) && s'.rows == s.rows && s'.intake.extractors[i].EIdle?
       else if HasRows(s.rows, job) then
         s'.jobs == s.jobs && s'.rows == s.rows && s'.intake.extractors[i].EIdle?
       else
         && s'.jobs[job] == s.jobs[job].(status := JobProcessing)
         && |s'.rows| == |s.rows| + |ids| && s'.rows[..|s.rows|] == s.rows
         && (forall k :: 0 <= k < |ids| ==> s'.rows[|s.rows| + k] == Delivery(job, ids[k], Pending, 0, None))
         && s'.intake.extractors[i].EPublish? && |s'.intake.extractors[i].todo| == |ids|
         && forall k :: 0 <= k < |ids| ==> s'.intake.extractors[i].todo[k] == |s.rows| + k
  }

  /** Stores all deliveries of the job, or finishes a job that affects nobody. */
  method Commit(p: Server, i: nat, ids: seq<nat>, ghost start: State)
    requires Arises(p.cfg, start) && Went(p.cfg, start, p.Abs()) && i < |p.intake.extractors|
    requires p.intake.extractors[i].EBuild?
    requires p.intake.extractors[i].job < |p.jobs|
    requires ids == Affected(p.cfg, p.users, p.jobs[p.intake.extractors[i].job].place)
    modifies p`now, p`jobs, p`rows, p`history, p`intake
    ensures Went(p.cfg, start, p.Abs())
    ensures Stored(old(p.Abs()), p.Abs(), i, old(p.intake.extractors[i].job), ids)
    ensures forall user :: HasRow(p.rows, old(p.intake.extractors[i].job), user) <==> user in ids
  {
    ReportIsLive(p.cfg, start, p.Abs(), i);
    var batch := NewRows(p.intake.extractors[i].job, ids);
    if batch == [] {
      FinishJob(p, i, start);
    } else {
      var inserted, rows := InsertAll(p.rows, batch);
      if inserted {
        StoreBatch(p, i, batch, start);
      } else {
        RollBack(p, i, batch, start);
      }
    }
  }

  /** With its last id the worker is done. */
  function AfterSend(todo: seq<nat>): Extractor
    requires todo != []
  {
    if |todo| == 1 then EIdle else EPublish(todo[1..])
  }

  /** Sends the next id to the delivery channel. */
  method PublishNext(p: Server, i: nat, ghost start: State)
    requires Arises(p.cfg, start) && Went(p.cfg, start, p.Abs()) && i < |p.intake.extractors|
    requires p.intake.extractors[i].EPublish?
    requires p.intake.extractors[i].todo != [] && Ready(p.mail.deliveries, p.cfg.capacity)
    modifies p`now, p`intake, p`mail, p`panicked
    ensures Went(p.cfg, start, p.Abs())
    ensures var todo := old(p.intake.extractors[i].todo);
            && p.intake == SetExtractor(old(p.intake), i, AfterSend(todo))
            && p.mail == old(p.mail).(deliveries := Offer(old(p.mail.deliveries), todo[0]))
  {
    ghost var s := p.Abs();
    p.Tick();
    var todo := p.intake.extractors[i].todo;
    p.panicked := p.mail.deliveries.closed;
    p.mail := p.mail.(deliveries := Offer(p.mail.deliveries, todo[0]));
    p.intake := SetExtractor(p.intake, i, AfterSend(todo));
    StepOf(p.cfg, start, s, i, ESend, p.now, p.Abs());
  }

  lemma PublishesSomething(cfg: Config, start: State, s: State, i: nat)
    requires Arises(cfg, start) && Went(cfg, start, s) && i < |s.intake.extractors| && s.intake.extractors[i].EPublish?
    ensures s.intake.extractors[i].todo != [] && !s.mail.deliveries.closed
  {
    ArisesIsSafe(cfg, start, s);
    assert ExtractorOk(|s.rows|, |s.jobs|, s.intake.extractors[i]);
  }

  /** How the publication ended: with every id sent, cut short by an error, or waiting for room in the channel. */
  datatype Outcome = Completed | CutShort | AwaitsRoom

  /** The ids that the worker is about to send. */
  function Todo(w: Extractor): seq<nat> {
    if w.EPublish? then w.todo else []
  }

  /** `sent` holds the states right after each of the first ids was put into the delivery channel, in order. */
  ghost predicate AllSent(cfg: Config, start: State, now: State, ids: seq<nat>, sent: seq<State>) {
    && |sent| <= |ids|
    && forall k :: 0 <= k < |sent| ==>
         && Went(cfg, start, sent[k]) && Went(cfg, sent[k], now)
         && sent[k].mail.deliveries.queue != [] && Last(sent[k].mail.deliveries.queue) == ids[k]
  }

  lemma AllSentLater(cfg: Config, start: State, now: State, later: State, ids: seq<nat>, sent: seq<State>)
    requires AllSent(cfg, start, now, ids, sent) && Went(cfg, now, later)
    ensures AllSent(cfg, start, later, ids, sent)
  {
    forall k | 0 <= k < |sent| ensures Went(cfg, sent[k], later) {
      WentOn(cfg, sent[k], now, later);
    }
  }

  /** One round of the loop. */
  method PublishOne(p: Server, i: nat, ghost start: State) returns (how: Outcome)
    requires Arises(p.cfg, start) && Went(p.cfg, start, p.Abs())
    requires i < |p.intake.extractors| && p.intake.extractors[i].EPublish? && p.intake.extractors[i].todo != []
    modifies p
    ensures Went(p.cfg, start, p.Abs()) && i < |p.intake.extractors|
    ensures var todo := old(p.intake.extractors[i].todo);
            && (how.Completed? ==>
                  && p.intake.extractors[i] == AfterSend(todo)
                  && p.mail.deliveries.queue != [] && Last(p.mail.deliveries.queue) == todo[0])
            && (how.AwaitsRoom? ==> p.intake.extractors[i] == EPublish(todo))
            && (how.CutShort? ==> p.intake.extractors[i].EIdle? && forall id :: id in todo ==> id in p.touched)
  {
    ghost var w := p.intake.extractors[i];
    var ok := Survives(p, i, start);
    if !ok {
      assert forall id :: id in w.todo ==> id in Unpublished(w);
      return CutShort;
    }
    if !Ready(p.mail.deliveries, p.cfg.capacity) {
      return AwaitsRoom;
    }
    PublishesSomething(p.cfg, start, p.Abs(), i);
    PublishNext(p, i, start);
    how := Completed;
  }

  /** The loop over the ids. */
  method PublishAll(p: Server, i: nat, ghost start: State) returns (how: Outcome, ghost sent: seq<State>)
    requires Arises(p.cfg, start) && start == p.Abs()
    requires i < |p.intake.extractors| && (p.intake.extractors[i].EIdle? || p.intake.extractors[i].EPublish?)
    modifies p
    ensures Went(p.cfg, start, p.Abs()) && i < |p.intake.extractors|
    ensures var todo := Todo(old(p.intake.extractors[i]));
            && AllSent(p.cfg, start, p.Abs(), todo, sent)
            && (how.Completed? ==> |sent| == |todo| && p.intake.extractors[i].EIdle?)
            && (how.AwaitsRoom? ==> p.intake.extractors[i] == EPublish(todo[|sent|..]))
            && (how.CutShort? ==>
                  p.intake.extractors[i].EIdle? && forall k :: |sent| <= k < |todo| ==> todo[k] in p.touched)
  {
    ghost var todo := Todo(p.intake.extractors[i]);
    sent := [];
    while p.intake.extractors[i].EPublish?
      invariant Went(p.cfg, start, p.Abs()) && AllSent(p.cfg, start, p.Abs(), todo, sent)
      invariant i < |p.intake.extractors| && (p.intake.extractors[i].EIdle? || p.intake.extractors[i].EPublish?)
      invariant Todo(p.intake.extractors[i]) == todo[|sent|..]
      decreases |Todo(p.intake.extractors[i])|
    {
      ghost var now := p.Abs();
      PublishesSomething(p.cfg, start, now, i);
      ArisesLater(p.cfg, start, now);
      how := PublishOne(p, i, now);
      WentOn(p.cfg, start, now, p.Abs());
      AllSentLater(p.cfg, start, now, p.Abs(), todo, sent);
      if !how.Completed? {
        forall k | |sent| <= k < |todo| && how.CutShort? ensures todo[k] in p.touched {
          assert todo[|sent|..][k - |sent|] == todo[k];
        }
        return how, sent;
      }
      sent := sent + [p.Abs()];
    }
    how := Completed;
  }

  /** The users of a job with deliveries are settled. */
  lemma SetStays(cfg: Config, start: State, s: State, s': State, job: nat, ids: seq<nat>)
    requires Arises(cfg, start) && Went(cfg, start, s) && Went(cfg, s, s')
    requires ids != [] && forall user :: HasRow(s.rows, job, user) <==> user in ids
    ensures forall user :: HasRow(s'.rows, job, user) <==> user in ids
  {
    ArisesLater(cfg, start, s);
    ArisesIsReachable(cfg, s);
    WentIsLeads(cfg, s, s');
    assert HasRow(s.rows, job, ids[0]);
    DeliverySetIsFixed(cfg, s, s', job);
  }

  /** The whole of `processReport`. The transaction ran in the state `found` and led to the state `committed`, as the
      users and the deliveries there call for; then the ids were sent in order, all of them unless an error cut the
      loop short or it waits for room; those that an error leaves unsent are on record. Once the transaction is
      through, the job has a delivery for exactly the affected users, and nothing that happens while the ids are sent
      changes that. */
  method ProcessReport(p: Server, i: nat)
    returns (ids: seq<nat>, stored: bool, how: Outcome, ghost found: State, ghost committed: State,
             ghost sent: seq<State>)
    requires Arises(p.cfg, p.Abs()) && i < |p.intake.extractors| && p.intake.extractors[i].EBuild?
    modifies p
    ensures Went(p.cfg, old(p.Abs()), p.Abs()) && i < |p.intake.extractors| && (!stored ==> how.CutShort?)
    ensures p.intake.extractors[i].EIdle? <==> !how.AwaitsRoom?
    ensures var job := old(p.intake.extractors[i].job);
            && job < |old(p.jobs)| && ids == Affected(p.cfg, old(p.users), old(p.jobs)[job].place)
            && (!stored ==> job in p.dismissed)
            && (stored ==>
                  && Went(p.cfg, old(p.Abs()), found) && Went(p.cfg, found, committed)
                  && Stored(found, committed, i, job, ids)
                  && var todo := Todo(committed.intake.extractors[i]);
                     && AllSent(p.cfg, committed, p.Abs(), todo, sent)
                     && (how.Completed? ==> |sent| == |todo|)
                     && (how.AwaitsRoom? ==> p.intake.extractors[i] == EPublish(todo[|sent|..]))
                     && (how.CutShort? ==> forall k :: |sent| <= k < |todo| ==> todo[k] in p.touched))
            && (stored && ids != [] ==> forall user :: HasRow(p.rows, job, user) <==> user in ids)
  {
    ghost var start := p.Abs();
    found, committed, sent := start, start, [];
    var job := p.intake.extractors[i].job;
    ReportIsLive(p.cfg, start, p.Abs(), i);
    ids := CollectAffected(p.cfg, p.users, p.jobs[job].place);
    stored := SurvivesReport(p, i, ids, start);
    if !stored {
      how := CutShort;
      return;
    }
    found := p.Abs();
    ArisesLater(p.cfg, start, found);
    Commit(p, i, ids, found);
    committed := p.Abs();
    ArisesLater(p.cfg, found, committed);
    how, sent := PublishAll(p, i, committed);
    WentOn(p.cfg, start, found, committed);
    WentOn(p.cfg, start, committed, p.Abs());
    if ids != [] {
      SetStays(p.cfg, start, committed, p.Abs(), job, ids);
    }
  }

  /** The report a worker has in hand does not move while the others run. */
  method SurvivesReport(p: Server, i: nat, ids: seq<nat>, ghost start: State) returns (ok: bool)
    requires Arises(p.cfg, start) && Went(p.cfg, start, p.Abs()) && i < |p.intake.extractors|
    requires p.intake.extractors[i].EBuild?
    requires p.intake.extractors[i].job < |p.jobs|
    requires ids == Affected(p.cfg, p.users, p.jobs[p.intake.extractors[i].job].place)
    modifies p
    ensures Went(p.cfg, start, p.Abs())
    ensures i < |p.intake.extractors| && p.intake.extractors[i] == if ok then old(p.intake.extractors[i]) else EIdle
    ensures !ok ==> old(p.intake.extractors[i].job) in p.dismissed
    ensures ok ==> var job := p.intake.extractors[i].job;
                   job < |p.jobs| && ids == Affected(p.cfg, p.users, p.jobs[job].place)
  {
    ghost var before := p.Abs();
    ok := Survives(p, i, start);
    Later(p.cfg, start, before, p.Abs());
  }
}
