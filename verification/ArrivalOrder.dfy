// The order in which block changes reach a client. Small batches are written at once and large ones wait
// in the job queue, so the order of broadcasting is kept under a condition only.
module ArrivalOrder {
  import opened Sequences
  import opened BlockChanges
  import opened Delivery
  import opened ChunkIndex
  import opened SubRegions

  // The client gets the changes of each chunk it holds in the order in which they were broadcast.
  ghost predicate InOrder(s: Session)
  {
    forall p :: p in s.flushed && p in s.told ==> s.told[p] == Arrivals(s, p)
  }

  // Whether `batch` goes before or after `waiting` makes no difference.
  predicate Commute(batch: seq<Change>, waiting: seq<Change>) { batch + waiting == waiting + batch }

  // A batch for p overtakes nothing: it is queued itself, or what is queued does not tell.
  predicate KeepsItsPlace(s: Session, p: Pos, batch: LocalChanges)
  {
    |batch| >= 10 || Commute(batch, Queued(s, p))
  }

  // Changes that are not among those waiting keep their place only when nothing waits.
  lemma NewChangesCommuteExactly(batch: LocalChanges, waiting: seq<Change>)
    requires forall c :: c in batch ==> c !in waiting
    ensures Commute(batch, waiting) <==> batch == [] || waiting == []
  {
    if batch == [] || waiting == [] {
      assert batch + waiting == waiting + batch;
    } else {
      assert (batch + waiting)[0] == batch[0] && (waiting + batch)[0] == waiting[0];
      assert batch[0] in batch && waiting[0] in waiting;
    }
  }

  // ----- one session -----

  // Only these four parts of a session count.
  lemma OrderOnly(s: Session, r: Session)
    requires r.flushed == s.flushed && r.told == s.told && r.stream == s.stream && r.subQueue == s.subQueue
    ensures InOrder(r) <==> InOrder(s)
  {
    assert forall p :: Arrivals(r, p) == Arrivals(s, p);
    hide Arrivals;
  }

  lemma CommuteAfter(before: seq<Change>, waiting: seq<Change>, batch: LocalChanges)
    ensures (before + waiting) + batch == before + batch + waiting <==> Commute(batch, waiting)
  {
    assert (before + waiting) + batch == before + (waiting + batch);
    assert before + batch + waiting == before + (batch + waiting);
    if before + (waiting + batch) == before + (batch + waiting) {
      var l, r := before + (waiting + batch), before + (batch + waiting);
      assert l[|before|..] == waiting + batch && r[|before|..] == batch + waiting;
    }
  }

  // A broadcast to a session that holds the chunk keeps the order if and only if the batch overtakes
  // nothing.
  lemma DeliverKeepsOrderExactly(s: Session, p: Pos, batch: LocalChanges, hasChunk: bool)
    requires Inv(s) && p in s.flushed && InOrder(s)
    ensures InOrder(Tell(Deliver(s, p, batch, hasChunk), p, batch)) <==> KeepsItsPlace(s, p, batch)
  {
    hide *;
    var d := Deliver(s, p, batch, hasChunk);
    var r := Tell(d, p, batch);
    HeldIsTold(s, p);
    DeliverToldFrame(s, p, batch, hasChunk);
    forall q ensures Arrivals(r, q) == if q == p then Delivered(s, p, batch) else Arrivals(s, q) {
      DeliverArrivals(s, p, batch, hasChunk, q);
      TellIsNoArrival(d, p, batch, q);
      ArrivesNow(s, p, batch);
    }
    OrderWithBatch(s, p, batch, r);
  }

  // What the client gets for p once the batch has been delivered.
  function Delivered(s: Session, p: Pos, batch: LocalChanges): seq<Change>
  {
    if |batch| < 10 then Carried(s.stream, p) + batch + Queued(s, p) else Arrivals(s, p) + batch
  }

  lemma ArrivesNow(s: Session, p: Pos, batch: LocalChanges)
    ensures Delivered(s, p, batch) == if |batch| < 10 then Carried(s.stream, p) + batch + Queued(s, p)
            else Arrivals(s, p) + batch
  {
  }

  lemma TellIsNoArrival(s: Session, p: Pos, batch: LocalChanges, q: Pos)
    ensures Arrivals(Tell(s, p, batch), q) == Arrivals(s, q)
  {
  }

  lemma OrderWithBatch(s: Session, p: Pos, batch: LocalChanges, r: Session)
    requires InOrder(s) && p in s.flushed && p in s.told
    requires r.told == s.told[p := s.told[p] + batch] && r.flushed == s.flushed
    requires forall q :: Arrivals(r, q) == if q == p then Delivered(s, p, batch) else Arrivals(s, q)
    ensures InOrder(r) <==> KeepsItsPlace(s, p, batch)
  {
    assert s.told[p] == Carried(s.stream, p) + Queued(s, p);
    CommuteAfter(Carried(s.stream, p), Queued(s, p), batch);
    assert (Delivered(s, p, batch) == s.told[p] + batch) <==> KeepsItsPlace(s, p, batch);
    hide Arrivals, Delivered, KeepsItsPlace;
  }

  lemma HeldIsTold(s: Session, p: Pos)
    requires Inv(s) && p in s.flushed
    ensures p in s.sent && p in s.told
  {
    assert p in s.told.Keys;
    hide ClientAgrees;
  }

  lemma DeliverToldFrame(s: Session, p: Pos, batch: LocalChanges, hasChunk: bool)
    requires p in s.told
    ensures var r := Tell(Deliver(s, p, batch, hasChunk), p, batch);
            r.told == s.told[p := s.told[p] + batch] && r.flushed == s.flushed
  {
    hide Stay;
  }

  lemma DeferKeepsOrder(s: Session, p: Pos, batch: LocalChanges)
    requires p !in s.flushed && InOrder(s)
    ensures InOrder(Tell(Defer(s, p, batch), p, batch))
  {
    var r := Tell(Defer(s, p, batch), p, batch);
    assert forall q :: Arrivals(r, q) == Arrivals(s, q);
    hide Arrivals;
  }

  lemma EnqueueKeepsOrder(s: Session, t: Tick)
    requires Inv(s) && InOrder(s) && Schedule(s, t.center, t.radius, t.generated, t.order, t.dropped)
    ensures InOrder(Enqueue(s, t.center, t.radius, t.batch, t.order, t.dropped))
  {
    var r := Enqueue(s, t.center, t.radius, t.batch, t.order, t.dropped);
    forall p | p in r.flushed && p in r.told ensures r.told[p] == Arrivals(r, p) {
      EnqueueKeepsHeld(s, t, p);
    }
  }

  // A chunk still held after an enqueue has the same history and the same arrivals.
  lemma EnqueueKeepsHeld(s: Session, t: Tick, p: Pos)
    requires Inv(s) && Schedule(s, t.center, t.radius, t.generated, t.order, t.dropped)
    requires p in Enqueue(s, t.center, t.radius, t.batch, t.order, t.dropped).flushed
    ensures var r := Enqueue(s, t.center, t.radius, t.batch, t.order, t.dropped);
            p in s.flushed && p in s.told && p in r.told && r.told[p] == s.told[p] && Arrivals(r, p) == Arrivals(s, p)
  {
    var u := Unload(s, t.center, t.radius, t.dropped);
    var n := Room(|u.queue|, t.batch, |t.order|);
    assert p in s.flushed && p !in Elements(t.dropped);
    HeldIsTold(s, p);
    assert forall q :: q in t.order[..n] ==> q in t.order;
    assert p !in t.order[..n];
    UnloadArrivals(s, t.center, t.radius, t.dropped, p);
    hide Inv, Stay, Carried, Owed, Schedule;
  }

  lemma FlushOneKeepsOrder(s: Session, p: Pos, live: set<Pos>)
    requires NothingLost(s) && InOrder(s) && p in s.sent && p !in s.flushed
    ensures InOrder(FlushOne(s, p, live))
  {
    var r := FlushOne(s, p, live);
    assert s.told.Keys == s.sent && s.told[p] == At(s.pending, p);
    FlushOneFrame(s, p, live);
    hide FlushOne, Arrivals;
    forall q ensures Arrivals(r, q) == if q == p then At(s.pending, p) else Arrivals(s, q) {
      FlushOneArrivals(s, p, live, q);
    }
    hide NothingLost, At;
  }

  lemma {:induction false} FlushChunksKeepsOrder(s: Session, jobs: seq<Pos>, k: nat, ready: set<Pos>, live: set<Pos>)
    requires FlushInv(s, jobs, []) && InOrder(s) && k <= |jobs|
    ensures InOrder(FlushChunks(s, jobs[..k], ready, live))
  {
    hide *;
    if k == 0 {
      FlushNothing(s, jobs, ready, live);
    } else {
      FlushChunksKeepsOrder(s, jobs, k - 1, ready, live);
      FlushChunksKeepsInv(s, jobs, k - 1, ready, live);
      var u, p := FlushChunks(s, jobs[..k - 1], ready, live), jobs[k - 1];
      StillAhead(u, jobs[k - 1..], NotReady(jobs[..k - 1], ready));
      FlushNextJob(s, jobs, k - 1, ready, live);
      if p in ready { FlushOneKeepsOrder(u, p, live); }
    }
  }

  lemma FlushNothing(s: Session, jobs: seq<Pos>, ready: set<Pos>, live: set<Pos>)
    ensures FlushChunks(s, jobs[..0], ready, live) == s
  {
  }

  lemma FlushNextJob(s: Session, jobs: seq<Pos>, k: nat, ready: set<Pos>, live: set<Pos>)
    requires k < |jobs|
    ensures var u := FlushChunks(s, jobs[..k], ready, live);
            FlushChunks(s, jobs[..k + 1], ready, live) == if jobs[k] in ready then FlushOne(u, jobs[k], live) else u
  {
    assert jobs[..k + 1][..k] == jobs[..k];
    hide FlushOne;
  }

  lemma StillAhead(s: Session, ahead: seq<Pos>, kept: seq<Pos>)
    requires FlushInv(s, ahead, kept) && ahead != []
    ensures NothingLost(s) && ahead[0] in s.sent && ahead[0] !in s.flushed
  {
    hide NothingLost, ClientAgrees;
  }

  lemma DrainKeepsOrder(s: Session, finished: nat)
    requires InOrder(s)
    ensures InOrder(DrainSubRegions(s, finished))
  {
    var r := DrainSubRegions(s, finished);
    forall p ensures Arrivals(r, p) == Arrivals(s, p) { DrainArrivals(s, finished, p); }
    hide Arrivals, SubPackets, Drainable;
  }

  lemma VisitKeepsArrivalOrder(s: Session, t: Tick)
    requires Inv(s) && s.Active() && InOrder(s) && Schedule(s, t.center, t.radius, t.generated, t.order, t.dropped)
    ensures InOrder(Drained(Visited(s, t)))
  {
    hide *;
    var e := Enqueue(s, t.center, t.radius, t.batch, t.order, t.dropped);
    EnqueueKeepsInv(s, t.center, t.radius, t.batch, t.generated, t.order, t.dropped);
    EnqueueKeepsOrder(s, t);
    InvStartsFlush(e);
    FlushChunksKeepsOrder(e, e.queue, |e.queue|, t.ready, t.live);
    assert e.queue[..|e.queue|] == e.queue;
    VisitFromFlush(s, t);
    OrderOnly(FlushChunks(e, e.queue, t.ready, t.live), BeforeDrain(s, t));
    DrainKeepsOrder(BeforeDrain(s, t), t.finished);
    OrderOnly(DrainSubRegions(BeforeDrain(s, t), t.finished), Drained(Visited(s, t)));
  }

  // A turn is the flush of an enqueue, a drain, and what does not concern the order.
  lemma VisitFromFlush(s: Session, t: Tick)
    ensures var e := Enqueue(s, t.center, t.radius, t.batch, t.order, t.dropped);
            var f, b := FlushChunks(e, e.queue, t.ready, t.live), BeforeDrain(s, t);
            var d, r := DrainSubRegions(b, t.finished), Drained(Visited(s, t));
            && b.flushed == f.flushed && b.told == f.told && b.stream == f.stream && b.subQueue == f.subQueue
            && r.flushed == d.flushed && r.told == d.told && r.stream == d.stream && r.subQueue == d.subQueue
  {
    ServedDrains(s, t);
    hide FlushChunks, DrainSubRegions, NotReady, Served, GateOpen, Enqueue;
  }

  // ----- over runs -----

  // A step puts no change before an earlier one that still waits.
  ghost predicate OvertakesNothing<S>(w: World<S>, step: Step<S>)
  {
    step.Broadcast? ==>
      forall s :: s in w.sess && w.sess[s].dim == step.dim && step.pos in w.sess[s].flushed ==>
        KeepsItsPlace(w.sess[s], step.pos, step.batch)
  }

  ghost predicate AllInOrder<S>(w: World<S>) { forall s :: s in w.sess ==> InOrder(w.sess[s]) }

  // What a step does to the order of one session.
  lemma AfterInOrder<S>(w: World<S>, x: Session, s: S, step: Step<S>)
    requires Inv(x) && InOrder(x) && s in w.sess && w.sess[s] == x && Legal(w, step)
    ensures InOrder(After(x, s, step)) <==>
              (step.Broadcast? && x.dim == step.dim && step.pos in x.flushed ==> KeepsItsPlace(x, step.pos, step.batch))
  {
    hide Inv, InOrder, Visited, Schedule, Deliver, Defer, KeepsItsPlace, ChangeDimension, Drained;
    match step
    case Visit(s', t) => if s' == s { VisitKeepsArrivalOrder(x, t); }
    case Move(_, dim) => MoveKeepsOrder(x, dim);
    case Activate(s', dim) => if s' == s { LoginKeepsOrder(x, dim); }
    case Broadcast(dim, p, batch, hasChunk) =>
      if x.dim == dim && p in x.flushed { DeliverKeepsOrderExactly(x, p, batch, hasChunk); }
      else if x.dim == dim && p in x.sent { DeferKeepsOrder(x, p, batch); }
    case _ =>
  }

  lemma LoginKeepsOrder(s: Session, dim: int)
    requires Inv(s) && s.conn.LoggingIn?
    ensures InOrder(LoggedIn(s, dim))
  {
    LoginKeepsInv(s, dim);
    hide Inv, Arrivals;
  }

  lemma MoveKeepsOrder(s: Session, dim: int)
    ensures InOrder(ChangeDimension(s, dim))
  {
  }

  lemma StepInOrder<S>(w: World<S>, step: Step<S>)
    requires WorldInv(w) && Legal(w, step) && AllInOrder(w)
    ensures AllInOrder(Next(w, step)) <==> OvertakesNothing(w, step)
  {
    var r := Next(w, step);
    forall s | s in w.sess && s in r.sess
      ensures InOrder(r.sess[s]) <==>
        (step.Broadcast? && w.sess[s].dim == step.dim && step.pos in w.sess[s].flushed ==>
           KeepsItsPlace(w.sess[s], step.pos, step.batch))
    {
      assert Inv(w.sess[s]) && InOrder(w.sess[s]);
      hide *;
      StepOnSession(w, step, s);
      AfterInOrder(w, w.sess[s], s, step);
    }
    NewcomersAreInOrder(w, step);
    hide InOrder, KeepsItsPlace, WorldInv, Next;
  }

  lemma NewcomersAreInOrder<S>(w: World<S>, step: Step<S>)
    requires Legal(w, step)
    ensures var r := Next(w, step);
            && (forall s :: s in r.sess && s !in w.sess ==> InOrder(r.sess[s]))
            && (step.Broadcast? ==> r.sess.Keys == w.sess.Keys)
  {
    hide Fanout, Visited, ChangeDimension, DrainLists, RemoveChunks, Arrivals;
  }

  ghost predicate InOrderUpTo<S>(run: seq<World<S>>, k: nat)
  {
    forall j :: 0 <= j <= k && j < |run| ==> AllInOrder(run[j])
  }

  ghost predicate NoneOvertakesUpTo<S>(run: seq<World<S>>, steps: seq<Step<S>>, k: nat)
  {
    forall j :: 0 <= j < k && j < |run| && j < |steps| ==> OvertakesNothing(run[j], steps[j])
  }

  lemma OrderUpToNext<S>(run: seq<World<S>>, steps: seq<Step<S>>, k: nat)
    requires 0 < k < |run| && |run| == |steps| + 1
    ensures InOrderUpTo(run, k) <==> InOrderUpTo(run, k - 1) && AllInOrder(run[k])
    ensures NoneOvertakesUpTo(run, steps, k)
            <==> NoneOvertakesUpTo(run, steps, k - 1) && OvertakesNothing(run[k - 1], steps[k - 1])
    ensures InOrderUpTo(run, k - 1) ==> AllInOrder(run[k - 1])
  {
    hide AllInOrder, OvertakesNothing;
  }

  lemma OrderUpToNone<S>(run: seq<World<S>>, steps: seq<Step<S>>)
    requires run != [] && run[0] == World([], map[], map[])
    ensures InOrderUpTo(run, 0) && NoneOvertakesUpTo(run, steps, 0)
  {
  }

  // In every run: all changes reach all clients in the order of broadcasting, in every state so far, if
  // and only if no broadcast so far overtook changes that were waiting in jobs.
  lemma {:induction false} OrderKeptExactly<S>(run: seq<World<S>>, steps: seq<Step<S>>, k: nat)
    requires IsRun(run, steps) && run[0] == World([], map[], map[]) && k < |run|
    ensures InOrderUpTo(run, k) <==> NoneOvertakesUpTo(run, steps, k)
  {
    hide *;
    if k == 0 {
      OrderUpToNone(run, steps);
    } else {
      OrderKeptExactly(run, steps, k - 1);
      RunStep(run, steps, k - 1);
      OrderUpToNext(run, steps, k);
      if AllInOrder(run[k - 1]) {
        StepInOrder(run[k - 1], steps[k - 1]);
      }
    }
  }

  // A rule that a caller can follow: a small batch is broadcast only when no job made since the chunk was
  // last announced still holds changes for it.
  ghost predicate WaitsForJobs<S>(w: World<S>, step: Step<S>)
  {
    step.Broadcast? && 0 < |step.batch| < 10 ==>
      forall s :: s in w.sess && w.sess[s].dim == step.dim && step.pos in w.sess[s].flushed ==>
        Queued(w.sess[s], step.pos) == []
  }

  // None of the batch's changes is among those that wait for a client.
  ghost predicate BringsNewChanges<S>(w: World<S>, step: Step<S>)
  {
    step.Broadcast? ==>
      forall s, c :: s in w.sess && c in step.batch ==> c !in Queued(w.sess[s], step.pos)
  }

  lemma KeepsItsPlaceWhenNothingWaits(s: Session, p: Pos, batch: LocalChanges)
    ensures 0 < |batch| < 10 ==> Queued(s, p) == [] ==> KeepsItsPlace(s, p, batch)
    ensures batch == [] ==> KeepsItsPlace(s, p, batch)
    ensures 0 < |batch| < 10 && (forall c :: c in batch ==> c !in Queued(s, p)) && KeepsItsPlace(s, p, batch) ==>
              Queued(s, p) == []
  {
    var o := Queued(s, p);
    assert [] + o == o + [] && batch + [] == [] + batch;
    if forall c :: c in batch ==> c !in o { NewChangesCommuteExactly(batch, o); }
    hide Queued;
  }

  lemma WaitingOvertakesNothing<S>(w: World<S>, step: Step<S>)
    ensures WaitsForJobs(w, step) ==> OvertakesNothing(w, step)
    ensures BringsNewChanges(w, step) && OvertakesNothing(w, step) ==> WaitsForJobs(w, step)
  {
    if step.Broadcast? {
      forall s | s in w.sess
        ensures 0 < |step.batch| < 10 && Queued(w.sess[s], step.pos) == [] ==>
                KeepsItsPlace(w.sess[s], step.pos, step.batch)
        ensures !(0 < |step.batch| < 10) ==> KeepsItsPlace(w.sess[s], step.pos, step.batch)
        ensures BringsNewChanges(w, step) && 0 < |step.batch| < 10 && KeepsItsPlace(w.sess[s], step.pos, step.batch) ==>
                  Queued(w.sess[s], step.pos) == []
      {
        KeepsItsPlaceWhenNothingWaits(w.sess[s], step.pos, step.batch);
        hide Queued;
      }
    }
    hide KeepsItsPlace, Queued, BringsNewChanges;
  }

  // Under that rule the order is kept; and if every batch brings new changes, only under it.
  lemma OrderKeptByWaiting<S>(run: seq<World<S>>, steps: seq<Step<S>>, k: nat)
    requires IsRun(run, steps) && run[0] == World([], map[], map[]) && k < |run|
    ensures (forall j :: 0 <= j < k ==> WaitsForJobs(run[j], steps[j])) ==> InOrderUpTo(run, k)
    ensures (forall j :: 0 <= j < k ==> BringsNewChanges(run[j], steps[j])) && InOrderUpTo(run, k) ==>
              forall j :: 0 <= j < k ==> WaitsForJobs(run[j], steps[j])
  {
    assert |run| == |steps| + 1;
    hide WaitsForJobs, OvertakesNothing, BringsNewChanges, IsRun, InOrderUpTo;
    forall j | 0 <= j < k
      ensures WaitsForJobs(run[j], steps[j]) ==> OvertakesNothing(run[j], steps[j])
      ensures BringsNewChanges(run[j], steps[j]) && OvertakesNothing(run[j], steps[j]) ==>
              WaitsForJobs(run[j], steps[j])
    {
      WaitingOvertakesNothing(run[j], steps[j]);
    }
    OrderKeptExactly(run, steps, k);
  }

  // A batch of one, broadcast after ten changes, is written while they still wait.
  lemma SmallBatchOvertakes() returns (run: seq<World<int>>, steps: seq<Step<int>>)
    ensures IsRun(run, steps) && run[0] == World([], map[], map[]) && 0 in run[|steps|].sess
    ensures !InOrder(run[|steps|].sess[0])
    ensures var x := run[|steps|].sess[0];
            HOME in x.told && x.told[HOME] == TenChanges() + LATE && Arrivals(x, HOME) == LATE + TenChanges()
  {
    hide *;
    run, steps := TenChangesAtHome(true);
    var step := Broadcast(0, HOME, LATE, true);
    OneMoreChange(run[4], step);
    StepOnSession(run[4], step, 0);
    run, steps := MoreSteps(run, steps, step);
  }

  const LATER := Change(0, 0, 0, 2, 0)
  const LATE: LocalChanges := [LATER]

  lemma OneMoreChange(w: World<int>, step: Step<int>)
    requires step == Broadcast(0, HOME, LATE, true)
    ensures Legal(w, step)
    ensures var x := After(WithJob(true), 0, step);
            && HOME in x.told && x.told[HOME] == TenChanges() + LATE && Arrivals(x, HOME) == LATE + TenChanges()
            && !InOrder(x)
  {
    hide *;
    var s := WithJob(true);
    LateIsLegal(w);
    WaitingAtHome();
    LateChange();
    DeliverArrivals(s, HOME, LATE, true, HOME);
    TellIsNoArrival(Deliver(s, HOME, LATE, true), HOME, LATE, HOME);
    OutOfOrder(After(s, 0, step));
  }

  lemma LateIsLegal(w: World<int>)
    ensures Legal(w, Broadcast(0, HOME, LATE, true))
  {
  }

  // The batch is delivered and told.
  lemma LateChange()
    ensures var s := WithJob(true); var x := After(s, 0, Broadcast(0, HOME, LATE, true));
            && x == Tell(Deliver(s, HOME, LATE, true), HOME, LATE)
            && HOME in x.flushed && HOME in x.told && x.told[HOME] == TenChanges() + LATE && |LATE| < 10
            && [] + LATE + TenChanges() == LATE + TenChanges()
  {
    hide TenChanges, BoxOf;
  }

  lemma OutOfOrder(s: Session)
    requires HOME in s.flushed && HOME in s.told && s.told[HOME] == TenChanges() + LATE
    requires Arrivals(s, HOME) == LATE + TenChanges()
    ensures !InOrder(s)
  {
    assert (TenChanges() + LATE)[0] == Change(0, 0, 0, 1, 0) && (LATE + TenChanges())[0] == LATER;
    hide Arrivals, TenChanges;
  }

  // All ten changes wait in the job.
  lemma WaitingAtHome()
    ensures var s := WithJob(true); Carried(s.stream, HOME) == [] && Queued(s, HOME) == TenChanges()
  {
    assert |TenChanges()| == 10;
    hide Carried, Owed, Stay, Share, TenChanges, JobFor;
    HomeIsFresh(0, HOME);
    var s := WithJob(true);
    var job := s.subQueue[0];
    assert s.subQueue == [job] && s.stream == [Login(0), Visibility(HOME, true), ChunkData(HOME)];
    OwedOne(job);
    JobShowsAll(HOME, TenChanges(), true, 1, HOME, 1);
  }

  lemma OwedOne(job: SubJob)
    ensures Owed([job], job.pos, job.stay) == Share(job, job.pos, job.stay)
  {
    OwedAppend([], job, job.pos, job.stay);
    hide Share;
    assert [] + [job] == [job];
    assert Owed([], job.pos, job.stay) + Share(job, job.pos, job.stay) == Share(job, job.pos, job.stay);
  }
}
