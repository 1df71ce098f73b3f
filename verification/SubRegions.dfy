// The queue of background jobs for large block changes: the order in which its regions are written,
// what blocks it, and when a region reaches a client that no longer holds its chunk.
module SubRegions {
  import opened Sequences
  import opened BlockChanges
  import opened Delivery
  import opened ChunkIndex

  // ----- order -----

  // The jobs whose regions were written, in order.
  function Regions(stream: seq<Packet>): seq<SubJob>
  {
    if stream == [] then []
    else
      var last := stream[|stream| - 1];
      Regions(stream[..|stream| - 1]) + if last.SubRegion? then [last.job] else []
  }

  // Every region was written while the client held its chunk.
  predicate RegionsHeld(stream: seq<Packet>)
  {
    stream != [] ==>
      var front, last := stream[..|stream| - 1], stream[|stream| - 1];
      RegionsHeld(front) && (last.SubRegion? ==> last.job.pos in ClientChunks(front))
  }

  // All jobs made for the session since its last reset, finished ones first.
  function Jobs(s: Session): seq<SubJob> { Regions(s.stream) + s.subQueue }

  lemma RegionsAppend(stream: seq<Packet>, pk: Packet)
    ensures Regions(stream + [pk]) == Regions(stream) + if pk.SubRegion? then [pk.job] else []
    ensures RegionsHeld(stream + [pk]) <==>
              RegionsHeld(stream) && (pk.SubRegion? ==> pk.job.pos in ClientChunks(stream))
  {
    assert (stream + [pk])[..|stream|] == stream;
  }

  lemma {:induction false} RegionsAppendInvisible(stream: seq<Packet>, ps: seq<Pos>)
    ensures Regions(stream + Invisible(ps)) == Regions(stream)
    ensures RegionsHeld(stream + Invisible(ps)) <==> RegionsHeld(stream)
    decreases |ps|
  {
    if ps == [] {
      assert stream + Invisible(ps) == stream;
    } else {
      var front, last := ps[..|ps| - 1], ps[|ps| - 1];
      RegionsAppendInvisible(stream, front);
      assert stream + Invisible(ps) == (stream + Invisible(front)) + [Visibility(last, false)];
      RegionsAppend(stream + Invisible(front), Visibility(last, false));
    }
  }

  lemma {:induction false} RegionsAppendJobs(stream: seq<Packet>, q: seq<SubJob>)
    ensures Regions(stream + SubPackets(q)) == Regions(stream) + q
    ensures RegionsHeld(stream + SubPackets(q)) <==>
              RegionsHeld(stream) && forall i :: 0 <= i < |q| ==> q[i].pos in ClientChunks(stream)
    decreases |q|
  {
    if q == [] {
      assert stream + SubPackets(q) == stream;
    } else {
      var front, last := q[..|q| - 1], q[|q| - 1];
      RegionsAppendJobs(stream, front);
      SubPacketsNeutral(stream, front);
      assert stream + SubPackets(q) == (stream + SubPackets(front)) + [SubRegion(last)];
      RegionsAppend(stream + SubPackets(front), SubRegion(last));
      hide Regions, RegionsHeld, ClientAfter, SubPackets;
      assert q == front + [last];
    }
  }

  // Of one finished job: what it leaves of the regions written, and the job it may queue.
  lemma FlushOneRegions(s: Session, p: Pos, live: set<Pos>)
    ensures var r := FlushOne(s, p, live);
            && Regions(r.stream) == Regions(s.stream) && (RegionsHeld(r.stream) <==> RegionsHeld(s.stream))
            && r.flushed == s.flushed + {p} && s.subQueue <= r.subQueue
            && forall i :: |s.subQueue| <= i < |r.subQueue| ==> r.subQueue[i].pos == p
  {
    hide *;
    FlushOneWrites(s, p, live);
    FlushOneQueues(s, p, live);
    RegionsAppend(s.stream, Visibility(p, true));
    RegionsAppend(s.stream + [Visibility(p, true)], ChunkData(p));
  }

  lemma FlushOneWrites(s: Session, p: Pos, live: set<Pos>)
    ensures FlushOne(s, p, live).stream == s.stream + [Visibility(p, true)] + [ChunkData(p)]
  {
    assert s.stream + [Visibility(p, true), ChunkData(p)] == s.stream + [Visibility(p, true)] + [ChunkData(p)];
    hide Stay;
  }

  lemma FlushOneQueues(s: Session, p: Pos, live: set<Pos>)
    ensures var r := FlushOne(s, p, live);
            && r.flushed == s.flushed + {p} && s.subQueue <= r.subQueue
            && forall i :: |s.subQueue| <= i < |r.subQueue| ==> r.subQueue[i].pos == p
  {
    hide Stay;
  }

  lemma {:induction false} FlushChunksRegions(s: Session, jobs: seq<Pos>, ready: set<Pos>, live: set<Pos>)
    ensures var r := FlushChunks(s, jobs, ready, live);
            && Regions(r.stream) == Regions(s.stream) && (RegionsHeld(r.stream) <==> RegionsHeld(s.stream))
            && s.flushed <= r.flushed && s.subQueue <= r.subQueue
            && forall i :: |s.subQueue| <= i < |r.subQueue| ==> r.subQueue[i].pos in r.flushed
    decreases |jobs|
  {
    hide FlushOne, Regions, RegionsHeld;
    if jobs != [] {
      FlushChunksRegions(s, jobs[..|jobs| - 1], ready, live);
      FlushOneRegions(FlushChunks(s, jobs[..|jobs| - 1], ready, live), jobs[|jobs| - 1], live);
    }
  }

  // A turn up to the point where the regions are drained.
  function BeforeDrain(s: Session, t: Tick): Session
  {
    var u := Enqueue(s, t.center, t.radius, t.batch, t.order, t.dropped);
    FlushChunks(u, u.queue, t.ready, t.live).(queue := NotReady(u.queue, t.ready))
  }

  lemma ServedDrains(s: Session, t: Tick)
    ensures Served(s, t) == DrainSubRegions(BeforeDrain(s, t), t.finished)
  {
    hide FlushChunks, DrainSubRegions, NotReady;
  }

  // No region is written before the drain, and only jobs for chunks just flushed are queued.
  lemma BeforeDrainRegions(s: Session, t: Tick)
    ensures var u := BeforeDrain(s, t);
            && Regions(u.stream) == Regions(s.stream) && (RegionsHeld(u.stream) <==> RegionsHeld(s.stream))
            && s.subQueue <= u.subQueue
            && forall i :: |s.subQueue| <= i < |u.subQueue| ==> u.subQueue[i].pos in u.flushed
  {
    var e := Enqueue(s, t.center, t.radius, t.batch, t.order, t.dropped);
    assert e.stream == s.stream + Invisible(t.dropped) && e.subQueue == s.subQueue;
    RegionsAppendInvisible(s.stream, t.dropped);
    FlushChunksRegions(e, e.queue, t.ready, t.live);
    hide FlushChunks, Regions, RegionsHeld, Enqueue;
  }

  lemma VisitRegions(s: Session, t: Tick)
    ensures var u, r := BeforeDrain(s, t), Visited(s, t);
            && Regions(r.stream) == Regions(s.stream) + u.subQueue[..Drainable(u.subQueue, t.finished)]
            && r.subQueue == u.subQueue[Drainable(u.subQueue, t.finished)..] && s.subQueue <= u.subQueue
  {
    var u := BeforeDrain(s, t);
    BeforeDrainRegions(s, t);
    ServedDrains(s, t);
    RegionsAppendJobs(u.stream, u.subQueue[..Drainable(u.subQueue, t.finished)]);
    hide Served, BeforeDrain, Regions, RegionsHeld, GateOpen, Drainable, SubPackets;
  }

  // What ends a session's stay in its dimension.
  predicate Resets<S(==)>(step: Step<S>, s: S)
  {
    (step.Move? && step.s == s) || (step.Disconnect? && s in step.gone)
  }

  lemma DeliverRegions(x: Session, p: Pos, batch: LocalChanges, hasChunk: bool)
    ensures var r := Deliver(x, p, batch, hasChunk);
            && Regions(r.stream) == Regions(x.stream) && (RegionsHeld(r.stream) <==> RegionsHeld(x.stream))
            && x.subQueue <= r.subQueue
  {
    RegionsAppend(x.stream, BlockPacket(p, batch));
    hide Regions, RegionsHeld, Stay;
  }

  lemma ReceivedRegions(x: Session, dim: int, p: Pos, batch: LocalChanges, hasChunk: bool)
    ensures var r := Received(x, dim, p, batch, hasChunk);
            && Regions(r.stream) == Regions(x.stream) && (RegionsHeld(r.stream) <==> RegionsHeld(x.stream))
            && x.subQueue <= r.subQueue
  {
    DeliverRegions(x, p, batch, hasChunk);
    hide Deliver, Regions, RegionsHeld;
  }

  // The leading jobs of q are written and the rest is left.
  lemma JobsGrow(s: Session, r: Session, q: seq<SubJob>, n: nat)
    requires n <= |q| && Regions(r.stream) == Regions(s.stream) + q[..n] && r.subQueue == q[n..] && s.subQueue <= q
    ensures Jobs(s) <= Jobs(r) && Regions(s.stream) <= Regions(r.stream)
  {
    hide Regions;
    assert q[..n] + q[n..] == q;
    assert Jobs(r) == Regions(s.stream) + q;
  }

  lemma VisitKeepsOrder(s: Session, t: Tick)
    ensures Jobs(s) <= Jobs(Visited(s, t)) && Regions(s.stream) <= Regions(Visited(s, t).stream)
  {
    hide *;
    VisitRegions(s, t);
    var u := BeforeDrain(s, t);
    JobsGrow(s, Visited(s, t), u.subQueue, Drainable(u.subQueue, t.finished));
  }

  lemma ReceivedKeepsOrder(x: Session, dim: int, p: Pos, batch: LocalChanges, hasChunk: bool)
    ensures var r := Received(x, dim, p, batch, hasChunk);
            Jobs(x) <= Jobs(r) && Regions(x.stream) <= Regions(r.stream)
  {
    hide *;
    ReceivedRegions(x, dim, p, batch, hasChunk);
    var r := Received(x, dim, p, batch, hasChunk);
    JobsGrow(x, r, r.subQueue, 0);
  }

  // What a step other than a reset makes of a session.
  lemma AfterKeepsOrder<S>(x: Session, s: S, step: Step<S>)
    requires !Resets(step, s)
    ensures var r := After(x, s, step); Jobs(x) <= Jobs(r) && Regions(x.stream) <= Regions(r.stream)
  {
    hide Visited, Received, Regions;
    if step.Visit? && step.s == s {
      VisitKeepsOrder(x, step.tick);
    } else if step.Broadcast? {
      ReceivedKeepsOrder(x, step.dim, step.pos, step.batch, step.hasChunk);
    } else if step.Activate? {
      RegionsAppend(x.stream, Login(step.dim));
    }
  }

  // Until a session is reset, the regions written and the jobs waiting together only grow at the end:
  // every job is written at most once, in the order in which the jobs were made.
  lemma JobsStayInOrder<S>(w: World<S>, step: Step<S>, s: S)
    requires WorldInv(w) && Legal(w, step) && s in w.sess && !Resets(step, s)
    ensures var r := Next(w, step).sess;
            s in r && Jobs(w.sess[s]) <= Jobs(r[s]) && Regions(w.sess[s].stream) <= Regions(r[s].stream)
  {
    assert !(step.Disconnect? && s in step.gone);
    hide *;
    StepOnSession(w, step, s);
    AfterKeepsOrder(w.sess[s], s, step);
  }

  // ----- what blocks the queue -----

  predicate AllHaveChunks(q: seq<SubJob>) { forall i :: 0 <= i < |q| ==> q[i].hasChunk }

  lemma {:induction false} DrainableIsLeadingRun(q: seq<SubJob>, finished: nat)
    ensures var n := Drainable(q, finished);
            && AllHaveChunks(q[..n])
            && (n < |q| && n < finished ==> !q[n].hasChunk)
  {
    if q != [] && finished > 0 && q[0].hasChunk {
      DrainableIsLeadingRun(q[1..], finished - 1);
      var n := Drainable(q[1..], finished - 1);
      assert q[..n + 1] == [q[0]] + q[1..][..n];
    }
  }

  // When every future is finished, a drain empties the sub-region queue if and only if every job in
  // it was made with a chunk reference.
  lemma DrainEmptiesExactlyWithChunks(s: Session, finished: nat)
    requires finished >= |s.subQueue|
    ensures DrainSubRegions(s, finished).subQueue == [] <==> AllHaveChunks(s.subQueue)
  {
    var n := Drainable(s.subQueue, finished);
    DrainableIsLeadingRun(s.subQueue, finished);
    if n == |s.subQueue| {
      assert s.subQueue[..n] == s.subQueue;
    } else {
      assert !s.subQueue[n].hasChunk;
    }
  }

  // The job at the head was made without a chunk reference.
  predicate Wedged(s: Session) { s.subQueue != [] && !s.subQueue[0].hasChunk }

  // The session of w is still wedged in v, with the same jobs ahead, and no region was written since.
  predicate StillWedged<S(==)>(w: World<S>, v: World<S>, s: S)
  {
    && s in w.sess && s in v.sess && Wedged(v.sess[s]) && w.sess[s].subQueue <= v.sess[s].subQueue
    && Regions(v.sess[s].stream) == Regions(w.sess[s].stream)
  }

  lemma WedgedVisit(s: Session, t: Tick)
    requires Wedged(s)
    ensures var r := Visited(s, t); Wedged(r) && s.subQueue <= r.subQueue && Regions(r.stream) == Regions(s.stream)
  {
    VisitRegions(s, t);
    var u := BeforeDrain(s, t);
    assert Drainable(u.subQueue, t.finished) == 0;
    hide Regions, Visited, BeforeDrain, Drainable;
  }

  // A wedge outlives every step that is no reset, and no reset.
  lemma WedgedAfter<S>(x: Session, s: S, step: Step<S>)
    requires Wedged(x)
    ensures var r := After(x, s, step);
            if step.Move? && step.s == s then !Wedged(r)
            else Wedged(r) && x.subQueue <= r.subQueue && Regions(r.stream) == Regions(x.stream)
  {
    hide Visited, Received, Regions;
    if step.Visit? && step.s == s {
      WedgedVisit(x, step.tick);
    } else if step.Broadcast? {
      ReceivedRegions(x, step.dim, step.pos, step.batch, step.hasChunk);
    } else if step.Activate? {
      RegionsAppend(x.stream, Login(step.dim));
    }
  }

  lemma WedgedStep<S>(u: World<S>, w: World<S>, step: Step<S>, s: S)
    requires WorldInv(w) && Legal(w, step) && StillWedged(u, w, s)
    ensures StillWedged(u, Next(w, step), s) <==> !Resets(step, s)
  {
    hide WorldInv, Legal, Next, After, Regions, Wedged;
    StepOnSession(w, step, s);
    WedgedAfter(w.sess[s], s, step);
  }

  // No step from i up to j resets the session.
  ghost predicate NoReset<S>(steps: seq<Step<S>>, s: S, i: nat, j: nat)
  {
    forall k :: i <= k < j && k < |steps| ==> !Resets(steps[k], s)
  }

  // The session of state i is still wedged in every state up to j.
  ghost predicate WedgedThrough<S>(run: seq<World<S>>, s: S, i: nat, j: nat)
  {
    forall k :: i <= k <= j && k < |run| && i < |run| ==> StillWedged(run[i], run[k], s)
  }

  lemma OneStepMore<S>(run: seq<World<S>>, steps: seq<Step<S>>, s: S, i: nat, j: nat)
    requires i < j < |run| && |run| == |steps| + 1
    ensures NoReset(steps, s, i, j) <==> NoReset(steps, s, i, j - 1) && !Resets(steps[j - 1], s)
    ensures WedgedThrough(run, s, i, j) <==> WedgedThrough(run, s, i, j - 1) && StillWedged(run[i], run[j], s)
    ensures WedgedThrough(run, s, i, j - 1) ==> StillWedged(run[i], run[j - 1], s)
  {
    hide Resets, StillWedged;
  }

  lemma WedgedAtOnce<S>(run: seq<World<S>>, steps: seq<Step<S>>, s: S, i: nat)
    requires i < |run| && s in run[i].sess && Wedged(run[i].sess[s])
    ensures NoReset(steps, s, i, i) && WedgedThrough(run, s, i, i)
  {
  }

  // In every run: a wedged session stays wedged, and its client gets none of the regions behind the
  // job, up to the step that moves the session to another dimension or removes it, and exactly until then.
  lemma {:induction false} WedgedUntilReset<S>(run: seq<World<S>>, steps: seq<Step<S>>, s: S, i: nat, j: nat)
    requires IsRun(run, steps) && run[0] == World([], map[], map[]) && i <= j < |run|
    requires s in run[i].sess && Wedged(run[i].sess[s])
    ensures WedgedThrough(run, s, i, j) <==> NoReset(steps, s, i, j)
    decreases j - i
  {
    hide *;
    if i == j {
      WedgedAtOnce(run, steps, s, i);
    } else {
      WedgedUntilReset(run, steps, s, i, j - 1);
      RunStep(run, steps, j - 1);
      OneStepMore(run, steps, s, i, j);
      if StillWedged(run[i], run[j - 1], s) {
        WedgedStep(run[i], run[j - 1], steps[j - 1], s);
      }
    }
  }

  // ----- regions and unloaded chunks -----

  // Will p be at the client when this turn drains the queue? A chunk held stays if it is in view, one
  // on its way arrives if its job is done.
  predicate HeldAtDrain(s: Session, t: Tick, p: Pos)
  {
    if p in s.flushed then InRange(p, t.center, t.radius)
    else p in Enqueue(s, t.center, t.radius, t.batch, t.order, t.dropped).queue && p in t.ready
  }

  // The chunks of all jobs that this turn will write are then at the client.
  predicate DrainsHeld(s: Session, t: Tick)
  {
    forall i :: 0 <= i < Drainable(s.subQueue, t.finished) ==> HeldAtDrain(s, t, s.subQueue[i].pos)
  }

  lemma {:induction false} DrainablePrefix(q: seq<SubJob>, more: seq<SubJob>, finished: nat)
    ensures Drainable(q, finished) == if Drainable(q + more, finished) < |q| then Drainable(q + more, finished)
                                      else |q|
  {
    if q != [] && finished > 0 && q[0].hasChunk {
      DrainablePrefix(q[1..], more, finished - 1);
      assert (q + more)[1..] == q[1..] + more;
    }
  }

  lemma BeforeDrainInv(s: Session, t: Tick)
    requires Inv(s) && s.Active() && Schedule(s, t.center, t.radius, t.generated, t.order, t.dropped)
    ensures Inv(BeforeDrain(s, t)) && ClientChunks(BeforeDrain(s, t).stream) == BeforeDrain(s, t).flushed
  {
    var u := Enqueue(s, t.center, t.radius, t.batch, t.order, t.dropped);
    assert u.registered;
    assert Inv(BeforeDrain(s, t)) ==> ClientChunks(BeforeDrain(s, t).stream) == BeforeDrain(s, t).flushed;
    hide Inv, Enqueue;
    EnqueueKeepsInv(s, t.center, t.radius, t.batch, t.generated, t.order, t.dropped);
    FlushedQueueKeepsInv(u, t.ready, t.live);
  }

  lemma FlushedBeforeDrain(s: Session, t: Tick, p: Pos)
    requires Inv(s) && Schedule(s, t.center, t.radius, t.generated, t.order, t.dropped)
    ensures p in BeforeDrain(s, t).flushed <==> HeldAtDrain(s, t, p)
  {
    var u := Enqueue(s, t.center, t.radius, t.batch, t.order, t.dropped);
    FlushChunksFrame(u, u.queue, t.ready, t.live);
    EnqueueView(s, t, p);
    hide Inv, FlushChunks, Enqueue, Schedule;
  }

  // What an enqueue leaves flushed, and what it leaves in flight.
  lemma EnqueueView(s: Session, t: Tick, p: Pos)
    requires Inv(s) && Schedule(s, t.center, t.radius, t.generated, t.order, t.dropped)
    ensures var u := Enqueue(s, t.center, t.radius, t.batch, t.order, t.dropped);
            && (p in u.flushed <==> p in s.flushed && InRange(p, t.center, t.radius))
            && (p in u.queue ==> InRange(p, t.center, t.radius))
            && (p in s.flushed ==> p !in u.queue)
  {
    var u := Enqueue(s, t.center, t.radius, t.batch, t.order, t.dropped);
    assert p in s.flushed ==> p in s.sent && p !in s.queue;
    assert u.flushed == s.flushed - Elements(t.dropped);
    assert forall i :: 0 <= i < |t.order| ==> t.order[i] in t.order;
    hide NothingLost, ClientAgrees;
  }

  // All regions that a turn writes go to chunks the client holds if and only if that is so of the jobs
  // that were queued before; the jobs that the turn itself queues are never a problem.
  lemma VisitRegionsHeld(s: Session, t: Tick)
    requires Inv(s) && s.Active() && Schedule(s, t.center, t.radius, t.generated, t.order, t.dropped)
    ensures RegionsHeld(Visited(s, t).stream) <==> RegionsHeld(s.stream) && DrainsHeld(s, t)
  {
    hide *;
    VisitWrites(s, t);
    DrainedAreHeld(s, t);
  }

  // The chunks of all jobs drained are at the client at that point.
  predicate DrainedHeld(u: Session, finished: nat)
  {
    forall i :: 0 <= i < Drainable(u.subQueue, finished) ==> u.subQueue[i].pos in u.flushed
  }

  lemma VisitWrites(s: Session, t: Tick)
    requires Inv(s) && s.Active() && Schedule(s, t.center, t.radius, t.generated, t.order, t.dropped)
    ensures RegionsHeld(Visited(s, t).stream) <==> RegionsHeld(s.stream) && DrainedHeld(BeforeDrain(s, t), t.finished)
  {
    hide *;
    BeforeDrainInv(s, t);
    BeforeDrainRegions(s, t);
    VisitStream(s, t);
    DrainAppends(BeforeDrain(s, t), t.finished);
  }

  lemma DrainAppends(u: Session, finished: nat)
    requires ClientChunks(u.stream) == u.flushed
    ensures RegionsHeld(u.stream + SubPackets(u.subQueue[..Drainable(u.subQueue, finished)]))
            <==> RegionsHeld(u.stream) && DrainedHeld(u, finished)
  {
    hide RegionsHeld, Drainable, SubPackets, ClientChunks;
    RegionsAppendJobs(u.stream, u.subQueue[..Drainable(u.subQueue, finished)]);
  }

  lemma DrainedAreHeld(s: Session, t: Tick)
    requires Inv(s) && Schedule(s, t.center, t.radius, t.generated, t.order, t.dropped)
    ensures DrainedHeld(BeforeDrain(s, t), t.finished) <==> DrainsHeld(s, t)
  {
    hide Inv, RegionsHeld, BeforeDrain, Schedule, Drainable, HeldAtDrain;
    var u := BeforeDrain(s, t);
    BeforeDrainRegions(s, t);
    DrainablePrefix(s.subQueue, u.subQueue[|s.subQueue|..], t.finished);
    assert s.subQueue + u.subQueue[|s.subQueue|..] == u.subQueue;
    forall i | 0 <= i < |s.subQueue| ensures u.subQueue[i].pos in u.flushed <==> HeldAtDrain(s, t, s.subQueue[i].pos) {
      FlushedBeforeDrain(s, t, s.subQueue[i].pos);
    }
  }

  lemma VisitStream(s: Session, t: Tick)
    ensures var u := BeforeDrain(s, t);
            Visited(s, t).stream == u.stream + SubPackets(u.subQueue[..Drainable(u.subQueue, t.finished)])
  {
    ServedDrains(s, t);
    hide Served, BeforeDrain, GateOpen, Drainable, SubPackets;
  }

  // Every queued job is for a chunk that the client holds.
  predicate JobsHeld(s: Session) { forall i :: 0 <= i < |s.subQueue| ==> s.subQueue[i].pos in s.flushed }

  // From there, a turn goes wrong if and only if it drains a job whose chunk it has just unloaded.
  lemma UnloadingIsTheOnlyWay(s: Session, t: Tick)
    requires Inv(s) && s.Active() && Schedule(s, t.center, t.radius, t.generated, t.order, t.dropped)
    requires JobsHeld(s) && RegionsHeld(s.stream)
    ensures RegionsHeld(Visited(s, t).stream) <==>
              forall i :: 0 <= i < Drainable(s.subQueue, t.finished) ==> s.subQueue[i].pos !in t.dropped
  {
    VisitRegionsHeld(s, t);
    assert forall p :: p in s.flushed ==> p in s.sent;
    hide Inv, Visited, RegionsHeld;
  }

  // ----- over runs -----

  ghost predicate AllRegionsHeld<S>(w: World<S>) { forall s :: s in w.sess ==> RegionsHeld(w.sess[s].stream) }

  predicate StepDrainsHeld<S(==)>(w: World<S>, step: Step<S>)
  {
    step.Visit? && step.s in w.sess ==> DrainsHeld(w.sess[step.s], step.tick)
  }

  lemma AfterRegionsHeld<S>(w: World<S>, x: Session, s: S, step: Step<S>)
    requires Inv(x) && s in w.sess && w.sess[s] == x && Legal(w, step)
    ensures RegionsHeld(After(x, s, step).stream) <==>
              RegionsHeld(x.stream) && (step.Visit? && step.s == s ==> DrainsHeld(x, step.tick))
  {
    hide Inv, Visited, Received, RegionsHeld, DrainsHeld, Schedule;
    match step
    case Visit(s', t) => if s' == s { VisitRegionsHeld(x, t); }
    case Activate(_, dim) => RegionsAppend(x.stream, Login(dim));
    case Move(_, dim) => RegionsAppend(x.stream, Respawn(dim));
    case Broadcast(dim, p, batch, hasChunk) => ReceivedRegions(x, dim, p, batch, hasChunk);
    case _ =>
  }

  lemma StepRegionsHeld<S>(w: World<S>, step: Step<S>)
    requires WorldInv(w) && Legal(w, step) && AllRegionsHeld(w)
    ensures AllRegionsHeld(Next(w, step)) <==> StepDrainsHeld(w, step)
  {
    var r := Next(w, step);
    forall s | s in w.sess && s in r.sess
      ensures RegionsHeld(r.sess[s].stream) <==> (step.Visit? && step.s == s ==> DrainsHeld(w.sess[s], step.tick))
    {
      assert Inv(w.sess[s]);
      hide *;
      assert AllRegionsHeld(w) ==> RegionsHeld(w.sess[s].stream) by { HeldFor(w, s); }
      StepOnSession(w, step, s);
      AfterRegionsHeld(w, w.sess[s], s, step);
    }
    NewcomersHaveNoRegions(w, step);
    hide RegionsHeld, DrainsHeld, WorldInv, Next;
  }

  lemma HeldFor<S>(w: World<S>, s: S)
    requires AllRegionsHeld(w) && s in w.sess
    ensures RegionsHeld(w.sess[s].stream)
  {
  }

  lemma NewcomersHaveNoRegions<S>(w: World<S>, step: Step<S>)
    requires Legal(w, step)
    ensures var r := Next(w, step);
            && (forall s :: s in r.sess && s !in w.sess ==> RegionsHeld(r.sess[s].stream))
            && (step.Visit? ==> step.s in r.sess)
  {
    hide Fanout, Visited, ChangeDimension, DrainLists, RemoveChunks;
  }

  ghost predicate HeldUpTo<S>(run: seq<World<S>>, k: nat)
  {
    forall j :: 0 <= j <= k && j < |run| ==> AllRegionsHeld(run[j])
  }

  ghost predicate DrainsHeldUpTo<S>(run: seq<World<S>>, steps: seq<Step<S>>, k: nat)
  {
    forall j :: 0 <= j < k && j < |run| && j < |steps| ==> StepDrainsHeld(run[j], steps[j])
  }

  lemma UpToNext<S>(run: seq<World<S>>, steps: seq<Step<S>>, k: nat)
    requires 0 < k < |run| && |run| == |steps| + 1
    ensures HeldUpTo(run, k) <==> HeldUpTo(run, k - 1) && AllRegionsHeld(run[k])
    ensures DrainsHeldUpTo(run, steps, k)
            <==> DrainsHeldUpTo(run, steps, k - 1) && StepDrainsHeld(run[k - 1], steps[k - 1])
    ensures HeldUpTo(run, k - 1) ==> AllRegionsHeld(run[k - 1])
  {
    hide AllRegionsHeld, StepDrainsHeld;
  }

  lemma UpToNone<S>(run: seq<World<S>>, steps: seq<Step<S>>)
    requires run != [] && run[0] == World([], map[], map[])
    ensures HeldUpTo(run, 0) && DrainsHeldUpTo(run, steps, 0)
  {
  }

  // In every run: all regions ever written go to chunks held if and only if each turn drains only jobs
  // whose chunks are then at the client.
  lemma {:induction false} RegionsHeldExactly<S>(run: seq<World<S>>, steps: seq<Step<S>>, k: nat)
    requires IsRun(run, steps) && run[0] == World([], map[], map[]) && k < |run|
    ensures HeldUpTo(run, k) <==> DrainsHeldUpTo(run, steps, k)
  {
    hide *;
    if k == 0 {
      UpToNone(run, steps);
    } else {
      RegionsHeldExactly(run, steps, k - 1);
      RunStep(run, steps, k - 1);
      UpToNext(run, steps, k);
      if AllRegionsHeld(run[k - 1]) {
        StepRegionsHeld(run[k - 1], steps[k - 1]);
      }
    }
  }

  // The turn unloads no chunk with a queued job.
  predicate KeepsJobsInView<S(==)>(w: World<S>, step: Step<S>)
  {
    step.Visit? && step.s in w.sess ==> JobsInView(w.sess[step.s], step.tick)
  }

  predicate JobsInView(s: Session, t: Tick)
  {
    forall i :: 0 <= i < |s.subQueue| ==> InRange(s.subQueue[i].pos, t.center, t.radius)
  }

  lemma VisitJobsHeld(s: Session, t: Tick)
    requires Inv(s) && s.Active() && Schedule(s, t.center, t.radius, t.generated, t.order, t.dropped)
    requires JobsHeld(s) && JobsInView(s, t)
    ensures JobsHeld(Visited(s, t)) && DrainsHeld(s, t)
  {
    var u, r := BeforeDrain(s, t), Visited(s, t);
    DrainKeepsFlushed(s, t);
    hide Inv, Visited, BeforeDrain, Schedule, Drainable;
    BeforeDrainRegions(s, t);
    VisitRegions(s, t);
    forall i | 0 <= i < |s.subQueue| ensures u.subQueue[i].pos in u.flushed {
      FlushedBeforeDrain(s, t, s.subQueue[i].pos);
    }
  }

  lemma DrainKeepsFlushed(s: Session, t: Tick)
    ensures Visited(s, t).flushed == BeforeDrain(s, t).flushed
  {
    ServedDrains(s, t);
    hide Served, BeforeDrain, GateOpen;
  }

  lemma ReceivedJobsHeld(x: Session, dim: int, p: Pos, batch: LocalChanges, hasChunk: bool)
    requires JobsHeld(x)
    ensures JobsHeld(Received(x, dim, p, batch, hasChunk))
  {
    hide Stay;
  }

  lemma AfterJobsHeld<S>(w: World<S>, x: Session, s: S, step: Step<S>)
    requires Inv(x) && s in w.sess && w.sess[s] == x && Legal(w, step) && JobsHeld(x) && KeepsJobsInView(w, step)
    ensures JobsHeld(After(x, s, step)) && (step.Visit? && step.s == s ==> DrainsHeld(x, step.tick))
  {
    hide Inv, Visited, Received, DrainsHeld, Schedule, JobsInView;
    match step
    case Visit(s', t) => if s' == s { VisitJobsHeld(x, t); }
    case Broadcast(dim, p, batch, hasChunk) => ReceivedJobsHeld(x, dim, p, batch, hasChunk);
    case _ =>
  }

  ghost predicate AllJobsHeld<S>(w: World<S>) { forall s :: s in w.sess ==> JobsHeld(w.sess[s]) }

  lemma StepJobsHeld<S>(w: World<S>, step: Step<S>)
    requires WorldInv(w) && Legal(w, step) && AllJobsHeld(w) && KeepsJobsInView(w, step)
    ensures AllJobsHeld(Next(w, step)) && StepDrainsHeld(w, step)
  {
    var r := Next(w, step);
    forall s | s in w.sess
      ensures (s in r.sess ==> JobsHeld(r.sess[s])) && (step.Visit? && step.s == s ==> DrainsHeld(w.sess[s], step.tick))
    {
      assert Inv(w.sess[s]) && JobsHeld(w.sess[s]);
      hide *;
      StepOnSession(w, step, s);
      AfterJobsHeld(w, w.sess[s], s, step);
    }
    NewcomersHaveNoJobs(w, step);
    hide JobsHeld, DrainsHeld, WorldInv, Next;
  }

  lemma NewcomersHaveNoJobs<S>(w: World<S>, step: Step<S>)
    requires Legal(w, step)
    ensures var r := Next(w, step); forall s :: s in r.sess && s !in w.sess ==> JobsHeld(r.sess[s])
  {
    hide Fanout, Visited, ChangeDimension, DrainLists, RemoveChunks;
  }

  // Under a rule that a caller can follow, all is well: while no turn unloads a chunk that has a job
  // queued, every region goes to a chunk held.
  lemma {:induction false} RegionsHeldWhileJobsStayInView<S>(run: seq<World<S>>, steps: seq<Step<S>>, k: nat)
    requires IsRun(run, steps) && run[0] == World([], map[], map[]) && k < |run|
    requires forall j :: 0 <= j < k ==> KeepsJobsInView(run[j], steps[j])
    ensures AllRegionsHeld(run[k]) && AllJobsHeld(run[k])
  {
    if k > 0 {
      RegionsHeldWhileJobsStayInView(run, steps, k - 1);
      RunStep(run, steps, k - 1);
      hide *;
      StepJobsHeld(run[k - 1], steps[k - 1]);
      StepRegionsHeld(run[k - 1], steps[k - 1]);
    }
  }

  // ----- two short runs -----

  const HOME := Pos(0, 0)

  // A turn at HOME, the only generated chunk, and one far away.
  const NEAR := Tick(HOME, 3, 16, {HOME}, [HOME], [], {HOME}, {HOME}, 0, HOME, true)
  const FAR := Tick(Pos(100, 0), 3, 16, {}, [], [HOME], {}, {}, 1, Pos(100, 0), true)

  function TenChanges(): LocalChanges { seq(10, i requires 0 <= i < 10 => Change(i, 0, 0, 1, 0)) }

  // A client that has got HOME.
  function AtHome(): Session
  {
    Session(0, WaitingForSpawnChunks, {HOME}, {HOME}, true, [], [], map[], [], [],
            [Login(0), Visibility(HOME, true), ChunkData(HOME)], map[HOME := []])
  }

  lemma ComingHome()
    ensures var x := LoggedIn(NewSession(), 0);
            && Schedule(x, HOME, 3, {HOME}, [HOME], []) && Drained(Visited(x, NEAR)) == AtHome()
  {
    EnqueueAtHome();
    FlushAtHome();
    hide Enqueue, FlushChunks, FlushOne, NotReady;
    var f := FlushedHome();
    assert f.stream + SubPackets([]) == f.stream;
    assert Drainable([], 0) == 0;
  }

  // HOME has been enqueued, and then flushed.
  function QueuedHome(): Session
  {
    LoggedIn(NewSession(), 0).(registered := true, queue := [HOME], sent := {HOME}, told := map[HOME := []])
  }

  function FlushedHome(): Session
  {
    QueuedHome().(stream := [Login(0), Visibility(HOME, true), ChunkData(HOME)],
      flushed := {HOME}, newlyFlushed := [HOME])
  }

  lemma EnqueueAtHome()
    ensures var x := LoggedIn(NewSession(), 0);
            Schedule(x, HOME, 3, {HOME}, [HOME], []) && Enqueue(x, HOME, 3, 16, [HOME], []) == QueuedHome()
  {
    var x := LoggedIn(NewSession(), 0);
    HomeIsScheduled(x);
    UnloadNothing(x, HOME, 3);
    SubmitHome(x.(registered := true));
    assert x.sent == {} && x.queue == [] && x.told == map[] && Room(0, 16, |[HOME]|) == 1;
    hide Unload, SubmitJobs, LoggedIn, NewSession, Schedule;
    assert [HOME][..1] == [HOME];
  }

  lemma HomeIsScheduled(s: Session)
    requires s.sent == {}
    ensures Schedule(s, HOME, 3, {HOME}, [HOME], [])
  {
  }

  lemma UnloadNothing(s: Session, c: Pos, radius: int)
    requires s.queue == []
    ensures Unload(s, c, radius, []) == s.(registered := true)
  {
    assert Elements([]) == {};
    assert s.stream + Invisible([]) == s.stream && s.newlyUnloaded + [] == s.newlyUnloaded;
    assert s.sent - {} == s.sent && s.flushed - {} == s.flushed && s.pending - {} == s.pending && s.told - {} == s.told;
  }

  lemma SubmitHome(s: Session)
    requires s.queue == [] && s.sent == {} && s.told == map[]
    ensures SubmitJobs(s, [HOME]) == s.(queue := [HOME], sent := {HOME}, told := map[HOME := []])
  {
    assert [] + [HOME] == [HOME] && Elements([HOME]) == {HOME};
    assert s.told + Fresh([HOME]) == map[HOME := []];
  }

  lemma FlushAtHome()
    ensures FlushChunks(QueuedHome(), [HOME], {HOME}, {HOME}) == FlushedHome() && NotReady([HOME], {HOME}) == []
  {
    var u := QueuedHome();
    assert [HOME][..0] == [];
    assert FlushChunks(u, [HOME][..0], {HOME}, {HOME}) == u && NotReady([HOME][..0], {HOME}) == [];
    assert FlushChunks(u, [HOME], {HOME}, {HOME}) == FlushOne(u, HOME, {HOME});
    assert u.stream + [Visibility(HOME, true), ChunkData(HOME)] == [Login(0), Visibility(HOME, true), ChunkData(HOME)];
  }

  // Ten changes at HOME, with or without a reference to the chunk.
  function WithJob(hasChunk: bool): Session
  {
    AtHome().(subQueue := [JobFor(HOME, TenChanges(), hasChunk, 1)],
      told := map[HOME := TenChanges()])
  }

  lemma TenChangesArrive(hasChunk: bool)
    ensures Received(AtHome(), 0, HOME, TenChanges(), hasChunk) == WithJob(hasChunk)
  {
    HomeIsFresh(0, HOME);
    hide JobFor, Stay;
    assert [] + TenChanges() == TenChanges();
  }

  // A chunk at the client of which nothing else has been sent.
  lemma HomeIsFresh(dim: int, p: Pos)
    ensures var stream := [Login(dim), Visibility(p, true), ChunkData(p)];
            Carried(stream, p) == [] && Stay(stream, p) == 1
  {
    CarriedAppend([], Login(dim), p);
    assert [] + [Login(dim)] == [Login(dim)];
    assert [Login(dim)] + [Visibility(p, true), ChunkData(p)] == [Login(dim), Visibility(p, true), ChunkData(p)];
    AnnounceStarts([Login(dim)], p, p);
    assert Stay([], p) == 0;
    hide Carried, Stay;
  }

  // A run in which one client comes to HOME and ten changes are broadcast there.
  lemma TenChangesAtHome(hasChunk: bool) returns (run: seq<World<int>>, steps: seq<Step<int>>)
    ensures IsRun(run, steps) && run[0] == World([], map[], map[]) && |steps| == 4 && |run| == 5
    ensures 0 in run[4].sess && run[4].sess[0] == WithJob(hasChunk) && WorldInv(run[4])
  {
    hide *;
    run, steps := HomeRun();
    BroadcastStep(run[3], hasChunk);
    run, steps := MoreSteps(run, steps, Broadcast(0, HOME, TenChanges(), hasChunk));
    EveryRunAgrees(run, steps, 4);
  }

  // One client logs in, and then comes to HOME.
  lemma LoginRun() returns (run: seq<World<int>>, steps: seq<Step<int>>)
    ensures IsRun(run, steps) && run[0] == World([], map[], map[]) && |steps| == 2 && |run| == 3
    ensures run[2].sess == map[0 := LoggedIn(NewSession(), 0)]
  {
    run, steps := [World([], map[], map[])], [];
    hide *;
    LoginSteps(run[0]);
    run, steps := MoreSteps(run, steps, Join(0));
    run, steps := MoreSteps(run, steps, Activate(0, 0));
  }

  lemma HomeRun() returns (run: seq<World<int>>, steps: seq<Step<int>>)
    ensures IsRun(run, steps) && run[0] == World([], map[], map[]) && |steps| == 3 && |run| == 4
    ensures 0 in run[3].sess && run[3].sess[0] == AtHome() && WorldInv(run[3])
  {
    hide *;
    run, steps := LoginRun();
    HomeStep(run[2]);
    run, steps := MoreSteps(run, steps, Visit(0, NEAR));
    EveryRunAgrees(run, steps, 3);
  }

  lemma LoginSteps(w: World<int>)
    requires w == World([], map[], map[])
    ensures Legal(w, Join(0))
    ensures var v := Next(w, Join(0));
            Legal(v, Activate(0, 0)) && Next(v, Activate(0, 0)).sess == map[0 := LoggedIn(NewSession(), 0)]
    ensures IsRun([w], [])
  {
    var v := Next(w, Join(0));
    assert v.sess == map[0 := NewSession()];
  }

  lemma HomeStep(w: World<int>)
    requires w.sess == map[0 := LoggedIn(NewSession(), 0)]
    ensures var r := Next(w, Visit(0, NEAR)); Legal(w, Visit(0, NEAR)) && 0 in r.sess && r.sess[0] == AtHome()
  {
    ComingHome();
    hide Visited, Drained, AtHome, Schedule, DrainLists;
  }

  lemma BroadcastStep(w: World<int>, hasChunk: bool)
    requires WorldInv(w) && 0 in w.sess && w.sess[0] == AtHome()
    ensures var step, r := Broadcast(0, HOME, TenChanges(), hasChunk),
            Next(w, Broadcast(0, HOME, TenChanges(), hasChunk));
            Legal(w, step) && 0 in r.sess && r.sess[0] == WithJob(hasChunk)
  {
    BroadcastIsLegal(w, hasChunk);
    hide *;
    StepOnSession(w, Broadcast(0, HOME, TenChanges(), hasChunk), 0);
    TenChangesArrive(hasChunk);
  }

  lemma BroadcastIsLegal(w: World<int>, hasChunk: bool)
    ensures var step := Broadcast(0, HOME, TenChanges(), hasChunk);
            Legal(w, step) && After(AtHome(), 0, step) == Received(AtHome(), 0, HOME, TenChanges(), hasChunk)
  {
    hide Received, AtHome, TenChanges;
  }

  lemma MoreSteps(run: seq<World<int>>, steps: seq<Step<int>>, step: Step<int>)
    returns (longer: seq<World<int>>, more: seq<Step<int>>)
    requires |run| == |steps| + 1 && IsRun(run, steps) && Legal(run[|steps|], step)
    ensures longer == run + [Next(run[|steps|], step)] && more == steps + [step] && IsRun(longer, more)
  {
    hide Next, Legal;
    longer, more := run + [Next(run[|steps|], step)], steps + [step];
  }

  // Dropping the chunk reference wedges the queue: such a state is reached, and lasts as stated above.
  // The world can drop a chunk that a client holds because it keeps what is in view under the override in
  // force before the player's turn, while the turn itself may enqueue further out: once a portal is placed,
  // an override of nine chunks gives way to a larger view radius. A chunk in between that was loaded for
  // another player only is gone after that tick's update of the load radius, before the broadcast.
  lemma WedgeIsReachable() returns (run: seq<World<int>>, steps: seq<Step<int>>)
    ensures IsRun(run, steps) && run[0] == World([], map[], map[])
    ensures 0 in run[|steps|].sess && Wedged(run[|steps|].sess[0])
  {
    run, steps := TenChangesAtHome(false);
    hide IsRun, WorldInv;
  }

  // Unloading a chunk leaves its jobs queued: a client can be sent a region of a chunk it was told to
  // drop. Here the player walks away before the job is done.
  lemma RegionMayFollowUnload() returns (run: seq<World<int>>, steps: seq<Step<int>>)
    ensures IsRun(run, steps) && run[0] == World([], map[], map[])
    ensures 0 in run[|steps|].sess && !RegionsHeld(run[|steps|].sess[0].stream)
  {
    hide *;
    run, steps := TenChangesAtHome(true);
    AwayStep(run[4]);
    run, steps := MoreSteps(run, steps, Visit(0, FAR));
  }

  lemma AwayStep(w: World<int>)
    requires WorldInv(w) && 0 in w.sess && w.sess[0] == WithJob(true)
    ensures Legal(w, Visit(0, FAR))
    ensures var r := Next(w, Visit(0, FAR)); 0 in r.sess && !RegionsHeld(r.sess[0].stream)
  {
    hide *;
    var x := WithJob(true);
    AwayIsLegal(w);
    VisitRegionsHeld(x, FAR);
    StepOnSession(w, Visit(0, FAR), 0);
    NotDisconnect(FAR);
    AfterVisit(x, 0, FAR);
  }

  lemma AwayIsLegal(w: World<int>)
    requires WorldInv(w) && 0 in w.sess && w.sess[0] == WithJob(true)
    ensures var x := WithJob(true);
            && Inv(x) && x.Active() && Legal(w, Visit(0, FAR)) && !DrainsHeld(x, FAR)
            && Schedule(x, FAR.center, FAR.radius, FAR.generated, FAR.order, FAR.dropped)
  {
    GoingAway();
    hide Inv, Schedule, DrainsHeld;
  }

  lemma NotDisconnect(t: Tick)
    ensures var step: Step<int> := Visit(0, t); !step.Disconnect?
  {
  }

  lemma AfterVisit(x: Session, s: int, t: Tick)
    ensures After(x, s, Visit(s, t)).stream == Visited(x, t).stream
  {
    hide Visited;
  }

  lemma GoingAway()
    ensures var x := WithJob(true);
            && Schedule(x, FAR.center, FAR.radius, FAR.generated, FAR.order, FAR.dropped) && !DrainsHeld(x, FAR)
  {
    var x := WithJob(true);
    assert [x.subQueue[0]][1..] == [];
    assert Drainable(x.subQueue, 1) == 1;
    assert !HeldAtDrain(x, FAR, x.subQueue[0].pos);
    assert [HOME][0] == HOME;
  }
}
