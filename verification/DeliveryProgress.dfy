// How fast the delivery protocol serves a session, and when it lets the player in.
module DeliveryProgress {
  import opened Sequences
  import opened BlockChanges
  import opened Delivery
  import opened ChunkIndex

  // ----- bounded loading -----

  // The generated chunks in view that the client does not hold yet.
  function Missing(s: Session, generated: set<Pos>, c: Pos, radius: int): set<Pos>
  {
    set p | p in generated && InRange(p, c, radius) && p !in s.flushed
  }

  function Enqueued(s: Session, t: Tick): Session { Enqueue(s, t.center, t.radius, t.batch, t.order, t.dropped) }

  // The jobs that a turn finds in flight and does not cancel.
  function StillQueued(s: Session, t: Tick): seq<Pos> { KeepInRange(s.queue, t.center, t.radius) }

  // One turn in which every submitted job finishes before the flush.
  ghost predicate Round(s: Session, r: Session, t: Tick)
  {
    && Schedule(s, t.center, t.radius, t.generated, t.order, t.dropped)
    && (forall p :: p in Enqueued(s, t).queue ==> p in t.ready)
    && r == Drained(Visited(s, t))
  }

  lemma {:induction false} CountDistinct(q: seq<Pos>)
    requires NoDup(q)
    ensures |Elements(q)| == |q|
  {
    if q != [] {
      var front, last := q[..|q| - 1], q[|q| - 1];
      CountDistinct(front);
      assert q == front + [last];
      assert Elements(q) == Elements(front) + {last};
      assert last !in front;
    }
  }

  lemma {:induction false} NothingLeft(q: seq<Pos>, ready: set<Pos>)
    requires forall p :: p in q ==> p in ready
    ensures NotReady(q, ready) == []
  {
    if q != [] {
      assert q == q[..|q| - 1] + [q[|q| - 1]];
      NothingLeft(q[..|q| - 1], ready);
    }
  }

  lemma EnqueuedSplit(s: Session, t: Tick)
    ensures var u, n := Enqueued(s, t), Room(|StillQueued(s, t)|, t.batch, |t.order|);
            && u.queue == StillQueued(s, t) + t.order[..n] && u.registered
            && u.flushed == s.flushed - Elements(t.dropped)
  {
  }

  lemma RoundFlushesAll(s: Session, r: Session, t: Tick)
    requires Round(s, r, t)
    ensures r.queue == [] && r.flushed == Enqueued(s, t).flushed + Elements(Enqueued(s, t).queue)
  {
    var u := Enqueued(s, t);
    EnqueuedSplit(s, t);
    FlushChunksFrame(u, u.queue, t.ready, t.live);
    NothingLeft(u.queue, t.ready);
  }

  lemma RoundKeepsInv(s: Session, r: Session, t: Tick)
    requires Inv(s) && s.Active() && Round(s, r, t)
    ensures Inv(r) && r.Active()
  {
    hide Inv, GateOpen, Schedule, Enqueue, Flush;
    EnqueueKeepsInv(s, t.center, t.radius, t.batch, t.generated, t.order, t.dropped);
    FlushKeepsInv(Enqueued(s, t), t.ready, t.live, t.finished);
    ServedKeepsConnection(s, t);
    RelabelKeepsInv(Served(s, t), r);
  }

  // The missing chunks are the candidates and those of the jobs kept whose chunks are still generated.
  lemma MissingSplits(s: Session, t: Tick)
    requires SetsAgree(s) && Schedule(s, t.center, t.radius, t.generated, t.order, t.dropped)
    ensures var kept := Elements(StillQueued(s, t)) * t.generated;
            && Missing(s, t.generated, t.center, t.radius) == Elements(t.order) + kept && Elements(t.order) !! kept
            && |Missing(s, t.generated, t.center, t.radius)| == |t.order| + |kept|
  {
    var m, kept := Missing(s, t.generated, t.center, t.radius), Elements(StillQueued(s, t)) * t.generated;
    assert forall p :: p in m <==> p in t.order || p in kept;
    CountDistinct(t.order);
  }

  lemma TakingLeavesRest(order: seq<Pos>, n: nat)
    requires NoDup(order) && n <= |order|
    ensures |Elements(order) - Elements(order[..n])| == |order| - n
  {
    CountDistinct(order);
    CountDistinct(order[..n]);
    assert forall p :: p in order[..n] ==> p in order;
  }

  // One round, from any state: of the n chunks that are missing and not in flight, the client lacks
  // afterwards those for which there was no room beside the jobs in flight.
  lemma RoundLoads(s: Session, r: Session, t: Tick)
    requires Inv(s) && s.Active() && Round(s, r, t)
    ensures Inv(r) && r.Active() && r.queue == []
    ensures var kept := StillQueued(s, t);
            var n := |Missing(s, t.generated, t.center, t.radius)| - |Elements(kept) * t.generated|;
            n >= 0 && |Missing(r, t.generated, t.center, t.radius)| == n - Room(|kept|, t.batch, n)
  {
    hide *;
    RoundKeepsInv(s, r, t);
    RoundFlushesAll(s, r, t);
    RoundIsScheduled(s, r, t);
    InvSides(s);
    RoundTakes(s, r, t, Room(|StillQueued(s, t)|, t.batch, |t.order|));
  }

  lemma RoundIsScheduled(s: Session, r: Session, t: Tick)
    requires Round(s, r, t)
    ensures Schedule(s, t.center, t.radius, t.generated, t.order, t.dropped) && NoDup(t.order)
  {
  }

  lemma RoundTakes(s: Session, r: Session, t: Tick, n: nat)
    requires SetsAgree(s) && Schedule(s, t.center, t.radius, t.generated, t.order, t.dropped) && NoDup(t.order)
    requires n == Room(|StillQueued(s, t)|, t.batch, |t.order|)
    requires r.flushed == Enqueued(s, t).flushed + Elements(Enqueued(s, t).queue)
    ensures |Missing(s, t.generated, t.center, t.radius)| == |t.order| + |Elements(StillQueued(s, t)) * t.generated|
    ensures |Missing(r, t.generated, t.center, t.radius)| == |t.order| - n
  {
    hide *;
    MissingSplits(s, t);
    EnqueuedSplit(s, t);
    LeftOver(s, r, t, n);
    TakingLeavesRest(t.order, n);
  }

  lemma LeftOver(s: Session, r: Session, t: Tick, n: nat)
    requires n <= |t.order| && Schedule(s, t.center, t.radius, t.generated, t.order, t.dropped)
    requires r.flushed == (s.flushed - Elements(t.dropped)) + Elements(StillQueued(s, t) + t.order[..n])
    requires Missing(s, t.generated, t.center, t.radius) == Elements(t.order)
             + Elements(StillQueued(s, t)) * t.generated
    requires Elements(t.order) !! Elements(StillQueued(s, t)) * t.generated
    ensures Missing(r, t.generated, t.center, t.radius) == Elements(t.order) - Elements(t.order[..n])
  {
    var kept, m := StillQueued(s, t), Missing(s, t.generated, t.center, t.radius);
    assert forall p :: p in kept + t.order[..n] <==> p in kept || p in t.order[..n];
    hide StillQueued;
    forall p ensures p in Missing(r, t.generated, t.center, t.radius)
      <==> p in Elements(t.order) - Elements(t.order[..n]) {
      assert p in Missing(r, t.generated, t.center, t.radius) <==> p in m && p !in kept && p !in t.order[..n];
    }
  }

  // Turns of a session whose position, view and surroundings stay the same.
  ghost predicate Rounds(run: seq<Session>, ticks: seq<Tick>, c: Pos, radius: int, batch: int, generated: set<Pos>)
  {
    && |run| == |ticks| + 1 && Inv(run[0]) && run[0].Active()
    && forall i :: 0 <= i < |ticks| ==>
       Round(run[i], run[i + 1], ticks[i]) && Looks(ticks[i], c, radius, batch, generated)
  }

  predicate Looks(t: Tick, c: Pos, radius: int, batch: int, generated: set<Pos>)
  {
    t.center == c && t.radius == radius && t.batch == batch && t.generated == generated
  }

  // How many of m missing chunks may still be missing after k rounds. Jobs in flight at the start cost
  // one round more if the world has meanwhile dropped some of their chunks.
  function Left(m: nat, batch: int, k: nat, intact: bool): nat
  {
    if k == 0 then m
    else if batch <= 0 then 0
    else Max(0, m - (if intact then k else k - 1) * batch)
  }

  lemma LeftNext(m: nat, batch: int, k: nat, intact: bool)
    requires k > 0
    ensures var now := Left(m, batch, k, intact);
            Left(m, batch, k + 1, intact) == if batch <= 0 || now < batch then 0 else now - batch
  {
    assert forall i: int :: (i + 1) * batch == i * batch + batch;
  }

  // Are the chunks of all jobs in flight that are in view still generated?
  predicate Intact(s: Session, c: Pos, radius: int, generated: set<Pos>)
  {
    forall p :: p in s.queue && InRange(p, c, radius) ==> p in generated
  }

  lemma FirstRound(s: Session, r: Session, t: Tick)
    requires Inv(s) && s.Active() && Round(s, r, t)
    ensures var m := |Missing(s, t.generated, t.center, t.radius)|;
            && |Missing(r, t.generated, t.center, t.radius)|
               <= Left(m, t.batch, 1, Intact(s, t.center, t.radius, t.generated))
            && (s.queue == [] ==> |Missing(r, t.generated, t.center, t.radius)| == Left(m, t.batch, 1, true))
  {
    hide *;
    RoundLoads(s, r, t);
    KeptJobs(s, t);
    RoomIsUsed(|Missing(s, t.generated, t.center, t.radius)|,
      |StillQueued(s, t)|, |Elements(StillQueued(s, t)) * t.generated|,
               t.batch, Intact(s, t.center, t.radius, t.generated));
  }

  lemma KeptJobs(s: Session, t: Tick)
    requires Inv(s)
    ensures var kept := StillQueued(s, t);
            && |Elements(kept) * t.generated| <= |kept| && (s.queue == [] ==> kept == [])
            && (Intact(s, t.center, t.radius, t.generated) ==> |Elements(kept) * t.generated| == |kept|)
    ensures s.queue == [] ==> Intact(s, t.center, t.radius, t.generated)
  {
    InvSides(s);
    hide Inv, ClientAgrees, NothingLost;
    var kept := StillQueued(s, t);
    CountDistinct(kept);
    Within(Elements(kept), t.generated);
  }

  lemma Within(kept: set<Pos>, generated: set<Pos>)
    ensures |kept * generated| <= |kept|
    ensures (forall p :: p in kept ==> p in generated) ==> |kept * generated| == |kept|
  {
    assert kept == (kept * generated) + (kept - generated);
  }

  // Of m chunks missing, b have one of the a jobs in flight.
  lemma RoomIsUsed(m: nat, a: nat, b: nat, batch: int, intact: bool)
    requires b <= a && b <= m && (intact ==> b == a)
    ensures (m - b) - Room(a, batch, m - b) <= Left(m, batch, 1, intact)
    ensures a == 0 ==> (m - b) - Room(a, batch, m - b) == Left(m, batch, 1, true)
  {
  }

  // With a fixed position, from whatever state: n missing chunks are all at the client after ceil(n /
  // batch) such rounds, plus one if the world dropped chunks with a job in flight; after one round if
  // the batch is unlimited. Nothing in flight at the start, the number still missing is exact.
  lemma {:induction false} LoadingIsBounded(run: seq<Session>, ticks: seq<Tick>, c: Pos, radius: int, batch: int,
                                            generated: set<Pos>, k: nat)
    requires Rounds(run, ticks, c, radius, batch, generated) && k < |run|
    ensures Inv(run[k]) && run[k].Active() && (k > 0 ==> run[k].queue == [])
    ensures var m, left := |Missing(run[0], generated, c, radius)|, |Missing(run[k], generated, c, radius)|;
            && left <= Left(m, batch, k, Intact(run[0], c, radius, generated))
            && (run[0].queue == [] ==> left == Left(m, batch, k, true))
  {
    hide *;
    RoundsStart(run, ticks, c, radius, batch, generated);
    if k > 0 {
      LoadingIsBounded(run, ticks, c, radius, batch, generated, k - 1);
      var s, r, t := run[k - 1], run[k - 1 + 1], ticks[k - 1];
      RoundAt(run, ticks, c, radius, batch, generated, k - 1);
      RoundLoads(s, r, t);
      FirstRound(s, r, t);
      if k > 1 {
        var m := |Missing(run[0], generated, c, radius)|;
        IdleRound(s, t);
        LeftNext(m, batch, k - 1, Intact(run[0], c, radius, generated));
        LeftNext(m, batch, k - 1, true);
        LeftFirst(|Missing(s, generated, c, radius)|, batch);
      }
    }
  }

  lemma RoundsStart(run: seq<Session>, ticks: seq<Tick>, c: Pos, radius: int, batch: int, generated: set<Pos>)
    requires Rounds(run, ticks, c, radius, batch, generated)
    ensures |run| == |ticks| + 1 && Inv(run[0]) && run[0].Active()
    ensures forall m, intact :: Left(m, batch, 0, intact) == m
  {
  }

  lemma RoundAt(run: seq<Session>, ticks: seq<Tick>, c: Pos, radius: int, batch: int, generated: set<Pos>, i: nat)
    requires Rounds(run, ticks, c, radius, batch, generated) && i < |ticks|
    ensures Round(run[i], run[i + 1], ticks[i])
    ensures var t := ticks[i]; t.center == c && t.radius == radius && t.batch == batch && t.generated == generated
  {
  }

  lemma IdleRound(s: Session, t: Tick)
    requires s.queue == []
    ensures Intact(s, t.center, t.radius, t.generated)
  {
  }

  lemma LeftFirst(m: nat, batch: int)
    ensures Left(m, batch, 1, true) == if batch <= 0 || m < batch then 0 else m - batch
  {
  }

  // Chunks are submitted nearest first: no candidate left out is nearer than one that was taken.
  lemma NearestFirst(s: Session, c: Pos, radius: int, batch: int, generated: set<Pos>, order: seq<Pos>,
                     dropped: seq<Pos>, taken: Pos, left: Pos)
    requires Inv(s) && s.Active() && Schedule(s, c, radius, generated, order, dropped)
    requires var t := Enqueue(s, c, radius, batch, order, dropped);
             taken in t.sent && taken !in s.sent && left !in t.sent && Candidate(s, left, c, radius, generated)
    ensures Dist(taken.x, c.x) + Dist(taken.z, c.z) <= Dist(left.x, c.x) + Dist(left.z, c.z)
  {
    var n := Room(|Unload(s, c, radius, dropped).queue|, batch, |order|);
    assert taken in order[..n] && left in order && left !in order[..n];
    hide *;
    var i, j := PrefixFirst(order, n, taken, left);
    OrderedAt(s, c, radius, generated, order, dropped, i, j);
  }

  lemma PrefixFirst(order: seq<Pos>, n: nat, taken: Pos, left: Pos) returns (i: nat, j: nat)
    requires n <= |order| && taken in order[..n] && left in order && left !in order[..n]
    ensures i < j < |order| && order[i] == taken && order[j] == left
  {
    assert forall k :: 0 <= k < n ==> order[k] == order[..n][k];
    i :| 0 <= i < n && order[i] == taken;
    j :| 0 <= j < |order| && order[j] == left;
  }

  lemma OrderedAt(s: Session, c: Pos, radius: int, generated: set<Pos>,
      order: seq<Pos>, dropped: seq<Pos>, i: nat, j: nat)
    requires Schedule(s, c, radius, generated, order, dropped) && i < j < |order|
    ensures Dist(order[i].x, c.x) + Dist(order[i].z, c.z) <= Dist(order[j].x, c.x) + Dist(order[j].z, c.z)
  {
  }

  // ----- the spawn gate -----

  // A turn lets a waiting player in exactly when, after it, the client holds every chunk around the
  // player and no portal area is outstanding; it never takes a player out.
  lemma GateLetsInExactly(s: Session, t: Tick)
    requires Inv(s) && s.Active() && s.newlyFlushed == [] && s.newlyUnloaded == []
    requires Schedule(s, t.center, t.radius, t.generated, t.order, t.dropped)
    ensures var r := Visited(s, t);
            r.conn.Playing?
            <==> s.conn.Playing? || (!t.portalWait && SquareFlushed(ClientChunks(r.stream), t.spawn, GATE_RADIUS))
  {
    ServedSession(s, t);
    ServedKeepsConnection(s, t);
    var v := Served(s, t);
    assert ClientChunks(v.stream) == v.flushed;
    hide Served, Inv, ClientChunks, ListsExplain, SquareFlushed;
  }

  ghost predicate Plays<S>(w: World<S>, s: S) { s in w.sess && w.sess[s].conn.Playing? }

  // In every run, a session starts to play only in its own turn, out of the waiting state, with all
  // chunks of the square around it at the client.
  lemma PlayersEnterThroughTheGate<S>(run: seq<World<S>>, steps: seq<Step<S>>, k: nat, s: S)
    requires IsRun(run, steps) && run[0] == World([], map[], map[]) && k < |steps|
    requires Plays(run[k + 1], s) && !Plays(run[k], s)
    ensures steps[k].Visit? && steps[k].s == s && s in run[k].sess && run[k].sess[s].conn.WaitingForSpawnChunks?
    ensures SquareFlushed(ClientChunks(run[k + 1].sess[s].stream), steps[k].tick.spawn, GATE_RADIUS)
  {
    EveryRunAgrees(run, steps, k);
    var w, step := run[k], steps[k];
    assert Legal(w, step) && run[k + 1] == Next(w, step);
    assert s in w.sess by { if s !in w.sess { NewcomersDoNotPlay(w, step, s); } }
    StepOnSession(w, step, s);
    var x := w.sess[s];
    assert Inv(x) && x.newlyFlushed == [] && x.newlyUnloaded == [];
    hide WorldInv, Inv, Next;
    OnlyVisitsLetIn(x, s, step);
    GateLetsInExactly(x, step.tick);
  }

  lemma NewcomersDoNotPlay<S>(w: World<S>, step: Step<S>, s: S)
    requires s !in w.sess
    ensures !Plays(Next(w, step), s)
  {
    hide Fanout, Visited, ChangeDimension, DrainLists, RemoveChunks;
  }

  lemma OnlyVisitsLetIn<S>(x: Session, s: S, step: Step<S>)
    requires After(x, s, step).conn.Playing? && !x.conn.Playing?
    ensures step.Visit? && step.s == s
  {
    if step.Broadcast? {
      ReceivedFrame(x, step.dim, step.pos, step.batch, step.hasChunk);
    }
    hide Received, Visited;
  }

  // A player that stands still is let in: once nothing of a generated square in view is missing, which
  // takes ceil(n / batch) rounds, plus one if the world dropped chunks with a job in flight.
  lemma PlayerIsLetIn(run: seq<Session>, ticks: seq<Tick>, c: Pos, radius: int, batch: int, generated: set<Pos>,
                      spawn: Pos, k: nat)
    requires Rounds(run, ticks, c, radius, batch, generated) && 0 < k < |run|
    requires ticks[k - 1].spawn == spawn && !ticks[k - 1].portalWait
    requires forall p: Pos :: InRange(p, spawn, GATE_RADIUS) ==> p in generated && InRange(p, c, radius)
    requires batch <= 0 || |Missing(run[0], generated, c, radius)|
                           <= (if Intact(run[0], c, radius, generated) then k else k - 1) * batch
    ensures run[k].conn.Playing?
  {
    LeftIsZeroExactly(|Missing(run[0], generated, c, radius)|, batch, k, Intact(run[0], c, radius, generated));
    LoadingIsBounded(run, ticks, c, radius, batch, generated, k);
    LoadingIsBounded(run, ticks, c, radius, batch, generated, k - 1);
    var s, r, t := run[k - 1], run[k - 1 + 1], ticks[k - 1];
    assert Round(s, r, t);
    ServedKeepsConnection(s, t);
    assert Missing(r, generated, c, radius) == {};
    hide Left, Rounds, Served;
    assert forall p: Pos :: InRange(p, spawn, GATE_RADIUS) ==> p in r.flushed by {
      forall p: Pos | InRange(p, spawn, GATE_RADIUS) ensures p in r.flushed {
        assert p !in Missing(r, generated, c, radius);
      }
    }
  }

  // The bound on what is left is 0 exactly when the rounds make up for the chunks.
  lemma LeftIsZeroExactly(m: nat, batch: int, k: nat, intact: bool)
    requires k > 0
    ensures Left(m, batch, k, intact) == 0 <==> batch <= 0 || m <= (if intact then k else k - 1) * batch
  {
  }

  // ----- bounded jobs in flight -----

  // A batch is never overshot: the queue stays within a positive batch size if it was.
  lemma QueueStaysWithinBatch(s: Session, c: Pos, radius: int, batch: int, order: seq<Pos>, dropped: seq<Pos>)
    requires batch > 0
    ensures |Enqueue(s, c, radius, batch, order, dropped).queue| <= Max(batch, |s.queue|)
  {
  }

  lemma {:induction false} NotReadyIsShorter(jobs: seq<Pos>, ready: set<Pos>)
    ensures |NotReady(jobs, ready)| <= |jobs|
    decreases |jobs|
  {
    if jobs != [] { NotReadyIsShorter(jobs[..|jobs| - 1], ready); }
  }

  lemma TurnStaysWithinBatch(s: Session, t: Tick)
    requires t.batch > 0
    ensures |Drained(Visited(s, t)).queue| <= Max(t.batch, |s.queue|)
  {
    var e := Enqueue(s, t.center, t.radius, t.batch, t.order, t.dropped);
    QueueStaysWithinBatch(s, t.center, t.radius, t.batch, t.order, t.dropped);
    NotReadyIsShorter(e.queue, t.ready);
    hide Enqueue, FlushChunks, NotReady, GateOpen, Drainable, SubPackets;
  }

  // No turn of this step asks for more than n jobs, or for an unlimited number.
  ghost predicate BatchWithin<S>(step: Step<S>, n: nat) { step.Visit? ==> 0 < step.tick.batch <= n }

  ghost predicate QueuesWithin<S>(w: World<S>, n: nat)
  {
    forall s :: s in w.sess ==> |w.sess[s].queue| <= n
  }

  lemma AfterStaysWithin<S>(x: Session, s: S, step: Step<S>, n: nat)
    requires |x.queue| <= n && BatchWithin(step, n)
    ensures |After(x, s, step).queue| <= n
  {
    match step
    case Visit(s', t) =>
      TurnStaysWithinBatch(x, t);
      hide Visited, Drained;
    case Broadcast(dim, p, batch, hasChunk) => ReceivedFrame(x, dim, p, batch, hasChunk);
    case _ =>
  }

  lemma NewcomersHaveNoJobs<S>(w: World<S>, step: Step<S>)
    requires Legal(w, step)
    ensures var r := Next(w, step);
            forall s :: s in r.sess && s !in w.sess ==> r.sess[s].queue == []
  {
    hide Fanout, Visited, ChangeDimension, DrainLists, RemoveChunks;
  }

  // In every run whose batches are positive and at most n, no session ever has more than n chunk jobs in
  // flight, whatever it was sent, moved to or unloaded in between.
  lemma {:induction false} JobsInFlightAreBounded<S>(run: seq<World<S>>, steps: seq<Step<S>>, n: nat, k: nat)
    requires IsRun(run, steps) && run[0] == World([], map[], map[]) && k < |run|
    requires forall j :: 0 <= j < k ==> BatchWithin(steps[j], n)
    ensures QueuesWithin(run[k], n)
  {
    if k > 0 {
      JobsInFlightAreBounded(run, steps, n, k - 1);
      EveryRunAgrees(run, steps, k - 1);
      var w, step := run[k - 1], steps[k - 1];
      assert Legal(w, step) && run[k - 1 + 1] == Next(w, step);
      NewcomersHaveNoJobs(w, step);
      hide IsRun, Next, Legal, BatchWithin, WorldInv;
      forall s | s in run[k].sess && s in w.sess ensures |run[k].sess[s].queue| <= n {
        StepOnSession(w, step, s);
        AfterStaysWithin(w.sess[s], s, step, n);
      }
    }
  }
}
