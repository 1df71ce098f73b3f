// What was broadcast is what clients get. The ledger of a session compares packets and jobs with the
// changes it was told of; here those are traced back to the broadcasts of a run.
module ChangeHistory {
  import opened Sequences
  import opened BlockChanges
  import opened Delivery
  import opened ChunkIndex
  import opened ArrivalOrder

  // The changes broadcast for a chunk in the steps from i up to j, in order.
  function Broadcasts<S>(steps: seq<Step<S>>, i: nat, j: nat, dim: int, p: Pos): seq<Change>
    requires i <= j <= |steps|
    decreases j
  {
    if i == j then []
    else Broadcasts(steps, i, j - 1, dim, p) + BroadcastIn(steps[j - 1], dim, p)
  }

  function BroadcastIn<S>(step: Step<S>, dim: int, p: Pos): seq<Change>
  {
    if step.Broadcast? && step.dim == dim && step.pos == p then step.batch else []
  }

  // The chunk has been on its way to the session, or at its client, since step i.
  ghost predicate SentSince<S>(run: seq<World<S>>, s: S, p: Pos, i: nat, k: nat)
  {
    && i < k < |run| && (s in run[i].sess ==> p !in run[i].sess[s].sent)
    && forall j :: i < j <= k ==> s in run[j].sess && p in run[j].sess[s].sent
  }

  lemma SentAt<S>(run: seq<World<S>>, s: S, p: Pos, i: nat, k: nat)
    requires SentSince(run, s, p, i, k)
    ensures k > i + 1 ==> SentSince(run, s, p, i, k - 1)
    ensures i < k < |run| && s in run[k].sess && p in run[k].sess[s].sent
    ensures if k > i + 1 then s in run[k - 1].sess && p in run[k - 1].sess[s].sent
            else s in run[k - 1].sess ==> p !in run[k - 1].sess[s].sent
  {
  }

  // A turn tells nothing: a chunk it submits starts with an empty history, and one that stays keeps its own.
  lemma VisitTold(x: Session, t: Tick, p: Pos)
    requires Inv(x) && Schedule(x, t.center, t.radius, t.generated, t.order, t.dropped)
    requires p in Drained(Visited(x, t)).sent
    ensures var r := Drained(Visited(x, t));
            && p in r.told && r.dim == x.dim && (p in x.sent ==> p in x.told)
            && r.told[p] == if p in x.sent then x.told[p] else []
  {
    var e := Enqueue(x, t.center, t.radius, t.batch, t.order, t.dropped);
    TurnLeavesTold(x, t);
    hide Visited, Drained;
    EnqueueTold(x, t, p);
  }

  lemma TurnLeavesTold(x: Session, t: Tick)
    ensures var r, e := Drained(Visited(x, t)), Enqueue(x, t.center, t.radius, t.batch, t.order, t.dropped);
            r.told == e.told && r.sent == e.sent && r.dim == x.dim
  {
    var e := Enqueue(x, t.center, t.radius, t.batch, t.order, t.dropped);
    FlushChunksFrame(e, e.queue, t.ready, t.live);
    ServedKeepsConnection(x, t);
    hide Enqueue, FlushChunks, NotReady, Drainable, SubPackets, GateOpen;
  }

  lemma EnqueueTold(x: Session, t: Tick, p: Pos)
    requires Inv(x) && Schedule(x, t.center, t.radius, t.generated, t.order, t.dropped)
    requires p in Enqueue(x, t.center, t.radius, t.batch, t.order, t.dropped).sent
    ensures var e := Enqueue(x, t.center, t.radius, t.batch, t.order, t.dropped);
            && p in e.told && (p in x.sent ==> p in x.told)
            && e.told[p] == if p in x.sent then x.told[p] else []
  {
    var n := Room(|Unload(x, t.center, t.radius, t.dropped).queue|, t.batch, |t.order|);
    assert forall q :: q in t.order[..n] ==> q in t.order;
    assert x.told.Keys == x.sent;
    hide SetsAgree, ClientAgrees, NothingLost;
  }

  // A batch is told to the sessions that were sent the chunk.
  lemma ReceivedTold(x: Session, dim: int, q: Pos, batch: LocalChanges, hasChunk: bool, p: Pos)
    requires Inv(x) && p in Received(x, dim, q, batch, hasChunk).sent
    ensures var r := Received(x, dim, q, batch, hasChunk);
            && p in x.sent && p in x.told && p in r.told && r.dim == x.dim
            && r.told[p] == x.told[p] + if x.dim == dim && q == p then batch else []
  {
    assert x.told.Keys == x.sent && forall c :: c in x.flushed ==> c in x.sent;
    hide Deliver, Inv;
    DeliverTouches(x, q, batch, hasChunk);
  }

  lemma DeliverTouches(x: Session, p: Pos, batch: LocalChanges, hasChunk: bool)
    ensures var d := Deliver(x, p, batch, hasChunk); d == x.(stream := d.stream, subQueue := d.subQueue)
  {
    hide BlockPacket, JobFor, Stay;
  }

  // A chunk newly sent has been told nothing; one that was sent before is told the batch that a step
  // broadcasts for it, after the rest.
  lemma ToldAfter<S>(w: World<S>, x: Session, s: S, step: Step<S>, p: Pos)
    requires Inv(x) && s in w.sess && w.sess[s] == x && Legal(w, step) && p in After(x, s, step).sent
    ensures var r := After(x, s, step);
            && p in r.told && (p in x.sent ==> p in x.told && r.dim == x.dim)
            && (p !in x.sent ==> !step.Broadcast?)
            && r.told[p] == (if p in x.sent then x.told[p] else []) + BroadcastIn(step, r.dim, p)
  {
    hide Inv, Visited, Drained, Received, Schedule;
    SentIsTold(x);
    match step
    case Visit(s', t) => if s' == s { VisitTold(x, t, p); }
    case Broadcast(dim, q, batch, hasChunk) => ReceivedTold(x, dim, q, batch, hasChunk, p);
    case _ =>
  }

  lemma SentIsTold(x: Session)
    requires Inv(x)
    ensures x.told.Keys == x.sent && (!x.Active() ==> x.sent == {})
  {
    hide ClientAgrees;
  }

  // The history kept with a session is what the run has broadcast for the chunk since it was sent.
  lemma {:induction false} ToldIsBroadcast<S>(run: seq<World<S>>, steps: seq<Step<S>>, s: S, p: Pos, i: nat, k: nat)
    requires IsRun(run, steps) && run[0] == World([], map[], map[]) && SentSince(run, s, p, i, k)
    ensures i < k <= |steps| && s in run[k].sess && p in run[k].sess[s].told
    ensures run[k].sess[s].told[p] == Broadcasts(steps, i, k, run[k].sess[s].dim, p)
    decreases k
  {
    hide *;
    SentAt(run, s, p, i, k);
    RunStep(run, steps, k - 1);
    assert run[k - 1 + 1] == run[k];
    ToldNext(run[k - 1], steps[k - 1], s, p);
    OneMoreBroadcast(steps, i, k, run[k].sess[s].dim, p);
    if k > i + 1 { ToldIsBroadcast(run, steps, s, p, i, k - 1); }
  }

  lemma ToldNext<S>(w: World<S>, step: Step<S>, s: S, p: Pos)
    requires WorldInv(w) && Legal(w, step) && s in Next(w, step).sess && p in Next(w, step).sess[s].sent
    ensures var r := Next(w, step).sess[s];
            && p in r.told
            && if s in w.sess && p in w.sess[s].sent then
                 && p in w.sess[s].told && r.dim == w.sess[s].dim
                 && r.told[p] == w.sess[s].told[p] + BroadcastIn(step, r.dim, p)
               else r.told[p] == [] && !step.Broadcast?
  {
    hide *;
    if s in w.sess {
      StepOnSession(w, step, s);
      WorldHolds(w, s);
      ToldAfter(w, w.sess[s], s, step, p);
      OneMoreBroadcast([step], 0, 1, Next(w, step).sess[s].dim, p);
    } else {
      NewcomersHaveNothing(w, step, s);
    }
  }

  lemma WorldHolds<S>(w: World<S>, s: S)
    requires WorldInv(w) && s in w.sess
    ensures Inv(w.sess[s])
  {
    hide Inv, IndexAgrees;
  }

  lemma OneMoreBroadcast<S>(steps: seq<Step<S>>, i: nat, k: nat, dim: int, p: Pos)
    requires i < k <= |steps|
    ensures Broadcasts(steps, i, k, dim, p) == Broadcasts(steps, i, k - 1, dim, p) + BroadcastIn(steps[k - 1], dim, p)
    ensures Broadcasts(steps, i, i, dim, p) == []
    ensures !steps[k - 1].Broadcast? ==> BroadcastIn(steps[k - 1], dim, p) == []
  {
  }

  lemma NewcomersHaveNothing<S>(w: World<S>, step: Step<S>, s: S)
    requires s !in w.sess && s in Next(w, step).sess
    ensures Next(w, step).sess[s].sent == {}
  {
    hide Fanout, Visited, ChangeDimension, DrainLists, RemoveChunks;
  }

  // In every run, for every session and every chunk it has been sent since step i: once the client holds
  // the chunk, packets and jobs bring it exactly the changes broadcast since then, each as often as it was
  // broadcast, and in that order if no batch overtook another; until then they are all deferred, in order.
  lemma HoldersGetTheBroadcasts<S>(run: seq<World<S>>, steps: seq<Step<S>>, s: S, p: Pos, i: nat, k: nat)
    requires IsRun(run, steps) && run[0] == World([], map[], map[]) && SentSince(run, s, p, i, k)
    ensures i < k <= |steps| && s in run[k].sess
    ensures var x := run[k].sess[s]; var changes := Broadcasts(steps, i, k, x.dim, p);
            if p in x.flushed then
              && multiset(Arrivals(x, p)) == multiset(changes)
              && (NoneOvertakesUpTo(run, steps, k) ==> Arrivals(x, p) == changes)
            else At(x.pending, p) == changes
  {
    ToldIsBroadcast(run, steps, s, p, i, k);
    EveryRunAgrees(run, steps, k);
    OrderKeptExactly(run, steps, k);
    hide *;
    WorldHolds(run[k], s);
    ToldIsCarried(run[k].sess[s], p);
    if NoneOvertakesUpTo(run, steps, k) { OrderAt(run, k, s, p); }
  }

  lemma ToldIsCarried(x: Session, p: Pos)
    requires Inv(x) && p in x.told
    ensures if p in x.flushed then multiset(Arrivals(x, p)) == multiset(x.told[p]) else At(x.pending, p) == x.told[p]
  {
    hide SetsAgree, ClientAgrees, Arrivals, At;
  }

  lemma OrderAt<S>(run: seq<World<S>>, k: nat, s: S, p: Pos)
    requires InOrderUpTo(run, k) && k < |run| && s in run[k].sess && p in run[k].sess[s].told
    ensures p in run[k].sess[s].flushed ==> run[k].sess[s].told[p] == Arrivals(run[k].sess[s], p)
  {
    hide Arrivals;
  }
}
