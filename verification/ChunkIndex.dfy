// The server side of chunk delivery: the reverse index from chunks to sessions, the fan-out of block
// changes through it, and joins, dimension changes and disconnects. `S` names sessions; the server
// uses its session objects.
module ChunkIndex {
  import opened Sequences
  import opened BlockChanges
  import opened Delivery

  datatype Key = Key(pos: Pos, dim: int)

  // players in join order, the state of each, and the index.
  datatype World<S(==)> = World(players: seq<S>, sess: map<S, Session>, index: map<Key, seq<S>>)

  // ----- the index -----

  predicate Has<S(==)>(m: map<Key, seq<S>>, k: Key, s: S) { k in m && s in m[k] }

  // No duplicates and no empty entries.
  predicate WellFormed<S(==)>(m: map<Key, seq<S>>)
  {
    forall k :: k in m ==> m[k] != [] && NoDup(m[k])
  }

  function Add<S(==)>(m: map<Key, seq<S>>, k: Key, s: S): map<Key, seq<S>>
  {
    if k !in m then m[k := [s]] else if s in m[k] then m else m[k := m[k] + [s]]
  }

  function Remove<S(==)>(m: map<Key, seq<S>>, k: Key, s: S): map<Key, seq<S>>
  {
    if k !in m then m
    else
      var rest := Drop(m[k], s);
      if rest == [] then m - {k} else m[k := rest]
  }

  function AddChunks<S(==)>(m: map<Key, seq<S>>, s: S, dim: int, ps: seq<Pos>): map<Key, seq<S>>
  {
    if ps == [] then m else Add(AddChunks(m, s, dim, ps[..|ps| - 1]), Key(ps[|ps| - 1], dim), s)
  }

  function RemoveChunks<S(==)>(m: map<Key, seq<S>>, s: S, dim: int, ps: set<Pos>): map<Key, seq<S>>
  {
    map k | k in m && (k.dim == dim && k.pos in ps ==> Drop(m[k], s) != []) ::
      if k.dim == dim && k.pos in ps then Drop(m[k], s) else m[k]
  }

  lemma AddSpec<S>(m: map<Key, seq<S>>, k: Key, s: S)
    requires WellFormed(m)
    ensures WellFormed(Add(m, k, s))
    ensures forall k', s' :: Has(Add(m, k, s), k', s') <==> Has(m, k', s') || (k' == k && s' == s)
  {
    if k in m && s !in m[k] {
      assert NoDup(m[k] + [s]);
    }
  }

  lemma {:induction false} AddChunksSpec<S>(m: map<Key, seq<S>>, s: S, dim: int, ps: seq<Pos>)
    requires WellFormed(m)
    ensures WellFormed(AddChunks(m, s, dim, ps))
    ensures forall k, s' :: Has(AddChunks(m, s, dim, ps), k, s') <==>
                            Has(m, k, s') || (s' == s && k.dim == dim && k.pos in ps)
    decreases |ps|
  {
    if ps != [] {
      var front, last := ps[..|ps| - 1], ps[|ps| - 1];
      assert ps == front + [last];
      AddChunksSpec(m, s, dim, front);
      AddSpec(AddChunks(m, s, dim, front), Key(last, dim), s);
    }
  }

  lemma RemoveChunksSpec<S>(m: map<Key, seq<S>>, s: S, dim: int, ps: set<Pos>)
    requires WellFormed(m)
    ensures WellFormed(RemoveChunks(m, s, dim, ps))
    ensures forall k, s' :: Has(RemoveChunks(m, s, dim, ps), k, s') <==>
                            Has(m, k, s') && !(s' == s && k.dim == dim && k.pos in ps)
  {
    var r := RemoveChunks(m, s, dim, ps);
    forall k, s' | Has(m, k, s') && !(s' == s && k.dim == dim && k.pos in ps) ensures Has(r, k, s') {
      if k.dim == dim && k.pos in ps {
        assert s' in Drop(m[k], s);
      }
    }
  }

  // Removing chunk after chunk is removing the set.
  lemma RemoveOneMore<S>(m: map<Key, seq<S>>, s: S, dim: int, ps: set<Pos>, p: Pos)
    requires p !in ps
    ensures Remove(RemoveChunks(m, s, dim, ps), Key(p, dim), s) == RemoveChunks(m, s, dim, ps + {p})
  {
    var r, t := RemoveChunks(m, s, dim, ps), RemoveChunks(m, s, dim, ps + {p});
    var key := Key(p, dim);
    hide Drop, RemoveChunks;
    forall k ensures k != key ==> (k in r <==> k in t) && (k in r ==> r[k] == t[k]) {
      RemoveChunksAt(m, s, dim, ps, k);
      RemoveChunksAt(m, s, dim, ps + {p}, k);
    }
    RemoveChunksAt(m, s, dim, ps, key);
    RemoveChunksAt(m, s, dim, ps + {p}, key);
  }

  lemma RemoveChunksAt<S>(m: map<Key, seq<S>>, s: S, dim: int, ps: set<Pos>, k: Key)
    ensures var r, hit := RemoveChunks(m, s, dim, ps), k.dim == dim && k.pos in ps;
            && (k in r <==> k in m && (hit ==> Drop(m[k], s) != []))
            && (k in r ==> r[k] == if hit then Drop(m[k], s) else m[k])
  {
  }

  lemma RemoveNone<S>(m: map<Key, seq<S>>, s: S, dim: int)
    ensures RemoveChunks(m, s, dim, {}) == m
  {
  }

  // A second removal of the same chunk changes nothing.
  lemma {:induction false} DropTwice<S>(q: seq<S>, s: S)
    ensures s !in Drop(q, s)
    ensures s !in q ==> Drop(q, s) == q
  {
    if q != [] {
      var front := q[..|q| - 1];
      assert q == front + [q[|q| - 1]];
      DropTwice(front, s);
    }
  }

  lemma RemoveAgain<S>(m: map<Key, seq<S>>, s: S, dim: int, ps: set<Pos>, p: Pos)
    requires p in ps
    ensures Remove(RemoveChunks(m, s, dim, ps), Key(p, dim), s) == RemoveChunks(m, s, dim, ps)
  {
    var r := RemoveChunks(m, s, dim, ps);
    if Key(p, dim) in r {
      DropTwice(m[Key(p, dim)], s);
      DropTwice(r[Key(p, dim)], s);
    }
  }

  // ----- the invariant -----

  // The index lists exactly, for each chunk and dimension, the sessions of that dimension whose
  // client holds the chunk.
  ghost predicate IndexAgrees<S>(w: World<S>)
  {
    && WellFormed(w.index)
    && (forall k, s :: k in w.index && s in w.index[k] ==>
          s in w.sess && w.sess[s].dim == k.dim && k.pos in w.sess[s].flushed)
    && (forall s, p :: s in w.sess && p in w.sess[s].flushed ==> Has(w.index, Key(p, w.sess[s].dim), s))
  }

  ghost predicate WorldInv<S>(w: World<S>)
  {
    SessionsAgree(w.players, w.sess) && IndexAgrees(w)
  }

  // ----- steps -----

  datatype Step<S> =
    | Join(s: S)                                  // AcceptNewPlayers
    | Activate(s: S, dim: int)                    // login completes, in the dimension of the saved player
    | Visit(s: S, tick: Tick)                     // HandleConnectionState and the drain, for an active session
    | Move(s: S, dim: int)                        // SendPlayerToDimension
    | Broadcast(dim: int, pos: Pos, batch: LocalChanges, hasChunk: bool)
    | Disconnect(gone: set<S>)

  // The per-session drain of the two change lists.
  function DrainLists<S(==)>(m: map<Key, seq<S>>, s: S, t: Session): map<Key, seq<S>>
  {
    RemoveChunks(AddChunks(m, s, t.dim, t.newlyFlushed), s, t.dim, Elements(t.newlyUnloaded))
  }

  function NewSession(): Session
  {
    Session(0, LoggingIn, {}, {}, false, [], [], map[], [], [], [], map[])
  }

  // The end of a login: the client is told the dimension that was saved for the player.
  function LoggedIn(s: Session, dim: int): Session
  {
    s.(dim := dim, stream := s.stream + [Login(dim)], conn := WaitingForSpawnChunks)
  }

  function DeferAll<S(==)>(sess: map<S, Session>, to: seq<S>, p: Pos, batch: LocalChanges): (r: map<S, Session>)
    ensures r.Keys == sess.Keys
  {
    if to == [] then sess
    else
      var r := DeferAll(sess, to[..|to| - 1], p, batch);
      var s := to[|to| - 1];
      if s in r then r[s := Defer(r[s], p, batch)] else r
  }

  function DeliverAll<S(==)>(sess: map<S, Session>, to: seq<S>,
      p: Pos, batch: LocalChanges, hasChunk: bool): (r: map<S, Session>)
    ensures r.Keys == sess.Keys
  {
    if to == [] then sess
    else
      var r := DeliverAll(sess, to[..|to| - 1], p, batch, hasChunk);
      var s := to[|to| - 1];
      if s in r then r[s := Deliver(r[s], p, batch, hasChunk)] else r
  }

  // The players that are still waiting for the chunk, in join order.
  function Waiting<S(==)>(sess: map<S, Session>, players: seq<S>, dim: int, p: Pos): (r: seq<S>)
    ensures forall i :: 0 <= i < |r| ==> r[i] in players && r[i] in sess && Waits(sess[r[i]], dim, p)
    ensures forall i :: 0 <= i < |players| && players[i] in sess && Waits(sess[players[i]], dim, p) ==> players[i] in r
    ensures NoDup(players) ==> NoDup(r)
  {
    if players == [] then []
    else
      var rest := Waiting(sess, players[..|players| - 1], dim, p);
      var s := players[|players| - 1];
      assert players == players[..|players| - 1] + [s];
      if s in sess && Waits(sess[s], dim, p) then rest + [s] else rest
  }

  function Listed<S(==)>(m: map<Key, seq<S>>, k: Key): seq<S> { if k in m then m[k] else [] }

  // What a broadcast means for one session.
  function Fanned(x: Session, dim: int, p: Pos, batch: LocalChanges, hasChunk: bool): Session
  {
    if x.dim == dim && p in x.flushed then Deliver(x, p, batch, hasChunk)
    else if x.dim == dim && p in x.sent then Defer(x, p, batch)
    else x
  }

  // BroadcastBlockChanges for one chunk, after deduplication.
  function Fanout<S(==)>(w: World<S>, dim: int, p: Pos, batch: LocalChanges, hasChunk: bool): (r: map<S, Session>)
    ensures r.Keys == w.sess.Keys
  {
    DeliverAll(DeferAll(w.sess, Waiting(w.sess, w.players, dim, p), p, batch),
               Listed(w.index, Key(p, dim)), p, batch, hasChunk)
  }

  // Which sessions a broadcast concerns: those of the dimension that were sent the chunk.
  predicate Concerns(s: Session, dim: int, p: Pos) { s.dim == dim && p in s.sent }

  function TellAll<S(==)>(sess: map<S, Session>, before: map<S, Session>,
      dim: int, p: Pos, batch: LocalChanges): (r: map<S, Session>)
    ensures r.Keys == sess.Keys
  {
    map s | s in sess :: if s in before && Concerns(before[s], dim, p) then Tell(sess[s], p, batch) else sess[s]
  }

  function Remaining<S(==)>(players: seq<S>, gone: set<S>): seq<S>
  {
    if players == [] then []
    else
      var rest, s := Remaining(players[..|players| - 1], gone), players[|players| - 1];
      if s in gone then rest else rest + [s]
  }

  lemma {:induction false} RemainingSpec<S>(players: seq<S>, gone: set<S>)
    ensures forall s :: s in Remaining(players, gone) ==> s in players && s !in gone
    ensures forall s :: s in players && s !in gone ==> s in Remaining(players, gone)
    ensures NoDup(players) ==> NoDup(Remaining(players, gone))
    decreases |players|
  {
    if players != [] {
      var front, last := players[..|players| - 1], players[|players| - 1];
      RemainingSpec(front, gone);
      assert players == front + [last];
    }
  }

  // IndexRemoveSession for every removed player, in join order.
  function ForgetAll<S(==)>(m: map<Key, seq<S>>, sess: map<S, Session>, players: seq<S>, gone: set<S>): map<Key, seq<S>>
  {
    if players == [] then m
    else
      var r := ForgetAll(m, sess, players[..|players| - 1], gone);
      var s := players[|players| - 1];
      if s in gone && s in sess then RemoveChunks(r, s, sess[s].dim, sess[s].flushed) else r
  }

  ghost predicate Legal<S>(w: World<S>, step: Step<S>)
  {
    match step
    case Join(s) => s !in w.sess
    case Activate(s, _) => s in w.sess && w.sess[s].conn.LoggingIn?
    case Visit(s, t) =>
      s in w.sess && w.sess[s].Active() && Schedule(w.sess[s], t.center, t.radius, t.generated, t.order, t.dropped)
    case Move(s, dim) => s in w.sess && w.sess[s].Active() && dim != w.sess[s].dim
    case Broadcast(_, _, batch, _) => true
    case Disconnect(gone) => forall s :: s in gone ==> s in w.sess
  }

  ghost function Next<S>(w: World<S>, step: Step<S>): World<S>
  {
    match step
    case Join(s) => w.(players := w.players + [s], sess := w.sess[s := NewSession()])
    case Activate(s, dim) => if s in w.sess then w.(sess := w.sess[s := LoggedIn(w.sess[s], dim)]) else w
    case Visit(s, t) =>
      if s !in w.sess then w
      else
        var v := Visited(w.sess[s], t);
        w.(sess := w.sess[s := Drained(v)], index := DrainLists(w.index, s, v))
    case Move(s, dim) =>
      if s !in w.sess then w
      else w.(sess := w.sess[s := ChangeDimension(w.sess[s], dim)],
              index := RemoveChunks(w.index, s, w.sess[s].dim, w.sess[s].flushed))
    case Broadcast(dim, p, batch, hasChunk) =>
      w.(sess := TellAll(Fanout(w, dim, p, batch, hasChunk), w.sess, dim, p, batch))
    case Disconnect(gone) =>
      World(Remaining(w.players, gone), w.sess - gone, ForgetAll(w.index, w.sess, w.players, gone))
  }

  // ----- preservation -----

  lemma ServedKeepsConnection(s: Session, t: Tick)
    ensures Served(s, t).conn == s.conn && Served(s, t).dim == s.dim
  {
    var u := Enqueue(s, t.center, t.radius, t.batch, t.order, t.dropped);
    FlushChunksFrame(u, u.queue, t.ready, t.live);
  }

  lemma ServedSession(s: Session, t: Tick)
    requires Inv(s) && s.Active() && s.newlyFlushed == [] && s.newlyUnloaded == []
    requires Schedule(s, t.center, t.radius, t.generated, t.order, t.dropped)
    ensures var v := Served(s, t);
            Inv(v) && v.dim == s.dim && v.conn == s.conn && ListsExplain(s.flushed, v)
  {
    hide Inv, Schedule, ListsExplain, Enqueue, Flush;
    EnqueueKeepsInv(s, t.center, t.radius, t.batch, t.generated, t.order, t.dropped);
    FlushKeepsInv(Enqueue(s, t.center, t.radius, t.batch, t.order, t.dropped), t.ready, t.live, t.finished);
    VisitExplainsLists(s, t.center, t.radius, t.batch, t.generated, t.order, t.dropped, t.ready, t.live, t.finished);
  }

  // The account of a session does not depend on its lists or, once it is active, its connection state.
  lemma RelabelKeepsInv(s: Session, r: Session)
    requires Inv(s) && r == s.(conn := r.conn,
             newlyFlushed := r.newlyFlushed, newlyUnloaded := r.newlyUnloaded)
    requires r.Active() <==> s.Active()
    ensures Inv(r)
  {
    hide *;
    InvSides(s);
    RelabelKeepsSets(s, r);
    RelabelKeepsLedger(s, r);
    InvSides(r);
  }

  lemma RelabelKeepsSets(s: Session, r: Session)
    requires r == s.(conn := r.conn, newlyFlushed := r.newlyFlushed, newlyUnloaded := r.newlyUnloaded)
    requires r.Active() <==> s.Active()
    ensures SetsAgree(s) ==> SetsAgree(r)
    ensures ClientAgrees(s) ==> ClientAgrees(r)
  {
    hide ClientAfter, SafeStream;
  }

  lemma RelabelKeepsLedger(s: Session, r: Session)
    requires r == s.(conn := r.conn, newlyFlushed := r.newlyFlushed, newlyUnloaded := r.newlyUnloaded)
    ensures NothingLost(s) ==> NothingLost(r)
  {
    assert forall p :: Account(r, p) == Account(s, p);
    hide Account, Stay, At;
  }

  lemma VisitedSession(s: Session, t: Tick)
    requires Inv(s) && s.Active() && s.newlyFlushed == [] && s.newlyUnloaded == []
    requires Schedule(s, t.center, t.radius, t.generated, t.order, t.dropped)
    ensures Inv(Drained(Visited(s, t)))
    ensures Visited(s, t).Active() && Visited(s, t).dim == s.dim && ListsExplain(s.flushed, Visited(s, t))
  {
    hide Inv, Schedule, Served, GateOpen;
    ServedSession(s, t);
    RelabelKeepsInv(Served(s, t), Drained(Visited(s, t)));
  }

  lemma DrainListsSpec<S>(m: map<Key, seq<S>>, s: S, v: Session)
    requires WellFormed(m)
    ensures WellFormed(DrainLists(m, s, v))
    ensures forall k, s' :: Has(DrainLists(m, s, v), k, s') <==>
              (Has(m, k, s') || (s' == s && k.dim == v.dim && k.pos in v.newlyFlushed))
              && !(s' == s && k.dim == v.dim && k.pos in v.newlyUnloaded)
  {
    AddChunksSpec(m, s, v.dim, v.newlyFlushed);
    RemoveChunksSpec(AddChunks(m, s, v.dim, v.newlyFlushed), s, v.dim, Elements(v.newlyUnloaded));
  }

  // The drain repairs the index because no chunk is in both change lists.
  lemma DrainKeepsIndex<S>(w: World<S>, s: S, v: Session)
    requires IndexAgrees(w) && s in w.sess && v.dim == w.sess[s].dim && ListsExplain(w.sess[s].flushed, v)
    ensures IndexAgrees(World(w.players, w.sess[s := Drained(v)], DrainLists(w.index, s, v)))
  {
    DrainListsSpec(w.index, s, v);
    var m := DrainLists(w.index, s, v);
    var sess := w.sess[s := Drained(v)];
    forall k, s' | k in m && s' in m[k]
      ensures s' in sess && sess[s'].dim == k.dim && k.pos in sess[s'].flushed
    {
      assert Has(m, k, s');
      if s' != s {
        assert Has(w.index, k, s');
      }
    }
    forall s', p | s' in sess && p in sess[s'].flushed ensures Has(m, Key(p, sess[s'].dim), s') {
      if s' != s || p !in v.newlyFlushed {
        assert Has(w.index, Key(p, w.sess[s'].dim), s');
      }
    }
  }

  lemma VisitKeepsInv<S>(w: World<S>, s: S, t: Tick)
    requires WorldInv(w) && Legal(w, Visit(s, t))
    ensures WorldInv(Next(w, Visit(s, t)))
  {
    VisitedSession(w.sess[s], t);
    var v := Visited(w.sess[s], t);
    DrainKeepsIndex(w, s, v);
    ReplaceKeepsSessions(w, s, Drained(v));
  }

  // The part of the invariant that does not concern the index.
  ghost predicate SessionsAgree<S>(players: seq<S>, sess: map<S, Session>)
  {
    && NoDup(players)
    && (forall s :: s in players ==> s in sess) && (forall s :: s in sess ==> s in players)
    && (forall s :: s in sess ==> Inv(sess[s]) && sess[s].newlyFlushed == [] && sess[s].newlyUnloaded == [])
  }

  lemma ReplaceKeepsSessions<S>(w: World<S>, s: S, x: Session)
    requires SessionsAgree(w.players, w.sess) && s in w.sess
    requires Inv(x) && x.newlyFlushed == [] && x.newlyUnloaded == []
    ensures SessionsAgree(w.players, w.sess[s := x])
  {
  }

  lemma MoveKeepsIndex<S>(w: World<S>, s: S, x: Session)
    requires IndexAgrees(w) && s in w.sess && x.flushed == {}
    ensures IndexAgrees(World(w.players, w.sess[s := x], RemoveChunks(w.index, s, w.sess[s].dim, w.sess[s].flushed)))
  {
    RemoveChunksSpec(w.index, s, w.sess[s].dim, w.sess[s].flushed);
    var m := RemoveChunks(w.index, s, w.sess[s].dim, w.sess[s].flushed);
    var sess := w.sess[s := x];
    forall s', p | s' in sess && p in sess[s'].flushed ensures Has(m, Key(p, sess[s'].dim), s') {
      assert Has(w.index, Key(p, w.sess[s'].dim), s');
    }
    forall k, s' | k in m && s' in m[k]
      ensures s' in sess && sess[s'].dim == k.dim && k.pos in sess[s'].flushed
    {
      assert Has(m, k, s') && Has(w.index, k, s');
    }
  }

  lemma MoveKeepsInv<S>(w: World<S>, s: S, dim: int)
    requires WorldInv(w) && Legal(w, Move(s, dim))
    ensures WorldInv(Next(w, Move(s, dim)))
  {
    var x := ChangeDimension(w.sess[s], dim);
    ChangeDimensionKeepsInv(w.sess[s], dim);
    ReplaceKeepsSessions(w, s, x);
    MoveKeepsIndex(w, s, x);
  }

  lemma JoinKeepsInv<S>(w: World<S>, s: S)
    requires WorldInv(w) && s !in w.sess
    ensures WorldInv(Next(w, Join(s)))
  {
    var x := NewSession();
    NewSessionInv();
    hide Inv, NewSession;
    assert NoDup(w.players + [s]);
    JoinKeepsIndex(w, s, x);
  }

  lemma NewSessionInv()
    ensures var x := NewSession(); Inv(x) && x.flushed == {} && x.newlyFlushed == [] && x.newlyUnloaded == []
  {
  }

  lemma JoinKeepsIndex<S>(w: World<S>, s: S, x: Session)
    requires IndexAgrees(w) && s !in w.sess && x.flushed == {}
    ensures IndexAgrees(World(w.players + [s], w.sess[s := x], w.index))
  {
    var sess := w.sess[s := x];
    forall s', p | s' in sess && p in sess[s'].flushed ensures Has(w.index, Key(p, sess[s'].dim), s') {
      assert s' != s;
    }
  }

  // One pass over distinct recipients gives each of them the batch once and nobody else anything.
  lemma {:induction false} DeferAllOnce<S>(sess: map<S, Session>, to: seq<S>, p: Pos, batch: LocalChanges)
    requires NoDup(to)
    ensures forall s :: s in sess ==>
              DeferAll(sess, to, p, batch)[s] == if s in to then Defer(sess[s], p, batch) else sess[s]
    decreases |to|
  {
    if to != [] {
      var front, last := to[..|to| - 1], to[|to| - 1];
      assert to == front + [last];
      assert last !in front;
      DeferAllOnce(sess, front, p, batch);
    }
  }

  lemma {:induction false} DeliverAllOnce<S>(sess: map<S, Session>,
      to: seq<S>, p: Pos, batch: LocalChanges, hasChunk: bool)
    requires NoDup(to)
    ensures forall s :: s in sess ==>
              DeliverAll(sess, to, p, batch, hasChunk)[s] ==
                if s in to then Deliver(sess[s], p, batch, hasChunk) else sess[s]
    decreases |to|
  {
    if to != [] {
      var front, last := to[..|to| - 1], to[|to| - 1];
      assert to == front + [last];
      assert last !in front;
      DeliverAllOnce(sess, front, p, batch, hasChunk);
    }
  }

  // A broadcast reaches every session of the dimension that holds the chunk exactly once: written or
  // submitted now if the client has it, deferred if it is on its way. It reaches nobody else.
  lemma FanoutReachesExactlyHolders<S>(w: World<S>, dim: int, p: Pos, batch: LocalChanges, hasChunk: bool, s: S)
    requires WorldInv(w) && s in w.sess
    ensures Fanout(w, dim, p, batch, hasChunk)[s] == Fanned(w.sess[s], dim, p, batch, hasChunk)
  {
    var waiting := Waiting(w.sess, w.players, dim, p);
    var listed := Listed(w.index, Key(p, dim));
    DeferAllOnce(w.sess, waiting, p, batch);
    DeliverAllOnce(DeferAll(w.sess, waiting, p, batch), listed, p, batch, hasChunk);
    assert s in listed <==> w.sess[s].dim == dim && p in w.sess[s].flushed by {
      if w.sess[s].dim == dim && p in w.sess[s].flushed {
        assert Has(w.index, Key(p, w.sess[s].dim), s);
      }
    }
    assert s in waiting <==> Waits(w.sess[s], dim, p);
    assert Inv(w.sess[s]);
  }

  // What a broadcast does to one session, with the history updated.
  function Received(x: Session, dim: int, p: Pos, batch: LocalChanges, hasChunk: bool): Session
  {
    if x.dim == dim && p in x.flushed then Tell(Deliver(x, p, batch, hasChunk), p, batch)
    else if x.dim == dim && p in x.sent then Tell(Defer(x, p, batch), p, batch)
    else x
  }

  lemma ReceivedKeepsInv(x: Session, dim: int, p: Pos, batch: LocalChanges, hasChunk: bool)
    requires Inv(x)
    ensures Inv(Received(x, dim, p, batch, hasChunk))
  {
    if x.dim == dim && p in x.flushed {
      DeliverKeepsInv(x, p, batch, hasChunk);
    } else if x.dim == dim && p in x.sent {
      DeferKeepsInv(x, p, batch);
    }
  }

  lemma ReceivedFrame(x: Session, dim: int, p: Pos, batch: LocalChanges, hasChunk: bool)
    ensures var r := Received(x, dim, p, batch, hasChunk);
            && r.newlyFlushed == x.newlyFlushed && r.newlyUnloaded == x.newlyUnloaded
            && r.dim == x.dim && r.flushed == x.flushed && r.conn == x.conn
  {
    var d := Deliver(x, p, batch, hasChunk);
    assert d == x.(stream := d.stream, subQueue := d.subQueue);
  }

  lemma FannedIsReceived(x: Session, dim: int, p: Pos, batch: LocalChanges, hasChunk: bool)
    requires p in x.flushed ==> p in x.sent
    ensures (if Concerns(x, dim, p) then Tell(Fanned(x, dim, p, batch, hasChunk), p, batch)
             else Fanned(x, dim, p, batch, hasChunk)) == Received(x, dim, p, batch, hasChunk)
  {
  }

  lemma BroadcastIsReceived<S>(w: World<S>, dim: int, p: Pos, batch: LocalChanges, hasChunk: bool, s: S)
    requires WorldInv(w) && s in w.sess
    ensures var r := Next(w, Broadcast(dim, p, batch, hasChunk)).sess;
            s in r && r[s] == Received(w.sess[s], dim, p, batch, hasChunk)
  {
    assert Inv(w.sess[s]);
    hide *;
    FanoutReachesExactlyHolders(w, dim, p, batch, hasChunk, s);
    NextBroadcast(w, dim, p, batch, hasChunk);
    ToldAt(Fanout(w, dim, p, batch, hasChunk), w.sess, dim, p, batch, s);
    FlushedWasSent(w.sess[s], p);
    FannedIsReceived(w.sess[s], dim, p, batch, hasChunk);
  }

  lemma NextBroadcast<S>(w: World<S>, dim: int, p: Pos, batch: LocalChanges, hasChunk: bool)
    ensures var r := Next(w, Broadcast(dim, p, batch, hasChunk));
            && r == w.(sess := TellAll(Fanout(w, dim, p, batch, hasChunk), w.sess, dim, p, batch))
            && r.sess.Keys == w.sess.Keys
  {
    hide Fanout, TellAll;
  }

  lemma ToldAt<S>(sess: map<S, Session>, before: map<S, Session>, dim: int, p: Pos, batch: LocalChanges, s: S)
    requires s in sess && s in before
    ensures var r := TellAll(sess, before, dim, p, batch);
            s in r && r[s] == if Concerns(before[s], dim, p) then Tell(sess[s], p, batch) else sess[s]
  {
  }

  lemma FlushedWasSent(x: Session, p: Pos)
    requires Inv(x)
    ensures p in x.flushed ==> p in x.sent
  {
  }

  lemma BroadcastKeepsInv<S>(w: World<S>, dim: int, p: Pos, batch: LocalChanges, hasChunk: bool)
    requires WorldInv(w)
    ensures WorldInv(Next(w, Broadcast(dim, p, batch, hasChunk)))
  {
    var w' := Next(w, Broadcast(dim, p, batch, hasChunk));
    NextBroadcast(w, dim, p, batch, hasChunk);
    hide Next, Inv, TellAll, Fanout, Received, IndexAgrees;
    forall s | s in w.sess
      ensures Inv(w'.sess[s]) && w'.sess[s].newlyFlushed == [] && w'.sess[s].newlyUnloaded == []
      ensures w'.sess[s].dim == w.sess[s].dim && w'.sess[s].flushed == w.sess[s].flushed
    {
      BroadcastIsReceived(w, dim, p, batch, hasChunk, s);
      ReceivedKeepsInv(w.sess[s], dim, p, batch, hasChunk);
      ReceivedFrame(w.sess[s], dim, p, batch, hasChunk);
    }
    SameClientsKeepIndex(w, w'.sess);
  }

  lemma SameClientsKeepIndex<S>(w: World<S>, sess: map<S, Session>)
    requires IndexAgrees(w) && sess.Keys == w.sess.Keys
    requires forall s :: s in w.sess ==> sess[s].dim == w.sess[s].dim && sess[s].flushed == w.sess[s].flushed
    ensures IndexAgrees(World(w.players, sess, w.index))
  {
  }

  lemma {:induction false} ForgetAllSpec<S>(w: World<S>, players: seq<S>, gone: set<S>)
    requires WellFormed(w.index)
    ensures WellFormed(ForgetAll(w.index, w.sess, players, gone))
    ensures forall k, s :: Has(ForgetAll(w.index, w.sess, players, gone), k, s) <==>
              Has(w.index, k, s) && !(s in players && s in gone && s in w.sess
                                      && w.sess[s].dim == k.dim && k.pos in w.sess[s].flushed)
    decreases |players|
  {
    if players != [] {
      var front, last := players[..|players| - 1], players[|players| - 1];
      assert players == front + [last];
      ForgetAllSpec(w, front, gone);
      if last in gone && last in w.sess {
        RemoveChunksSpec(ForgetAll(w.index, w.sess, front, gone), last, w.sess[last].dim, w.sess[last].flushed);
      }
    }
  }

  lemma ForgetKeepsIndex<S>(w: World<S>, gone: set<S>, players: seq<S>)
    requires IndexAgrees(w) && (forall s :: s in w.sess ==> s in w.players)
    ensures IndexAgrees(World(players, w.sess - gone, ForgetAll(w.index, w.sess, w.players, gone)))
    ensures forall k, s :: s in gone ==> !Has(ForgetAll(w.index, w.sess, w.players, gone), k, s)
  {
    ForgetAllSpec(w, w.players, gone);
    var m := ForgetAll(w.index, w.sess, w.players, gone);
    forall k, s ensures Has(m, k, s) <==> Has(w.index, k, s) && s !in gone {
      HolderIsSession(w, k, s);
    }
    hide ForgetAll, WellFormed, Has, IndexAgrees;
    FewerHoldersAgree(w, gone, players, m);
  }

  lemma HolderIsSession<S>(w: World<S>, k: Key, s: S)
    requires IndexAgrees(w)
    ensures Has(w.index, k, s) ==> s in w.sess && w.sess[s].dim == k.dim && k.pos in w.sess[s].flushed
  {
  }

  lemma FewerHoldersAgree<S>(w: World<S>, gone: set<S>, players: seq<S>, m: map<Key, seq<S>>)
    requires IndexAgrees(w) && WellFormed(m)
    requires forall k, s :: Has(m, k, s) <==> Has(w.index, k, s) && s !in gone
    ensures IndexAgrees(World(players, w.sess - gone, m))
  {
    forall k, s | k in m && s in m[k]
      ensures s !in gone && s in w.sess && w.sess[s].dim == k.dim && k.pos in w.sess[s].flushed
    {
      assert Has(m, k, s);
      HolderIsSession(w, k, s);
    }
    forall s, p | s in w.sess && s !in gone && p in w.sess[s].flushed ensures Has(m, Key(p, w.sess[s].dim), s) {
      assert Has(w.index, Key(p, w.sess[s].dim), s);
    }
  }

  // After a disconnect no removed session is left anywhere in the index, and the rest is untouched.
  lemma DisconnectKeepsInv<S>(w: World<S>, gone: set<S>)
    requires WorldInv(w)
    ensures var w' := Next(w, Disconnect(gone));
            && WorldInv(w')
            && (forall k, s :: s in gone ==> !Has(w'.index, k, s))
            && w'.sess == w.sess - gone
  {
    hide IndexAgrees, ForgetAll, Remaining, Has, NoDup, Inv;
    assert forall s :: s in w.sess ==> s in w.players;
    hide SessionsAgree;
    RemainingAgree(w.players, w.sess, gone);
    ForgetKeepsIndex(w, gone, Remaining(w.players, gone));
  }

  lemma RemainingAgree<S>(players: seq<S>, sess: map<S, Session>, gone: set<S>)
    requires SessionsAgree(players, sess)
    ensures SessionsAgree(Remaining(players, gone), sess - gone)
  {
    RemainingSpec(players, gone);
    hide Inv, Remaining, NoDup;
  }

  lemma StepKeepsInv<S>(w: World<S>, step: Step<S>)
    requires WorldInv(w) && Legal(w, step)
    ensures var r := Next(w, step); SessionsAgree(r.players, r.sess) && IndexAgrees(r)
  {
    match step
    case Join(s) => JoinKeepsInv(w, s);
    case Activate(s, dim) => ActivateKeepsInv(w, s, dim);
    case Visit(s, t) => VisitKeepsInv(w, s, t);
    case Move(s, dim) => MoveKeepsInv(w, s, dim);
    case Broadcast(dim, p, batch, hasChunk) => BroadcastKeepsInv(w, dim, p, batch, hasChunk);
    case Disconnect(gone) => DisconnectKeepsInv(w, gone);
  }

  // Nothing has been sent to a session that is still logging in, so its dimension may be set freely.
  lemma ActivateKeepsInv<S>(w: World<S>, s: S, dim: int)
    requires WorldInv(w) && s in w.sess && w.sess[s].conn.LoggingIn?
    ensures WorldInv(Next(w, Activate(s, dim)))
  {
    var x := LoggedIn(w.sess[s], dim);
    LoginKeepsInv(w.sess[s], dim);
    hide Inv;
    ReplaceKeepsSessions(w, s, x);
    LoginKeepsIndex(w, s, x);
  }

  lemma LoginKeepsInv(s: Session, dim: int)
    requires Inv(s) && s.conn.LoggingIn?
    ensures Inv(LoggedIn(s, dim)) && s.flushed == {}
  {
    ClientAppend(s.stream, Login(dim));
    assert s.flushed == {} && s.told.Keys == {};
    hide Stay, Account, At, ClientAfter, SafeStream;
    forall i | 0 <= i < |s.subQueue|
      ensures s.subQueue[i].stay <= Stay(s.stream + [Login(dim)], s.subQueue[i].pos)
    {
      CarriedAppend(s.stream, Login(dim), s.subQueue[i].pos);
    }
  }

  lemma LoginKeepsIndex<S>(w: World<S>, s: S, x: Session)
    requires IndexAgrees(w) && s in w.sess && w.sess[s].flushed == {} && x.flushed == {}
    ensures IndexAgrees(World(w.players, w.sess[s := x], w.index))
  {
  }

  // ----- a step, seen from one session -----

  ghost function After<S>(x: Session, s: S, step: Step<S>): Session
  {
    match step
    case Activate(s', dim) => if s' == s then LoggedIn(x, dim) else x
    case Visit(s', t) => if s' == s then Drained(Visited(x, t)) else x
    case Move(s', dim) => if s' == s then ChangeDimension(x, dim) else x
    case Broadcast(dim, p, batch, hasChunk) => Received(x, dim, p, batch, hasChunk)
    case _ => x
  }

  // A session that is not removed goes on from its own state, whatever the others do.
  lemma StepOnSession<S>(w: World<S>, step: Step<S>, s: S)
    requires WorldInv(w) && Legal(w, step) && s in w.sess
    ensures var r := Next(w, step).sess;
            if step.Disconnect? && s in step.gone then s !in r else s in r && r[s] == After(w.sess[s], s, step)
  {
    hide WorldInv, Received, Visited, ChangeDimension, Drained, TellAll, Fanout, Schedule;
    match step
    case Broadcast(dim, p, batch, hasChunk) => BroadcastOnSession(w, dim, p, batch, hasChunk, s);
    case Visit(s', t) => hide DrainLists;
    case Move(s', dim) => hide RemoveChunks;
    case _ => hide ForgetAll, Remaining;
  }

  lemma BroadcastOnSession<S>(w: World<S>, dim: int, p: Pos, batch: LocalChanges, hasChunk: bool, s: S)
    requires WorldInv(w) && s in w.sess
    ensures var step := Broadcast(dim, p, batch, hasChunk); var r := Next(w, step).sess;
            s in r && r[s] == After(w.sess[s], s, step)
  {
    hide *;
    BroadcastIsReceived(w, dim, p, batch, hasChunk, s);
    AfterBroadcast(w.sess[s], dim, p, batch, hasChunk, s);
  }

  lemma AfterBroadcast<S>(x: Session, dim: int, p: Pos, batch: LocalChanges, hasChunk: bool, s: S)
    ensures After(x, s, Broadcast(dim, p, batch, hasChunk)) == Received(x, dim, p, batch, hasChunk)
  {
    hide Received;
  }

  ghost predicate IsRun<S>(run: seq<World<S>>, steps: seq<Step<S>>)
  {
    |run| == |steps| + 1 &&
    forall k :: 0 <= k < |steps| ==> Legal(run[k], steps[k]) && run[k + 1] == Next(run[k], steps[k])
  }

  // In every state of every run from an empty server: each session's chunk sets agree, each client
  // holds exactly its flushed chunks, no change is lost or repeated, and the index agrees.
  lemma {:induction false} EveryRunAgrees<S>(run: seq<World<S>>, steps: seq<Step<S>>, k: nat)
    requires IsRun(run, steps) && run[0] == World([], map[], map[]) && k < |run|
    ensures WorldInv(run[k])
  {
    if k > 0 {
      EveryRunAgrees(run, steps, k - 1);
      assert run[k - 1 + 1] == Next(run[k - 1], steps[k - 1]);
      StepKeepsInv(run[k - 1], steps[k - 1]);
    }
  }

  lemma RunStep<S>(run: seq<World<S>>, steps: seq<Step<S>>, k: nat)
    requires IsRun(run, steps) && run[0] == World([], map[], map[]) && k + 1 < |run|
    ensures |run| == |steps| + 1 && WorldInv(run[k])
    ensures Legal(run[k], steps[k]) && run[k + 1] == Next(run[k], steps[k])
  {
    EveryRunAgrees(run, steps, k);
    hide WorldInv, Legal, Next;
  }
}
