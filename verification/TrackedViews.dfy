// The two halves of the entity tracker together, for one tracked entity: the players that a run of the
// tracker lists for it are sent its movement packets, and each replays them from the spawn it was shown.
module TrackedViews {
  import opened Visibility
  import M = MovementStream

  // The tracker, the entity's encoder, and what each player that is shown the entity believes about it.
  datatype Scene = Scene(t: Tracker, enc: M.Encoder, seen: map<Id, M.Mirror>)

  // A step of the tracker, with where a player would see the entity spawn, or an update of the entity.
  datatype Event = Track(step: Step, spawn: M.Mirror) | Update(pose: M.Pose)

  // The players with a session that are listed for e and can be shown it.
  function Watching(t: Tracker, e: Id): set<Id> { set p | p in t.streams && e in Shown(t, p) }

  ghost predicate Possible(s: Scene, ev: Event) { ev.Track? ==> Legal(s.t, ev.step) }

  // Who stays listed keeps its copy, who is listed anew starts from its spawn, and an update goes to
  // everybody listed.
  function Passed(s: Scene, e: Id, ev: Event): Scene
  {
    match ev
    case Track(step, spawn) =>
      var t := Next(s.t, step);
      Scene(t, s.enc, map p | p in Watching(t, e) :: if p in s.seen then s.seen[p] else spawn)
    case Update(pose) =>
      var (enc, packet) := M.Step(s.enc, pose);
      Scene(s.t, enc, map p | p in s.seen :: M.Apply(s.seen[p], packet))
  }

  ghost predicate IsStory(scenes: seq<Scene>, events: seq<Event>, e: Id)
  {
    && |scenes| == |events| + 1 && Good(scenes[0].t) && scenes[0].seen.Keys == Watching(scenes[0].t, e)
    && forall k :: 0 <= k < |events| ==>
       Possible(scenes[k], events[k]) && scenes[k + 1] == Passed(scenes[k], e, events[k])
  }

  // At every moment the players that get the entity's packets are exactly those whose clients hold it.
  lemma {:induction false} PacketsGoToHolders(scenes: seq<Scene>, events: seq<Event>, e: Id, k: nat)
    requires IsStory(scenes, events, e) && k < |scenes|
    ensures var s := scenes[k];
            && Good(s.t) && s.seen.Keys == Watching(s.t, e)
            && forall p :: p in s.t.streams ==> (p in s.seen <==> e in ClientSet(s.t.streams[p]))
  {
    if k > 0 {
      PacketsGoToHolders(scenes, events, e, k - 1);
      assert scenes[k - 1 + 1] == Passed(scenes[k - 1], e, events[k - 1]) && Possible(scenes[k - 1], events[k - 1]);
      hide Good, Next, Legal, ClientSet, IsStory;
      if events[k - 1].Track? { StepKeepsGood(scenes[k - 1].t, events[k - 1].step); }
    }
    hide Passed, IsStory, Good, ClientSet;
    GoodClients(scenes[k].t);
  }

  // The poses of the updates from a to b.
  function Poses(events: seq<Event>, a: nat, b: nat): seq<M.Pose>
    requires b <= |events|
    decreases b
  {
    if b <= a then []
    else Poses(events, a, b - 1) + if events[b - 1].Update? then [events[b - 1].pose] else []
  }

  // The player sees the entity from a to b without interruption.
  predicate SeesThroughout(scenes: seq<Scene>, p: Id, a: nat, b: nat)
  {
    forall k :: a <= k <= b && k < |scenes| ==> p in scenes[k].seen
  }

  // Its copy is then the one it had, with the packets of those updates replayed.
  lemma {:induction false} CopyIsReplay(scenes: seq<Scene>, events: seq<Event>, e: Id, p: Id, a: nat, b: nat)
    requires IsStory(scenes, events, e) && a <= b < |scenes| && SeesThroughout(scenes, p, a, b)
    ensures var (enc, packets) := M.Run(scenes[a].enc, Poses(events, a, b));
            scenes[b].enc == enc && scenes[b].seen[p] == M.Replay(scenes[a].seen[p], packets)
    decreases b - a
  {
    hide M.Step, M.Apply, M.Run, M.Replay, Passed, Next;
    if a == b {
      NoUpdates(scenes[a].enc, events, a, scenes[a].seen[p]);
    } else {
      assert SeesThroughout(scenes, p, a, b - 1);
      CopyIsReplay(scenes, events, e, p, a, b - 1);
      var s, ev := scenes[b - 1], events[b - 1];
      assert scenes[b - 1 + 1] == Passed(s, e, ev) && p in scenes[b].seen && p in s.seen;
      hide IsStory, SeesThroughout;
      var past := Poses(events, a, b - 1);
      CopyPassed(s, e, ev, p);
      if ev.Update? {
        OneMoreUpdate(scenes[a].enc, past, ev.pose, scenes[a].seen[p]);
      } else {
        assert past + [] == past;
      }
    }
  }

  lemma NoUpdates(enc: M.Encoder, events: seq<Event>, a: nat, m: M.Mirror)
    requires a <= |events|
    ensures M.Run(enc, Poses(events, a, a)) == (enc, []) && M.Replay(m, []) == m
  {
  }

  // What an event makes of the encoder and of one copy that stays.
  lemma CopyPassed(s: Scene, e: Id, ev: Event, p: Id)
    requires p in s.seen && p in Passed(s, e, ev).seen
    ensures var r := Passed(s, e, ev);
            if ev.Update? then
              var (enc, packet) := M.Step(s.enc, ev.pose);
              r.enc == enc && r.seen[p] == M.Apply(s.seen[p], packet)
            else r.enc == s.enc && r.seen[p] == s.seen[p]
  {
    hide M.Step, M.Apply, Next;
  }

  lemma OneMoreUpdate(enc: M.Encoder, past: seq<M.Pose>, pose: M.Pose, m: M.Mirror)
    ensures var (s, ps) := M.Run(enc, past); var (s', packet) := M.Step(s, pose);
            && M.Run(enc, past + [pose]) == (s', ps + [packet])
            && M.Replay(m, ps + [packet]) == M.Apply(M.Replay(m, ps), packet)
  {
    var (s, ps) := M.Run(enc, past);
    M.RunSplits(enc, past, [pose]);
    var (s', packet) := M.Step(s, pose);
    assert [pose][1..] == [] && [packet] + [] == [packet];
    assert M.Run(s, [pose]) == (s', [packet]);
    M.ReplayAppend(m, ps, M.Step(s, pose).1);
  }

  // The moment of the n-th update after a.
  lemma {:induction false} MomentOf(events: seq<Event>, a: nat, b: nat, n: nat) returns (k: nat)
    requires a <= b <= |events| && 0 < n <= |Poses(events, a, b)|
    ensures a < k <= b && events[k - 1].Update? && Poses(events, a, k) == Poses(events, a, b)[..n]
    ensures events[k - 1].pose == Poses(events, a, b)[n - 1]
    decreases b
  {
    if n <= |Poses(events, a, b - 1)| {
      k := MomentOf(events, a, b - 1, n);
    } else {
      k := b;
    }
  }

  lemma {:induction false} PosesSplit(events: seq<Event>, a: nat, b: nat, c: nat)
    requires a <= b <= c <= |events|
    ensures Poses(events, a, c) == Poses(events, a, b) + Poses(events, b, c)
    decreases c
  {
    if b < c { PosesSplit(events, a, b, c - 1); }
  }

  // A player that a run of the tracker keeps listed for an entity: once it has had 400 updates, every
  // stretch of `updateFrequency` further ones has a moment at which its client shows the entity where it is
  // and turned as it is, wherever the client saw it spawn.
  lemma ListedPlayersTrackTheEntity(scenes: seq<Scene>, events: seq<Event>, e: Id, p: Id, a: nat, b: nat, c: nat)
    requires IsStory(scenes, events, e) && a <= b <= c < |scenes| && SeesThroughout(scenes, p, a, c)
    requires M.Reachable(scenes[a].enc) && M.Tracked(scenes[a].enc)
    requires |Poses(events, a, b)| >= M.FORCE_TELEPORT_TICKS
    requires |Poses(events, b, c)| >= scenes[a].enc.profile.updateFrequency && |Poses(events, b, c)| > 0
    ensures exists k :: b < k <= c && AccurateAt(scenes, events, p, k, scenes[a].enc.profile)
  {
    var enc, joined := scenes[a].enc, scenes[a].seen[p];
    var past, next := Poses(events, a, b), Poses(events, b, c);
    hide IsStory, M.Reachable, M.Tracked, M.Run, M.Replay, M.ShowsPose;
    M.ViewersTrackTheEntity(enc, past, next, joined);
    var n :| 0 < n <= |next| && M.ShowsPose(M.Replay(joined, M.Run(enc, past + next[..n]).1), next[n - 1], enc.profile);
    var k := MomentOf(events, b, c, n);
    PosesSplit(events, a, b, k);
    assert SeesThroughout(scenes, p, a, k);
    CopyIsReplay(scenes, events, e, p, a, k);
    assert AccurateAt(scenes, events, p, k, enc.profile);
  }

  // Moment k is an update after which the player's copy shows the entity's pose.
  ghost predicate AccurateAt(scenes: seq<Scene>, events: seq<Event>, p: Id, k: nat, profile: M.Profile)
  {
    && 0 < k < |scenes| && k <= |events| && events[k - 1].Update? && p in scenes[k].seen
    && M.ShowsPose(scenes[k].seen[p], events[k - 1].pose, profile)
  }
}
