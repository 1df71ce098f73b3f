// The movement half of the entity tracker: EntityTracker::Update turns the position of a tracked
// entity into teleports and one-byte relative moves, and each client replays them on its own copy.
// The client's copy may start anywhere, because a late viewer is spawned at the entity's current
// position while the relative moves are encoded against `lastEncodedPos`.
module MovementStream {

  const MINIMUM_POSITION_DELTA := 2
  const MINIMUM_ROTATION_DELTA := 8
  const FORCE_TELEPORT_TICKS := 400
  const NEVER_UPDATES := 0x7FFF_FFFF

  datatype Int3 = Int3(x: int, y: int, z: int) {
    function Minus(o: Int3): Int3 { Int3(x - o.x, y - o.y, z - o.z) }

    function Plus(o: Int3): Int3 { Int3(x + o.x, y + o.y, z + o.z) }

    // Every axis differs by at most `bound`.
    predicate Near(o: Int3, bound: int)
    {
      -bound <= x - o.x <= bound && -bound <= y - o.y <= bound && -bound <= z - o.z <= bound
    }
  }

  // The pose of an entity in world units; rotations in degrees.
  datatype Pose = Pose(x: real, y: real, z: real, yaw: real, pitch: real)

  function QuantizePositionComponent(p: real): int { (p * 32.0).Floor }

  function QuantizePosition(p: Pose): Int3
  {
    Int3(QuantizePositionComponent(p.x), QuantizePositionComponent(p.y), QuantizePositionComponent(p.z))
  }

  function QuantizeRotation(r: real): int { (r * 256.0 / 360.0).Floor }

  // The int8_t cast of the source: keep the low byte, read it as signed.
  function ToInt8(v: int): int { (v + 128) % 256 - 128 }

  function Abs(v: int): int { if v < 0 then -v else v }

  datatype Profile = Profile(updateFrequency: int, applyRotationThreshold: bool, alwaysSendPosition: bool)

  // The fields of TrackedEntry that movement reads or writes.
  datatype Encoder = Encoder(profile: Profile, lastPos: Int3, lastYaw: int, lastPitch: int,
                             updateCounter: int, ticksSinceTeleport: int)

  datatype Packet =
    | Nothing
    | Teleport(pos: Int3, yaw: int, pitch: int)
    | Move(delta: Int3)
    | MoveAndTurn(delta: Int3, yaw: int, pitch: int)
    | Turn(yaw: int, pitch: int)

  // What a client believes about the entity.
  datatype Mirror = Mirror(pos: Int3, yaw: int, pitch: int)

  function Apply(m: Mirror, p: Packet): Mirror
  {
    match p
    case Nothing => m
    case Teleport(pos, yaw, pitch) => Mirror(pos, yaw, pitch)
    case Move(d) => m.(pos := m.pos.Plus(d))
    case MoveAndTurn(d, yaw, pitch) => Mirror(m.pos.Plus(d), yaw, pitch)
    case Turn(yaw, pitch) => m.(yaw := yaw, pitch := pitch)
  }

  predicate FitsByte(d: Int3)
  {
    -128 <= d.x < 128 && -128 <= d.y < 128 && -128 <= d.z < 128
  }

  function Bytes(d: Int3): Int3 { Int3(ToInt8(d.x), ToInt8(d.y), ToInt8(d.z)) }

  function RotationThreshold(p: Profile): int
  {
    if p.applyRotationThreshold then MINIMUM_ROTATION_DELTA else 0
  }

  // Does the update that starts in `s` look at the entity's position at all?
  predicate MovementDue(s: Encoder)
  {
    s.updateCounter + 1 >= s.profile.updateFrequency || s.ticksSinceTeleport + 1 >= FORCE_TELEPORT_TICKS
  }

  predicate Tracked(s: Encoder) { s.profile.updateFrequency != NEVER_UPDATES }

  // One update: the next encoder and the packet that every current viewer receives.
  function Step(s: Encoder, pose: Pose): (Encoder, Packet)
  {
    if !Tracked(s) then (s, Nothing)
    else
      var t := s.(ticksSinceTeleport := s.ticksSinceTeleport + 1);
      if !MovementDue(s) then (t.(updateCounter := s.updateCounter + 1), Nothing)
      else Encode(t.(updateCounter := 0), QuantizePosition(pose), QuantizeRotation(pose.yaw),
                  QuantizeRotation(pose.pitch))
  }

  function Encode(s: Encoder, q: Int3, yaw: int, pitch: int): (Encoder, Packet)
  {
    var d := q.Minus(s.lastPos);
    var moved := s.profile.alwaysSendPosition || !q.Near(s.lastPos, MINIMUM_POSITION_DELTA);
    var turned := Abs(yaw - s.lastYaw) > RotationThreshold(s.profile)
               || Abs(pitch - s.lastPitch) > RotationThreshold(s.profile);
    if !FitsByte(d) || s.ticksSinceTeleport >= FORCE_TELEPORT_TICKS then
      (s.(ticksSinceTeleport := 0, lastPos := q, lastYaw := yaw, lastPitch := pitch),
       Teleport(q, ToInt8(yaw), ToInt8(pitch)))
    else if moved && turned then
      (s.(lastPos := q, lastYaw := yaw, lastPitch := pitch), MoveAndTurn(Bytes(d), ToInt8(yaw), ToInt8(pitch)))
    else if moved then (s.(lastPos := q), Move(Bytes(d)))
    else if turned then (s.(lastYaw := yaw, lastPitch := pitch), Turn(ToInt8(yaw), ToInt8(pitch)))
    else (s, Nothing)
  }

  // The tracked entry as the source keeps it, updated in place.
  class TrackedEntry {
    var profile: Profile
    var lastEncodedPos: Int3
    var lastEncodedYaw: int
    var lastEncodedPitch: int
    var updateCounter: int
    var ticksSinceTeleport: int

    ghost function State(): Encoder
      reads this
    {
      Encoder(profile, lastEncodedPos, lastEncodedYaw, lastEncodedPitch, updateCounter, ticksSinceTeleport)
    }

    // `jitter` is the random start of the update counter, drawn below the update frequency.
    constructor (profile: Profile, pose: Pose, jitter: nat)
      requires profile.updateFrequency > 0 ==> jitter < profile.updateFrequency
      ensures Reachable(State())
      ensures this.profile == profile && lastEncodedPos == QuantizePosition(pose)
      ensures Synced(SpawnedMirror(pose), State())
    {
      this.profile := profile;
      lastEncodedPos := QuantizePosition(pose);
      lastEncodedYaw := QuantizeRotation(pose.yaw);
      lastEncodedPitch := QuantizeRotation(pose.pitch);
      updateCounter := if profile.updateFrequency > 0 then jitter else 0;
      ticksSinceTeleport := 0;
    }

    method Update(pose: Pose) returns (sent: Packet)
      modifies this
      ensures (State(), sent) == Step(old(State()), pose)
    {
      hide QuantizePosition, QuantizeRotation, ToInt8;
      sent := Nothing;
      if profile.updateFrequency == NEVER_UPDATES {
        return;
      }
      ticksSinceTeleport := ticksSinceTeleport + 1;
      updateCounter := updateCounter + 1;
      var needsMovementUpdate :=
        updateCounter >= profile.updateFrequency || ticksSinceTeleport >= FORCE_TELEPORT_TICKS;
      if needsMovementUpdate {
        updateCounter := 0;
        var q := QuantizePosition(pose);
        var qYaw := QuantizeRotation(pose.yaw);
        var qPitch := QuantizeRotation(pose.pitch);
        var d := q.Minus(lastEncodedPos);
        var needsTP := d.x < -128 || d.x >= 128 || d.y < -128 || d.y >= 128 || d.z < -128 || d.z >= 128
                    || ticksSinceTeleport >= FORCE_TELEPORT_TICKS;
        if needsTP {
          ticksSinceTeleport := 0;
          sent := Teleport(q, ToInt8(qYaw), ToInt8(qPitch));
          lastEncodedPos, lastEncodedYaw, lastEncodedPitch := q, qYaw, qPitch;
        } else {
          var needsRelMove := profile.alwaysSendPosition || Abs(d.x) > MINIMUM_POSITION_DELTA
                           || Abs(d.y) > MINIMUM_POSITION_DELTA || Abs(d.z) > MINIMUM_POSITION_DELTA;
          var threshold := if profile.applyRotationThreshold then MINIMUM_ROTATION_DELTA else 0;
          var needsRot := Abs(qYaw - lastEncodedYaw) > threshold || Abs(qPitch - lastEncodedPitch) > threshold;
          if needsRelMove && needsRot {
            sent := MoveAndTurn(Bytes(d), ToInt8(qYaw), ToInt8(qPitch));
            lastEncodedPos, lastEncodedYaw, lastEncodedPitch := q, qYaw, qPitch;
            return;
          }
          if needsRelMove {
            sent := Move(Bytes(d));
            lastEncodedPos := q;
            return;
          }
          if needsRot {
            sent := Turn(ToInt8(qYaw), ToInt8(qPitch));
            lastEncodedYaw, lastEncodedPitch := qYaw, qPitch;
            return;
          }
        }
      }
    }
  }

  // A client that is shown the entity now starts from the entity's current pose.
  function SpawnedMirror(pose: Pose): Mirror
  {
    Mirror(QuantizePosition(pose), ToInt8(QuantizeRotation(pose.yaw)), ToInt8(QuantizeRotation(pose.pitch)))
  }

  // What every encoder satisfies between updates.
  predicate Reachable(s: Encoder)
  {
    0 <= s.ticksSinceTeleport < FORCE_TELEPORT_TICKS && 0 <= s.updateCounter &&
    (s.profile.updateFrequency > 0 ==> s.updateCounter < s.profile.updateFrequency)
  }

  predicate Synced(m: Mirror, s: Encoder)
  {
    m == Mirror(s.lastPos, ToInt8(s.lastYaw), ToInt8(s.lastPitch))
  }

  lemma ByteCastIsLossless(d: Int3)
    requires FitsByte(d)
    ensures Bytes(d) == d
  {
  }

  // One update keeps the encoder reachable, never changes how far a viewer is from the encoder's
  // reference position unless it teleports, and a teleport makes the viewer exact.
  lemma StepKeepsOffset(s: Encoder, pose: Pose, m: Mirror)
    requires Reachable(s)
    ensures var (s', p) := Step(s, pose);
            && Reachable(s') && s'.profile == s.profile
            && Apply(m, p).pos.Minus(s'.lastPos)
               == (if p.Teleport? then Int3(0, 0, 0) else m.pos.Minus(s.lastPos))
            && (p.Teleport? || Synced(m, s) ==> Synced(Apply(m, p), s'))
            && (p.Move? || p.MoveAndTurn? ==> FitsByte(p.delta) && p.delta == s'.lastPos.Minus(s.lastPos))
            && (Tracked(s) ==> s'.ticksSinceTeleport == if p.Teleport? then 0 else s.ticksSinceTeleport + 1)
            && (Tracked(s) ==> s'.updateCounter == if MovementDue(s) then 0 else s.updateCounter + 1)
  {
    if Tracked(s) && MovementDue(s) {
      var d := QuantizePosition(pose).Minus(s.lastPos);
      if FitsByte(d) { ByteCastIsLossless(d); }
    }
  }

  // ----- in units of the world -----

  // A position in units of 1/32 of a block shows where the entity is, to 2 units on one side and 3 on the
  // other, axis by axis.
  predicate ShowsPlace(pos: Int3, pose: Pose)
  {
    && -2.0 <= 32.0 * pose.x - pos.x as real < 3.0
    && -2.0 <= 32.0 * pose.y - pos.y as real < 3.0
    && -2.0 <= 32.0 * pose.z - pos.z as real < 3.0
  }

  // A byte in units of 1/256 of a full turn shows a rotation to that many units, full turns aside.
  ghost predicate ShowsTurn(b: int, degrees: real, units: int)
  {
    -128 <= b < 128 && exists n: int :: TurnsApart(b, degrees, units, n)
  }

  predicate TurnsApart(b: int, degrees: real, units: int, n: int)
  {
    -(units as real) <= degrees / 360.0 * 256.0 - (b + 256 * n) as real < (units + 1) as real
  }

  ghost predicate ShowsPose(m: Mirror, pose: Pose, profile: Profile)
  {
    var units := if profile.applyRotationThreshold then 8 else 0;
    ShowsPlace(m.pos, pose) && ShowsTurn(m.yaw, pose.yaw, units) && ShowsTurn(m.pitch, pose.pitch, units)
  }

  // What a pose is in whole units, rounded down.
  predicate InUnits(pose: Pose, q: Int3, yaw: int, pitch: int)
  {
    && q.x as real <= 32.0 * pose.x < (q.x + 1) as real
    && q.y as real <= 32.0 * pose.y < (q.y + 1) as real
    && q.z as real <= 32.0 * pose.z < (q.z + 1) as real
    && yaw as real <= pose.yaw / 360.0 * 256.0 < (yaw + 1) as real
    && pitch as real <= pose.pitch / 360.0 * 256.0 < (pitch + 1) as real
  }

  lemma QuantizeIsInUnits(pose: Pose)
    ensures InUnits(pose, QuantizePosition(pose), QuantizeRotation(pose.yaw), QuantizeRotation(pose.pitch))
  {
  }

  lemma UnitsAreUnique(pose: Pose, q: Int3, yaw: int, pitch: int)
    requires InUnits(pose, q, yaw, pitch)
    ensures QuantizePosition(pose) == q && QuantizeRotation(pose.yaw) == yaw && QuantizeRotation(pose.pitch) == pitch
  {
    QuantizeIsInUnits(pose);
    var p := QuantizePosition(pose);
    hide QuantizePosition, QuantizeRotation;
    assert p.x < q.x + 1 && q.x < p.x + 1 && p.y < q.y + 1 && q.y < p.y + 1 && p.z < q.z + 1 && q.z < p.z + 1;
  }

  // Exactly which packet an update sends, for a pose of q units: nothing between two movement updates; a
  // teleport every 400 updates, and for a step that does not fit three bytes; otherwise what has moved more
  // than 2 units, or turned more than the threshold, since it was sent last, and the position always for
  // the profiles that ask for it.
  lemma PacketSentExactly(s: Encoder, pose: Pose, q: Int3, yaw: int, pitch: int)
    requires Reachable(s) && InUnits(pose, q, yaw, pitch)
    ensures var p, d := Step(s, pose).1, q.Minus(s.lastPos);
            var due := s.profile.updateFrequency != 0x7FFF_FFFF
                       && (s.updateCounter + 1 >= s.profile.updateFrequency || s.ticksSinceTeleport + 1 >= 400);
            var jump := s.ticksSinceTeleport + 1 >= 400 || d.x < -128 || d.x > 127 || d.y < -128 || d.y > 127
                      || d.z < -128 || d.z > 127;
            var far := s.profile.alwaysSendPosition || d.x < -2
              || d.x > 2 || d.y < -2 || d.y > 2 || d.z < -2 || d.z > 2;
            var units := if s.profile.applyRotationThreshold then 8 else 0;
            var turned := yaw - s.lastYaw < -units || yaw - s.lastYaw > units
                       || pitch - s.lastPitch < -units || pitch - s.lastPitch > units;
            && (p.Teleport? <==> due && jump)
            && (p.Move? <==> due && !jump && far && !turned) && (p.Turn? <==> due && !jump && !far && turned)
            && (p.MoveAndTurn? <==> due && !jump && far && turned)
            && (p.Teleport? ==> p.pos == q) && (p.Move? || p.MoveAndTurn? ==> p.delta == d)
  {
    UnitsAreUnique(pose, q, yaw, pitch);
    hide QuantizePosition, QuantizeRotation, ToInt8;
    var d := q.Minus(s.lastPos);
    if FitsByte(d) { ByteCastIsLossless(d); }
  }

  // After an update that looked at the position, the reference shows the pose to 2 units on every axis,
  // and to the threshold in its rotations.
  lemma MovementUpdateIsAccurate(s: Encoder, pose: Pose)
    requires Reachable(s) && Tracked(s) && MovementDue(s)
    ensures var s' := Step(s, pose).0;
            && ShowsPose(Mirror(s'.lastPos, ToInt8(s'.lastYaw), ToInt8(s'.lastPitch)), pose, s.profile)
            && s'.updateCounter == 0
  {
    var s' := Step(s, pose).0;
    var q, yaw, pitch := QuantizePosition(pose), QuantizeRotation(pose.yaw), QuantizeRotation(pose.pitch);
    assert q.Near(s'.lastPos, 2);
    assert Abs(yaw - s'.lastYaw) <= RotationThreshold(s.profile);
    assert Abs(pitch - s'.lastPitch) <= RotationThreshold(s.profile);
    QuantizeIsInUnits(pose);
    hide Step, QuantizePosition, QuantizeRotation, ToInt8, ShowsTurn;
    var units := if s.profile.applyRotationThreshold then 8 else 0;
    ByteShowsTurn(s'.lastYaw, pose.yaw, yaw, units);
    ByteShowsTurn(s'.lastPitch, pose.pitch, pitch, units);
  }

  lemma ByteShowsTurn(last: int, degrees: real, now: int, units: int)
    requires now as real <= degrees / 360.0 * 256.0 < (now + 1) as real && -units <= now - last <= units
    ensures ShowsTurn(ToInt8(last), degrees, units)
  {
    var n := (last - ToInt8(last)) / 256;
    assert ToInt8(last) + 256 * n == last;
    assert TurnsApart(ToInt8(last), degrees, units, n);
  }

  // A client that is shown the entity starts from where it is.
  lemma SpawnShowsThePose(pose: Pose, profile: Profile)
    ensures ShowsPose(SpawnedMirror(pose), pose, profile)
  {
    QuantizeIsInUnits(pose);
    hide QuantizePosition, QuantizeRotation, ToInt8, ShowsTurn;
    var units := if profile.applyRotationThreshold then 8 else 0;
    ByteShowsTurn(QuantizeRotation(pose.yaw), pose.yaw, QuantizeRotation(pose.yaw), units);
    ByteShowsTurn(QuantizeRotation(pose.pitch), pose.pitch, QuantizeRotation(pose.pitch), units);
  }

  // A whole run: fold the poses, collecting the packets.
  function Run(s: Encoder, poses: seq<Pose>): (r: (Encoder, seq<Packet>))
    ensures |r.1| == |poses|
    decreases |poses|
  {
    if poses == [] then (s, [])
    else
      var (s1, p) := Step(s, poses[0]);
      var (s2, ps) := Run(s1, poses[1..]);
      (s2, [p] + ps)
  }

  function Replay(m: Mirror, ps: seq<Packet>): Mirror
    decreases |ps|
  {
    if ps == [] then m else Replay(Apply(m, ps[0]), ps[1..])
  }

  lemma {:induction false} ReplayAppend(m: Mirror, ps: seq<Packet>, p: Packet)
    ensures Replay(m, ps + [p]) == Apply(Replay(m, ps), p)
    decreases |ps|
  {
    if ps == [] {
      assert [p][1..] == [];
      assert ps + [p] == [p];
    } else {
      assert (ps + [p])[1..] == ps[1..] + [p];
      ReplayAppend(Apply(m, ps[0]), ps[1..], p);
    }
  }

  predicate HasTeleport(ps: seq<Packet>) { exists k :: 0 <= k < |ps| && ps[k].Teleport? }

  // Over any run: the viewer's offset from the reference is untouched until the first teleport and
  // zero ever after it; and a run that outlasts the teleport timer contains a teleport.
  lemma {:induction false} RunKeepsOffset(s: Encoder, poses: seq<Pose>, m: Mirror)
    requires Reachable(s)
    ensures var (s', ps) := Run(s, poses);
            && Reachable(s') && s'.profile == s.profile
            && (!HasTeleport(ps) ==> Replay(m, ps).pos.Minus(s'.lastPos) == m.pos.Minus(s.lastPos))
            && (HasTeleport(ps) || Synced(m, s) ==> Synced(Replay(m, ps), s'))
            && (Tracked(s) && |poses| >= FORCE_TELEPORT_TICKS - s.ticksSinceTeleport ==> HasTeleport(ps))
    decreases |poses|
  {
    if poses != [] {
      var (s1, p) := Step(s, poses[0]);
      var (s2, ps) := Run(s1, poses[1..]);
      StepKeepsOffset(s, poses[0], m);
      RunKeepsOffset(s1, poses[1..], Apply(m, p));
      var all := [p] + ps;
      assert all[0] == p && all[1..] == ps;
      if HasTeleport(ps) {
        var k :| 0 <= k < |ps| && ps[k].Teleport?;
        assert all[k + 1].Teleport?;
      }
      if HasTeleport(all) && !p.Teleport? {
        var k :| 0 <= k < |all| && all[k].Teleport?;
        assert ps[k - 1].Teleport?;
      }
    }
  }

  // Whenever a viewer joins and whatever position it starts from, after 400 updates of an entity
  // that is updated at all it holds exactly the encoder's reference pose, and stays there.
  lemma StreamSelfStabilises(s: Encoder, poses: seq<Pose>, joined: Mirror)
    requires Reachable(s) && Tracked(s) && |poses| >= FORCE_TELEPORT_TICKS
    ensures var (s', ps) := Run(s, poses);
            Synced(Replay(joined, ps), s')
  {
    RunKeepsOffset(s, poses, joined);
  }

  lemma {:induction false} RunSplits(s: Encoder, a: seq<Pose>, b: seq<Pose>)
    ensures var (s1, ps) := Run(s, a);
            Run(s, a + b) == (Run(s1, b).0, ps + Run(s1, b).1)
    decreases |a|
  {
    if a == [] {
      assert a + b == b;
      assert [] + Run(s, b).1 == Run(s, b).1;
    } else {
      assert (a + b)[0] == a[0] && (a + b)[1..] == a[1..] + b;
      var (s1, p) := Step(s, a[0]);
      RunSplits(s1, a[1..], b);
      var rest := Run(s1, a[1..]);
      var tail := Run(rest.0, b).1;
      assert [p] + (rest.1 + tail) == ([p] + rest.1) + tail;
    }
  }

  // Movement updates come at least every `updateFrequency` updates (every update when that is 0).
  lemma {:induction false} MovementUpdatesRecur(s: Encoder, poses: seq<Pose>)
    requires Reachable(s) && Tracked(s)
    requires |poses| >= s.profile.updateFrequency - s.updateCounter && |poses| > 0
    ensures exists k :: 0 <= k < |poses| && MovementDue(Run(s, poses[..k]).0)
    decreases |poses|
  {
    if MovementDue(s) {
      assert poses[..0] == [];
      assert MovementDue(Run(s, poses[..0]).0);
    } else {
      var s1 := Step(s, poses[0]).0;
      MovementUpdatesRecur(s1, poses[1..]);
      var k :| 0 <= k < |poses| - 1 && MovementDue(Run(s1, poses[1..][..k]).0);
      assert poses[..k + 1][1..] == poses[1..][..k];
      assert MovementDue(Run(s, poses[..k + 1]).0);
    }
  }

  // The end-to-end promise: once 400 updates have passed, every stretch of `updateFrequency` further
  // updates contains one after which every viewer, however it joined, is shown the true pose: to 2 units
  // of 1/32 of a block on one side and 3 on the other, and to the threshold in its rotations.
  lemma ViewersTrackTheEntity(s: Encoder, past: seq<Pose>, next: seq<Pose>, joined: Mirror)
    requires Reachable(s) && Tracked(s) && |past| >= FORCE_TELEPORT_TICKS
    requires |next| >= s.profile.updateFrequency && |next| > 0
    ensures exists k :: 0 < k <= |next| &&
              ShowsPose(Replay(joined, Run(s, past + next[..k]).1), next[k - 1], s.profile)
  {
    RunKeepsOffset(s, past, joined);
    var s1 := Run(s, past).0;
    MovementUpdatesRecur(s1, next);
    var k :| 0 <= k < |next| && MovementDue(Run(s1, next[..k]).0);
    var before := past + next[..k];
    var s2 := Run(s, before).0;
    RunSplits(s, past, next[..k]);
    RunKeepsOffset(s, before, joined);
    assert past + next[..k + 1] == before + [next[k]];
    RunSplits(s, before, [next[k]]);
    assert [next[k]][1..] == [];
    assert Run(s2, [next[k]]).0 == Step(s2, next[k]).0;
    MovementUpdateIsAccurate(s2, next[k]);
    StreamSelfStabilises(s, past + next[..k + 1], joined);
    assert ShowsPose(Replay(joined, Run(s, past + next[..k + 1]).1), next[k], s.profile);
  }
}
