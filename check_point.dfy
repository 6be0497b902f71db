/**
 * Checkpoints: a player's `LastCheckPoint` is only ever replaced by one further to the right,
 * and every contact between a checkpoint sensor and a player asks for a save.
 */
module CheckPoint {
  import opened Wrappers
  import opened Vectors
  import Tilemap

  /** An ECS entity id. */
  type Entity = nat

  /** LDtk `LevelSelection`; only its identity matters here. */
  datatype LevelSelection = LevelSelection(id: int)

  datatype LastCheckPoint = LastCheckPoint(coordinate: Vec3, level: LevelSelection)

  /** What `upsert_check_point` does with a player's checkpoint component, if it has one. */
  datatype Upsert =
    | Overwrite(checkPoint: LastCheckPoint)  // `*last_check_point = check_point`
    | Keep                                   // an older checkpoint: nothing happens
    | Insert(checkPoint: LastCheckPoint)     // deferred `cmd.entity(..).insert(check_point)`

  /** The checkpoint a player carries once the upsert `u` has taken effect. */
  function Applied(last: Option<LastCheckPoint>, u: Upsert): Option<LastCheckPoint> {
    match u
    case Overwrite(c) => Some(c)
    case Keep => last
    case Insert(c) => Some(c)
  }

  /**
   * `upsert_check_point`: no checkpoint yet installs the new one; an existing one is
   * replaced exactly when the new one lies strictly further right, so the stored x never drops.
   */
  function UpsertCheckPoint(last: Option<LastCheckPoint>, translation: Vec3, level: LevelSelection): (u: Upsert)
    ensures u.Insert? <==> last.None?
    ensures u.Overwrite? <==> last.Some? && translation.x > last.value.coordinate.x
    ensures !u.Keep? ==> u.checkPoint == LastCheckPoint(translation, level)
    ensures last.Some? ==>
      Applied(last, u).Some? && Applied(last, u).value.coordinate.x >= last.value.coordinate.x
  {
    var checkPoint := LastCheckPoint(translation, level);
    match last
    case Some(stored) => if translation.x > stored.coordinate.x then Overwrite(checkPoint) else Keep
    case None => Insert(checkPoint)
  }

  /** The checkpoint after visiting the translations `visits` one after the other. */
  function UpsertAll(last: Option<LastCheckPoint>, visits: seq<Vec3>, level: LevelSelection): Option<LastCheckPoint>
    decreases |visits|
  {
    if visits == [] then last
    else
      var before := UpsertAll(last, visits[..|visits| - 1], level);
      Applied(before, UpsertCheckPoint(before, visits[|visits| - 1], level))
  }

  function Max(a: real, b: real): real { if a < b then b else a }

  /** The largest x among a non-empty list of translations. */
  function MaxX(visits: seq<Vec3>): real
    requires visits != []
    decreases |visits|
  {
    if |visits| == 1 then visits[0].x else Max(MaxX(visits[..|visits| - 1]), visits[|visits| - 1].x)
  }

  /**
   * Over any sequence of upserts the stored checkpoint is the rightmost one seen: its x is the
   * maximum of the starting x and every visited x, so it never moves left.
   */
  lemma {:induction false} UpsertAllKeepsRightmost(c: LastCheckPoint, visits: seq<Vec3>, level: LevelSelection)
    ensures UpsertAll(Some(c), visits, level).Some?
    ensures visits != [] ==>
      UpsertAll(Some(c), visits, level).value.coordinate.x == Max(c.coordinate.x, MaxX(visits))
    ensures visits == [] ==> UpsertAll(Some(c), visits, level) == Some(c)
    decreases |visits|
  {
    if visits != [] {
      var init := visits[..|visits| - 1];
      UpsertAllKeepsRightmost(c, init, level);
    }
  }

  /** The stored x is non-decreasing along the visits: a later state is never to the left of an earlier one. */
  lemma {:induction false} UpsertAllMonotone(c: LastCheckPoint, visits: seq<Vec3>, level: LevelSelection, i: nat, j: nat)
    requires i <= j <= |visits|
    ensures UpsertAll(Some(c), visits[..i], level).Some? && UpsertAll(Some(c), visits[..j], level).Some?
    ensures UpsertAll(Some(c), visits[..i], level).value.coordinate.x <= UpsertAll(Some(c), visits[..j], level).value.coordinate.x
    decreases j - i
  {
    UpsertAllKeepsRightmost(c, visits[..i], level);
    if i < j {
      UpsertAllMonotone(c, visits, level, i + 1, j);
      var before := UpsertAll(Some(c), visits[..i], level);
      assert visits[..i + 1][..i] == visits[..i];
      UpsertAllKeepsRightmost(before.value, [visits[i]], level);
    }
  }

  /** A player spawned this frame, with its translation. */
  datatype Spawned = Spawned(entity: Entity, translation: Vec3)

  /** The position at which `e` spawned, when it did. */
  function SpawnedAt(e: Entity, added: seq<Spawned>): Option<Vec3>
    decreases |added|
  {
    if added == [] then None
    else if added[|added| - 1].entity == e then Some(added[|added| - 1].translation)
    else SpawnedAt(e, added[..|added| - 1])
  }

  /** `e` has a spawn position exactly when it is among the spawned players. */
  lemma {:induction false} SpawnedAtNone(e: Entity, added: seq<Spawned>)
    ensures SpawnedAt(e, added).None? <==> forall k :: 0 <= k < |added| ==> added[k].entity != e
    decreases |added|
  {
    if added != [] {
      var init := added[..|added| - 1];
      SpawnedAtNone(e, init);
      assert forall k :: 0 <= k < |init| ==> init[k] == added[k];
    }
  }

  /**
   * `save_initial_check_point`: a newly spawned player's own position becomes its checkpoint
   * (the default spawn point), unless it already carries one further right.
   */
  method SaveInitialCheckPoint(added: seq<Spawned>, stored: map<Entity, LastCheckPoint>, level: LevelSelection)
    returns (updated: map<Entity, LastCheckPoint>)
    requires forall i, j :: 0 <= i < j < |added| ==> added[i].entity != added[j].entity
    ensures forall e :: e in updated <==> e in stored || SpawnedAt(e, added).Some?
    ensures forall e :: e in stored && SpawnedAt(e, added).None? ==> updated[e] == stored[e]
    ensures forall e :: e in stored && SpawnedAt(e, added).Some? ==>
      Some(updated[e]) == UpsertAll(Some(stored[e]), [SpawnedAt(e, added).value], level)
    ensures forall e :: e !in stored && SpawnedAt(e, added).Some? ==>
      updated[e] == LastCheckPoint(SpawnedAt(e, added).value, level)
  {
    var current := stored;
    var pending: map<Entity, LastCheckPoint> := map[];
    for i := 0 to |added|
      invariant forall e :: e in current <==> e in stored
      invariant forall e :: e in pending <==> e !in stored && SpawnedAt(e, added[..i]).Some?
      invariant forall e :: e in stored && SpawnedAt(e, added[..i]).None? ==> current[e] == stored[e]
      invariant forall e :: e in stored && SpawnedAt(e, added[..i]).Some? ==>
        Some(current[e]) == UpsertAll(Some(stored[e]), [SpawnedAt(e, added[..i]).value], level)
      invariant forall e :: e in pending ==> pending[e] == LastCheckPoint(SpawnedAt(e, added[..i]).value, level)
    {
      assert added[..i + 1][..i] == added[..i];
      var player := added[i];
      SpawnedAtNone(player.entity, added[..i]);
      var last := if player.entity in current then Some(current[player.entity]) else None;
      match UpsertCheckPoint(last, player.translation, level) {
        case Overwrite(c) => current := current[player.entity := c];
        case Keep =>
        case Insert(c) => pending := pending[player.entity := c];
      }
      assert [player.translation][..0] == [];
    }
    assert added[..|added|] == added;
    updated := current + pending;
  }

  // ---------------------------------------------------------------------------
  // save_last_check_point

  /** A checkpoint sensor whose colliding entities changed this frame. */
  datatype Sensor = Sensor(translation: Vec3, colliding: set<Entity>)

  /** The translations of the sensors `e` collides with, in query order. */
  function Visits(e: Entity, sensors: seq<Sensor>): seq<Vec3>
    decreases |sensors|
  {
    if sensors == [] then []
    else
      var last := sensors[|sensors| - 1];
      Visits(e, sensors[..|sensors| - 1]) + (if e in last.colliding then [last.translation] else [])
  }

  /** How many of `players` collide with sensor `s`. */
  function Colliding(s: Sensor, players: seq<Entity>): nat
    decreases |players|
  {
    if players == [] then 0
    else Colliding(s, players[..|players| - 1]) + (if players[|players| - 1] in s.colliding then 1 else 0)
  }

  /** The number of (sensor, colliding player) pairs. */
  function Pairs(sensors: seq<Sensor>, players: seq<Entity>): nat
    decreases |sensors|
  {
    if sensors == [] then 0
    else Pairs(sensors[..|sensors| - 1], players) + Colliding(sensors[|sensors| - 1], players)
  }

  predicate Distinct(players: seq<Entity>) {
    forall i, j :: 0 <= i < j < |players| ==> players[i] != players[j]
  }

  /**
   * `save_last_check_point`: each (sensor, colliding player) pair upserts the sensor's
   * translation and sends one save event. A player that already carries a checkpoint has it
   * updated in place, so it ends at the rightmost of what it saw. A player without one gets
   * insert commands, which take effect only after the system ran: the last one wins.
   */
  method SaveLastCheckPoint(sensors: seq<Sensor>, players: seq<Entity>,
                            stored: map<Entity, LastCheckPoint>, level: LevelSelection)
    returns (updated: map<Entity, LastCheckPoint>, saveEvents: nat)
    requires Distinct(players)
    ensures saveEvents == Pairs(sensors, players)
    ensures forall e :: e in updated <==> e in stored || (e in players && Visits(e, sensors) != [])
    ensures forall e :: e in stored && e in players ==>
      Some(updated[e]) == UpsertAll(Some(stored[e]), Visits(e, sensors), level)
    ensures forall e :: e in stored && e !in players ==> updated[e] == stored[e]
    ensures forall e :: e in updated && e !in stored ==>
      updated[e] == LastCheckPoint(Visits(e, sensors)[|Visits(e, sensors)| - 1], level)
  {
    var current := stored;
    var pending: map<Entity, LastCheckPoint> := map[];
    saveEvents := 0;
    for i := 0 to |sensors|
      invariant SaveInv(sensors[..i], players, stored, current, pending, level)
      invariant saveEvents == Pairs(sensors[..i], players)
    {
      assert sensors[..i + 1][..i] == sensors[..i];
      var next, nextPending, events := VisitSensor(sensors[i], players, stored, current, pending, level);
      SaveStep(sensors, i, players, stored, current, pending, next, nextPending, level);
      current, pending, saveEvents := next, nextPending, saveEvents + events;
    }
    assert sensors[..|sensors|] == sensors;
    updated := current + pending;
  }

  /**
   * The inner loop of `save_last_check_point` for one sensor: every colliding player is
   * upserted (in place or as a pending insert, which overrides an older pending one) and
   * counted once.
   */
  method VisitSensor(sensor: Sensor, players: seq<Entity>, stored: map<Entity, LastCheckPoint>,
                     before: map<Entity, LastCheckPoint>, pendingBefore: map<Entity, LastCheckPoint>, level: LevelSelection)
    returns (current: map<Entity, LastCheckPoint>, pending: map<Entity, LastCheckPoint>, events: nat)
    requires Distinct(players)
    requires forall e :: e in before <==> e in stored
    requires forall e :: e in pendingBefore ==> e !in stored
    ensures forall e :: e in current <==> e in stored
    ensures forall e :: e in pending ==> e !in stored
    ensures forall e :: e in stored && e !in players ==> current[e] == before[e]
    ensures forall e :: e in stored && e in players ==>
      Some(current[e]) == Applied(Some(before[e]), if e in sensor.colliding then UpsertCheckPoint(Some(before[e]), sensor.translation, level) else Keep)
    ensures forall e :: e !in stored && e !in players ==>
      (e in pending <==> e in pendingBefore) && (e in pending ==> pending[e] == pendingBefore[e])
    ensures forall e :: e !in stored && e in players ==>
      if e in sensor.colliding then e in pending && pending[e] == LastCheckPoint(sensor.translation, level)
      else (e in pending <==> e in pendingBefore) && (e in pending ==> pending[e] == pendingBefore[e])
    ensures events == Colliding(sensor, players)
  {
    current, pending, events := before, pendingBefore, 0;
    for j := 0 to |players|
      invariant forall e :: e in current <==> e in stored
      invariant forall e :: e in pending ==> e !in stored
      invariant forall e :: e in stored && e !in players[..j] ==> current[e] == before[e]
      invariant forall e :: e in stored && e in players[..j] ==>
        Some(current[e]) == Applied(Some(before[e]), if e in sensor.colliding then UpsertCheckPoint(Some(before[e]), sensor.translation, level) else Keep)
      invariant forall e :: e !in stored && e !in players[..j] ==>
        (e in pending <==> e in pendingBefore) && (e in pending ==> pending[e] == pendingBefore[e])
      invariant forall e :: e !in stored && e in players[..j] ==>
        if e in sensor.colliding then e in pending && pending[e] == LastCheckPoint(sensor.translation, level)
        else (e in pending <==> e in pendingBefore) && (e in pending ==> pending[e] == pendingBefore[e])
      invariant events == Colliding(sensor, players[..j])
    {
      var player := players[j];
      assert players[..j + 1][..j] == players[..j];
      assert player !in players[..j];
      if player in sensor.colliding {
        var last := if player in current then Some(current[player]) else None;
        match UpsertCheckPoint(last, sensor.translation, level) {
          case Overwrite(c) => current := current[player := c];
          case Keep =>
          case Insert(c) => pending := pending[player := c];
        }
        events := events + 1;
      }
    }
    assert players[..|players|] == players;
  }

  /**
   * The state of the pairing loop after the sensors `done`: players that carry a checkpoint
   * have it upserted in place, the others have the insert of their last visit pending.
   */
  ghost predicate SaveInv(done: seq<Sensor>, players: seq<Entity>, stored: map<Entity, LastCheckPoint>,
                          current: map<Entity, LastCheckPoint>, pending: map<Entity, LastCheckPoint>, level: LevelSelection)
  {
    && (forall e :: e in current <==> e in stored)
    && (forall e :: e in stored && e in players ==> Some(current[e]) == UpsertAll(Some(stored[e]), Visits(e, done), level))
    && (forall e :: e in stored && e !in players ==> current[e] == stored[e])
    && (forall e :: e in pending <==> e !in stored && e in players && Visits(e, done) != [])
    && (forall e :: e in pending ==> pending[e] == LastCheckPoint(Visits(e, done)[|Visits(e, done)| - 1], level))
  }

  lemma SaveStep(sensors: seq<Sensor>, i: nat, players: seq<Entity>, stored: map<Entity, LastCheckPoint>,
                 before: map<Entity, LastCheckPoint>, pendingBefore: map<Entity, LastCheckPoint>,
                 current: map<Entity, LastCheckPoint>, pending: map<Entity, LastCheckPoint>, level: LevelSelection)
    requires i < |sensors|
    requires SaveInv(sensors[..i], players, stored, before, pendingBefore, level)
    requires forall e :: e in current <==> e in stored
    requires forall e :: e in pending ==> e !in stored
    requires forall e :: e in stored && e !in players ==> current[e] == before[e]
    requires forall e :: e in stored && e in players ==>
      Some(current[e]) == Applied(Some(before[e]), if e in sensors[i].colliding then UpsertCheckPoint(Some(before[e]), sensors[i].translation, level) else Keep)
    requires forall e :: e !in stored && e !in players ==>
      (e in pending <==> e in pendingBefore) && (e in pending ==> pending[e] == pendingBefore[e])
    requires forall e :: e !in stored && e in players ==>
      if e in sensors[i].colliding then e in pending && pending[e] == LastCheckPoint(sensors[i].translation, level)
      else (e in pending <==> e in pendingBefore) && (e in pending ==> pending[e] == pendingBefore[e])
    ensures SaveInv(sensors[..i + 1], players, stored, current, pending, level)
  {
    var done := sensors[..i + 1];
    assert done[..i] == sensors[..i];
    forall e | e in stored && e in players
      ensures Some(current[e]) == UpsertAll(Some(stored[e]), Visits(e, done), level)
    {
      VisitsSnoc(e, sensors, i);
      var vs := Visits(e, done);
      if e in sensors[i].colliding {
        assert vs[..|vs| - 1] == Visits(e, sensors[..i]);
      } else {
        assert vs == Visits(e, sensors[..i]);
      }
    }
    forall e | e !in stored && e in players
      ensures e in pending <==> Visits(e, done) != []
      ensures e in pending ==> pending[e] == LastCheckPoint(Visits(e, done)[|Visits(e, done)| - 1], level)
    {
      VisitsSnoc(e, sensors, i);
    }
    forall e | e !in stored && e !in players
      ensures e !in pending
    {
    }
    forall e | e in stored && e !in players
      ensures current[e] == stored[e]
    {
    }
  }

  lemma VisitsSnoc(e: Entity, sensors: seq<Sensor>, i: nat)
    requires i < |sensors|
    ensures Visits(e, sensors[..i + 1]) == Visits(e, sensors[..i]) + (if e in sensors[i].colliding then [sensors[i].translation] else [])
  {
    assert sensors[..i + 1][..i] == sensors[..i];
  }

  /** A player has no visits exactly when no sensor reports it as colliding. */
  lemma {:induction false} VisitsEmpty(e: Entity, sensors: seq<Sensor>)
    ensures Visits(e, sensors) == [] <==> forall k :: 0 <= k < |sensors| ==> e !in sensors[k].colliding
    decreases |sensors|
  {
    if sensors != [] {
      var init := sensors[..|sensors| - 1];
      VisitsEmpty(e, init);
      assert forall k :: 0 <= k < |init| ==> init[k] == sensors[k];
    }
  }

  // ---------------------------------------------------------------------------
  // Sensor geometry

  /**
   * The collider of a checkpoint sensor, computed by its own copy of the formulas: it is the
   * collider a wall over the same rectangle gets, so it spans exactly its tiles.
   */
  function SensorCollider(r: Tilemap.Rect, gridSize: int): (c: Tilemap.Cuboid)
    ensures c == Tilemap.ColliderOf(r, gridSize)
    ensures c.centre2X - c.half2X == 2 * (r.left * gridSize) && c.centre2X + c.half2X == 2 * ((r.right + 1) * gridSize)
  {
    Tilemap.Cuboid((r.left + r.right + 1) * gridSize, (r.bottom + r.top + 1) * gridSize,
                   (r.right - r.left + 1) * gridSize, (r.top - r.bottom + 1) * gridSize)
  }
}
