/**
 * Enemies: a patrol built from a level entity that walks back and forth along its waypoints,
 * and the despawning of enemies whose health ran out.
 */
module Npc {
  import opened Wrappers
  import opened Vectors
  import Player

  /** An ECS entity id. */
  type Entity = nat

  // ---------------------------------------------------------------------------
  // Building a patrol

  /** An integer vector (`IVec2`): a grid point or a pixel position. */
  datatype IVec2 = IVec2(x: int, y: int)

  /** The value of an LDtk entity field, as far as patrols care: a list of optional grid points. */
  datatype PatrolValue = Points(points: seq<Option<IVec2>>) | OtherValue

  datatype PatrolField = PatrolField(identifier: string, value: PatrolValue)

  /** Field `i` is the first one named "Patrol". */
  predicate FirstPatrol(fields: seq<PatrolField>, i: nat)
    requires i < |fields|
  {
    fields[i].identifier == "Patrol" && forall j :: 0 <= j < i ==> fields[j].identifier != "Patrol"
  }

  /** The grid points of the first "Patrol" field, when it holds points. */
  function PatrolGridPoints(fields: seq<PatrolField>): (r: seq<Option<IVec2>>)
    ensures (forall i :: 0 <= i < |fields| ==> fields[i].identifier != "Patrol") ==> r == []
    ensures forall i :: 0 <= i < |fields| && FirstPatrol(fields, i) && fields[i].value.Points? ==>
      r == fields[i].value.points
    ensures forall i :: 0 <= i < |fields| && FirstPatrol(fields, i) && fields[i].value.OtherValue? ==>
      r == []
    decreases |fields|
  {
    if fields == [] then []
    else if fields[0].identifier == "Patrol" then
      match fields[0].value
      case Points(ps) => ps
      case OtherValue => []
    else PatrolGridPoints(fields[1..])
  }

  /** The points that are present, in order (Rust's `iter().flatten()` on options). */
  function Present<T(!new)>(s: seq<Option<T>>): (r: seq<T>)
    ensures |r| <= |s|
    ensures forall x :: x in r <==> Some(x) in s
    decreases |s|
  {
    if s == [] then []
    else
      var init := Present(s[..|s| - 1]);
      assert forall k :: 0 <= k < |s| - 1 ==> s[..|s| - 1][k] == s[k];
      match s[|s| - 1]
      case Some(x) => init + [x]
      case None => init
  }

  /** Flattening distributes over concatenation. */
  lemma {:induction false} PresentAppend<T(!new)>(a: seq<Option<T>>, b: seq<Option<T>>)
    ensures Present(a + b) == Present(a) + Present(b)
    decreases |b|
  {
    if b == [] {
      assert a + b == a;
    } else {
      var b' := b[..|b| - 1];
      assert (a + b)[..|a + b| - 1] == a + b';
      assert (a + b)[|a + b| - 1] == b[|b| - 1];
      PresentAppend(a, b');
    }
  }

  /** A present point is kept, a missing one dropped. */
  lemma PresentOne<T(!new)>(x: T)
    ensures Present([Some(x)]) == [x]
    ensures Present<T>([None]) == []
  {
    assert [Some(x)][..0] == [];
    var none: seq<Option<T>> := [None];
    assert none[..0] == [];
  }

  /** The pixel position of a waypoint: the bottom-centre of its grid cell, truncated to integers. */
  function WaypointPixel(p: IVec2, gridSize: int): (r: IVec2)
    ensures var x := (p.x as real + 0.5) * gridSize as real;
      (x >= 0.0 ==> r.x as real <= x < r.x as real + 1.0) && (x < 0.0 ==> r.x as real - 1.0 < x <= r.x as real)
    ensures gridSize % 2 == 0 ==> r.x == p.x * gridSize + gridSize / 2
    ensures r.y == (p.y + 1) * gridSize
  {
    IVec2(Player.Truncate((p.x as real + 0.5) * gridSize as real), Player.Truncate((p.y as real + 1.0) * gridSize as real))
  }

  /**
   * The waypoints of `bundle_entity`: the entity's own position first, then every present
   * point of its "Patrol" field in order, each converted from pixels to a world translation
   * by `toTranslation` (the level plugin's pivoted conversion).
   */
  method PatrolPoints(ownPixel: IVec2, fields: seq<PatrolField>, gridSize: int, toTranslation: IVec2 -> Vec2)
    returns (points: seq<Vec2>)
    ensures |points| == 1 + |Present(PatrolGridPoints(fields))|
    ensures points[0] == toTranslation(ownPixel)
    ensures forall i :: 1 <= i < |points| ==>
      points[i] == toTranslation(WaypointPixel(Present(PatrolGridPoints(fields))[i - 1], gridSize))
  {
    points := [toTranslation(ownPixel)];
    var ldtkPoints := PatrolGridPoints(fields);
    ghost var present: seq<IVec2> := [];
    for k := 0 to |ldtkPoints|
      invariant present == Present(ldtkPoints[..k])
      invariant |points| == 1 + |present| && points[0] == toTranslation(ownPixel)
      invariant forall i :: 1 <= i < |points| ==> points[i] == toTranslation(WaypointPixel(present[i - 1], gridSize))
    {
      assert ldtkPoints[..k + 1][..k] == ldtkPoints[..k];
      if ldtkPoints[k].Some? {
        points := points + [toTranslation(WaypointPixel(ldtkPoints[k].value, gridSize))];
        present := present + [ldtkPoints[k].value];
      }
    }
    assert ldtkPoints[..|ldtkPoints|] == ldtkPoints;
  }

  // ---------------------------------------------------------------------------
  // Stepping a patrol

  /** The direction after a reversal: forced forward at the first waypoint, backward at the last. */
  function ReverseForward(len: nat, index: nat, forward: bool): (r: bool)
    ensures index == 0 ==> r
    ensures index != 0 && index + 1 == len ==> !r
    ensures index != 0 && index + 1 != len ==> r == forward
  {
    if index == 0 then true else if index == len - 1 then false else forward
  }

  /** The waypoint index after a reversal at `index`. */
  function NextIndex(len: nat, index: nat, forward: bool): (next: int)
    requires len >= 2 && index < len
    ensures 0 <= next < len
    ensures next == index + 1 || next == index - 1
    ensures index == 0 ==> next == 1
    ensures index == len - 1 ==> next == len - 2
  {
    if ReverseForward(len, index, forward) then index + 1 else index - 1
  }

  /** Reversing `n` times from waypoint `index`: the index stays a valid waypoint. */
  function Reversals(len: nat, index: nat, forward: bool, n: nat): (r: (nat, bool))
    requires len >= 2 && index < len
    ensures r.0 < len
    decreases n
  {
    if n == 0 then (index, forward)
    else
      var f := ReverseForward(len, index, forward);
      Reversals(len, NextIndex(len, index, forward), f, n - 1)
  }

  /**
   * From waypoint 0 forward, the patrol walks to the end and back: after `n < len`
   * reversals it is at waypoint `n`, and `m < len` reversals after reaching the last waypoint
   * it is at `len - 1 - m`.
   */
  lemma PingPong(len: nat, n: nat, m: nat)
    requires len >= 2 && n < len && m < len
    ensures Reversals(len, 0, true, n).0 == n
    ensures Reversals(len, 0, true, len - 1 + m).0 == len - 1 - m
  {
    ForwardRun(len, 0, n);
    ForwardRun(len, 0, len - 1);
    var atEnd := Reversals(len, 0, true, len - 1);
    ReversalsCompose(len, 0, true, len - 1, m);
    if m > 0 {
      assert Reversals(len, len - 1, atEnd.1, m) == Reversals(len, len - 2, false, m - 1);
      BackwardRun(len, len - 2, m - 1);
    }
  }

  /** Reversing `n` and then `m` times is reversing `n + m` times. */
  lemma {:induction false} ReversalsCompose(len: nat, index: nat, forward: bool, n: nat, m: nat)
    requires len >= 2 && index < len
    ensures var mid := Reversals(len, index, forward, n);
      Reversals(len, index, forward, n + m) == Reversals(len, mid.0, mid.1, m)
    decreases n
  {
    if n > 0 {
      ReversalsCompose(len, NextIndex(len, index, forward), ReverseForward(len, index, forward), n - 1, m);
    }
  }

  lemma {:induction false} ForwardRun(len: nat, index: nat, n: nat)
    requires len >= 2 && index + n < len
    ensures Reversals(len, index, true, n).0 == index + n
    ensures index + n < len - 1 ==> Reversals(len, index, true, n).1
    decreases n
  {
    if n > 0 {
      ForwardRun(len, index + 1, n - 1);
    }
  }

  lemma {:induction false} BackwardRun(len: nat, index: nat, n: nat)
    requires len >= 2 && index < len && n <= index
    ensures Reversals(len, index, false, n).0 == index - n
    decreases n
  {
    if n > 0 {
      assert ReverseForward(len, index, false) == false;
      BackwardRun(len, index - 1, n - 1);
    }
  }

  /** The `Patrol` component. */
  class Patrol {
    var points: seq<Vec2>
    var index: nat
    var forward: bool

    /** The waypoint the patrol is heading for is one of its points, whenever it moves at all. */
    predicate Valid()
      reads this
    {
      |points| >= 2 ==> index < |points|
    }

    /** `bundle_entity`: heading for the first waypoint after the start, forward. */
    constructor(points: seq<Vec2>)
      requires points != []
      ensures this.points == points && index == 1 && forward
      ensures Valid()
    {
      this.points := points;
      index := 1;
      forward := true;
    }

    /**
     * `patrol` for one enemy at `translation`, where `reverse` says the new heading points
     * against the current velocity (the sign of their dot product). A patrol with fewer than
     * two points does nothing. Otherwise, without a reversal it keeps heading for its
     * waypoint; on a reversal the enemy snaps onto the waypoint and the next one is chosen.
     * `target` is the waypoint the new velocity points at, None when the velocity is kept.
     */
    method Step(translation: Vec3, reverse: bool) returns (newTranslation: Vec3, target: Option<Vec2>)
      requires Valid()
      modifies this
      ensures Valid()
      ensures points == old(points)
      ensures |points| <= 1 ==>
        index == old(index) && forward == old(forward) && newTranslation == translation && target == None
      ensures |points| >= 2 && !reverse ==>
        index == old(index) && forward == old(forward) && newTranslation == translation &&
        target == Some(points[index])
      ensures |points| >= 2 && reverse ==>
        && forward == ReverseForward(|points|, old(index), old(forward))
        && index == NextIndex(|points|, old(index), old(forward))
        && newTranslation == Vec3(points[old(index)].x, points[old(index)].y, translation.z)
        && target == Some(points[index])
    {
      newTranslation, target := translation, None;
      if |points| <= 1 {
        return;
      }
      if reverse {
        if index == 0 {
          forward := true;
        } else if index == |points| - 1 {
          forward := false;
        }
        newTranslation := Vec3(points[index].x, points[index].y, translation.z);
        if forward {
          index := index + 1;
        } else {
          index := index - 1;
        }
      }
      target := Some(points[index]);
    }
  }

  // ---------------------------------------------------------------------------
  // Despawn

  /** The enemies with no health left, in query order. */
  function Dead(enemies: seq<(Entity, Player.Health)>): (r: seq<Entity>)
    ensures forall e :: e in r <==> exists i :: 0 <= i < |enemies| && enemies[i].0 == e && enemies[i].1.current == 0
    decreases |enemies|
  {
    if enemies == [] then []
    else
      var init := enemies[..|enemies| - 1];
      assert forall i :: 0 <= i < |init| ==> init[i] == enemies[i];
      Dead(init) + (if enemies[|enemies| - 1].1.current == 0 then [enemies[|enemies| - 1].0] else [])
  }

  /** `despawn`: every enemy whose health changed to 0 is despawned, and no other. */
  method Despawn(enemies: seq<(Entity, Player.Health)>) returns (despawned: seq<Entity>)
    ensures despawned == Dead(enemies)
  {
    despawned := [];
    for i := 0 to |enemies|
      invariant despawned == Dead(enemies[..i])
    {
      assert enemies[..i + 1][..i] == enemies[..i];
      if enemies[i].1.current == 0 {
        despawned := despawned + [enemies[i].0];
      }
    }
    assert enemies[..|enemies|] == enemies;
  }
}
