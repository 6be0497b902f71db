/**
 * The player's movement systems: picking the standing normal from the physics contacts,
 * coyote time, the jump status classifier and its effects, the double-tap dash, the facing
 * direction and the run target.
 */
module PlayerSystems {
  import opened Wrappers
  import opened Vectors
  import opened Player

  /** An ECS entity id. */
  type Entity = nat

  // ---------------------------------------------------------------------------
  // Standing normal

  /** A contact pair reported by the physics engine, with the normal of each manifold. */
  datatype Contact = Contact(collider1: Entity, collider2: Entity, hasActiveContacts: bool, normals: seq<Vec2>)

  /** The key of both `max_by_key` calls: how much a normal points up. */
  function Upness(n: Vec2): real { Dot(n, Up) }

  function NegAll(ns: seq<Vec2>): (r: seq<Vec2>)
    ensures |r| == |ns| && forall i :: 0 <= i < |ns| ==> r[i] == Neg(ns[i])
    decreases |ns|
  {
    if ns == [] then [] else [Neg(ns[0])] + NegAll(ns[1..])
  }

  /** A contact's manifold normals as seen from `player`: negated when it is the first collider. */
  function Oriented(c: Contact, player: Entity): seq<Vec2> {
    if c.collider1 == player then NegAll(c.normals)
    else if c.collider2 == player then c.normals
    else []
  }

  /** Every oriented normal of every active contact, in order. */
  function AllNormals(contacts: seq<Contact>, player: Entity): seq<Vec2>
    decreases |contacts|
  {
    if contacts == [] then []
    else
      var c := contacts[|contacts| - 1];
      AllNormals(contacts[..|contacts| - 1], player) + (if c.hasActiveContacts then Oriented(c, player) else [])
  }

  /** The index `max_by_key` picks: a maximum, and the last of the maxima. */
  function LastMaxIndex(ns: seq<Vec2>): (i: nat)
    requires ns != []
    ensures i < |ns|
    ensures forall j :: 0 <= j < |ns| ==> Upness(ns[j]) <= Upness(ns[i])
    ensures forall j :: i < j < |ns| ==> Upness(ns[j]) < Upness(ns[i])
    decreases |ns|
  {
    if |ns| == 1 then 0
    else
      var i := LastMaxIndex(ns[..|ns| - 1]);
      if Upness(ns[i]) <= Upness(ns[|ns| - 1]) then |ns| - 1 else i
  }

  function MaxByUpness(ns: seq<Vec2>): Option<Vec2> {
    if ns == [] then None else Some(ns[LastMaxIndex(ns)])
  }

  /** The flat-mapped per-contact maxima of the active contacts. */
  function ContactMaxima(contacts: seq<Contact>, player: Entity): seq<Vec2>
    decreases |contacts|
  {
    if contacts == [] then []
    else
      var c := contacts[|contacts| - 1];
      var best := if c.hasActiveContacts then MaxByUpness(Oriented(c, player)) else None;
      ContactMaxima(contacts[..|contacts| - 1], player) + (if best.Some? then [best.value] else [])
  }

  /** The long float tail of a barely-up normal is cut to 0. */
  function Clamp(n: Vec2): Vec2 {
    if n.y < 0.0001 then n.(y := 0.0) else n
  }

  /**
   * `get_standing_normal`: no normal when the player has no active contact normal; otherwise
   * one of the normals pointing up the most, with a y below 0.0001 cut to 0.
   */
  function StandingNormal(contacts: seq<Contact>, player: Entity): (r: Option<Vec2>)
    ensures r.None? <==> AllNormals(contacts, player) == []
    ensures r.Some? ==> exists n :: n in AllNormals(contacts, player) && r.value == Clamp(n) && Highest(AllNormals(contacts, player), n)
  {
    ContactMaximaSound(contacts, player);
    match MaxByUpness(ContactMaxima(contacts, player))
    case None => None
    case Some(n) => Some(Clamp(n))
  }

  /** `n` points up at least as much as every normal of `ns`. */
  ghost predicate Highest(ns: seq<Vec2>, n: Vec2) {
    forall m :: m in ns ==> Upness(m) <= Upness(n)
  }

  /** A contact's maximum is one of its normals and the highest of them. */
  lemma MaxByUpnessSound(ns: seq<Vec2>)
    ensures MaxByUpness(ns).None? <==> ns == []
    ensures MaxByUpness(ns).Some? ==> MaxByUpness(ns).value in ns && Highest(ns, MaxByUpness(ns).value)
  {
    if ns != [] {
      var i := LastMaxIndex(ns);
      forall m | m in ns
        ensures Upness(m) <= Upness(ns[i])
      {
        var j :| 0 <= j < |ns| && ns[j] == m;
      }
    }
  }

  /**
   * The per-contact maxima are normals of the contacts, there is one as soon as there is
   * any normal, and the highest of them is a highest normal overall.
   */
  lemma {:induction false} ContactMaximaSound(contacts: seq<Contact>, player: Entity)
    ensures ContactMaxima(contacts, player) == [] <==> AllNormals(contacts, player) == []
    ensures forall m :: m in ContactMaxima(contacts, player) ==> m in AllNormals(contacts, player)
    ensures MaxByUpness(ContactMaxima(contacts, player)).Some? ==>
      Highest(AllNormals(contacts, player), MaxByUpness(ContactMaxima(contacts, player)).value)
    decreases |contacts|
  {
    if contacts != [] {
      var init := contacts[..|contacts| - 1];
      var c := contacts[|contacts| - 1];
      ContactMaximaSound(init, player);
      var own := if c.hasActiveContacts then Oriented(c, player) else [];
      var best := if c.hasActiveContacts then MaxByUpness(Oriented(c, player)) else None;
      MaxByUpnessSound(own);
      assert best == MaxByUpness(own);
      var msInit := ContactMaxima(init, player);
      var ms := ContactMaxima(contacts, player);
      assert ms == msInit + (if best.Some? then [best.value] else []);
      assert AllNormals(contacts, player) == AllNormals(init, player) + own;
      MaxByUpnessSound(msInit);
      MaxByUpnessSound(ms);
      if ms != [] {
        assert msInit != [] ==> MaxByUpness(msInit).value in ms;
        assert best.Some? ==> best.value in ms;
      }
    }
  }

  // ---------------------------------------------------------------------------
  // Coyote time and the jump status

  /** `Instant` subtraction, which saturates at zero. */
  function SaturatingSub(a: Instant, b: Instant): (r: nat)
    ensures r == 0 <==> a <= b
    ensures a > b ==> b + r == a
  {
    if a >= b then a - b else 0
  }

  const NanosPerMilli := 1_000_000

  /**
   * Coyote time: a player in the air who presses jump, is not already jumping and last stood
   * on something at most the coyote window ago (inclusive) jumps off the last normal it
   * stood on. A clock that went backwards counts as inside the window.
   */
  function CoyoteNormal(standing: Option<Vec2>, pressedJump: bool, isJumping: bool, lastStoodTime: Option<Instant>,
                        lastUpdate: Option<Instant>, lastStoodNormal: Vec2, coyoteTimeMs: nat): (r: Option<Vec2>)
    ensures standing.Some? ==> r == standing
    ensures standing.None? ==> (r.None? || r == Some(lastStoodNormal))
    ensures standing.None? ==> (r.Some? <==>
      pressedJump && !isJumping && lastStoodTime.Some? && lastUpdate.Some? &&
      lastUpdate.value <= lastStoodTime.value + coyoteTimeMs * NanosPerMilli)
  {
    if standing.None? && pressedJump && !isJumping then
      match (lastStoodTime, lastUpdate)
      case (Some(stood), Some(update)) =>
        if SaturatingSub(update, stood) <= coyoteTimeMs * NanosPerMilli then Some(lastStoodNormal) else standing
      case _ => standing
    else standing
  }

  function Abs(v: real): real { if v < 0.0 then -v else v }

  /** A vertical wall. */
  predicate IsWall(n: Vec2) { Abs(n.x) == 1.0 && n.y == 0.0 }

  /** Ground that points up enough to jump from. */
  predicate IsFloor(n: Vec2) { 0.0 < Dot(n, Up) && n.y > 0.001 }

  /** A wall or flat ground: touching one ends a jump. */
  predicate Grounds(n: Vec2) { Abs(n.x) == 1.0 || n.y == 1.0 }

  /** Holding a horizontal key against a wall. */
  predicate Grabs(normal: Option<Vec2>, sideHeld: bool) {
    normal.Some? && IsWall(normal.value) && sideHeld
  }

  /** Standing on a floor, and not grabbing a wall. */
  predicate Stands(normal: Option<Vec2>, sideHeld: bool) {
    normal.Some? && !Grabs(normal, sideHeld) && IsFloor(normal.value)
  }

  /**
   * The jump status classifier of `jump`. Its rules apply in order: grabbing a wall, then
   * standing on a floor, then rising or not, then falling.
   */
  function Classify(normal: Option<Vec2>, sideHeld: bool, jumpJustPressed: bool, jumpPressed: bool,
                    vy: real, rising: bool): (s: JumpStatus)
    ensures s == WallSliding <==> Grabs(normal, sideHeld) && !jumpJustPressed
    ensures s == InitiateJump <==>
      (Grabs(normal, sideHeld) && jumpJustPressed) || (Stands(normal, sideHeld) && jumpPressed)
    ensures s == CanJump <==> Stands(normal, sideHeld) && !jumpPressed
    ensures s == GoingUp <==>
      !Grabs(normal, sideHeld) && !Stands(normal, sideHeld) && 0.0 <= vy && jumpPressed && rising
    ensures s == StoppingUp <==>
      !Grabs(normal, sideHeld) && !Stands(normal, sideHeld) && 0.0 <= vy && !(jumpPressed && rising)
    ensures s == Falling <==> !Grabs(normal, sideHeld) && !Stands(normal, sideHeld) && vy < 0.0
  {
    if normal.Some? && IsWall(normal.value) && sideHeld then
      if jumpJustPressed then InitiateJump else WallSliding
    else if normal.Some? && IsFloor(normal.value) then
      if jumpPressed then InitiateJump else CanJump
    else if 0.0 <= vy then
      if jumpPressed && rising then GoingUp else StoppingUp
    else Falling
  }

  /**
   * No jumping in mid-air: a player already jumping that touches nothing gets no coyote
   * normal, so it can only go up, stop going up or fall.
   */
  lemma NoAirJump(contacts: seq<Contact>, self: Entity, p: Player, input: JumpInput, lastUpdate: Option<Instant>,
                  vy: real, coyoteTimeMs: nat)
    requires p.isJumping && AllNormals(contacts, self) == []
    ensures var n := JumpNormal(contacts, self, p, input, lastUpdate, coyoteTimeMs);
      Classify(n, input.left || input.right, input.jumpJustPressed, input.jumpPressed, vy, p.rising) in {GoingUp, StoppingUp, Falling}
  {
  }

  /**
   * A coyote jump: having stood on a floor within the window and pressed jump while in the
   * air and not jumping, the player jumps.
   */
  lemma CoyoteJump(contacts: seq<Contact>, self: Entity, p: Player, input: JumpInput, lastUpdate: Option<Instant>,
                   vy: real, coyoteTimeMs: nat)
    requires AllNormals(contacts, self) == [] && !p.isJumping && input.jumpPressed
    requires IsFloor(p.lastStoodNormal) && !IsWall(p.lastStoodNormal)
    requires p.lastStoodTime.Some? && lastUpdate.Some?
    requires lastUpdate.value <= p.lastStoodTime.value + coyoteTimeMs * NanosPerMilli
    ensures var n := JumpNormal(contacts, self, p, input, lastUpdate, coyoteTimeMs);
      Classify(n, input.left || input.right, input.jumpJustPressed, input.jumpPressed, vy, p.rising) == InitiateJump
  {
  }

  /** The keys the movement systems read for one player this frame. */
  datatype JumpInput = JumpInput(jumpPressed: bool, jumpJustPressed: bool, left: bool, right: bool)

  /** The normal `jump` classifies with: the standing normal, or the coyote substitute. */
  function JumpNormal(contacts: seq<Contact>, self: Entity, p: Player, input: JumpInput,
                      lastUpdate: Option<Instant>, coyoteTimeMs: nat): Option<Vec2>
  {
    CoyoteNormal(StandingNormal(contacts, self), input.jumpPressed, p.isJumping, p.lastStoodTime,
                 lastUpdate, p.lastStoodNormal, coyoteTimeMs)
  }

  /**
   * The player after `jump`: a wall or flat ground ends the jump and any normal is
   * remembered; then InitiateJump starts a jump, InitiateJump and GoingUp keep rising, every
   * other status stops it, and only WallSliding slides.
   */
  function JumpEffect(p: Player, n: Option<Vec2>, s: JumpStatus): (q: Player)
    ensures q.jumpStatus == s
    ensures q.rising <==> s == InitiateJump || s == GoingUp
    ensures q.isJumping <==> s == InitiateJump || (p.isJumping && !(n.Some? && Grounds(n.value)))
    ensures q.wallSliding <==> s == WallSliding
    ensures q.lastStoodNormal == (if n.Some? then n.value else p.lastStoodNormal)
    ensures q.dashing == p.dashing && q.facingDirection == p.facingDirection && q.lastStoodTime == p.lastStoodTime
  {
    StatusEffect(Landed(p, n), s)
  }

  /** The flag effects of each status, and the status stored. */
  function StatusEffect(p: Player, s: JumpStatus): (q: Player)
    ensures q.jumpStatus == s
    ensures q.rising <==> s == InitiateJump || s == GoingUp
    ensures q.isJumping <==> p.isJumping || s == InitiateJump
    ensures q.wallSliding <==> p.wallSliding || s == WallSliding
    ensures q.dashing == p.dashing && q.facingDirection == p.facingDirection
    ensures q.lastStoodTime == p.lastStoodTime && q.lastStoodNormal == p.lastStoodNormal
  {
    var after := match s
      case CanJump => p.(rising := false)
      case InitiateJump => p.(rising := true, isJumping := true)
      case GoingUp => p.(rising := true)
      case StoppingUp => p.(rising := false)
      case Falling => p.(rising := false)
      case WallSliding => p.(wallSliding := true, rising := false);
    after.(jumpStatus := s)
  }

  /** The player before classification: not sliding, no longer jumping once grounded, remembering the normal. */
  function Landed(p: Player, n: Option<Vec2>): (q: Player)
    ensures !q.wallSliding
    ensures q.isJumping <==> p.isJumping && !(n.Some? && Grounds(n.value))
    ensures n.Some? ==> q.lastStoodNormal == n.value
    ensures n.None? ==> q.lastStoodNormal == p.lastStoodNormal
    ensures q.rising == p.rising && q.jumpStatus == p.jumpStatus && q.dashing == p.dashing
    ensures q.facingDirection == p.facingDirection && q.lastStoodTime == p.lastStoodTime
  {
    p.(wallSliding := false,
       isJumping := if n.Some? && Grounds(n.value) then false else p.isJumping,
       lastStoodNormal := if n.Some? then n.value else p.lastStoodNormal)
  }

  /** The velocity change of each status. */
  function JumpVelocity(v: Vec2, s: JumpStatus, jumpPower: real, gravityY: real, settings: MovementSettings, dt: real): (r: Vec2)
    ensures r.x == v.x
    ensures s == CanJump || s == GoingUp ==> r == v
    ensures s == InitiateJump ==> r.y - v.y == jumpPower
    ensures s == StoppingUp ==> r.y - v.y == gravityY * settings.jumpBreakFactor * dt
    ensures s == Falling ==> r.y - v.y == gravityY * settings.fallFactor * dt
    ensures s == WallSliding ==> r.y == 0.0
  {
    match s
    case InitiateJump => Vec2(v.x, v.y + jumpPower)
    case StoppingUp => v.(y := v.y + gravityY * settings.jumpBreakFactor * dt)
    case Falling => v.(y := v.y + gravityY * settings.fallFactor * dt)
    case WallSliding => v.(y := 0.0)
    case _ => v
  }

  // ---------------------------------------------------------------------------
  // Dash

  /** The direction of a fresh horizontal tap, Left first. */
  function TapDirection(justLeft: bool, justRight: bool): (d: Direction)
    ensures d == Left <==> justLeft
    ensures d == Right <==> !justLeft && justRight
  {
    if justLeft then Left else if justRight then Right else Neutral
  }

  /** What the dash system does for a tap. */
  datatype DashOutcome =
    | Record   // first tap: remember its direction and open the window
    | Boost    // second tap the same way inside the window: dash
    | Restore  // a tap that is neither: gravity back to normal
    | Ignore   // no tap, or not on flat ground

  /** The dash decision: only a tap on flat ground (normal exactly up) counts. */
  function DashDecision(d: DashInput, dir: Direction, standing: Option<Vec2>): (o: DashOutcome)
    ensures o == Boost <==>
      standing == Some(Up) && dir != Neutral && !Finished(d.inputTimer) && dir == d.direction
    ensures o == Record <==> standing == Some(Up) && dir != Neutral && Finished(d.inputTimer)
    ensures o == Ignore <==> standing != Some(Up) || dir == Neutral
  {
    if standing == Some(Up) && dir != Neutral then
      if Finished(d.inputTimer) then Record
      else if dir == d.direction then Boost
      else Restore
    else Ignore
  }

  /** A tap's effect on the shared window: a first tap remembers its direction and reopens the window. */
  function RecordTap(d: DashInput, o: DashOutcome, dir: Direction): (r: DashInput)
    ensures r.inputTimer.duration == d.inputTimer.duration
    ensures o == Record ==> r.direction == dir && r.inputTimer.elapsed == 0
    ensures o != Record ==> r == d
  {
    if o == Record then DashInput(Reset(d.inputTimer), dir) else d
  }

  /** The end of the dash system, once per frame: the window ticks unless it is finished. */
  function TickWindow(d: DashInput, deltaMs: nat): (r: DashInput)
    ensures r.direction == d.direction && r.inputTimer == Tick(d.inputTimer, deltaMs)
    ensures Finished(r.inputTimer) <==> Finished(d.inputTimer) || d.inputTimer.elapsed + deltaMs >= d.inputTimer.duration
  {
    if Finished(d.inputTimer) then d else d.(inputTimer := Tick(d.inputTimer, deltaMs))
  }

  /** One player's input to the dash system: the standing normal and the fresh taps. */
  datatype Tap = Tap(standing: Option<Vec2>, justLeft: bool, justRight: bool)

  /** The dash decision for one player's tap against the window as it stands. */
  function TapOutcome(d: DashInput, t: Tap): DashOutcome {
    DashDecision(d, TapDirection(t.justLeft, t.justRight), t.standing)
  }

  /**
   * The shared window after the players' taps, in query order: each tap is decided
   * against the window as the players before it left it.
   */
  function RecordTaps(d: DashInput, taps: seq<Tap>): (r: DashInput)
    ensures r.inputTimer.duration == d.inputTimer.duration
    ensures r == d || r.inputTimer.elapsed == 0
    decreases |taps|
  {
    if taps == [] then d
    else
      var before := RecordTaps(d, taps[..|taps| - 1]);
      var t := taps[|taps| - 1];
      RecordTap(before, TapOutcome(before, t), TapDirection(t.justLeft, t.justRight))
  }

  /** The shared window after one frame of the dash system. */
  function DashFrame(d: DashInput, taps: seq<Tap>, deltaMs: nat): DashInput {
    TickWindow(RecordTaps(d, taps), deltaMs)
  }

  /** A tap that no window state can turn into a decision: no direction, or not on flat ground. */
  predicate Idle(t: Tap) {
    t.standing != Some(Up) || TapDirection(t.justLeft, t.justRight) == Neutral
  }

  /** A frame in which no player taps (or there are no players) only ticks the window, once. */
  lemma {:induction false} IdleTapsOnlyTick(d: DashInput, taps: seq<Tap>, deltaMs: nat)
    requires forall i :: 0 <= i < |taps| ==> Idle(taps[i])
    ensures RecordTaps(d, taps) == d
    ensures DashFrame(d, taps, deltaMs) == TickWindow(d, deltaMs)
    decreases |taps|
  {
    if taps != [] {
      IdleTapsOnlyTick(d, taps[..|taps| - 1], deltaMs);
      assert Idle(taps[|taps| - 1]);
    }
  }

  /** `n` frames without a tap: the window only ticks. */
  function IdleFrames(d: DashInput, deltaMs: nat, n: nat): DashInput
    decreases n
  {
    if n == 0 then d else IdleFrames(DashFrame(d, [], deltaMs), deltaMs, n - 1)
  }

  lemma {:induction false} IdleFramesTick(d: DashInput, deltaMs: nat, n: nat)
    ensures IdleFrames(d, deltaMs, n) == d.(inputTimer := TickN(d.inputTimer, deltaMs, n))
    decreases n
  {
    if n > 0 {
      var next := DashFrame(d, [], deltaMs);
      assert next == d.(inputTimer := Tick(d.inputTimer, deltaMs));
      IdleFramesTick(next, deltaMs, n - 1);
    }
  }

  /**
   * The double tap for a lone player: after a first tap on flat ground with the window
   * closed and `n` frames without a tap, a second tap the same way dashes exactly when the
   * `n + 1` frames since the first took less than the window's 200 ms.
   */
  lemma DoubleTapDashes(d: DashInput, dir: Direction, deltaMs: nat, n: nat)
    requires Finished(d.inputTimer) && d.inputTimer.duration == 200 && dir != Neutral
    ensures var tap := Tap(Some(Up), dir == Left, dir == Right);
      var later := IdleFrames(DashFrame(d, [tap], deltaMs), deltaMs, n);
      TapOutcome(later, tap) == Boost <==> (n + 1) * deltaMs < 200
  {
    var tap := Tap(Some(Up), dir == Left, dir == Right);
    assert [tap][..0] == [];
    assert TapDirection(tap.justLeft, tap.justRight) == dir;
    assert TapOutcome(d, tap) == Record;
    assert RecordTaps(d, [tap]) == DashInput(Timer(0, 200), dir);
    var first := DashFrame(d, [tap], deltaMs);
    assert first == DashInput(Tick(Timer(0, 200), deltaMs), dir);
    IdleFramesTick(first, deltaMs, n);
    TicksFinish(first.inputTimer, deltaMs, n);
  }

  /** What the dash system changes on one player entity. */
  datatype BodyState = BodyState(player: Player, linvel: Vec2, gravityScale: real)

  /**
   * One player's part of the dash system: act on the tap, then end a dash whose window (as
   * this tap left it) has closed.
   */
  function DashStep(s: BodyState, d: DashInput, t: Tap, settings: MovementSettings, dt: real): (r: BodyState)
    ensures var dir := TapDirection(t.justLeft, t.justRight);
      var o := TapOutcome(d, t);
      var window := RecordTap(d, o, dir).inputTimer;
      var boosted := o == Boost || s.player.dashing;
      && r.player == s.player.(dashing := boosted && !Finished(window))
      && r.linvel == (if o == Boost then RunVelocity(s.linvel, ToF32(dir) * settings.dashSpeed, dt) else s.linvel)
      && r.gravityScale == (
        if boosted && Finished(window) then settings.gravityScale
        else match o
          case Record => settings.gravityScale
          case Restore => settings.gravityScale
          case Boost => 0.0
          case Ignore => s.gravityScale)
  {
    var dir := TapDirection(t.justLeft, t.justRight);
    var o := TapOutcome(d, t);
    var acted := match o
      case Record => s.(gravityScale := settings.gravityScale)
      case Boost => BodyState(s.player.(dashing := true), RunVelocity(s.linvel, ToF32(dir) * settings.dashSpeed, dt), 0.0)
      case Restore => s.(gravityScale := settings.gravityScale)
      case Ignore => s;
    if Finished(RecordTap(d, o, dir).inputTimer) && acted.player.dashing then
      acted.(player := acted.player.(dashing := false), gravityScale := settings.gravityScale)
    else acted
  }

  // ---------------------------------------------------------------------------
  // Facing and run

  /** `set_facing_direction` as the code is written. */
  function FacingAsWritten(facing: Direction, leftPressed: bool, rightPressed: bool): (d: Direction)
    ensures !leftPressed && !rightPressed ==> d == facing
    ensures leftPressed && !rightPressed ==> d == Left
    ensures !leftPressed && rightPressed ==> d == Right
    ensures leftPressed && rightPressed ==> d == (if facing == Left then Right else Left)
  {
    if leftPressed && facing != Left then Left
    else if rightPressed && facing != Right then Right
    else facing
  }

  /**
   * With both keys held, the written facing flips every frame: a player facing left turns
   * right, and then back.
   */
  lemma FacingFlickers()
    ensures FacingAsWritten(Left, true, true) == Right
    ensures FacingAsWritten(FacingAsWritten(Left, true, true), true, true) == Left
  {
  }

  /** The intended facing: Left first, then Right, else unchanged. */
  function Facing(facing: Direction, leftPressed: bool, rightPressed: bool): (d: Direction)
    ensures leftPressed ==> d == Left
    ensures !leftPressed && rightPressed ==> d == Right
    ensures !leftPressed && !rightPressed ==> d == facing
  {
    if leftPressed then Left else if rightPressed then Right else facing
  }

  /** `run`'s target speed sign: Left first, then Right, else stop. */
  function RunTarget(leftPressed: bool, rightPressed: bool): (t: real)
    ensures t == -1.0 <==> leftPressed
    ensures t == 1.0 <==> !leftPressed && rightPressed
    ensures t == 0.0 <==> !leftPressed && !rightPressed
  {
    if leftPressed then -1.0 else if rightPressed then 1.0 else 0.0
  }

  /**
   * The intended facing agrees with where the player runs whenever a key is held, and holding
   * the keys keeps it steady; the written facing does neither when both are held.
   */
  lemma FacingMatchesRun(facing: Direction, leftPressed: bool, rightPressed: bool)
    ensures leftPressed || rightPressed ==> ToF32(Facing(facing, leftPressed, rightPressed)) == RunTarget(leftPressed, rightPressed)
    ensures Facing(Facing(facing, leftPressed, rightPressed), leftPressed, rightPressed) == Facing(facing, leftPressed, rightPressed)
  {
  }

  /** `get_run_velocity`: the horizontal speed moves a fraction `10 * dt` of the way to the target, the vertical one is kept. */
  function RunVelocity(v: Vec2, speed: real, dt: real): (r: Vec2)
    ensures r.y == v.y
    ensures r.x - speed == (v.x - speed) * (1.0 - 10.0 * dt)
  {
    var t := 10.0 * dt;
    Vec2(v.x + (speed - v.x) * t, v.y + (v.y - v.y) * t)
  }

  // ---------------------------------------------------------------------------
  // The player entity the systems update

  /** A player entity: its `Player` component, its velocity and its gravity scale. */
  class PlayerBody {
    var player: Player
    var linvel: Vec2
    var gravityScale: real

    /** A freshly spawned player: default component, at rest, unit gravity. */
    constructor()
      ensures player == DefaultPlayer() && linvel == Vec2(0.0, 0.0) && gravityScale == 1.0
    {
      player := DefaultPlayer();
      linvel := Vec2(0.0, 0.0);
      gravityScale := 1.0;
    }

    /** `check_standing`: standing on something stamps the frame's time. */
    method CheckStanding(contacts: seq<Contact>, self: Entity, lastUpdate: Option<Instant>)
      modifies this
      ensures StandingNormal(contacts, self).Some? ==> player == old(player).(lastStoodTime := lastUpdate)
      ensures StandingNormal(contacts, self).None? ==> player == old(player)
      ensures linvel == old(linvel) && gravityScale == old(gravityScale)
    {
      if StandingNormal(contacts, self).Some? {
        player := player.(lastStoodTime := lastUpdate);
      }
    }

    /** `set_facing_direction`, as written (see `Facing` for the intended rule). */
    method SetFacingDirection(leftPressed: bool, rightPressed: bool)
      modifies this
      ensures player == old(player).(facingDirection := FacingAsWritten(old(player.facingDirection), leftPressed, rightPressed))
      ensures linvel == old(linvel) && gravityScale == old(gravityScale)
    {
      if leftPressed && player.facingDirection != Left {
        player := player.(facingDirection := Left);
      } else if rightPressed && player.facingDirection != Right {
        player := player.(facingDirection := Right);
      }
    }

    /**
     * `jump` for this player: find the normal (with coyote time), end a jump on touching
     * ground or a wall, remember the normal, classify, then apply the status's effects.
     */
    method Jump(contacts: seq<Contact>, self: Entity, input: JumpInput, lastUpdate: Option<Instant>,
                gravityY: real, settings: MovementSettings, dt: real)
      returns (status: JumpStatus)
      modifies this
      ensures var n := JumpNormal(contacts, self, old(player), input, lastUpdate, settings.coyoteTimeMs);
        && status == Classify(n, input.left || input.right, input.jumpJustPressed, input.jumpPressed, old(linvel.y), old(player.rising))
        && player == JumpEffect(old(player), n, status)
      ensures linvel == JumpVelocity(old(linvel), status, settings.jumpPowerCoefficient, gravityY, settings, dt)
      ensures gravityScale == old(gravityScale)
    {
      var normal := JumpNormal(contacts, self, player, input, lastUpdate, settings.coyoteTimeMs);
      player := player.(wallSliding := false);
      if normal.Some? && Grounds(normal.value) {
        player := player.(isJumping := false);
      }
      if normal.Some? {
        player := player.(lastStoodNormal := normal.value);
      }
      status := Classify(normal, input.left || input.right, input.jumpJustPressed, input.jumpPressed, linvel.y, player.rising);
      ApplyStatus(status, gravityY, settings, dt);
    }

    /** The effects of the classified status on the flags and the vertical speed. */
    method ApplyStatus(status: JumpStatus, gravityY: real, settings: MovementSettings, dt: real)
      modifies this
      ensures player == StatusEffect(old(player), status)
      ensures linvel == JumpVelocity(old(linvel), status, settings.jumpPowerCoefficient, gravityY, settings, dt)
      ensures gravityScale == old(gravityScale)
    {
      match status {
        case CanJump =>
          player := player.(rising := false);
        case InitiateJump =>
          linvel := Vec2(linvel.x, linvel.y + settings.jumpPowerCoefficient);
          player := player.(rising := true, isJumping := true);
        case GoingUp =>
          player := player.(rising := true);
        case StoppingUp =>
          linvel := linvel.(y := linvel.y + gravityY * settings.jumpBreakFactor * dt);
          player := player.(rising := false);
        case Falling =>
          linvel := linvel.(y := linvel.y + gravityY * settings.fallFactor * dt);
          player := player.(rising := false);
        case WallSliding =>
          player := player.(wallSliding := true, rising := false);
          linvel := linvel.(y := 0.0);
      }
      player := player.(jumpStatus := status);
    }

    /** `State` of this entity, as the dash system sees it. */
    function State(): BodyState
      reads this
    {
      BodyState(player, linvel, gravityScale)
    }

    /**
     * One iteration of `dash`'s query loop, with the shared tap detector: decide on the tap,
     * then end a dash whose window has closed. The window ticks after the loop (`DashSystem`).
     */
    method Dash(tap: Tap, dashInput: DashInput, settings: MovementSettings, dt: real)
      returns (next: DashInput)
      modifies this
      ensures next == RecordTap(dashInput, TapOutcome(dashInput, tap), TapDirection(tap.justLeft, tap.justRight))
      ensures State() == DashStep(old(State()), dashInput, tap, settings, dt)
    {
      var dir := TapDirection(tap.justLeft, tap.justRight);
      next := dashInput;
      if tap.standing == Some(Up) && (dir == Left || dir == Right) {
        if Finished(next.inputTimer) {
          next := DashInput(Reset(next.inputTimer), dir);
          gravityScale := settings.gravityScale;
        } else if !Finished(next.inputTimer) && dir == next.direction {
          linvel := RunVelocity(linvel, ToF32(dir) * settings.dashSpeed, dt);
          player := player.(dashing := true);
          gravityScale := 0.0;
        } else {
          gravityScale := settings.gravityScale;
        }
      }
      if Finished(next.inputTimer) && player.dashing {
        player := player.(dashing := false);
        gravityScale := settings.gravityScale;
      }
    }

    /** `run`: steer the horizontal speed toward the run target. */
    method Run(leftPressed: bool, rightPressed: bool, settings: MovementSettings, dt: real)
      modifies this
      ensures linvel == RunVelocity(old(linvel), RunTarget(leftPressed, rightPressed) * settings.runSpeed, dt)
      ensures player == old(player) && gravityScale == old(gravityScale)
    {
      linvel := RunVelocity(linvel, RunTarget(leftPressed, rightPressed) * settings.runSpeed, dt);
    }
  }

  /**
   * `dash`: every player entity, in query order, acts on its tap against the shared window as
   * the players before it left it; after the loop the window ticks once.
   */
  method DashSystem(bodies: seq<PlayerBody>, taps: seq<Tap>, dashInput: DashInput,
                    settings: MovementSettings, dt: real, deltaMs: nat)
    returns (next: DashInput)
    requires |taps| == |bodies|
    requires forall i, j :: 0 <= i < j < |bodies| ==> bodies[i] != bodies[j]
    modifies set b | b in bodies
    ensures next == DashFrame(dashInput, taps, deltaMs)
    ensures forall i :: 0 <= i < |bodies| ==>
      bodies[i].State() == DashStep(old(bodies[i].State()), RecordTaps(dashInput, taps[..i]), taps[i], settings, dt)
  {
    next := dashInput;
    for i := 0 to |bodies|
      invariant next == RecordTaps(dashInput, taps[..i])
      invariant forall j :: 0 <= j < i ==>
        bodies[j].State() == DashStep(old(bodies[j].State()), RecordTaps(dashInput, taps[..j]), taps[j], settings, dt)
      invariant forall j :: i <= j < |bodies| ==> bodies[j].State() == old(bodies[j].State())
    {
      assert taps[..i + 1][..i] == taps[..i];
      next := bodies[i].Dash(taps[i], next, settings, dt);
    }
    assert taps[..|taps|] == taps;
    if !Finished(next.inputTimer) {
      next := next.(inputTimer := Tick(next.inputTimer, deltaMs));
    }
  }
}
