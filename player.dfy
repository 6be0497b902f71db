/**
 * The player's data model: facing direction and its float conversions, health built from a
 * level entity, the jump status, the player component and its defaults, and the dash input
 * with its one-shot timer.
 */
module Player {
  import opened Wrappers
  import opened Vectors

  type u32 = x: int | 0 <= x < 0x1_0000_0000
  type i32 = x: int | -0x8000_0000 <= x < 0x8000_0000

  // ---------------------------------------------------------------------------
  // Direction

  /** `Direction`, with discriminants Left = -1, Neutral = 0, Right = 1. */
  datatype Direction = Left | Neutral | Right

  /** `Direction::to_f32`: the sign of horizontal motion. */
  function ToF32(d: Direction): (v: real)
    ensures -1.0 <= v <= 1.0
    ensures v < 0.0 <==> d == Left
    ensures v > 0.0 <==> d == Right
    ensures v == v.Floor as real
  {
    match d
    case Left => -1.0
    case Right => 1.0
    case Neutral => 0.0
  }

  /** `Direction::default`: standing still. */
  function DefaultDirection(): (d: Direction)
    ensures ToF32(d) == 0.0
  {
    Neutral
  }

  /** Rust's `v as isize` on a finite value: truncation toward zero. */
  function Truncate(v: real): (n: int)
    ensures v >= 0.0 ==> n as real <= v < n as real + 1.0
    ensures v < 0.0 ==> n as real - 1.0 < v <= n as real
  {
    if v >= 0.0 then v.Floor else -((-v).Floor)
  }

  /**
   * `Direction::try_from(f32)`: the truncated value -1, 0 or 1 names a direction, any other
   * integer is an error. So every value in (-2, 2) gives a direction.
   */
  function TryFromF32(v: real): (r: Result<Direction, ()>)
    ensures r == Ok(Left) <==> -2.0 < v <= -1.0
    ensures r == Ok(Neutral) <==> -1.0 < v < 1.0
    ensures r == Ok(Right) <==> 1.0 <= v < 2.0
    ensures r.Err? <==> v <= -2.0 || 2.0 <= v
  {
    match Truncate(v)
    case -1 => Ok(Left)
    case 1 => Ok(Right)
    case 0 => Ok(Neutral)
    case _ => Err(())
  }

  /** Converting a direction to a float and back gives the same direction. */
  lemma TryFromToF32(d: Direction)
    ensures TryFromF32(ToF32(d)) == Ok(d)
  {
  }

  // ---------------------------------------------------------------------------
  // Health

  datatype Health = Health(current: u32, max: u32)

  /** `Health::new`: a full health bar. */
  function NewHealth(hp: u32): (h: Health)
    ensures h.current == h.max == hp
  {
    Health(hp, hp)
  }

  /** The LDtk field values that matter here; every other kind is `Other`. */
  datatype FieldValue = Int(number: Option<i32>) | Other

  datatype FieldInstance = FieldInstance(identifier: string, value: FieldValue)

  /** The three ways building `Health` from an entity panics. */
  datatype HealthError = MissingHp | ZeroHp | WrongHpType(value: FieldValue)

  /** The index of the first field called `name` (Rust's `iter().find`). */
  function FindField(fields: seq<FieldInstance>, name: string): (r: Option<nat>)
    ensures r.Some? ==> r.value < |fields| && fields[r.value].identifier == name
    ensures r.Some? ==> forall i :: 0 <= i < r.value ==> fields[i].identifier != name
    ensures r.None? ==> forall i :: 0 <= i < |fields| ==> fields[i].identifier != name
    decreases |fields|
  {
    if fields == [] then None
    else if fields[0].identifier == name then Some(0)
    else match FindField(fields[1..], name)
      case None => None
      case Some(i) => Some(i + 1)
  }

  /**
   * `Health::from(EntityInstance)`: the first "HP" field must hold a positive integer, which
   * becomes both the current and the maximum health.
   */
  function HealthFromEntity(fields: seq<FieldInstance>): (r: Result<Health, HealthError>)
    ensures r.Ok? <==> exists i :: 0 <= i < |fields| && FirstHp(fields, i) && PositiveHp(fields[i].value)
    ensures forall i :: 0 <= i < |fields| && FirstHp(fields, i) && PositiveHp(fields[i].value) ==>
      r == Ok(NewHealth(fields[i].value.number.value as u32))
    ensures r == Err(MissingHp) <==> forall i :: 0 <= i < |fields| ==> fields[i].identifier != "HP"
    ensures forall i :: 0 <= i < |fields| && FirstHp(fields, i) && fields[i].value == Int(Some(0)) ==>
      r == Err(ZeroHp)
    ensures forall i :: 0 <= i < |fields| && FirstHp(fields, i) && !PositiveHp(fields[i].value) && fields[i].value != Int(Some(0)) ==>
      r == Err(WrongHpType(fields[i].value))
  {
    match FindField(fields, "HP")
    case None => Err(MissingHp)
    case Some(i) =>
      match fields[i].value
      case Int(Some(hp)) =>
        if hp > 0 then Ok(NewHealth(hp as u32))
        else if hp == 0 then Err(ZeroHp)
        else Err(WrongHpType(fields[i].value))
      case _ => Err(WrongHpType(fields[i].value))
  }

  /** Field `i` is the first one called "HP". */
  predicate FirstHp(fields: seq<FieldInstance>, i: nat)
    requires i < |fields|
  {
    fields[i].identifier == "HP" && forall k :: 0 <= k < i ==> fields[k].identifier != "HP"
  }

  predicate PositiveHp(v: FieldValue) {
    v.Int? && v.number.Some? && v.number.value > 0
  }

  // ---------------------------------------------------------------------------
  // Jump status and the player component

  datatype JumpStatus = CanJump | InitiateJump | GoingUp | StoppingUp | Falling | WallSliding

  /** An `Instant`, as nanoseconds on a monotonic clock. */
  type Instant = int

  datatype Player = Player(
    dashing: bool,
    facingDirection: Direction,
    rising: bool,
    isJumping: bool,
    wallSliding: bool,
    lastStoodNormal: Vec2,
    lastStoodTime: Option<Instant>,
    jumpStatus: JumpStatus)

  /** `Player::default`: at rest on the ground, facing right, never having stood anywhere. */
  function DefaultPlayer(): (p: Player)
    ensures !p.dashing && !p.rising && !p.isJumping && !p.wallSliding
    ensures p.facingDirection == Right
    ensures p.lastStoodNormal == Up && p.lastStoodTime == None
    ensures p.jumpStatus == CanJump
  {
    Player(false, Right, false, false, false, Up, None, CanJump)
  }

  /** The tuning constants of `PlayerMovementSettings` that the movement systems read. */
  datatype MovementSettings = MovementSettings(
    runSpeed: real,
    dashSpeed: real,
    jumpPowerCoefficient: real,
    coyoteTimeMs: nat,
    slideFactor: real,
    fallFactor: real,
    jumpBreakFactor: real,
    gravityScale: real)

  /** The settings the player plugin installs. */
  const Settings := MovementSettings(500.0, 10000.0, 20000.0, 100, 60.0, 100.0, 200.0, 5.0)

  // ---------------------------------------------------------------------------
  // Timer and dash input

  /** A one-shot engine timer, in milliseconds. */
  datatype Timer = Timer(elapsed: nat, duration: nat)

  predicate Finished(t: Timer) {
    t.elapsed >= t.duration
  }

  /** `Timer::reset`: back to zero elapsed time. */
  function Reset(t: Timer): (r: Timer)
    ensures r.duration == t.duration
    ensures Finished(r) <==> t.duration == 0
  {
    t.(elapsed := 0)
  }

  /** `Timer::tick` on a one-shot timer: time advances but stops at the duration. */
  function Tick(t: Timer, delta: nat): (r: Timer)
    ensures r.duration == t.duration
    ensures t.elapsed <= t.duration ==> t.elapsed <= r.elapsed <= t.duration
    ensures Finished(r) <==> Finished(t) || t.elapsed + delta >= t.duration
  {
    if t.elapsed >= t.duration then t
    else t.(elapsed := if t.elapsed + delta >= t.duration then t.duration else t.elapsed + delta)
  }

  /** `n` ticks of `delta` finish an in-range timer exactly when they cover the time that is left. */
  lemma {:induction false} TicksFinish(t: Timer, delta: nat, n: nat)
    requires t.elapsed <= t.duration
    ensures Finished(TickN(t, delta, n)) <==> t.elapsed + n * delta >= t.duration
    decreases n
  {
    if n > 0 {
      TicksFinish(Tick(t, delta), delta, n - 1);
      if Tick(t, delta).elapsed == t.duration {
        assert Finished(Tick(t, delta));
      }
    }
  }

  function TickN(t: Timer, delta: nat, n: nat): Timer
    decreases n
  {
    if n == 0 then t else TickN(Tick(t, delta), delta, n - 1)
  }

  /** The dash detector's state: a 200 ms window and the direction of the first tap. */
  datatype DashInput = DashInput(inputTimer: Timer, direction: Direction)

  /** `DashInput::default`: a fresh, unfinished 200 ms window, with no tap recorded. */
  function DefaultDashInput(): (d: DashInput)
    ensures d.inputTimer == Timer(0, 200) && !Finished(d.inputTimer)
    ensures d.direction == DefaultDirection()
  {
    DashInput(Timer(0, 200), Neutral)
  }
}
