/** From stick to motor: the drive arithmetic of rccar_drive.c, rccar_motor.c and my_platform.c. The
    functions compute over unbounded integers; the methods over 32-bit ones, where Dafny checks every
    operation for overflow. */
module Drive {
  import opened Options

  newtype int32 = x: int | -0x8000_0000 <= x < 0x8000_0000

  const AXIS_DEADZONE := 60

  function Abs(x: int): nat { if x < 0 then -x else x }

  function Max(a: int, b: int): int { if a > b then a else b }

  /** Division as C does it: towards zero. */
  function Quotient(a: int, b: int): int
    requires b > 0
  {
    if a < 0 then -(-a / b) else a / b
  }

  /** clamp_axis. */
  function Clamp(v: int): int { if v > 511 then 511 else if v < -512 then -512 else v }

  function Deadzone(v: int, deadzone: int): int { if Abs(v) <= deadzone then 0 else v }

  // Snapping to the diagonals.

  function Gate(deadzone: int): int { if 0 < deadzone < 48 then deadzone else 48 }

  predicate InCone(ax: int, ay: int, tanLo: int, tanHi: int) {
    ay * 1000 >= ax * tanLo && ay * 1000 <= ax * tanHi
  }

  predicate Snaps(vx: int, vy: int, deadzone: int, tanLo: int, tanHi: int) {
    && Abs(vx) >= Gate(deadzone) && Abs(vy) >= Gate(deadzone) && Max(Abs(vx), Abs(vy)) > deadzone
    && InCone(Abs(vx), Abs(vy), tanLo, tanHi)
  }

  function WithSign(v: int, mag: int): int { if v < 0 then -mag else mag }

  /** snap_diagonal_cone. */
  function Snap(vx: int, vy: int, deadzone: int, tanLo: int, tanHi: int): (int, int) {
    var mag := Max(Abs(vx), Abs(vy));
    if Snaps(vx, vy, deadzone, tanLo, tanHi) then (WithSign(vx, mag), WithSign(vy, mag))
    else (Deadzone(vx, deadzone), Deadzone(vy, deadzone))
  }

  /** The cones contain the diagonals. */
  predicate Cone(tanLo: int, tanHi: int) { 0 <= tanLo <= 1000 <= tanHi }

  lemma Diagonal(mag: int, tanLo: int, tanHi: int)
    requires Cone(tanLo, tanHi) && mag >= 0
    ensures InCone(mag, mag, tanLo, tanHi)
  {
    assert mag * tanLo <= mag * 1000 <= mag * tanHi;
  }

  /** Snapping what is snapped changes nothing. */
  lemma SnapTwice(vx: int, vy: int, deadzone: int, tanLo: int, tanHi: int)
    requires Cone(tanLo, tanHi)
    ensures var (x, y) := Snap(vx, vy, deadzone, tanLo, tanHi); Snap(x, y, deadzone, tanLo, tanHi) == (x, y)
  {
    Diagonal(Max(Abs(vx), Abs(vy)), tanLo, tanHi);
    hide InCone;
  }

  /** Snapping keeps or removes the direction of each axis and never exceeds the larger of the two; a
      snapped stick moves both axes alike. */
  lemma SnapBounds(vx: int, vy: int, deadzone: int, tanLo: int, tanHi: int)
    ensures var (x, y) := Snap(vx, vy, deadzone, tanLo, tanHi);
            && Abs(x) <= Max(Abs(vx), Abs(vy)) && Abs(y) <= Max(Abs(vx), Abs(vy))
            && (vx > 0 ==> x >= 0) && (vx < 0 ==> x <= 0) && (vy > 0 ==> y >= 0) && (vy < 0 ==> y <= 0)
            && (Snaps(vx, vy, deadzone, tanLo, tanHi) ==> Abs(x) == Abs(y) == Max(Abs(vx), Abs(vy)))
            && ((x == 0 && y == 0) <==> (Abs(vx) <= deadzone || vx == 0) && (Abs(vy) <= deadzone || vy == 0))
  {
    hide InCone;
  }

  lemma SnapWithin(vx: int, vy: int, deadzone: int, tanLo: int, tanHi: int, bound: nat)
    requires Abs(vx) <= bound && Abs(vy) <= bound
    ensures var (x, y) := Snap(vx, vy, deadzone, tanLo, tanHi); Abs(x) <= bound && Abs(y) <= bound
  {
    SnapBounds(vx, vy, deadzone, tanLo, tanHi);
    hide Snap, Snaps;
  }

  // The mecanum mix.

  datatype Wheels = Wheels(fl: int, fr: int, rl: int, rr: int)

  function Raw(vx: int, vy: int, w: int): Wheels {
    Wheels(vx + vy + w, vx - vy - w, vx - vy + w, vx + vy - w)
  }

  /** The four wheels give each of the three motions back. */
  lemma RawMotion(vx: int, vy: int, w: int)
    ensures var r := Raw(vx, vy, w);
            && r.fl + r.fr + r.rl + r.rr == 4 * vx
            && r.fl - r.fr - r.rl + r.rr == 4 * vy
            && r.fl - r.fr + r.rl - r.rr == 4 * w
  {}

  function Peak(r: Wheels): nat {
    Max(Max(Max(Abs(r.fl), Abs(r.fr)), Abs(r.rl)), Abs(r.rr))
  }

  lemma LargerSum(a: int, b: int)
    ensures Max(Abs(a + b), Abs(a - b)) == Abs(a) + Abs(b)
  {}

  /** The fastest of them has all three motions added up. */
  lemma PeakIsSum(vx: int, vy: int, w: int)
    ensures Peak(Raw(vx, vy, w)) == Abs(vx) + Abs(vy) + Abs(w)
  {
    LargerSum(vx, vy + w);
    LargerSum(vx, vy - w);
    LargerSum(vy, w);
    assert vx + (vy - w) == vx + vy - w && vx - (vy - w) == vx - vy + w;
    hide Abs;
  }

  function Scaled(v: int, m: int): int
    requires m > 0
  {
    Quotient(v * 512, m)
  }

  /** rccar_drive_mix. */
  function Mix(vx: int, vy: int, w: int): Wheels {
    var r := Raw(vx, vy, w);
    var m := Peak(r);
    if m > 512 then Wheels(Scaled(r.fl, m), Scaled(r.fr, m), Scaled(r.rl, m), Scaled(r.rr, m)) else r
  }

  /** out is v scaled by 512 / m: less than one unit away from it, never beyond zero. */
  predicate Proportional(v: int, m: int, out: int) {
    && -m < v * 512 - out * m < m
    && (v >= 0 ==> out >= 0) && (v <= 0 ==> out <= 0)
  }

  lemma ScaleUp(a: int, b: int, p: nat)
    requires a <= b
    ensures a * p <= b * p
  {}

  lemma Cancel(q: int, k: int, m: nat)
    requires q * m < k * m
    ensures q < k
  {
    if k <= q {
      ScaleUp(k, q, m);
    }
  }

  lemma Division(n: nat, b: nat)
    requires b > 0
    ensures n / b * b <= n < n / b * b + b && n / b >= 0
  {}

  lemma QuotientClose(a: int, b: int)
    requires b > 0
    ensures -b < a - Quotient(a, b) * b < b
    ensures a >= 0 ==> Quotient(a, b) >= 0
    ensures a <= 0 ==> Quotient(a, b) <= 0
  {
    if a < 0 {
      var q := -a / b;
      Division(-a, b);
      assert (-q) * b == -(q * b);
    } else {
      Division(a, b);
      assert a == 0 ==> a / b == 0;
    }
  }

  lemma WholeQuotient(m: int)
    requires m > 0
    ensures Quotient(m * 512, m) == 512 && Quotient(-m * 512, m) == -512
  {
    Division(m * 512, m);
    var q := m * 512 / m;
    Cancel(q, 513, m);
    Cancel(511, q, m);
  }

  lemma ScaledBound(v: int, m: int)
    requires m > 0 && -m <= v <= m
    ensures Proportional(v, m, Scaled(v, m)) && Abs(Scaled(v, m)) <= 512
    ensures Abs(v) == m ==> Abs(Scaled(v, m)) == 512
  {
    QuotientClose(v * 512, m);
    WholeQuotient(m);
    hide Quotient;
    var q := Scaled(v, m);
    Cancel(q, 513, m);
    Cancel(-513, q, m);
  }

  /** The mix: within the range it is the sum of the three motions; beyond it the fastest wheel is brought
      to exactly 512 and the others in proportion. */
  lemma MixResult(vx: int, vy: int, w: int)
    ensures var r, m, out := Raw(vx, vy, w), Peak(Raw(vx, vy, w)), Mix(vx, vy, w);
            && (m <= 512 ==> out == r)
            && Peak(out) == Max(0, if m <= 512 then m else 512)
            && (m > 512 ==> Proportional(r.fl, m, out.fl) && Proportional(r.fr, m, out.fr)
                            && Proportional(r.rl, m, out.rl) && Proportional(r.rr, m, out.rr))
  {
    var r, m := Raw(vx, vy, w), Peak(Raw(vx, vy, w));
    assert Abs(r.fl) <= m && Abs(r.fr) <= m && Abs(r.rl) <= m && Abs(r.rr) <= m;
    assert Abs(r.fl) == m || Abs(r.fr) == m || Abs(r.rl) == m || Abs(r.rr) == m;
    if m > 512 {
      hide Raw, Scaled, Proportional;
      ScaledBound(r.fl, m);
      ScaledBound(r.fr, m);
      ScaledBound(r.rl, m);
      ScaledBound(r.rr, m);
    }
  }

  // Minimum speed and duty.

  const WHEEL_MIN_SPEED := 448
  const PERIOD_TICKS := 50

  /** apply_min_speed. */
  function MinSpeed(v: int): int {
    if v == 0 then 0
    else if v > 0 then (if v < WHEEL_MIN_SPEED then WHEEL_MIN_SPEED else v)
    else (if v > -WHEEL_MIN_SPEED then -WHEEL_MIN_SPEED else v)
  }

  /** Compare value for a speed, multiplied in 32 bits without sign. */
  function Ticks(speed: nat): nat {
    var t := speed * PERIOD_TICKS % 0x1_0000_0000 / 512;
    if t > PERIOD_TICKS then PERIOD_TICKS else t
  }

  /** set_motor_duty: the compare values of the two channels. */
  function Duty(speed: int): (nat, nat) {
    if speed > 0 then (Ticks(speed), 0) else if speed < 0 then (0, Ticks(-speed)) else (0, 0)
  }

  /** What a wheel asked for v should get: one channel at most, by the sign, off or from 43 to 50 of 50
      ticks. */
  predicate Drives(v: int, duty: (nat, nat)) {
    if v == 0 then duty == (0, 0)
    else if v > 0 then 43 <= duty.0 <= 50 && duty.1 == 0
    else duty.0 == 0 && 43 <= duty.1 <= 50
  }

  /** A wheel gets what it should exactly if the product does not wrap around below 43 ticks. */
  lemma WheelDuty(v: int)
    ensures Drives(v, Duty(MinSpeed(v)))
       <==> v == 0 || Abs(MinSpeed(v)) * PERIOD_TICKS % 0x1_0000_0000 >= 43 * 512
  {
    if v != 0 {
      TicksFrom(Abs(MinSpeed(v)), 43);
    }
    hide Ticks;
  }

  lemma TicksFrom(s: nat, k: nat)
    requires k <= PERIOD_TICKS
    ensures Ticks(s) <= PERIOD_TICKS && (Ticks(s) >= k <==> s * PERIOD_TICKS % 0x1_0000_0000 >= k * 512)
  {
    var p := s * PERIOD_TICKS % 0x1_0000_0000;
    Division(p, 512);
  }

  /** The least command that wraps around, 2^32 divided by 50 and rounded up. */
  const WRAPS := 85899346

  /** Every command below it drives its wheel; it leaves the wheel standing. */
  lemma DutyWraps(v: int)
    ensures Abs(v) < WRAPS ==> Drives(v, Duty(MinSpeed(v)))
    ensures !Drives(WRAPS, Duty(MinSpeed(WRAPS))) && Duty(MinSpeed(WRAPS)) == (0, 0)
  {
    WheelDuty(v);
    if Abs(v) < WRAPS {
      var s := Abs(MinSpeed(v));
      assert v != 0 ==> 448 <= s < WRAPS;
      assert s * PERIOD_TICKS < 0x1_0000_0000;
      Unwrapped(s * PERIOD_TICKS);
    }
    hide Ticks;
  }

  lemma Unwrapped(p: nat)
    requires p < 0x1_0000_0000
    ensures p % 0x1_0000_0000 == p
  {}

  /** The compare registers of the four wheels, channel a and channel b of each in turn. */
  method WheelSet(registers: array<nat>, vals: seq<int>)
    requires registers.Length == 8 && |vals| == 4
    modifies registers
    ensures forall i :: 0 <= i < 4 ==> (registers[2 * i], registers[2 * i + 1]) == Duty(MinSpeed(vals[i]))
    ensures (forall i :: 0 <= i < 4 ==> Abs(vals[i]) < WRAPS) ==>
              forall i :: 0 <= i < 4 ==> Drives(vals[i], (registers[2 * i], registers[2 * i + 1]))
  {
    forall i | 0 <= i < 4
      ensures Abs(vals[i]) < WRAPS ==> Drives(vals[i], Duty(MinSpeed(vals[i])))
    {
      DutyWraps(vals[i]);
    }
    hide Duty, MinSpeed, Drives;
    for i := 0 to 4
      invariant forall k :: 0 <= k < i ==> (registers[2 * k], registers[2 * k + 1]) == Duty(MinSpeed(vals[k]))
    {
      var (ticksA, ticksB) := Duty(MinSpeed(vals[i]));
      registers[2 * i] := ticksA;
      registers[2 * i + 1] := ticksB;
    }
  }

  // From the sticks of a pad to its wheels.

  datatype Sticks = Sticks(x: int, y: int, rx: int, ry: int)

  function GamepadMotion(p: Sticks): (int, int, int) {
    var (rvx, rvy) := Snap(-Clamp(p.ry), Clamp(p.rx), AXIS_DEADZONE, 364, 2747);
    (rvx - Deadzone(Clamp(p.y), AXIS_DEADZONE), rvy, Deadzone(Clamp(p.x), AXIS_DEADZONE))
  }

  function GamepadWheels(p: Sticks): Wheels {
    var (vx, vy, w) := GamepadMotion(p);
    Mix(vx, vy, w)
  }

  /** The sticks rest: both, on both axes, within the dead zone. */
  predicate AtRest(p: Sticks) {
    && Abs(Clamp(p.x)) <= AXIS_DEADZONE && Abs(Clamp(p.y)) <= AXIS_DEADZONE
    && Abs(Clamp(p.rx)) <= AXIS_DEADZONE && Abs(Clamp(p.ry)) <= AXIS_DEADZONE
  }

  /** Whatever the sticks read, no wheel is asked for more than 512; at rest all stand. */
  lemma GamepadBounds(p: Sticks)
    ensures Peak(GamepadWheels(p)) <= 512
    ensures AtRest(p) ==> GamepadWheels(p) == Wheels(0, 0, 0, 0)
  {
    var (vx, vy, w) := GamepadMotion(p);
    MixResult(vx, vy, w);
    SnapBounds(-Clamp(p.ry), Clamp(p.rx), AXIS_DEADZONE, 364, 2747);
    hide Snap, Scaled;
  }

  /** One stick on one axis: up drives forward, the left one aside turns, the right one aside strafes. */
  lemma StickDirections(v: int)
    requires Abs(Clamp(v)) > AXIS_DEADZONE
    ensures var c := Clamp(v);
            && GamepadWheels(Sticks(0, v, 0, 0)) == Wheels(-c, -c, -c, -c)
            && GamepadWheels(Sticks(0, 0, 0, v)) == Wheels(-c, -c, -c, -c)
            && GamepadWheels(Sticks(v, 0, 0, 0)) == Wheels(c, -c, c, -c)
            && GamepadWheels(Sticks(0, 0, v, 0)) == Wheels(c, -c, -c, c)
  {
    hide Scaled;
  }

  // From the balance board to the wheels.

  function BoardMotion(y: int, rx: int): (int, int) {
    Snap(-Clamp(y), Clamp(rx), AXIS_DEADZONE, 268, 3732)
  }

  function BoardWheels(y: int, rx: int): Wheels {
    Mix(BoardMotion(y, rx).0, BoardMotion(y, rx).1, 0)
  }

  /** bb_axes_are_stopped says exactly whether the board would leave all wheels standing. */
  lemma BoardStoppedExactly(y: int, rx: int)
    ensures BoardMotion(y, rx) == (0, 0) <==> BoardWheels(y, rx) == Wheels(0, 0, 0, 0)
    ensures Peak(BoardWheels(y, rx)) <= 512
  {
    var (vx, vy) := BoardMotion(y, rx);
    MixResult(vx, vy, 0);
    RawMotion(vx, vy, 0);
    hide BoardMotion, Scaled;
  }

  // The same over 32-bit integers.

  datatype Wheels32 = Wheels32(fl: int32, fr: int32, rl: int32, rr: int32)

  function Wide(w: Wheels32): Wheels {
    Wheels(w.fl as int, w.fr as int, w.rl as int, w.rr as int)
  }

  function Abs32(x: int32): (r: int32)
    requires x > -0x8000_0000
    ensures r as int == Abs(x as int)
  {
    if x < 0 then -x else x
  }

  function Clamp32(v: int32): (r: int32)
    ensures r as int == Clamp(v as int) && -512 <= r <= 511
  {
    if v > 511 then 511 else if v < -512 then -512 else v
  }

  function Deadzone32(v: int32, deadzone: int32): (r: int32)
    requires v > -0x8000_0000
    ensures r as int == Deadzone(v as int, deadzone as int)
  {
    if Abs32(v) <= deadzone then 0 else v
  }

  predicate Fits(n: int) { -0x8000_0000 <= n < 0x8000_0000 }

  /** The products of the cone test that are computed at all fit. */
  predicate ProductsFit(ax: int, ay: int, deadzone: int, tanLo: int, tanHi: int) {
    ax >= Gate(deadzone) && ay >= Gate(deadzone) && Max(ax, ay) > deadzone ==>
      && Fits(ay * 1000) && Fits(ax * tanLo)
      && (ay * 1000 >= ax * tanLo ==> Fits(ax * tanHi))
  }

  method SnapDiagonalCone(vx: int32, vy: int32, deadzone: int32, tanLo: int32, tanHi: int32)
    returns (x: int32, y: int32)
    requires Fits(-(vx as int)) && Fits(-(vy as int))
    requires ProductsFit(Abs(vx as int), Abs(vy as int), deadzone as int, tanLo as int, tanHi as int)
    ensures (x as int, y as int) == Snap(vx as int, vy as int, deadzone as int, tanLo as int, tanHi as int)
  {
    x, y := vx, vy;
    var ax, ay := Abs32(vx), Abs32(vy);
    var mag := if ax > ay then ax else ay;
    var gate: int32 := 48;
    if deadzone > 0 && deadzone < gate {
      gate := deadzone;
    }
    if ax >= gate && ay >= gate && mag > deadzone && ay * 1000 >= ax * tanLo && ay * 1000 <= ax * tanHi {
      x := if vx < 0 then -mag else mag;
      y := if vy < 0 then -mag else mag;
      return;
    }
    if ax <= deadzone {
      x := 0;
    }
    if ay <= deadzone {
      y := 0;
    }
  }

  /** Sticks and boards, clamped, are well within. */
  lemma ClampedFits(ax: int, ay: int, deadzone: int, tanLo: int, tanHi: int)
    requires 0 <= ax <= 512 && 0 <= ay <= 512 && 0 <= tanLo <= 4000 && 0 <= tanHi <= 4000
    ensures ProductsFit(ax, ay, deadzone, tanLo, tanHi)
  {
    CrossBounds(ax, tanLo);
    CrossBounds(ax, tanHi);
  }

  lemma CrossBounds(a: int, tan: int)
    requires 0 <= a <= 512 && 0 <= tan <= 4000
    ensures 0 <= a * tan <= 2048000
  {
    ScaleUp(0, a, tan);
    ScaleUp(a, 512, tan);
  }

  function Quotient32(a: int32, b: int32): (r: int32)
    requires b > 0
    ensures r as int == Quotient(a as int, b as int)
  {
    TowardsZero(a as int, b as int);
    if a < 0 && a % b != 0 then a / b + 1 else a / b
  }

  /** C's division in terms of the one that rounds down. */
  lemma TowardsZero(a: int, b: int)
    requires b > 0
    ensures Quotient(a, b) == if a < 0 && a % b != 0 then a / b + 1 else a / b
  {
    if a < 0 {
      var q, r := a / b, a % b;
      assert a == q * b + r;
      if r == 0 {
        DivisionUnique(-a, b, -q, 0);
      } else {
        DivisionUnique(-a, b, -q - 1, b - r);
      }
    }
  }

  lemma DivisionUnique(n: nat, b: nat, q: int, r: int)
    requires 0 <= r < b && n == q * b + r
    ensures n / b == q
  {
    Division(n, b);
    Cancel(n / b, q + 1, b);
    Cancel(q, n / b + 1, b);
  }

  function Scaled32(v: int32, m: int32): (r: int32)
    requires m > 0 && -0x40_0000 <= v < 0x40_0000
    ensures r as int == Scaled(v as int, m as int)
  {
    Quotient32(v * 512, m)
  }

  method LargestMagnitude(fl: int32, fr: int32, rl: int32, rr: int32) returns (m: int32)
    requires Peak(Wheels(fl as int, fr as int, rl as int, rr as int)) < 0x8000_0000
    ensures m as int == Peak(Wheels(fl as int, fr as int, rl as int, rr as int))
  {
    m := Abs32(fl);
    if Abs32(fr) > m {
      m := Abs32(fr);
    }
    if Abs32(rl) > m {
      m := Abs32(rl);
    }
    if Abs32(rr) > m {
      m := Abs32(rr);
    }
  }

  predicate ScalesFit(r: Wheels) {
    Fits(r.fl * 512) && Fits(r.fr * 512) && Fits(r.rl * 512) && Fits(r.rr * 512)
  }

  /** What ScalesFit asks of the three motions together: less than 2^22, or at most when the fastest wheel
      goes backwards. */
  lemma MotionsFit(vx: int, vy: int, w: int)
    ensures var sum := Abs(vx) + Abs(vy) + Abs(w);
            (sum < 0x40_0000 ==> ScalesFit(Raw(vx, vy, w))) && (sum > 0x40_0000 ==> !ScalesFit(Raw(vx, vy, w)))
  {
    PeakIsSum(vx, vy, w);
  }

  lemma MixRange(vx: int, vy: int, w: int)
    requires ScalesFit(Raw(vx, vy, w))
    ensures -0x40_0000 <= vx <= 0x40_0000 && -0x40_0000 <= vx + vy <= 0x40_0000 && -0x40_0000 <= vx - vy <= 0x40_0000
    ensures var r := Raw(vx, vy, w);
            && Peak(r) <= 0x40_0000
            && -0x40_0000 <= r.fl < 0x40_0000 && -0x40_0000 <= r.fr < 0x40_0000
            && -0x40_0000 <= r.rl < 0x40_0000 && -0x40_0000 <= r.rr < 0x40_0000
  {}

  /** rccar_drive_mix, for all motions whose products with 512 fit 32 bits. */
  method MixWheels(vx: int32, vy: int32, w: int32) returns (out: Wheels32)
    requires ScalesFit(Raw(vx as int, vy as int, w as int))
    ensures Wide(out) == Mix(vx as int, vy as int, w as int)
  {
    MixRange(vx as int, vy as int, w as int);
    var fl, fr, rl, rr := vx + vy + w, vx - vy - w, vx - vy + w, vx + vy - w;
    hide Scaled, Abs, Peak, Max;
    var m := LargestMagnitude(fl, fr, rl, rr);
    if m > 512 {
      fl, fr, rl, rr := Scaled32(fl, m), Scaled32(fr, m), Scaled32(rl, m), Scaled32(rr, m);
    }
    out := Wheels32(fl, fr, rl, rr);
  }

  /** apply_gamepad_drive up to the motors: no operation leaves the 32-bit range, whatever is read. */
  method GamepadDrive(x: int32, y: int32, rx: int32, ry: int32) returns (out: Wheels32)
    ensures Wide(out) == GamepadWheels(Sticks(x as int, y as int, rx as int, ry as int))
  {
    hide Mix, Snap, ProductsFit, ScalesFit;
    var ax, ay, arx, ary := Clamp32(x), Clamp32(y), Clamp32(rx), Clamp32(ry);
    var vx, w := -1 * Deadzone32(ay, 60), Deadzone32(ax, 60);
    ClampedFits(Abs(-1 * ary as int), Abs(arx as int), 60, 364, 2747);
    var rVx, rVy := SnapDiagonalCone(-1 * ary, arx, 60, 364, 2747);
    SnapWithin(-1 * ary as int, arx as int, 60, 364, 2747, 512);
    vx := vx + rVx;
    MotionsFit(vx as int, rVy as int, w as int);
    out := MixWheels(vx, rVy, w);
  }

  /** apply_balance_board_drive up to the motors, likewise. */
  method BoardDrive(y: int32, rx: int32) returns (out: Wheels32)
    ensures Wide(out) == BoardWheels(y as int, rx as int)
  {
    hide Mix, Snap, ProductsFit, ScalesFit;
    var ay, arx := Clamp32(y), Clamp32(rx);
    ClampedFits(Abs(-1 * ay as int), Abs(arx as int), 60, 268, 3732);
    var vx, vy := SnapDiagonalCone(-1 * ay, arx, 60, 268, 3732);
    SnapWithin(-1 * ay as int, arx as int, 60, 268, 3732, 512);
    MotionsFit(vx as int, vy as int, 0);
    out := MixWheels(vx, vy, 0);
  }

  // From the sticks, or the board, to the compare registers.

  function Speeds(w: Wheels): (s: seq<int>)
    ensures |s| == 4
  {
    [w.fl, w.fr, w.rl, w.rr]
  }

  /** Every wheel has the duty it should have. */
  predicate RegistersDrive(registers: array<nat>, w: Wheels)
    requires registers.Length == 8
    reads registers
  {
    forall i :: 0 <= i < 4 ==> Drives(Speeds(w)[i], (registers[2 * i], registers[2 * i + 1]))
  }

  lemma PeakBounds(w: Wheels)
    ensures forall i :: 0 <= i < 4 ==> Abs(Speeds(w)[i]) <= Peak(w)
  {}

  /** Whatever a pad reads: each wheel is off, or has from 43 to 50 ticks on the channel of its direction. */
  method ApplyGamepadDrive(registers: array<nat>, x: int32, y: int32, rx: int32, ry: int32)
    requires registers.Length == 8
    modifies registers
    ensures RegistersDrive(registers, GamepadWheels(Sticks(x as int, y as int, rx as int, ry as int)))
  {
    var out := GamepadDrive(x, y, rx, ry);
    GamepadBounds(Sticks(x as int, y as int, rx as int, ry as int));
    PeakBounds(Wide(out));
    hide GamepadWheels, Peak, Drives, Duty;
    WheelSet(registers, Speeds(Wide(out)));
  }

  /** Likewise for a balance board. */
  method ApplyBoardDrive(registers: array<nat>, y: int32, rx: int32)
    requires registers.Length == 8
    modifies registers
    ensures RegistersDrive(registers, BoardWheels(y as int, rx as int))
  {
    var out := BoardDrive(y, rx);
    BoardStoppedExactly(y as int, rx as int);
    PeakBounds(Wide(out));
    hide BoardWheels, BoardMotion, Peak, Drives, Duty;
    WheelSet(registers, Speeds(Wide(out)));
  }

  // Activity of a pad.

  const SMALLEST := -0x8000_0000

  /** The axes of evt_has_control_activity in turn, none of them clamped: whether one is beyond the dead
      zone, and nothing where the negation of one leaves 32 bits. */
  function Activity(axes: seq<int>): Option<bool> {
    if axes == [] then Some(false)
    else if !Fits(Abs(axes[0])) then None
    else if Deadzone(axes[0], AXIS_DEADZONE) != 0 then Some(true)
    else Activity(axes[1..])
  }

  /** The first axis beyond the dead zone, if there is one, is number i. */
  predicate FirstActive(axes: seq<int>, i: nat)
    requires i < |axes|
  {
    Abs(axes[i]) > AXIS_DEADZONE && forall j :: 0 <= j < i ==> Abs(axes[j]) <= AXIS_DEADZONE
  }

  /** The test overflows exactly if the first axis that is beyond the dead zone reads -2^31; otherwise it
      tells whether there is one. */
  lemma {:induction false} ActivityExactly(axes: seq<int>)
    requires forall i :: 0 <= i < |axes| ==> Fits(axes[i])
    ensures Activity(axes) == None <==> exists i :: 0 <= i < |axes| && FirstActive(axes, i) && axes[i] == SMALLEST
    ensures Activity(axes) == Some(true)
       <==> exists i :: 0 <= i < |axes| && FirstActive(axes, i) && axes[i] != SMALLEST
    ensures Activity(axes) == Some(false) <==> forall i :: 0 <= i < |axes| ==> Abs(axes[i]) <= AXIS_DEADZONE
    decreases |axes|
  {
    if axes != [] {
      var rest := axes[1..];
      ActivityExactly(rest);
      if Abs(axes[0]) > AXIS_DEADZONE {
        assert FirstActive(axes, 0);
        assert forall i :: 0 < i < |axes| ==> !FirstActive(axes, i);
      } else {
        assert !FirstActive(axes, 0);
        forall i | 0 < i < |axes|
          ensures FirstActive(axes, i) <==> FirstActive(rest, i - 1)
        {
          FirstLater(axes, i);
        }
        assert forall i :: 0 <= i < |rest| ==> FirstActive(rest, i) == FirstActive(axes, i + 1);
      }
    }
  }

  lemma FirstLater(axes: seq<int>, i: nat)
    requires 0 < i < |axes| && Abs(axes[0]) <= AXIS_DEADZONE
    ensures FirstActive(axes, i) <==> FirstActive(axes[1..], i - 1)
  {
    if FirstActive(axes[1..], i - 1) {
      forall j | 0 <= j < i
        ensures Abs(axes[j]) <= AXIS_DEADZONE
      {
        assert j > 0 ==> axes[j] == axes[1..][j - 1];
      }
    }
  }

  lemma ActivityFirst(v: int, axes: seq<int>)
    ensures Activity([v] + axes)
         == if !Fits(Abs(v)) then None else if Deadzone(v, AXIS_DEADZONE) != 0 then Some(true) else Activity(axes)
    ensures Activity([]) == Some(false)
  {
    assert ([v] + axes)[1..] == axes;
  }

  /** evt_has_control_activity over 32-bit integers. */
  method HasControlActivity(pressed: bool, x: int32, y: int32, rx: int32, ry: int32) returns (active: bool)
    requires pressed || Activity([x as int, y as int, rx as int, ry as int]).Some?
    ensures active <==> pressed || Activity([x as int, y as int, rx as int, ry as int]) == Some(true)
  {
    if pressed {
      return true;
    }
    ActivityFirst(x as int, [y as int, rx as int, ry as int]);
    ActivityFirst(y as int, [rx as int, ry as int]);
    ActivityFirst(rx as int, [ry as int]);
    ActivityFirst(ry as int, []);
    hide Activity;
    active := Deadzone32(x, 60) != 0 || Deadzone32(y, 60) != 0 || Deadzone32(rx, 60) != 0 || Deadzone32(ry, 60) != 0;
  }
}
