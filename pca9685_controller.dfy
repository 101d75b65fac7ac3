/** The PCA9685 sixteen-channel PWM controller that drives the servos: an
    angle becomes a pulse width inside a configured window, the pulse width
    a 16-bit duty value, and the duty value is written to one channel's
    duty register. */
module Pca9685 {
  import opened Builtins

  const DefaultAddress: int := 0x40
  const DefaultFrequency: real := 50.0
  const DefaultMinUs: real := 500.0
  const DefaultMaxUs: real := 2200.0
  /** Largest 16-bit duty value: always on. */
  const MaxDuty: int := 0xFFFF
  const ChannelCount: nat := 16

  const LengthMismatch: string := "Length of channels and angles must match"

  /** The registers after `values[i]` is written to register `channels[i]`
      for i = 0, 1, ..., n - 1 in turn. */
  function Assign(registers: seq<int>, channels: seq<int>, values: seq<int>, n: nat): (r: seq<int>)
    requires n <= |channels| == |values|
    requires forall i :: 0 <= i < |channels| ==> 0 <= channels[i] < |registers|
    ensures |r| == |registers|
  {
    if n == 0 then registers
    else Assign(registers, channels, values, n - 1)[channels[n - 1] := values[n - 1]]
  }

  /** `j` is the last of the first `n` positions at which its channel is listed. */
  predicate LastListed(channels: seq<int>, n: nat, j: int)
    requires 0 <= j < n <= |channels|
  {
    forall j' :: j < j' < n ==> channels[j'] != channels[j]
  }

  /** A register none of the first `n` entries names keeps its value. */
  lemma {:induction false} AssignUnlisted(registers: seq<int>, channels: seq<int>, values: seq<int>, n: nat, k: int)
    requires n <= |channels| == |values|
    requires forall i :: 0 <= i < |channels| ==> 0 <= channels[i] < |registers|
    requires 0 <= k < |registers| && k !in channels[..n]
    ensures Assign(registers, channels, values, n)[k] == registers[k]
  {
    if n != 0 {
      assert channels[n - 1] in channels[..n];
      assert k !in channels[..n - 1] by {
        assert channels[..n - 1] == channels[..n][..n - 1];
      }
      AssignUnlisted(registers, channels, values, n - 1, k);
    }
  }

  /** A listed register ends up with the value of the last entry naming it. */
  lemma {:induction false} AssignLast(registers: seq<int>, channels: seq<int>, values: seq<int>, n: nat, j: int)
    requires n <= |channels| == |values|
    requires forall i :: 0 <= i < |channels| ==> 0 <= channels[i] < |registers|
    requires 0 <= j < n && LastListed(channels, n, j)
    ensures Assign(registers, channels, values, n)[channels[j]] == values[j]
  {
    if j < n - 1 {
      assert channels[n - 1] != channels[j];
      AssignLast(registers, channels, values, n - 1, j);
    }
  }

  class Controller {
    const address: int
    /** The PWM frequency the chip reports, in Hz. */
    const frequency: real
    /** The pulse width at 0°, in microseconds. */
    const minUs: real
    /** The pulse width at 180°, in microseconds. */
    const maxUs: real
    /** The duty value of each of the chip's channels. */
    const duty: array<int>

    predicate Valid() {
      duty.Length == ChannelCount && frequency > 0.0
    }

    constructor (address: int := DefaultAddress, frequency: real := DefaultFrequency,
                 minUs: real := DefaultMinUs, maxUs: real := DefaultMaxUs)
      requires frequency > 0.0
      ensures Valid() && fresh(duty)
      ensures duty[..] == seq(ChannelCount, _ => 0)
      ensures this.address == address && this.frequency == frequency
      ensures this.minUs == minUs && this.maxUs == maxUs
    {
      this.address := address;
      this.frequency := frequency;
      this.minUs := minUs;
      this.maxUs := maxUs;
      duty := new int[ChannelCount](_ => 0);
    }

    /** The length of one PWM period, in microseconds. */
    function PeriodUs(): real
      requires Valid()
    {
      1_000_000.0 / frequency
    }

    /** The pulse width `angle` asks for, in microseconds, on the straight line
        from `minUs` at 0° to `maxUs` at 180°. */
    function PulseUs(angle: real): real {
      angle / 180.0 * (maxUs - minUs) + minUs
    }

    /** That pulse width in 1/65535ths of the period. */
    function Ticks(angle: real): real
      requires Valid()
    {
      PulseUs(angle) / PeriodUs() * 0xFFFF as real
    }

    /** `_angle_to_duty`: the tick count truncated by `int()`, then clamped to 16 bits. */
    function AngleToDuty(angle: real): (d: int)
      requires Valid()
      ensures 0 <= d <= MaxDuty
      ensures 0.0 <= Ticks(angle) <= MaxDuty as real ==> d as real <= Ticks(angle) < d as real + 1.0
      ensures Ticks(angle) < 1.0 ==> d == 0
      ensures MaxDuty as real <= Ticks(angle) ==> d == MaxDuty
    {
      ClampInt(0, MaxDuty, Trunc(Ticks(angle)))
    }

    /** The duty value `set_servo_angle` writes: the angle clamped to [0, 180] first. */
    function ServoDuty(angle: real): (d: int)
      requires Valid()
      ensures 0 <= d <= MaxDuty
      ensures angle <= 0.0 ==> d == AngleToDuty(0.0)
      ensures 180.0 <= angle ==> d == AngleToDuty(180.0)
      ensures 0.0 <= angle <= 180.0 ==> d == AngleToDuty(angle)
    {
      AngleToDuty(Clamp(0.0, 180.0, angle))
    }

    /** The duty values of a list of angles. */
    function ServoDuties(angles: seq<real>): seq<int>
      requires Valid()
    {
      seq(|angles|, i requires 0 <= i < |angles| => ServoDuty(angles[i]))
    }

    /** `set_servo_angle`: writes the duty of `angle` to `channel` and no other register. */
    method SetServoAngle(channel: int, angle: real)
      requires Valid() && 0 <= channel < duty.Length
      modifies duty
      ensures duty[..] == old(duty[..])[channel := ServoDuty(angle)]
    {
      var a := Clamp(0.0, 180.0, angle);
      var d := AngleToDuty(a);
      duty[channel] := d;
    }

    /** `set_servo_angles`. Without a channel list, `angles[i]` goes to channel
        `i`. With one, a length mismatch raises before any write; otherwise
        `angles[i]` goes to `channels[i]` in order, so a repeated channel
        keeps its last angle. */
    method SetServoAngles(angles: seq<real>, channels: Option<seq<int>>) returns (r: Result<()>)
      requires Valid()
      requires channels.None? ==> |angles| <= duty.Length
      requires channels.Some? && |channels.value| == |angles| ==>
        forall i :: 0 <= i < |angles| ==> 0 <= channels.value[i] < duty.Length
      modifies duty
      ensures channels.None? ==>
        && r == Ok(())
        && (forall i :: 0 <= i < |angles| ==> duty[i] == ServoDuty(angles[i]))
        && (forall i :: |angles| <= i < duty.Length ==> duty[i] == old(duty[i]))
      ensures channels.Some? && |channels.value| != |angles| ==>
        r == Err(ValueError(LengthMismatch)) && duty[..] == old(duty[..])
      ensures channels.Some? && |channels.value| == |angles| ==>
        && r == Ok(())
        && duty[..] == Assign(old(duty[..]), channels.value, ServoDuties(angles), |angles|)
        && (forall k :: 0 <= k < duty.Length && k !in channels.value ==> duty[k] == old(duty[k]))
        && (forall j :: 0 <= j < |angles| && LastListed(channels.value, |angles|, j) ==>
              duty[channels.value[j]] == ServoDuty(angles[j]))
    {
      if channels.None? {
        for i := 0 to |angles|
          invariant forall j :: 0 <= j < i ==> duty[j] == ServoDuty(angles[j])
          invariant forall j :: i <= j < duty.Length ==> duty[j] == old(duty[j])
        {
          SetServoAngle(i, angles[i]);
        }
        return Ok(());
      }
      var chs := channels.value;
      if |chs| != |angles| {
        return Err(ValueError(LengthMismatch));
      }
      ghost var before := duty[..];
      ghost var values := ServoDuties(angles);
      for i := 0 to |chs|
        invariant duty[..] == Assign(before, chs, values, i)
      {
        SetServoAngle(chs[i], angles[i]);
      }
      forall k | 0 <= k < duty.Length && k !in chs
        ensures duty[k] == before[k]
      {
        assert chs[..|chs|] == chs;
        AssignUnlisted(before, chs, values, |chs|, k);
      }
      forall j | 0 <= j < |angles| && LastListed(chs, |chs|, j)
        ensures duty[chs[j]] == ServoDuty(angles[j])
      {
        AssignLast(before, chs, values, |chs|, j);
      }
      r := Ok(());
    }
  }

  /** Whenever the pulse window is not inverted (`minUs <= maxUs`), a larger
      angle never gives a smaller duty value; `int()` keeps the order even
      where the tick count is negative. */
  lemma AngleToDutyMonotone(c: Controller, a1: real, a2: real)
    requires c.Valid() && c.minUs <= c.maxUs && a1 <= a2
    ensures c.AngleToDuty(a1) <= c.AngleToDuty(a2)
  {
    var w := c.maxUs - c.minUs;
    var x1, x2 := a1 / 180.0, a2 / 180.0;
    assert x1 * w <= x2 * w by {
      assert x2 * w - x1 * w == (x2 - x1) * w;
    }
    var p1, p2 := c.PulseUs(a1), c.PulseUs(a2);
    assert p1 == x1 * w + c.minUs && p2 == x2 * w + c.minUs;
    var period := c.PeriodUs();
    assert period > 0.0 by {
      assert period * c.frequency == 1_000_000.0;
    }
    DivideMonotone(p1, p2, period);
    assert c.Ticks(a1) <= c.Ticks(a2);
    TruncMonotone(c.Ticks(a1), c.Ticks(a2));
  }

  /** With the default 50 Hz and 500..2200 us window, 0° is duty 1638 (from
      1638.375 ticks) and 180° is duty 7208 (from 7208.85 ticks). */
  lemma DefaultDutyEndpoints(c: Controller)
    requires c.Valid()
    requires c.frequency == DefaultFrequency && c.minUs == DefaultMinUs && c.maxUs == DefaultMaxUs
    ensures c.AngleToDuty(0.0) == 1638
    ensures c.AngleToDuty(180.0) == 7208
  {
  }
}
