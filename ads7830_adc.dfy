/** The ADS7830 eight-channel, 8-bit analog-to-digital converter that reads
    each servo's feedback potentiometer, and the per-channel linear
    calibration that turns a feedback voltage into a servo angle. */
module Ads7830 {
  import opened Builtins
  import opened I2C

  const DefaultAddress: int := 0x4B
  /** Reference voltage: a reading of 255 means 3.3 V. */
  const Vref: real := 3.3

  const BadChannel: string := "Channel must be between 0-7"
  const NotCalibrated: string := "Min and max voltages not set. Initialize first."
  const BadArgument: string := "channels must be int, list, or tuple"

  predicate ValidChannel(channel: int) {
    0 <= channel <= 7
  }

  /** The single-ended conversion command for `channel`, `0x84 | (channel << 4)`:
      start bit 7 set, the channel in bits 6..4, and power-down bits 0x04. */
  function Command(channel: int): (cmd: bv8)
    requires ValidChannel(channel)
    ensures cmd as int == 0x84 + 16 * channel
    ensures cmd & 0x80 == 0x80 && cmd & 0x0F == 0x04
    ensures ChannelOf(cmd) == channel
  {
    0x84 | ((channel as bv8) << 4)
  }

  /** The channel a command byte selects, `(cmd >> 4) & 7`. */
  function ChannelOf(cmd: bv8): (channel: int)
    ensures ValidChannel(channel)
  {
    ((cmd >> 4) & 7) as int
  }

  /** Distinct channels are selected by distinct command bytes. */
  lemma CommandInjective(c1: int, c2: int)
    requires ValidChannel(c1) && ValidChannel(c2) && c1 != c2
    ensures Command(c1) != Command(c2)
  {
  }

  /** The voltage a one-byte conversion result stands for, `raw * 3.3 / 255`. */
  function RawToVoltage(raw: bv8): (v: real)
    ensures 0.0 <= v <= Vref
    ensures raw == 0 ==> v == 0.0
    ensures raw == 255 ==> v == Vref
  {
    raw as int as real * 3.3 / 255.0
  }

  /** A larger conversion result always means a higher voltage. */
  lemma RawToVoltageStrictlyIncreasing(a: bv8, b: bv8)
    requires a < b
    ensures RawToVoltage(a) < RawToVoltage(b)
  {
  }

  /** The bus traffic of one conversion of `channel` that answered `raw`. */
  function Exchange(address: int, channel: int, raw: bv8): seq<Transfer>
    requires ValidChannel(channel)
  {
    [Write(address, [Command(channel)]), Read(address, [raw])]
  }

  /** The bus traffic of converting the first `n` of `channels` one after the
      other, when the first of them is the `start`-th byte read off the bus. */
  function Traffic(address: int, channels: seq<int>, n: nat, answer: nat -> bv8, start: nat): (t: seq<Transfer>)
    requires n <= |channels| && forall i :: 0 <= i < n ==> ValidChannel(channels[i])
    ensures |t| == 2 * n
  {
    if n == 0 then []
    else Traffic(address, channels, n - 1, answer, start) + Exchange(address, channels[n - 1], answer(start + n - 1))
  }

  /** Each conversion in the traffic is its channel's command write followed
      by a one-byte read of the byte the converter answered. */
  lemma {:induction false} TrafficAt(address: int, channels: seq<int>, n: nat, answer: nat -> bv8, start: nat, i: nat)
    requires n <= |channels| && forall j :: 0 <= j < n ==> ValidChannel(channels[j])
    requires i < n
    ensures Traffic(address, channels, n, answer, start)[2 * i] == Write(address, [Command(channels[i])])
    ensures Traffic(address, channels, n, answer, start)[2 * i + 1] == Read(address, [answer(start + i)])
  {
    if i < n - 1 {
      TrafficAt(address, channels, n - 1, answer, start, i);
    }
  }

  /** The index of the first channel outside 0..7, or the length if there is none. */
  function FirstInvalid(channels: seq<int>): (k: nat)
    ensures k <= |channels|
    ensures forall i :: 0 <= i < k ==> ValidChannel(channels[i])
    ensures k < |channels| ==> !ValidChannel(channels[k])
  {
    if channels == [] || !ValidChannel(channels[0]) then 0
    else 1 + FirstInvalid(channels[1..])
  }

  /** The straight line through (vAt0, 0°) and (vAt180, 180°), not yet clamped. */
  function LinearAngle(vAt180: real, vAt0: real, voltage: real): real
    requires vAt180 != vAt0
  {
    (voltage - vAt0) / (vAt180 - vAt0) * 180.0
  }

  /** The calibrated angle for `voltage`, clamped to [0, 180]. */
  function CalibratedAngle(vAt180: real, vAt0: real, voltage: real): (angle: real)
    requires vAt180 != vAt0
    ensures 0.0 <= angle <= 180.0
    ensures voltage == vAt0 ==> angle == 0.0
    ensures voltage == vAt180 ==> angle == 180.0
  {
    var d := vAt180 - vAt0;
    assert voltage == vAt180 ==> (voltage - vAt0) / d == 1.0;
    Clamp(0.0, 180.0, LinearAngle(vAt180, vAt0, voltage))
  }

  /** The voltage an ideal linear sensor with this calibration shows at `angle`. */
  function SensorVoltage(vAt180: real, vAt0: real, angle: real): real {
    vAt0 + angle / 180.0 * (vAt180 - vAt0)
  }

  /** Calibration inverts an ideal linear sensor over the whole range 0..180. */
  lemma CalibratedAngleInvertsSensor(vAt180: real, vAt0: real, angle: real)
    requires vAt180 != vAt0 && 0.0 <= angle <= 180.0
    ensures CalibratedAngle(vAt180, vAt0, SensorVoltage(vAt180, vAt0, angle)) == angle
  {
  }

  /** Sensor voltage rising towards 180°: the angle never decreases with the voltage. */
  lemma CalibratedAngleRising(vAt180: real, vAt0: real, v1: real, v2: real)
    requires vAt180 > vAt0 && v1 <= v2
    ensures CalibratedAngle(vAt180, vAt0, v1) <= CalibratedAngle(vAt180, vAt0, v2)
  {
    var d := vAt180 - vAt0;
    DivideMonotone(v1 - vAt0, v2 - vAt0, d);
    ClampMonotone(0.0, 180.0, LinearAngle(vAt180, vAt0, v1), LinearAngle(vAt180, vAt0, v2));
  }

  /** Sensor voltage falling towards 180°: the angle never increases with the voltage. */
  lemma CalibratedAngleFalling(vAt180: real, vAt0: real, v1: real, v2: real)
    requires vAt180 < vAt0 && v1 <= v2
    ensures CalibratedAngle(vAt180, vAt0, v1) >= CalibratedAngle(vAt180, vAt0, v2)
  {
    var d := vAt0 - vAt180;
    DivideMonotone(vAt0 - v2, vAt0 - v1, d);
    assert (v1 - vAt0) / (vAt180 - vAt0) == (vAt0 - v1) / d;
    assert (v2 - vAt0) / (vAt180 - vAt0) == (vAt0 - v2) / d;
    ClampMonotone(0.0, 180.0, LinearAngle(vAt180, vAt0, v2), LinearAngle(vAt180, vAt0, v1));
  }

  /** What `read_channels` accepts: an `int`, a list or tuple of `int`s, or anything else. */
  datatype Channels = Single(channel: int) | Many(channels: seq<int>) | Unsupported

  /** What `read_channels` returns: one voltage, or a list of them. */
  datatype Reading = Scalar(voltage: real) | Vector(voltages: seq<real>)

  class Adc {
    const bus: Bus
    const address: int
    /** Calibration: the voltage of each servo's sensor at 180°. */
    const minVoltages: Option<seq<real>>
    /** Calibration: the voltage of each servo's sensor at 0°. */
    const maxVoltages: Option<seq<real>>

    constructor (bus: Bus, address: int := DefaultAddress,
                 minVoltages: Option<seq<real>> := None, maxVoltages: Option<seq<real>> := None)
      ensures this.bus == bus && this.address == address
      ensures this.minVoltages == minVoltages && this.maxVoltages == maxVoltages
    {
      this.bus := bus;
      this.address := address;
      this.minVoltages := minVoltages;
      this.maxVoltages := maxVoltages;
    }

    /** One conversion of `channel`. A channel outside 0..7 raises before the
        bus is touched; otherwise the command byte is written, one byte is
        read back, the lock is released, and that byte is scaled to volts. */
    method ReadChannel(channel: int) returns (r: Result<real>)
      requires !bus.locked
      modifies bus
      ensures !bus.locked
      ensures !ValidChannel(channel) ==>
        r == Err(ValueError(BadChannel)) && bus.log == old(bus.log) && bus.readCount == old(bus.readCount)
      ensures ValidChannel(channel) ==>
        var raw := bus.answer(old(bus.readCount));
        && r == Ok(RawToVoltage(raw))
        && bus.log == old(bus.log) + Exchange(address, channel, raw)
        && bus.readCount == old(bus.readCount) + 1
    {
      if !ValidChannel(channel) {
        return Err(ValueError(BadChannel));
      }
      var cmd := Command(channel);
      var acquired := false;
      while !acquired
        invariant acquired ==> bus.locked
        invariant !acquired ==> !bus.locked
        invariant bus.log == old(bus.log) && bus.readCount == old(bus.readCount)
        decreases if acquired then 0 else 1
      {
        acquired := bus.TryLock();
      }
      bus.WriteTo(address, [cmd]);
      var result := new bv8[1];
      bus.ReadFromInto(address, result);
      bus.Unlock();
      assert result[..] == [result[0]];
      r := Ok(RawToVoltage(result[0]));
    }

    /** `read_channels`: one channel gives one voltage; a list gives the list
        of their voltages in order, stopping at the first bad channel, whose
        `ValueError` propagates after the earlier conversions took place;
        anything else raises `TypeError` without touching the bus. */
    method ReadChannels(arg: Channels) returns (r: Result<Reading>)
      requires !bus.locked
      modifies bus
      ensures !bus.locked
      ensures arg.Single? ==>
        if ValidChannel(arg.channel) then
          var raw := bus.answer(old(bus.readCount));
          && r == Ok(Scalar(RawToVoltage(raw)))
          && bus.log == old(bus.log) + Exchange(address, arg.channel, raw)
          && bus.readCount == old(bus.readCount) + 1
        else
          r == Err(ValueError(BadChannel)) && bus.log == old(bus.log) && bus.readCount == old(bus.readCount)
      ensures arg.Many? ==>
        var k := FirstInvalid(arg.channels);
        && bus.log == old(bus.log) + Traffic(address, arg.channels, k, bus.answer, old(bus.readCount))
        && bus.readCount == old(bus.readCount) + k
        && (k < |arg.channels| ==> r == Err(ValueError(BadChannel)))
        && (k == |arg.channels| ==>
              && r.Ok? && r.value.Vector? && |r.value.voltages| == |arg.channels|
              && forall i :: 0 <= i < |arg.channels| ==>
                   r.value.voltages[i] == RawToVoltage(bus.answer(old(bus.readCount) + i)))
      ensures arg.Unsupported? ==>
        r == Err(TypeError(BadArgument)) && bus.log == old(bus.log) && bus.readCount == old(bus.readCount)
    {
      match arg
      case Single(channel) =>
        var v := ReadChannel(channel);
        r := if v.Ok? then Ok(Scalar(v.value)) else Err(v.error);
      case Many(channels) =>
        var vs := ReadEach(channels);
        r := if vs.Ok? then Ok(Vector(vs.value)) else Err(vs.error);
      case Unsupported =>
        r := Err(TypeError(BadArgument));
    }

    /** The list comprehension of `read_channels`: converts `channels` in order
        and stops at the first bad one, whose `ValueError` propagates. */
    method ReadEach(channels: seq<int>) returns (r: Result<seq<real>>)
      requires !bus.locked
      modifies bus
      ensures !bus.locked
      ensures
        var k := FirstInvalid(channels);
        && bus.log == old(bus.log) + Traffic(address, channels, k, bus.answer, old(bus.readCount))
        && bus.readCount == old(bus.readCount) + k
        && (k < |channels| ==> r == Err(ValueError(BadChannel)))
        && (k == |channels| ==>
              && r.Ok? && |r.value| == |channels|
              && forall i :: 0 <= i < |channels| ==> r.value[i] == RawToVoltage(bus.answer(old(bus.readCount) + i)))
    {
      ghost var k := FirstInvalid(channels);
      ghost var log0 := bus.log;
      var start := bus.readCount;
      var voltages: seq<real> := [];
      var i := 0;
      while i < |channels|
        invariant 0 <= i <= k
        invariant !bus.locked
        invariant |voltages| == i
        invariant forall j :: 0 <= j < i ==> voltages[j] == RawToVoltage(bus.answer(start + j))
        invariant bus.log == log0 + Traffic(address, channels, i, bus.answer, start)
        invariant bus.readCount == start + i
      {
        ghost var before := bus.log;
        var v := ReadChannel(channels[i]);
        if v.Err? {
          assert i == k && bus.log == before;
          return Err(v.error);
        }
        ghost var e := Exchange(address, channels[i], bus.answer(start + i));
        ghost var t := Traffic(address, channels, i, bus.answer, start);
        assert bus.log == (log0 + t) + e;
        assert (log0 + t) + e == log0 + (t + e);
        voltages := voltages + [v.value];
        i := i + 1;
      }
      r := Ok(voltages);
    }

    /** `voltage_to_angle`: the calibrated angle of `voltage` on `channel`,
        raising when no calibration was given, when `channel` indexes past
        either table, and when the two calibration voltages coincide. */
    function VoltageToAngle(channel: int, voltage: real): (r: Result<real>)
      ensures (minVoltages.None? || maxVoltages.None?) ==> r == Err(ValueError(NotCalibrated))
      ensures r.Ok? ==> 0.0 <= r.value <= 180.0
      ensures r.Ok? <==>
        && minVoltages.Some? && maxVoltages.Some?
        && Index(minVoltages.value, channel).Ok? && Index(maxVoltages.value, channel).Ok?
        && Index(minVoltages.value, channel).value != Index(maxVoltages.value, channel).value
    {
      if minVoltages.None? || maxVoltages.None? then Err(ValueError(NotCalibrated))
      else
        match Index(minVoltages.value, channel)
        case Err(e) => Err(e)
        case Ok(vMin) =>
          match Index(maxVoltages.value, channel)
          case Err(e) => Err(e)
          case Ok(vMax) =>
            if vMin == vMax then Err(ZeroDivisionError)
            else Ok(CalibratedAngle(vMin, vMax, voltage))
    }

    /** `read_angle`: one conversion of `channel`, then its calibrated angle. */
    method ReadAngle(channel: int) returns (r: Result<real>)
      requires !bus.locked
      modifies bus
      ensures !bus.locked
      ensures !ValidChannel(channel) ==>
        r == Err(ValueError(BadChannel)) && bus.log == old(bus.log) && bus.readCount == old(bus.readCount)
      ensures ValidChannel(channel) ==>
        var raw := bus.answer(old(bus.readCount));
        && r == VoltageToAngle(channel, RawToVoltage(raw))
        && bus.log == old(bus.log) + Exchange(address, channel, raw)
        && bus.readCount == old(bus.readCount) + 1
    {
      var voltage := ReadChannel(channel);
      if voltage.Err? {
        return Err(voltage.error);
      }
      r := VoltageToAngle(channel, voltage.value);
    }
  }

  /** On a calibrated channel the 0° voltage gives 0° and the 180° voltage gives 180°. */
  lemma VoltageToAngleEndpoints(adc: Adc, channel: int)
    requires adc.minVoltages.Some? && adc.maxVoltages.Some?
    requires 0 <= channel < |adc.minVoltages.value| && channel < |adc.maxVoltages.value|
    requires adc.minVoltages.value[channel] != adc.maxVoltages.value[channel]
    ensures adc.VoltageToAngle(channel, adc.maxVoltages.value[channel]) == Ok(0.0)
    ensures adc.VoltageToAngle(channel, adc.minVoltages.value[channel]) == Ok(180.0)
  {
  }

  /** Either wiring polarity gives a monotone angle: rising with the voltage when
      the 180° voltage is the higher one, falling when it is the lower one. */
  lemma VoltageToAngleMonotone(adc: Adc, channel: int, v1: real, v2: real)
    requires adc.minVoltages.Some? && adc.maxVoltages.Some?
    requires 0 <= channel < |adc.minVoltages.value| && channel < |adc.maxVoltages.value|
    requires adc.minVoltages.value[channel] != adc.maxVoltages.value[channel]
    requires v1 <= v2
    ensures adc.VoltageToAngle(channel, v1).Ok? && adc.VoltageToAngle(channel, v2).Ok?
    ensures adc.minVoltages.value[channel] > adc.maxVoltages.value[channel] ==>
      adc.VoltageToAngle(channel, v1).value <= adc.VoltageToAngle(channel, v2).value
    ensures adc.minVoltages.value[channel] < adc.maxVoltages.value[channel] ==>
      adc.VoltageToAngle(channel, v1).value >= adc.VoltageToAngle(channel, v2).value
  {
    var vAt180, vAt0 := adc.minVoltages.value[channel], adc.maxVoltages.value[channel];
    if vAt180 > vAt0 {
      CalibratedAngleRising(vAt180, vAt0, v1, v2);
    } else {
      CalibratedAngleFalling(vAt180, vAt0, v1, v2);
    }
  }
}
