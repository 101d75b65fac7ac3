# BALBOT servo drivers, modelled in Dafny

BALBOT drives three hobby servos through a PCA9685 PWM controller and reads
each servo's feedback potentiometer through an ADS7830 8-bit ADC, both on one
shared I2C bus. This project models the two driver classes and proves what
they promise.

- `Ads7830.Adc` (`ads7830_adc.py`) validates a channel index and builds the
  command byte `0x84 | (channel << 4)`. It does one locked write-then-read bus
  transaction and scales the answered byte to volts as `raw * 3.3 / 255`.
  `read_channels` takes one channel or a list of channels. `voltage_to_angle`
  maps a voltage linearly between the two calibration voltages of a channel
  (voltage at 180°, voltage at 0°) and clamps the result to [0, 180].
  `read_angle` does a read and then that mapping.
- `Pca9685.Controller` (`pca9685_controller.py`) clamps an angle to [0, 180].
  It turns the angle into a pulse width inside the `min_us..max_us` window, and
  that width into 16-bit duty ticks of the PWM period. The tick count is
  truncated by `int()` and clamped to [0, 0xFFFF]. The duty is written to one
  channel's register, or a list of angles is written to channels 0..n-1 or to
  an explicit channel list.

Files:

- `builtins.dfy` (module `Builtins`): the Python behaviour the drivers rely
  on. It holds the exceptions as an `Error` datatype, `Result`/`Option`,
  `max(lo, min(hi, x))`, `int()` on a float (truncation toward zero), and list
  indexing with negative indices and `IndexError`.
- `i2c_bus.dfy` (module `I2C`): the shared bus. Class `Bus` has a lock flag,
  a log of every transfer, and a count of bytes read. The `n`-th byte read off
  the bus is `answer(n)`, an arbitrary function fixed when the bus is made.
  This is the abstract byte source standing in for the converter.
- `ads7830_adc.dfy` (module `Ads7830`): the ADC class and the calibration
  arithmetic.
- `pca9685_controller.dfy` (module `Pca9685`): the servo controller. The
  chip's sixteen duty registers are an `array<int>` that the methods update in
  place.

Voltages, angles, pulse widths and frequencies are exact `real`s. Bytes are
`bv8`. Duty values are `int`s proved to lie in 0..0xFFFF.

Behaviour of the code worth knowing:

- Equal calibration voltages raise `ZeroDivisionError`, and unequal ones are
  accepted however close they are.
- A channel past either calibration list raises `IndexError`, and a negative
  one counts from the end of the list.
- The duty value is truncated by `int()`.

## Model

| member | source | states |
|---|---|---|
| Builtins.Clamp | pca9685_controller.py:19 | `max(lo, min(hi, x))` lies in [lo, hi]; it is `x` inside the range, `lo` below it and `hi` above it |
| Builtins.ClampMonotone | ads7830_adc.py:53 | clamping keeps the order of two inputs |
| Builtins.ClampInt | pca9685_controller.py:15 | `max(lo, min(hi, n))` on integers (here lo = 0, hi = 0xFFFF) lies in [lo, hi]; it is `n` inside the range, `lo` below it and `hi` above it |
| Builtins.Trunc | pca9685_controller.py:13-14 | `int(x)` is the integer within distance 1 of `x` on the side of zero, and it has the sign of `x` |
| Builtins.TruncMonotone | pca9685_controller.py:13-14 | `int()` is monotone across zero |
| Builtins.Index | ads7830_adc.py:48-49 | `s[i]` succeeds exactly for `-len(s) <= i < len(s)`; a non-negative `i` gives `s[i]`, a negative one `s[len(s)+i]`; otherwise `IndexError` |
| I2C.Bus.constructor | main.py:10 | a new bus is unlocked, has no traffic and has read no bytes |
| I2C.Bus.TryLock | ads7830_adc.py:20-21 | `try_lock` succeeds exactly when the bus was free, and afterwards the bus is held |
| I2C.Bus.WriteTo | ads7830_adc.py:23 | `writeto` appends one write of exactly those bytes to the traffic and reads nothing |
| I2C.Bus.ReadFromInto | ads7830_adc.py:24-25 | `readfrom_into` fills the buffer in place with the next bytes the device answers, counts them as read, and logs the read |
| I2C.Bus.Unlock | ads7830_adc.py:26-27 | `unlock` frees the bus and causes no traffic |
| Ads7830.Command | ads7830_adc.py:19 | the command byte equals `0x84 + 16*channel`, so it fits in one byte; bit 7 is set, the low nibble is 0x4, and `(cmd >> 4) & 7` gives the channel back |
| Ads7830.ChannelOf | ads7830_adc.py:19 | decoding bits 6..4 of a command byte always gives a channel in 0..7 |
| Ads7830.CommandInjective | ads7830_adc.py:19 | distinct channels give distinct command bytes |
| Ads7830.RawToVoltage | ads7830_adc.py:29 | `raw * 3.3 / 255` lies in [0, 3.3]; it is 0 at raw 0 and 3.3 at raw 255 |
| Ads7830.RawToVoltageStrictlyIncreasing | ads7830_adc.py:29 | the voltage is strictly increasing in the raw byte |
| Ads7830.Traffic | ads7830_adc.py:36 | converting the first n channels puts exactly 2n transfers on the bus, one write and one read per channel |
| Ads7830.TrafficAt | ads7830_adc.py:19-25 | in the traffic of n conversions, transfer 2i is the write of `Command(channels[i])` and transfer 2i+1 the one-byte read of `answer(start + i)` |
| Ads7830.FirstInvalid | ads7830_adc.py:16-17 | the index of the first channel outside 0..7: every earlier channel is valid and that one is not (the length if all are valid) |
| Ads7830.CalibratedAngle | ads7830_adc.py:52-53 | the mapped angle lies in [0, 180]; it is 0 at the 0° voltage and 180 at the 180° voltage |
| Ads7830.CalibratedAngleInvertsSensor | ads7830_adc.py:51-53 | for every angle in [0, 180], mapping the voltage of an ideal linear sensor at that angle gives the angle back, in either polarity |
| Ads7830.CalibratedAngleRising | ads7830_adc.py:51-53 | when the 180° voltage is the higher one, the angle is non-decreasing in the voltage |
| Ads7830.CalibratedAngleFalling | ads7830_adc.py:51-53 | when the 180° voltage is the lower one, the angle is non-increasing in the voltage |
| Ads7830.Adc.constructor | ads7830_adc.py:2-12 | the ADC keeps the bus, the address (default 0x4B) and the two optional calibration lists (default unset) it was given |
| Ads7830.Adc.ReadChannel | ads7830_adc.py:14-29 | a channel outside 0..7 raises `ValueError` with no bus traffic. Otherwise the bus sees the write of `Command(channel)` and a one-byte read, the lock is released, and the result is `RawToVoltage` of the answered byte |
| Ads7830.Adc.ReadEach | ads7830_adc.py:36 | channels are converted in order up to the first invalid one. The traffic is that of the valid prefix; a bad channel raises `ValueError`; otherwise the i-th voltage is that of the i-th byte answered |
| Ads7830.Adc.ReadChannels | ads7830_adc.py:31-38 | an int gives a scalar exactly as `read_channel` does; a list or tuple gives a same-length list whose i-th element is the reading of `channels[i]`, or the first bad channel's `ValueError`; anything else raises `TypeError` with no bus traffic |
| Ads7830.Adc.VoltageToAngle | ads7830_adc.py:40-53 | missing calibration raises `ValueError`. A result is returned exactly when both lists are set, both index lookups succeed and the two voltages differ, and it lies in [0, 180] |
| Ads7830.Adc.ReadAngle | ads7830_adc.py:55-58 | equals `voltage_to_angle(channel, read_channel(channel))`, with the bus traffic of that one read and none for a bad channel |
| Ads7830.VoltageToAngleEndpoints | ads7830_adc.py:48-53 | on a calibrated channel, the 0° voltage (`max_voltages[ch]`) gives 0 and the 180° voltage (`min_voltages[ch]`) gives 180 |
| Ads7830.VoltageToAngleMonotone | ads7830_adc.py:48-53 | on a calibrated channel, the angle is non-decreasing in the voltage when `v_min > v_max` and non-increasing when `v_min < v_max` |
| Pca9685.Assign | pca9685_controller.py:37-38 | writing the first n values to the first n listed channels in turn leaves the register table the same size |
| Pca9685.AssignUnlisted | pca9685_controller.py:37-38 | a register that none of the written entries names keeps its value |
| Pca9685.AssignLast | pca9685_controller.py:37-38 | a listed register ends with the value of the last entry naming it |
| Pca9685.Controller.constructor | pca9685_controller.py:4-8 | the controller keeps address, frequency and pulse window (defaults 0x40, 50 Hz, 500..2200 us), and owns a fresh table of sixteen duty registers, all 0 |
| Pca9685.Controller.AngleToDuty | pca9685_controller.py:10-15 | the duty lies in [0, 0xFFFF]. When the tick count `pulse_us / period_us * 0xFFFF` is in range the duty is its whole part; below 1 it is 0; at 0xFFFF or above it is 0xFFFF |
| Pca9685.Controller.ServoDuty | pca9685_controller.py:19-20 | the clamped angle's duty: angles at or below 0 give the duty of 0, angles at or above 180 give the duty of 180, and in-range angles are unchanged by the clamp |
| Pca9685.Controller.SetServoAngle | pca9685_controller.py:17-21 | register `channel` becomes the duty of the clamped angle and every other register is unchanged |
| Pca9685.Controller.SetServoAngles | pca9685_controller.py:23-38 | without channels, register i gets the duty of `angles[i]` and registers from `len(angles)` on are unchanged. With channels, a length mismatch raises `ValueError` and no register changes. Otherwise the registers are the in-order writes: unlisted registers are unchanged and a repeated channel keeps its last angle |
| Pca9685.AngleToDutyMonotone | pca9685_controller.py:12-15 | with `min_us <= max_us` and a positive frequency, the duty is non-decreasing in the angle |
| Pca9685.DefaultDutyEndpoints | pca9685_controller.py:4-15 | at 50 Hz with a 500..2200 us window, angle 0 gives duty 1638 (from 1638.375) and angle 180 gives 7208 (from 7208.85) |

## Left out

- `main.py` is a hardware script and is not part of this model. It creates
  the bus, sleeps, prints, loops forever and parks the servos on
  `KeyboardInterrupt`. Its `initialize_servo_feedback` only sequences calls to
  the two modelled classes. It always commands channels 0..n-1 through
  `set_servo_angles`, whatever `servo_channels` it is given.
- The I2C transport: bus failures, timeouts, and the exception path through
  `finally` are not modelled. The bytes a device answers are an arbitrary
  function `answer`, which is not computed here.
- Ads7830.Adc.ReadChannel: requires the bus to be free on entry, because in
  this program a single task uses the bus. Waiting in the `try_lock` loop for
  another thread to release it is not modelled, so the loop runs its body
  once. `ReadEach`, `ReadChannels` and `ReadAngle` inherit this requirement.
- Pca9685.Controller.constructor: requires a positive frequency. The
  `adafruit_pca9685` library, which sets the frequency, is a foreign call whose
  source is not part of this model. Its rejection of out-of-range frequencies
  is not modelled.
- Pca9685.DefaultDutyEndpoints: holds when the frequency the chip reports is
  exactly 50 Hz. The library's rounding of the frequency through the prescaler
  is not modelled.
- Pca9685.Controller.SetServoAngle: requires a channel index among the chip's
  sixteen channels. The library enforces that bound out of view.
  `SetServoAngles` has the same requirement for the channels it writes.
- A register holds the 16-bit duty value as written. The library's reduction
  to the chip's 12-bit resolution is not modelled. Registers start at 0; the
  chip's own reset state is not modelled.
- IEEE-754 floating point: every quantity is an exact real. Float rounding,
  NaN and infinities are not modelled. For example, the defaults' tick counts
  1638.375 and 7208.85 are exact here.
- Python's dynamic typing: `read_channels` takes a datatype of one channel, a
  list or tuple of channels, or an unsupported argument. `bool` counting as
  `int` is not modelled. Angles and calibration voltages are reals, not
  arbitrary Python objects.
- Error messages use an ASCII hyphen where the source's `ValueError` text has
  an en dash.
