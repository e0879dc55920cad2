/** Actuator control: the vibration (trickler) motor driven by a PWM duty cycle
    and the powder-measure servo driven by a pulse width.  The GPIO/pigpio
    devices are modelled by the state they hold and by a log of the commands
    sent to them, so that the order of the exit routine can be stated. */
module Motors {
  import opened Store

  // ---------------------------------------------------------------------------
  // Pure parts of the motor's speed computation

  /** Python's int() on a number: truncation toward zero. */
  function Trunc(t: real): (n: int)
    ensures 0.0 <= t ==> n as real <= t < n as real + 1.0
    ensures t < 0.0 ==> n as real - 1.0 < t <= n as real
  {
    if t >= 0.0 then t.Floor else -((-t).Floor)
  }

  /** max(min(x, hi), lo): clamp into [lo, hi]; when lo > hi the lower bound wins. */
  function Clamp(x: real, lo: real, hi: real): (r: real)
    ensures lo <= r
    ensures lo <= hi ==> r <= hi
    ensures lo <= x <= hi ==> r == x
    ensures x < lo ==> r == lo
    ensures lo <= hi < x ==> r == hi
    ensures hi < lo ==> r == lo
  {
    var m := if hi < x then hi else x;
    if m < lo then lo else m
  }

  /** The duty cycle the motor accepts: exactly the closed interval [0, 1]. */
  predicate InDutyRange(s: real) {
    0.0 <= s <= 1.0
  }

  /** The speed `update(target_pwm)` hands to `set_speed`: the truncated percent
      command, clamped to [minPwm, maxPwm] and scaled to a fraction. */
  function UpdateRequest(t: real, minPwm: real, maxPwm: real): (s: real)
    ensures minPwm <= maxPwm ==> minPwm / 100.0 <= s <= maxPwm / 100.0
    ensures minPwm <= maxPwm && minPwm <= Trunc(t) as real <= maxPwm ==> s == Trunc(t) as real / 100.0
    ensures 0.0 <= minPwm <= maxPwm <= 100.0 ==> InDutyRange(s)
  {
    Clamp(Trunc(t) as real, minPwm, maxPwm) / 100.0
  }

  /** The duty cycle after `set_speed(s)` from `current`: accepted or rejected, never clamped. */
  function SpeedAfter(current: real, s: real): (r: real)
    ensures InDutyRange(s) ==> r == s
    ensures !InDutyRange(s) ==> r == current
  {
    if InDutyRange(s) then s else current
  }

  /** The store after `set_speed(s)`: the speed key is written only on acceptance. */
  function StoreAfter(data: map<string, Value>, key: string, s: real): (r: map<string, Value>)
    ensures InDutyRange(s) ==> key in r && r[key] == Num(s)
    ensures forall k :: k != key ==> Lookup(r, k, Flag(false)) == Lookup(data, k, Flag(false)) && (k in r <==> k in data)
    ensures !InDutyRange(s) ==> r == data
  {
    if InDutyRange(s) then data[key := Num(s)] else data
  }

  /** update(t) twice leaves the same speed and store as update(t) once. */
  lemma UpdateIdempotent(current: real, data: map<string, Value>, key: string, t: real, minPwm: real, maxPwm: real)
    ensures var s := UpdateRequest(t, minPwm, maxPwm);
            SpeedAfter(SpeedAfter(current, s), s) == SpeedAfter(current, s)
            && StoreAfter(StoreAfter(data, key, s), key, s) == StoreAfter(data, key, s)
  {
  }

  // ---------------------------------------------------------------------------
  // TricklerMotor

  /** A command sent to the PWM output device: a new duty cycle, or closing the pin. */
  datatype PwmCommand = Duty(value: real) | Close

  /** The duty cycle most recently written in `log` (a fresh device starts at 0). */
  function LastDuty(log: seq<PwmCommand>): (v: real)
    ensures log == [] ==> v == 0.0
    ensures log != [] && log[|log| - 1].Duty? ==> v == log[|log| - 1].value
  {
    if log == [] then 0.0
    else if log[|log| - 1].Duty? then log[|log| - 1].value
    else LastDuty(log[..|log| - 1])
  }

  /** The pin was closed exactly once, as the last command, right after the output was set to zero. */
  predicate ClosedAtZero(log: seq<PwmCommand>) {
    |log| >= 2 && log[|log| - 1] == Close && log[|log| - 2] == Duty(0.0) && Close !in log[..|log| - 1]
  }

  class TricklerMotor {
    const pin: int
    const minPwm: real
    const maxPwm: real
    /** The store key configured for TRICKLER_MOTOR_SPEED. */
    const speedKey: string
    /** The memcache client, or null when none was passed in. */
    const memcache: Memcache?

    /** The PWM device's duty cycle (`pwm.value`). */
    var value: real
    /** Every command sent to the PWM device, oldest first. */
    var log: seq<PwmCommand>
    var closed: bool

    ghost predicate Valid()
      reads this
    {
      && InDutyRange(value)
      && (if closed then ClosedAtZero(log) && value == 0.0
          else Close !in log && value == LastDuty(log))
    }

    constructor (pin: int, minPwm: real, maxPwm: real, speedKey: string, memcache: Memcache?)
      ensures Valid() && !closed
      ensures this.pin == pin && this.minPwm == minPwm && this.maxPwm == maxPwm
      ensures this.speedKey == speedKey && this.memcache == memcache
      ensures value == 0.0 && log == []
    {
      this.pin := pin;
      this.minPwm := minPwm;
      this.maxPwm := maxPwm;
      this.speedKey := speedKey;
      this.memcache := memcache;
      value := 0.0;
      log := [];
      closed := false;
    }

    /** The `speed` property: the device's current duty cycle. */
    function Speed(): (s: real)
      reads this
      requires Valid()
      ensures InDutyRange(s)
      ensures !closed ==> s == LastDuty(log)
    {
      value
    }

    /** Accepts a duty cycle in [0, 1] (drives the device, publishes it when a
        client is attached); rejects anything else and changes nothing. */
    method SetSpeed(s: real)
      requires Valid() && !closed
      modifies this, memcache
      ensures Valid() && !closed
      ensures value == SpeedAfter(old(value), s)
      ensures log == if InDutyRange(s) then old(log) + [Duty(s)] else old(log)
      ensures memcache != null ==> memcache.data == StoreAfter(old(memcache.data), speedKey, s)
    {
      if 0.0 <= s <= 1.0 {
        value := s;
        log := log + [Duty(s)];
        if memcache != null {
          memcache.Set(speedKey, Num(value));
        }
      }
    }

    /** Clamps a percent command and forwards it to SetSpeed. */
    method Update(t: real)
      requires Valid() && !closed
      modifies this, memcache
      ensures Valid() && !closed
      ensures value == SpeedAfter(old(value), UpdateRequest(t, minPwm, maxPwm))
      ensures 0.0 <= minPwm <= maxPwm <= 100.0 ==>
                value == UpdateRequest(t, minPwm, maxPwm) && minPwm / 100.0 <= value <= maxPwm / 100.0
      ensures log == if InDutyRange(UpdateRequest(t, minPwm, maxPwm))
                     then old(log) + [Duty(UpdateRequest(t, minPwm, maxPwm))] else old(log)
      ensures memcache != null ==>
                memcache.data == StoreAfter(old(memcache.data), speedKey, UpdateRequest(t, minPwm, maxPwm))
    {
      var target := Clamp(Trunc(t) as real, minPwm, maxPwm);
      SetSpeed(target / 100.0);
    }

    /** Turns the motor off through SetSpeed, so the zero speed is published. */
    method Off()
      requires Valid() && !closed
      modifies this, memcache
      ensures Valid() && !closed
      ensures value == 0.0 && log == old(log) + [Duty(0.0)]
      ensures memcache != null ==> memcache.data == old(memcache.data)[speedKey := Num(0.0)]
    {
      SetSpeed(0.0);
    }

    /** The exit routine: zero output on the device itself, then close the pin.
        It goes around SetSpeed, so nothing is published to the store. */
    method GracefulExit()
      requires Valid() && !closed
      modifies this
      ensures Valid() && closed
      ensures value == 0.0 && log == old(log) + [Duty(0.0), Close]
    {
      value := 0.0;
      log := log + [Duty(0.0)];
      log := log + [Close];
      closed := true;
    }
  }

  // ---------------------------------------------------------------------------
  // ServoMotor

  /** min_pulse_width + (angle / max_angle) * (max_pulse_width - min_pulse_width):
      linear interpolation with no clamping of the angle.  None stands for the
      ZeroDivisionError raised when max_angle is 0. */
  function PulseWidth(angle: real, maxAngle: real, minPulse: real, maxPulse: real): (p: Option<real>)
    ensures p.None? <==> maxAngle == 0.0
    ensures p.Some? ==> (p.value - minPulse) * maxAngle == angle * (maxPulse - minPulse)
  {
    if maxAngle == 0.0 then None
    else
      var frac := angle / maxAngle;
      assert frac * maxAngle == angle;
      Some(minPulse + frac * (maxPulse - minPulse))
  }

  /** The end points: angle 0 gives the minimum pulse, max_angle the maximum. */
  lemma PulseEndPoints(maxAngle: real, minPulse: real, maxPulse: real)
    requires maxAngle != 0.0
    ensures PulseWidth(0.0, maxAngle, minPulse, maxPulse) == Some(minPulse)
    ensures PulseWidth(maxAngle, maxAngle, minPulse, maxPulse) == Some(maxPulse)
  {
    assert maxAngle / maxAngle == 1.0;
  }

  /** The pulse grows with the angle when the pulse range is increasing. */
  lemma PulseMonotone(a1: real, a2: real, maxAngle: real, minPulse: real, maxPulse: real)
    requires 0.0 < maxAngle && minPulse <= maxPulse && a1 <= a2
    ensures PulseWidth(a1, maxAngle, minPulse, maxPulse).value <= PulseWidth(a2, maxAngle, minPulse, maxPulse).value
  {
  }

  /** No clamping: an angle beyond max_angle commands a pulse beyond the maximum
      pulse, and a negative angle one below the minimum pulse. */
  lemma PulseNotClamped(angle: real, maxAngle: real, minPulse: real, maxPulse: real)
    requires 0.0 < maxAngle && minPulse < maxPulse
    ensures maxAngle < angle ==> PulseWidth(angle, maxAngle, minPulse, maxPulse).value > maxPulse
    ensures angle < 0.0 ==> PulseWidth(angle, maxAngle, minPulse, maxPulse).value < minPulse
  {
    var d := maxPulse - minPulse;
    var offset := PulseWidth(angle, maxAngle, minPulse, maxPulse).value - minPulse;
    if maxAngle < angle {
      assert (offset - d) * maxAngle == (angle - maxAngle) * d;
      assert 0.0 < (angle - maxAngle) * d;
    }
    if angle < 0.0 {
      assert offset * maxAngle == angle * d;
      assert angle * d < 0.0;
    }
  }

  /** A command sent to pigpio: a pulse width on a pin (0 stops the pulses), or releasing pigpio. */
  datatype ServoCommand = Pulse(pin: int, width: real) | Release

  /** The command log ends with pulses switched off and then pigpio released. */
  predicate RestThenRelease(commands: seq<ServoCommand>, pin: int) {
    |commands| >= 2 && commands[|commands| - 1] == Release && commands[|commands| - 2] == Pulse(pin, 0.0)
  }

  class ServoMotor {
    const pin: int
    const servoAngle: real
    const initialAngle: real
    const maxAngle: real
    const minPulseWidth: real
    const maxPulseWidth: real

    /** Every command sent to pigpio, oldest first. */
    var commands: seq<ServoCommand>
    var stopped: bool

    constructor (pin: int, servoAngle: real, initialAngle: real, maxAngle: real,
                 minPulseWidth: real, maxPulseWidth: real)
      ensures this.pin == pin && this.servoAngle == servoAngle && this.initialAngle == initialAngle
      ensures this.maxAngle == maxAngle
      ensures this.minPulseWidth == minPulseWidth && this.maxPulseWidth == maxPulseWidth
      ensures commands == [] && !stopped
    {
      this.pin := pin;
      this.servoAngle := servoAngle;
      this.initialAngle := initialAngle;
      this.maxAngle := maxAngle;
      this.minPulseWidth := minPulseWidth;
      this.maxPulseWidth := maxPulseWidth;
      commands := [];
      stopped := false;
    }

    /** Commands the pulse width for `angle`; fails (ok == false, nothing sent) when max_angle is 0. */
    method MoveTo(angle: real) returns (ok: bool)
      requires !stopped
      modifies this
      ensures !stopped
      ensures ok <==> maxAngle != 0.0
      ensures ok ==> commands == old(commands) + [Pulse(pin, PulseWidth(angle, maxAngle, minPulseWidth, maxPulseWidth).value)]
      ensures !ok ==> commands == old(commands)
    {
      if maxAngle == 0.0 {
        return false;
      }
      var width := minPulseWidth + (angle / maxAngle) * (maxPulseWidth - minPulseWidth);
      assert PulseWidth(angle, maxAngle, minPulseWidth, maxPulseWidth) == Some(width);
      commands := commands + [Pulse(pin, width)];
      return true;
    }

    /** set_initial_angle: moves to the configured initial angle. */
    method SetInitialAngle() returns (ok: bool)
      requires !stopped
      modifies this
      ensures !stopped
      ensures ok <==> maxAngle != 0.0
      ensures ok ==> commands == old(commands) + [Pulse(pin, PulseWidth(initialAngle, maxAngle, minPulseWidth, maxPulseWidth).value)]
      ensures !ok ==> commands == old(commands)
    {
      ok := MoveTo(initialAngle);
    }

    /** run_servo: moves to the configured working angle. */
    method RunServo() returns (ok: bool)
      requires !stopped
      modifies this
      ensures !stopped
      ensures ok <==> maxAngle != 0.0
      ensures ok ==> commands == old(commands) + [Pulse(pin, PulseWidth(servoAngle, maxAngle, minPulseWidth, maxPulseWidth).value)]
      ensures !ok ==> commands == old(commands)
    {
      ok := MoveTo(servoAngle);
    }

    /** Pulse width 0: the servo stops receiving pulses. */
    method Off()
      requires !stopped
      modifies this
      ensures !stopped && commands == old(commands) + [Pulse(pin, 0.0)]
    {
      commands := commands + [Pulse(pin, 0.0)];
    }

    /** Releases pigpio. */
    method Stop()
      requires !stopped
      modifies this
      ensures stopped && commands == old(commands) + [Release]
    {
      commands := commands + [Release];
      stopped := true;
    }

    /** The exit routine: switch the pulses off, then release pigpio. */
    method GracefulExit()
      requires !stopped
      modifies this
      ensures stopped && commands == old(commands) + [Pulse(pin, 0.0), Release]
      ensures RestThenRelease(commands, pin)
    {
      Off();
      Stop();
    }
  }
}
