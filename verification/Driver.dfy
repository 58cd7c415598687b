/** The channel object and the methods that configure it in place (driver/_pwm.c:76-259 and
    driver/pwm_core.c:217-478), each proved to do what its value-level function says. */
module Driver {
  import opened Bits
  import opened Kernel
  import opened Words
  import opened Ticks
  import opened Encoding
  import C = Channel
  import R = Runs

  /** The register block of one channel. */
  class ChannelRegs {
    var ctrl: bv32
    var duty: Word
    var perval: Word
    var hold: Word
    var pulses: Word

    constructor (r: C.Regs)
      ensures View() == r
    {
      ctrl, duty, perval, hold, pulses := r.ctrl, r.duty, r.perval, r.hold, r.pulses;
    }

    function View(): C.Regs
      reads this
    {
      C.Regs(ctrl, duty, perval, hold, pulses)
    }

    /** Writing saved contents back. */
    method Load(r: C.Regs)
      modifies this
      ensures View() == r
    {
      duty := r.duty;
      perval := r.perval;
      hold := r.hold;
      pulses := r.pulses;
      ctrl := r.ctrl;
    }
  }

  /** A configuration record, which normalisation rewrites in place. */
  class ChannelConfig {
    var mask: bv32
    var dutyTicks: Word
    var periodTicks: Word
    var polarity: Int32
    var dutyNs: Word
    var periodNs: Word
    var dutyPercent: Int32

    constructor (c: C.Request)
      ensures View() == c
    {
      mask, dutyTicks, periodTicks, polarity := c.mask, c.dutyTicks, c.periodTicks, c.polarity;
      dutyNs, periodNs, dutyPercent := c.dutyNs, c.periodNs, c.dutyPercent;
    }

    function View(): C.Request
      reads this
    {
      C.Request(mask, dutyTicks, periodTicks, polarity, dutyNs, periodNs, dutyPercent)
    }
  }

  class PwmChannel {
    const regs: ChannelRegs
    var requested: bool
    var stopPending: bool
    var tickHz: Word
    var callback: bool
    var callbacks: nat
    var completed: bool
    var handler: Option<nat>
    var handlerData: Option<nat>
    var activeHigh: Int32
    var periodTicks: Word
    var dutyTicks: Word

    /** A zeroed channel (driver/pwm_core.c:54-63) over whatever its registers hold. */
    constructor (regs: ChannelRegs)
      ensures this.regs == regs
      ensures State() == C.Fresh(regs.View())
    {
      this.regs := regs;
      requested, stopPending, tickHz := false, false, 0;
      callback, callbacks, completed := false, 0, false;
      handler, handlerData := None, None;
      activeHigh, periodTicks, dutyTicks := 0, 0, 0;
    }

    function State(): C.Chan
      reads this, regs
    {
      C.Chan(regs.View(), requested, stopPending, tickHz, callback, callbacks, completed, handler, handlerData,
             activeHigh, periodTicks, dutyTicks)
    }

    /* ----- driver/_pwm.c ----- */

    method Start()
      modifies regs`ctrl
      ensures State() == C.Run(old(State()), true)
    {
      var value := regs.ctrl;
      value := value | (CNT_EN | PRT_OE);
      regs.ctrl := value;
    }

    method Stop()
      modifies regs`ctrl
      ensures State() == C.Run(old(State()), false)
    {
      hide Clear;
      var value := regs.ctrl;
      value := Clear(value, CNT_EN | PRT_OE);
      regs.ctrl := value;
    }

    method ConfigDutyTicks(c: ChannelConfig)
      modifies this`dutyTicks, regs`duty
      ensures State() == C.ConfigDuty(old(State()), c.dutyTicks)
    {
      hide Low18, PrescaleField;
      var value := regs.ctrl;
      var oldPrescale := PrescaleField(value);
      var duty := c.dutyTicks / (oldPrescale + 1);
      dutyTicks := c.dutyTicks;
      if dutyTicks == periodTicks {
        regs.duty := FULL_DUTY;
      } else {
        regs.duty := Low18(duty);
      }
    }

    method ConfigPeriodTicks(c: ChannelConfig) returns (ret: int)
      modifies this`periodTicks, regs`ctrl, regs`duty, regs`perval
      ensures State() == C.ConfigPeriod(old(State()), c.periodTicks)
      ensures ret == if 1 <= c.periodTicks <= PERIOD_MAX then 0 else -EINVAL
    {
      hide Low18, WithPrescale, PrescaleField, Wrap32;
      AcceptedPeriods(c.periodTicks);
      var prescale := Prescale(c.periodTicks);
      if prescale > PRESCALE_MAX {
        return -EINVAL;
      }
      var perval := c.periodTicks / (prescale + 1) - 1;
      periodTicks := c.periodTicks;
      var value := regs.ctrl;
      var oldPrescale := PrescaleField(value);
      if oldPrescale != prescale {
        regs.ctrl := WithPrescale(value, prescale);
        var duty := Wrap32(dutyTicks / (prescale + 1) - 1);
        regs.duty := Low18(duty);
      }
      if periodTicks == dutyTicks {
        regs.duty := FULL_DUTY;
      } else {
        regs.perval := Low18(perval);
      }
      ret := 0;
    }

    method ConfigPolarity(c: ChannelConfig)
      modifies this`activeHigh, regs`ctrl
      ensures State() == C.ConfigPolarity(old(State()), c.polarity)
    {
      hide Clear;
      var value := regs.ctrl;
      if c.polarity != 0 {
        value := Clear(value, PLS_POL);
      } else {
        value := value | PLS_POL;
      }
      regs.ctrl := value;
      activeHigh := c.polarity;
    }

    method DriverConfigNosleep(c: ChannelConfig) returns (ret: int)
      modifies this, regs
      ensures (State(), ret) == C.DriverConfig(old(State()), c.View())
    {
      if !Has(c.mask, START | STOP | PERIOD_TICKS | DUTY_TICKS | POLARITY) {
        return -EINVAL;
      }
      if Has(c.mask, START) {
        Start();
      }
      if Has(c.mask, STOP) {
        Stop();
      }
      if Has(c.mask, PERIOD_TICKS) {
        var dropped := ConfigPeriodTicks(c);
      }
      if Has(c.mask, DUTY_TICKS) {
        ConfigDutyTicks(c);
      }
      if Has(c.mask, POLARITY) {
        ConfigPolarity(c);
      }
      ret := 0;
    }

    /** The driver's config hook goes back through the core, and so normalises a second time. */
    method DriverConfig(c: ChannelConfig) returns (ret: int)
      modifies this, regs, c
      ensures (State(), ret) == C.ConfigNosleep(old(State()), old(c.View()))
      ensures c.View() == C.Normalise(old(State()), old(c.View()))
    {
      ret := ConfigNosleep(c);
    }

    /** What the interrupt does to a channel whose bit is set. */
    method Trigger()
      modifies this, regs
      ensures State() == R.Triggered(old(State()))
    {
      if callback {
        callbacks := callbacks + 1;
      }
      if stopPending {
        Stop();
        stopPending := false;
      }
      completed := true;
    }

    method SetCallback(on: bool)
      modifies this`callback
      ensures callback == on
    {
      callback := on;
    }

    /* ----- driver/pwm_core.c ----- */

    method ConfigNsToTicks(c: ChannelConfig)
      modifies c
      ensures c.View() == C.NormaliseNs(State(), old(c.View()))
    {
      if Has(c.mask, PERIOD_NS) {
        c.periodTicks := NsToTicks(tickHz, c.periodNs);
        c.mask := Exchange(c.mask, PERIOD_NS, PERIOD_TICKS);
      }
      if Has(c.mask, DUTY_NS) {
        c.dutyTicks := NsToTicks(tickHz, c.dutyNs);
        c.mask := Exchange(c.mask, DUTY_NS, DUTY_TICKS);
      }
    }

    method ConfigPercentToTicks(c: ChannelConfig)
      modifies c
      ensures c.View() == C.NormalisePercent(State(), old(c.View()))
    {
      if Has(c.mask, DUTY_PERCENT) {
        if Has(c.mask, PERIOD_TICKS) {
          c.dutyTicks := c.periodTicks;
        } else {
          c.dutyTicks := periodTicks;
        }
        c.dutyTicks := C.PercentOf(c.dutyTicks, c.dutyPercent);
        c.mask := Exchange(c.mask, DUTY_PERCENT, DUTY_TICKS);
      }
    }

    method ConfigNosleep(c: ChannelConfig) returns (ret: int)
      modifies this, regs, c
      ensures (State(), ret) == C.ConfigNosleep(old(State()), old(c.View()))
      ensures c.View() == C.Normalise(old(State()), old(c.View()))
    {
      ConfigNsToTicks(c);
      ConfigPercentToTicks(c);
      ret := DriverConfigNosleep(c);
    }

    /** `pwm_config`. A refused request leaves the channel alone. */
    method Config(c: ChannelConfig) returns (ret: int)
      modifies this, regs, c
      ensures (State(), ret) == C.Config(old(State()), old(c.View()))
      ensures c.View() == C.Normalise(old(State()), old(c.View()))
    {
      C.ChecksWhatItWrites(State(), c.View());
      ConfigNsToTicks(c);
      ConfigPercentToTicks(c);
      ret := 0;
      if Has(c.mask, PERIOD_TICKS) && !Has(c.mask, DUTY_TICKS) {
        if dutyTicks > c.periodTicks {
          ret := -EINVAL;
        }
      } else if !Has(c.mask, PERIOD_TICKS) && Has(c.mask, DUTY_TICKS) {
        if periodTicks < c.dutyTicks {
          ret := -EINVAL;
        }
      } else if Has(c.mask, PERIOD_TICKS) && Has(c.mask, DUTY_TICKS) {
        if c.dutyTicks > c.periodTicks {
          ret := -EINVAL;
        }
      }
      if ret == 0 {
        ret := DriverConfig(c);
      }
    }

    method SetPeriodNs(ns: Word) returns (ret: int)
      modifies this, regs
      ensures (State(), ret) == C.SetPeriodNs(old(State()), ns)
    {
      var c := new ChannelConfig(C.EMPTY_REQUEST.(mask := PERIOD_TICKS, periodTicks := NsToTicks(tickHz, ns)));
      ret := Config(c);
    }

    method SetDutyNs(ns: Word) returns (ret: int)
      modifies this, regs
      ensures (State(), ret) == C.SetDutyNs(old(State()), ns)
    {
      var c := new ChannelConfig(C.EMPTY_REQUEST.(mask := DUTY_TICKS, dutyTicks := NsToTicks(tickHz, ns)));
      ret := Config(c);
    }

    method SetDutyPercent(percent: Int32) returns (ret: int)
      modifies this, regs
      ensures (State(), ret) == C.SetDutyPercent(old(State()), percent)
    {
      var c := new ChannelConfig(C.EMPTY_REQUEST.(mask := DUTY_PERCENT, dutyPercent := percent));
      ret := Config(c);
    }

    method SetPolarity(on: Int32) returns (ret: int)
      modifies this, regs
      ensures (State(), ret) == C.SetPolarity(old(State()), on)
    {
      var c := new ChannelConfig(C.EMPTY_REQUEST.(mask := POLARITY, polarity := if on != 0 then 1 else 0));
      ret := Config(c);
    }

    method StartChannel() returns (ret: int)
      modifies this, regs
      ensures (State(), ret) == C.StartChannel(old(State()))
    {
      var c := new ChannelConfig(C.EMPTY_REQUEST.(mask := START));
      ret := Config(c);
    }

    method StopChannel() returns (ret: int)
      modifies this, regs
      ensures (State(), ret) == C.StopChannel(old(State()))
    {
      var c := new ChannelConfig(C.EMPTY_REQUEST.(mask := STOP));
      ret := Config(c);
    }

    method SetHandler(h: Option<nat>, data: Option<nat>)
      modifies this
      ensures State() == R.SetHandler(old(State()), h, data)
    {
      handlerData := data;
      handler := h;
      SetCallback(h.Some?);
    }

    /** The queued work: run the handler, if there still is one, and stop when it says so. */
    method Handler(answer: bool)
      modifies this, regs
      ensures State() == R.Apply(old(State()), R.Work(answer))
    {
      if handler.Some? && answer {
        var ret := StopChannel();
      }
    }

    /** `__pwm_request_channel`, with `hook` the answer of the device's own request hook and `hz`
        the clock that hook stores when it succeeds. */
    method RequestChannel(hz: Word, hook: int) returns (ret: int)
      modifies this
      ensures ret == if old(requested) then -EBUSY else hook
      ensures State() == if ret == 0 && !old(requested) then R.Granted(old(State()), hz) else old(State())
    {
      if requested {
        return -EBUSY;
      }
      requested := true;
      if hook != 0 {
        requested := false;
        return hook;
      }
      tickHz := hz;
      ret := 0;
    }

    /** The part of `pwm_release` that concerns the channel; `dropped` tells whether a grant was
        given back. */
    method ReleaseChannel() returns (dropped: bool)
      modifies this, regs
      ensures dropped == old(requested)
      ensures State() == R.Apply(old(State()), R.Retire)
    {
      dropped := requested;
      if requested {
        requested := false;
        var ret := StopChannel();
        SetHandler(None, None);
      }
    }
  }
}
