/** Whole runs of one channel: everything that can happen to it, from configuration calls to
    interrupts, and what holds after any sequence of them. */
module Runs {
  import opened Bits
  import opened Kernel
  import opened Words
  import opened Ticks
  import opened Encoding
  import opened Channel
  import opened Refinement

  /** What happens to a channel.
      - `Configure`: `pwm_config`, by any caller
      - `Grant`: a successful request; the hook stores the clock (driver/_pwm.c:210-218)
      - `Retire`: a release (driver/pwm_core.c:198-214)
      - `Handle`: `pwm_set_handler` (driver/pwm_core.c:466-477)
      - `Trigger`: its bit in an interrupt (driver/_pwm.c:291-302)
      - `Work`: the queued handler runs and answers (driver/pwm_core.c:453-459)
      - `Reload`: its registers get other contents, by a resume (driver/_pwm.c:342-360) or by a loss
        of power */
  datatype Event =
    | Configure(c: Request)
    | Grant(hz: Word)
    | Retire
    | Handle(handler: Option<nat>, data: Option<nat>)
    | Trigger
    | Work(answer: bool)
    | Reload(regs: Regs)

  function SetHandler(s: Chan, handler: Option<nat>, data: Option<nat>): Chan {
    s.(handlerData := data, handler := handler, callback := handler.Some?)
  }

  function Granted(s: Chan, hz: Word): Chan {
    s.(requested := true, tickHz := hz)
  }

  function Released(s: Chan): Chan {
    SetHandler(StopChannel(s.(requested := false)).0, None, None)
  }

  function Triggered(s: Chan): Chan {
    var s1 := if s.callback then s.(callbacks := s.callbacks + 1) else s;
    var s2 := if s1.stopPending then Run(s1, false).(stopPending := false) else s1;
    s2.(completed := true)
  }

  function Apply(s: Chan, e: Event): Chan {
    match e
    case Configure(c) => Config(s, c).0
    case Grant(hz) => if s.requested then s else Granted(s, hz)
    case Retire => if s.requested then Released(s) else s
    case Handle(h, d) => SetHandler(s, h, d)
    case Trigger => Triggered(s)
    case Work(answer) => if s.handler.Some? && answer then StopChannel(s).0 else s
    case Reload(regs) => s.(regs := regs)
  }

  /** The channel after the first `i` events of a run. */
  function StateAt(s: Chan, events: seq<Event>, i: nat): Chan
    requires i <= |events|
  {
    if i == 0 then s else Apply(StateAt(s, events, i - 1), events[i - 1])
  }

  /** `pwm_start` and `pwm_stop` always succeed and do just that. */
  lemma StartStop(s: Chan)
    ensures StartChannel(s) == (Run(s, true), 0)
    ensures StopChannel(s) == (Run(s, false), 0)
  {
  }

  /** Whether an event other than a configuration stops the channel. */
  predicate Stops(s: Chan, e: Event) {
    match e
    case Retire => s.requested
    case Trigger => s.stopPending
    case Work(answer) => s.handler.Some? && answer
    case _ => false
  }

  /** Events other than configurations do no more to what was configured than stopping the channel; a
      reload leaves the settings alone; and only requests and releases change the flag and the clock. */
  lemma OtherEvents(s: Chan, e: Event)
    requires !e.Configure?
    ensures var z := Apply(s, e);
            && z.regs == (if e.Reload? then e.regs else if Stops(s, e) then Run(s, false).regs else s.regs)
            && z.period == s.period && z.duty == s.duty && z.activeHigh == s.activeHigh
            && (z.requested <==> e.Grant? || (s.requested && !e.Retire?))
            && z.tickHz == (if e.Grant? && !s.requested then e.hz else s.tickHz)
  {
    hide WithRun, StopChannel;
    match e
    case Retire => StartStop(s.(requested := false));
    case Work(_) => StartStop(s);
    case _ =>
  }

  /** The remaining fields of a channel after such an event: what a handler, a release or an interrupt
      changes of them, and that nothing else does. */
  lemma OtherState(s: Chan, e: Event)
    requires !e.Configure?
    ensures var z := Apply(s, e);
            && z.callback == (if e.Handle? then e.handler.Some? else if Frees(s, e) then false else s.callback)
            && z.handler == (if e.Handle? then e.handler else if Frees(s, e) then None else s.handler)
            && z.handlerData == (if e.Handle? then e.data else if Frees(s, e) then None else s.handlerData)
            && z.callbacks == s.callbacks + (if e.Trigger? && s.callback then 1 else 0)
            && (z.completed <==> s.completed || e.Trigger?)
            && (z.stopPending <==> s.stopPending && !e.Trigger?)
  {
    hide WithRun, StopChannel;
    match e
    case Retire => StartStop(s.(requested := false));
    case Work(_) => StartStop(s);
    case _ =>
  }

  /** The event gives the channel up. */
  predicate Frees(s: Chan, e: Event) {
    e.Retire? && s.requested
  }

  /** A handler that is installed is called back once by an interrupt, and stops the channel when it
      runs and says so; one that is not is neither. */
  lemma HandlerRuns(s: Chan, h: Option<nat>, data: Option<nat>, answer: bool)
    ensures var z := Apply(s, Handle(h, data));
            && z.handler == h && z.handlerData == data && z.regs == s.regs
            && Apply(z, Trigger).callbacks == s.callbacks + (if h.Some? then 1 else 0)
            && Apply(z, Work(answer)) == (if h.Some? && answer then Run(z, false) else z)
  {
    hide WithRun;
    StartStop(SetHandler(s, h, data));
  }

  /** `z` differs from `s` only in what configuration sets: of the registers, the control, the duty
      and the period register. */
  predicate Framed(s: Chan, z: Chan) {
    z == s.(period := z.period, duty := z.duty, activeHigh := z.activeHigh,
            regs := s.regs.(ctrl := z.regs.ctrl, duty := z.regs.duty, perval := z.regs.perval))
  }

  lemma FramedSteps(s: Chan, on: bool, ticks: Word, polarity: Int32)
    ensures Framed(s, Run(s, on)) && Framed(s, ConfigPolarity(s, polarity))
    ensures Framed(s, ConfigPeriod(s, ticks)) && Framed(s, ConfigDuty(s, ticks))
  {
  }

  lemma FramedTrans(s: Chan, m: Chan, z: Chan)
    requires Framed(s, m) && (m == z || Framed(m, z))
    ensures Framed(s, z)
  {
  }

  /** A configuration call touches the registers, the period, the duty and the polarity only. */
  lemma ConfigFrame(s: Chan, c: Request)
    ensures Framed(s, Config(s, c).0)
  {
    FramedSelf(s);
    hide Run, ConfigPeriod, ConfigDuty, ConfigPolarity, Normalise, Admissible, Has, Framed;
    ChecksWhatItWrites(s, c);
    var n := Normalise(s, c);
    var s1 := if Has(n.mask, START) then Run(s, true) else s;
    FramedSteps(s, true, 0, 0);
    FramedTrans(s, s, s1);
    var s2 := if Has(n.mask, STOP) then Run(s1, false) else s1;
    FramedSteps(s1, false, 0, 0);
    FramedTrans(s, s1, s2);
    var s3 := if Has(n.mask, PERIOD_TICKS) then ConfigPeriod(s2, n.periodTicks) else s2;
    FramedSteps(s2, true, n.periodTicks, 0);
    FramedTrans(s, s2, s3);
    var s4 := if Has(n.mask, DUTY_TICKS) then ConfigDuty(s3, n.dutyTicks) else s3;
    FramedSteps(s3, true, n.dutyTicks, 0);
    FramedTrans(s, s3, s4);
    var s5 := if Has(n.mask, POLARITY) then ConfigPolarity(s4, n.polarity) else s4;
    FramedSteps(s4, true, 0, n.polarity);
    FramedTrans(s, s4, s5);
  }

  lemma FramedSelf(s: Chan)
    ensures Framed(s, s)
  {
  }

  /* ----- callbacks ----- */

  /** Whether a callback is installed after the first `n` events of a run: whether the last change of
      handler installed one, and the channel was not given up since. */
  predicate InstalledAt(s: Chan, events: seq<Event>, n: nat)
    requires n <= |events|
  {
    if n == 0 then s.callback
    else
      match events[n - 1]
      case Handle(h, _) => h.Some?
      case Retire => !StateAt(s, events, n - 1).requested && InstalledAt(s, events, n - 1)
      case _ => InstalledAt(s, events, n - 1)
  }

  /** The interrupts among the first `n` events that find a callback installed. */
  function Calls(s: Chan, events: seq<Event>, n: nat): nat
    requires n <= |events|
  {
    if n == 0 then 0
    else Calls(s, events, n - 1) + if events[n - 1].Trigger? && InstalledAt(s, events, n - 1) then 1 else 0
  }

  /** Over every run from every state: a callback stays installed until it is replaced, removed or the
      channel is given up, and it is called once by each interrupt in the meantime. */
  lemma {:induction false} CallbacksOverRuns(s: Chan, events: seq<Event>, n: nat)
    requires n <= |events|
    ensures StateAt(s, events, n).callback <==> InstalledAt(s, events, n)
    ensures StateAt(s, events, n).callbacks == s.callbacks + Calls(s, events, n)
  {
    hide Apply;
    if n > 0 {
      CallbacksOverRuns(s, events, n - 1);
      var before := StateAt(s, events, n - 1);
      var e := events[n - 1];
      if e.Configure? {
        ConfigApplied(before, e);
        ConfigFrame(before, e.c);
      } else {
        OtherEvents(before, e);
        OtherState(before, e);
      }
    }
  }

  /* ----- register refinement ----- */

  /** Whether an event keeps right registers right. */
  predicate HarmlessAt(s: Chan, e: Event) {
    match e
    case Configure(c) => var n := Normalise(s, c); !Admissible(s, n) || Keeps(s, n)
    case Reload(regs) => Encodes(regs, s.period, s.duty)
    case _ => true
  }

  /** Whether the registers are right after an event, from any state at all. */
  predicate RightNext(s: Chan, e: Event) {
    match e
    case Configure(c) => var n := Normalise(s, c); if Admissible(s, n) then RightAfter(s, n) else Refines(s)
    case Reload(regs) => 1 <= s.period <= PERIOD_MAX && s.duty <= s.period && Encodes(regs, s.period, s.duty)
    case _ => Refines(s)
  }

  lemma StepRefines(s: Chan, e: Event)
    ensures Refines(Apply(s, e)) <==> RightNext(s, e)
  {
    hide Apply, Run, Encodes, RightAfter, Normalise, Admissible;
    if e.Configure? {
      hide Refines;
      ConfigApplied(s, e);
      ConfigRefines(s, e.c);
    } else if e.Reload? {
      OtherEvents(s, e);
    } else {
      hide Refines;
      OtherEvents(s, e);
      var z := if Stops(s, e) then Run(s, false) else s;
      ControlStep(s, false, 0);
      RunKeepsTiming(s, false);
      RefinesTiming(z, Apply(s, e));
    }
  }

  /** From right registers, they stay right exactly when the event is harmless. */
  lemma StepKeepsRefinement(s: Chan, e: Event)
    requires Refines(s)
    ensures Refines(Apply(s, e)) <==> HarmlessAt(s, e)
  {
    hide Apply, Encodes, RightAfter, Keeps, Normalise, Admissible;
    StepRefines(s, e);
    if e.Configure? && Admissible(s, Normalise(s, e.c)) {
      RightAfterRight(s, Normalise(s, e.c));
    }
  }

  lemma ConfigApplied(s: Chan, e: Event)
    requires e.Configure?
    ensures Apply(s, e) == Config(s, e.c).0
  {
  }

  lemma RefinesTiming(s: Chan, z: Chan)
    requires s.regs == z.regs && s.period == z.period && s.duty == z.duty
    ensures Refines(s) <==> Refines(z)
  {
    hide Encodes;
  }

  /** The registers are right after each of the events from the `i`-th on. */
  ghost predicate RightFrom(s: Chan, events: seq<Event>, i: nat, n: nat)
    requires n <= |events|
  {
    forall j :: i <= j <= n ==> Refines(StateAt(s, events, j))
  }

  ghost predicate HarmlessFrom(s: Chan, events: seq<Event>, i: nat, n: nat)
    requires n <= |events|
  {
    forall j :: i <= j < n ==> HarmlessAt(StateAt(s, events, j), events[j])
  }

  /** Over whole runs from any state: from any point on, the registers encode the stored period and
      duty throughout exactly when they do at that point and every later configuration and reload
      keeps them, judged where it happens. */
  lemma {:induction false} RefinementOverRuns(s: Chan, events: seq<Event>, i: nat, n: nat)
    requires i <= n <= |events|
    ensures RightFrom(s, events, i, n) <==> Refines(StateAt(s, events, i)) && HarmlessFrom(s, events, i, n)
    decreases n
  {
    hide Apply, HarmlessAt, Refines;
    if i < n {
      RefinementOverRuns(s, events, i, n - 1);
      var before := StateAt(s, events, n - 1);
      assert StateAt(s, events, n) == Apply(before, events[n - 1]);
      if Refines(before) {
        StepKeepsRefinement(before, events[n - 1]);
      }
    }
  }

  /** What an admitted driver call does to the stored period and duty. */
  lemma PartsTiming(s: Chan, n: Request)
    ensures var z := Parts(s, n);
            && z.period == (if Has(n.mask, PERIOD_TICKS) && 1 <= n.periodTicks <= PERIOD_MAX then n.periodTicks
                            else s.period)
            && z.duty == (if Has(n.mask, DUTY_TICKS) then n.dutyTicks else s.duty)
  {
    AcceptedPeriods(n.periodTicks);
  }

  /** An admitted configuration with an accepted period and a duty. */
  predicate IsUpdate(s: Chan, e: Event) {
    e.Configure? &&
    var n := Normalise(s, e.c);
    Admissible(s, n) && Has(n.mask, PERIOD_TICKS) && Has(n.mask, DUTY_TICKS) && 1 <= n.periodTicks <= PERIOD_MAX
  }

  /** The period of a configuration is written, or was so already. */
  predicate WritesPeriod(s: Chan, e: Event) {
    e.Configure? &&
    var n := Normalise(s, e.c);
    n.periodTicks != s.duty || s.regs.perval == PeriodCount(n.periodTicks)
  }

  /** From an accepted update of period and duty on, whatever the channel was before, the registers
      are right throughout exactly when the update wrote its period or found it written, and every
      later event is harmless. */
  lemma RightFromUpdate(s: Chan, events: seq<Event>, i: nat, n: nat)
    requires i < n <= |events| && IsUpdate(StateAt(s, events, i), events[i])
    ensures RightFrom(s, events, i + 1, n)
            <==> WritesPeriod(StateAt(s, events, i), events[i]) && HarmlessFrom(s, events, i + 1, n)
  {
    hide Apply, HarmlessAt, Refines, Normalise, Admissible, Has, PeriodCount, RightFrom, HarmlessFrom;
    var before := StateAt(s, events, i);
    assert StateAt(s, events, i + 1) == Apply(before, events[i]);
    StepRefines(before, events[i]);
    RefinementOverRuns(s, events, i + 1, n);
  }

  /** Whether an event stores a duty. */
  predicate StoresDuty(s: Chan, e: Event) {
    e.Configure? &&
    var n := Normalise(s, e.c);
    Admissible(s, n) && Has(n.mask, DUTY_TICKS)
  }

  lemma KeepsDuty(s: Chan, e: Event)
    requires !StoresDuty(s, e)
    ensures Apply(s, e).duty == s.duty
  {
    hide Apply, Run, Parts, DriverConfig, Normalise, Admissible;
    if e.Configure? {
      ConfigApplied(s, e);
      ChecksWhatItWrites(s, e.c);
      DriverParts(s, Normalise(s, e.c));
      PartsTiming(s, Normalise(s, e.c));
    } else {
      OtherEvents(s, e);
    }
  }

  lemma {:induction false} DutyUntouched(s: Chan, events: seq<Event>, i: nat)
    requires i <= |events| && forall j :: 0 <= j < i ==> !StoresDuty(StateAt(s, events, j), events[j])
    ensures StateAt(s, events, i).duty == s.duty
  {
    hide Apply, StoresDuty;
    if i > 0 {
      DutyUntouched(s, events, i - 1);
      KeepsDuty(StateAt(s, events, i - 1), events[i - 1]);
    }
  }

  /** On a channel of any registers whose duty is zero, as on one just opened: if the first event that
      stores a duty is an accepted update of period and duty, then from there on the registers are
      right throughout exactly when every later event is harmless. */
  lemma RightFromFirstDuty(s: Chan, events: seq<Event>, i: nat, n: nat)
    requires s.duty == 0 && i < n <= |events|
    requires forall j :: 0 <= j < i ==> !StoresDuty(StateAt(s, events, j), events[j])
    requires IsUpdate(StateAt(s, events, i), events[i])
    ensures RightFrom(s, events, i + 1, n) <==> HarmlessFrom(s, events, i + 1, n)
  {
    hide Apply, StoresDuty, HarmlessAt, Normalise, Admissible, Has, StateAt, RightFrom, HarmlessFrom;
    DutyUntouched(s, events, i);
    RightFromUpdate(s, events, i, n);
  }

  /* ----- the stored duty never exceeds the stored period ----- */

  predicate Ordered(s: Chan) {
    s.duty <= s.period <= PERIOD_MAX
  }

  /** The one way to break the order: a combined update whose period the driver refuses as too
      long, with a duty above the period that stays in force. */
  predicate DisordersAt(s: Chan, e: Event) {
    e.Configure? &&
    var n := Normalise(s, e.c);
    Admissible(s, n) && Has(n.mask, PERIOD_TICKS) && Has(n.mask, DUTY_TICKS)
    && n.periodTicks > PERIOD_MAX && n.dutyTicks > s.period
  }

  lemma StepKeepsOrder(s: Chan, e: Event)
    requires Ordered(s)
    ensures Ordered(Apply(s, e)) <==> !DisordersAt(s, e)
    ensures Apply(s, e).period <= PERIOD_MAX
  {
    hide Apply, Run, Parts, DriverConfig, Normalise;
    if e.Configure? {
      ConfigApplied(s, e);
      ChecksWhatItWrites(s, e.c);
      var n := Normalise(s, e.c);
      DriverParts(s, n);
      PartsTiming(s, n);
    } else {
      OtherEvents(s, e);
    }
  }

  ghost predicate OrderedUpTo(s: Chan, events: seq<Event>, n: nat)
    requires n <= |events|
  {
    forall i :: 0 <= i <= n ==> Ordered(StateAt(s, events, i))
  }

  ghost predicate NeverDisordered(s: Chan, events: seq<Event>, n: nat)
    requires n <= |events|
  {
    forall i :: 0 <= i < n ==> !DisordersAt(StateAt(s, events, i), events[i])
  }

  /** Over whole runs: the duty stays within the period at every point exactly when no such update
      is made. */
  lemma {:induction false} OrderExactly(s: Chan, events: seq<Event>, n: nat)
    requires Ordered(s) && n <= |events|
    ensures OrderedUpTo(s, events, n) <==> NeverDisordered(s, events, n)
  {
    hide Apply, Ordered, DisordersAt;
    if n > 0 {
      OrderExactly(s, events, n - 1);
      var before := StateAt(s, events, n - 1);
      assert StateAt(s, events, n) == Apply(before, events[n - 1]);
      if Ordered(before) {
        StepKeepsOrder(before, events[n - 1]);
      }
    }
  }

  /** The event asks for a period of more than 2^24 ticks. */
  predicate AsksTooLong(s: Chan, e: Event) {
    e.Configure? && var n := Normalise(s, e.c); Has(n.mask, PERIOD_TICKS) && n.periodTicks > PERIOD_MAX
  }

  /** In every run from an ordered state, such as a fresh channel, in which no configuration asks
      for more than 2^24 ticks, the order holds throughout; zero-tick periods are included. */
  lemma {:induction false} OrderOverRuns(s: Chan, events: seq<Event>, n: nat)
    requires Ordered(s) && n <= |events|
    requires forall i :: 0 <= i < n ==> !AsksTooLong(StateAt(s, events, i), events[i])
    ensures Ordered(StateAt(s, events, n))
  {
    hide Apply;
    if n > 0 {
      OrderOverRuns(s, events, n - 1);
      StepKeepsOrder(StateAt(s, events, n - 1), events[n - 1]);
    }
  }

  /** An ordered channel reports a duty of at most its period. */
  lemma OrderedReports(s: Chan)
    requires Ordered(s) && s.tickHz == CLK_27MHZ
    ensures GetDutyNs(s) <= GetPeriodNs(s)
  {
    At27MHz(s.period);
    TicksToNsMono(s.tickHz, s.duty, s.period);
  }

  /* ----- the control word ----- */

  /** The request an admitted call amounts to. */
  function Effective(s: Chan, e: Event): Option<Request> {
    if e.Configure? && Admissible(s, Normalise(s, e.c)) then Some(Normalise(s, e.c)) else None
  }

  /** Whether an event starts or stops the channel. */
  function RunEffect(s: Chan, e: Event): Option<bool> {
    match e
    case Configure(_) =>
      var n := Effective(s, e);
      if n.None? then None
      else if Has(n.value.mask, STOP) then Some(false)
      else if Has(n.value.mask, START) then Some(true)
      else None
    case _ => if Stops(s, e) then Some(false) else None
  }

  function PolarityEffect(s: Chan, e: Event): Option<Int32> {
    var n := Effective(s, e);
    if n.Some? && Has(n.value.mask, POLARITY) then Some(n.value.polarity) else None
  }

  function PeriodEffect(s: Chan, e: Event): Option<Word> {
    var n := Effective(s, e);
    if n.Some? && Has(n.value.mask, PERIOD_TICKS) && 1 <= n.value.periodTicks <= PERIOD_MAX
    then Some(n.value.periodTicks) else None
  }

  /** The channel as the last reload among the first `n` events of a run left it, or as the run
      began. */
  function Base(s: Chan, events: seq<Event>, n: nat): Chan
    requires n <= |events|
  {
    if n == 0 || events[n - 1].Reload? then StateAt(s, events, n) else Base(s, events, n - 1)
  }

  /** The last effect of its kind among the first `n` events of a run, after the last reload. */
  function Last<T>(s: Chan, events: seq<Event>, n: nat, effect: (Chan, Event) -> Option<T>): Option<T>
    requires n <= |events|
  {
    if n == 0 || events[n - 1].Reload? then None
    else
      var now := effect(StateAt(s, events, n - 1), events[n - 1]);
      if now.Some? then now else Last(s, events, n - 1, effect)
  }

  /** The control fields after the given effects. */
  function FieldsAfter(f: Control, run: Option<bool>, polarity: Option<Int32>, period: Option<Word>): Control {
    var f1 := if run.Some? then f.(enabled := run.value, output := run.value) else f;
    var f2 := if polarity.Some? then f1.(activeLow := polarity.value == 0) else f1;
    if period.Some? then f2.(prescale := Prescale(period.value)) else f2
  }

  predicate ControlAfter(s: Chan, z: Chan, run: Option<bool>, polarity: Option<Int32>, period: Option<Word>) {
    && Fields(z.regs.ctrl) == FieldsAfter(Fields(s.regs.ctrl), run, polarity, period)
    && z.activeHigh == (if polarity.Some? then polarity.value else s.activeHigh)
    && z.period == (if period.Some? then period.value else s.period)
  }

  lemma RunControl(s: Chan, on: bool)
    ensures ControlAfter(s, Run(s, on), Some(on), None, None)
  {
    RunWritten(s.regs.ctrl, on);
  }

  lemma PeriodControl(s: Chan, period: Word)
    ensures ControlAfter(s, ConfigPeriod(s, period), None, None,
                         if 1 <= period <= PERIOD_MAX then Some(period) else None)
  {
    AcceptedPeriods(period);
    if 1 <= period <= PERIOD_MAX {
      PrescaleWritten(s.regs.ctrl, Prescale(period));
      assert Fields(s.regs.ctrl).prescale == PrescaleField(s.regs.ctrl);
    }
  }

  lemma PolarityControl(s: Chan, polarity: Int32)
    ensures ControlAfter(s, ConfigPolarity(s, polarity), None, Some(polarity), None)
  {
    PolarityWritten(s.regs.ctrl, polarity != 0);
  }

  lemma PartsControl(s: Chan, n: Request)
    ensures ControlAfter(s, Parts(s, n),
                         if Has(n.mask, STOP) then Some(false) else if Has(n.mask, START) then Some(true) else None,
                         if Has(n.mask, POLARITY) then Some(n.polarity) else None,
                         if Has(n.mask, PERIOD_TICKS) && 1 <= n.periodTicks <= PERIOD_MAX then Some(n.periodTicks)
                         else None)
  {
    hide ControlAfter, Run, ConfigPeriod, ConfigDuty, ConfigPolarity, Has;
    RunControl(s, false);
    RunControl(s, true);
    ControlNone(s);
    var s1 := RunPart(s, n.mask);
    PeriodControl(s1, n.periodTicks);
    ControlNone(s1);
    var s2 := if Has(n.mask, PERIOD_TICKS) then ConfigPeriod(s1, n.periodTicks) else s1;
    DutyControl(s2, n.dutyTicks);
    ControlNone(s2);
    var s3 := Timing(s1, n);
    PolarityControl(s3, n.polarity);
    ControlNone(s3);
    var run := if Has(n.mask, STOP) then Some(false) else if Has(n.mask, START) then Some(true) else None;
    var polarity := if Has(n.mask, POLARITY) then Some(n.polarity) else None;
    var period := if Has(n.mask, PERIOD_TICKS) && 1 <= n.periodTicks <= PERIOD_MAX then Some(n.periodTicks) else None;
    ControlChain(s, s1, s2, run, None, None, None, None, period);
    ControlChain(s, s2, s3, run, None, period, None, None, None);
    ControlChain(s, s3, Parts(s, n), run, None, period, None, polarity, None);
  }

  lemma DutyControl(s: Chan, duty: Word)
    ensures ControlAfter(s, ConfigDuty(s, duty), None, None, None)
  {
    hide Fields, PrescaleField, Low18;
  }

  lemma StepControl(s: Chan, e: Event)
    requires !e.Reload?
    ensures ControlAfter(s, Apply(s, e), RunEffect(s, e), PolarityEffect(s, e), PeriodEffect(s, e))
  {
    hide Apply, Run, Parts, DriverConfig, Normalise, Admissible, Fields, Has, Stops;
    if e.Configure? {
      ConfigApplied(s, e);
      ChecksWhatItWrites(s, e.c);
      var n := Normalise(s, e.c);
      DriverParts(s, n);
      PartsControl(s, n);
      ControlNone(s);
    } else {
      OtherEvents(s, e);
      RunControl(s, false);
      RunKeepsTiming(s, false);
      ControlNone(s);
    }
  }

  /** What a call that succeeds leaves, by what it asks for as the caller wrote it: stop wins over start;
      nanoseconds win over ticks and percent over both; a period outside 1 to 2^24 ticks is ignored. */
  lemma CallOutcome(s: Chan, c: Request)
    requires Config(s, c).1 == 0
    ensures var z := Config(s, c).0;
            var f, f0 := Fields(z.regs.ctrl), Fields(s.regs.ctrl);
            var on := if Has(c.mask, STOP) then Some(false) else if Has(c.mask, START) then Some(true) else None;
            && f.enabled == (if on.Some? then on.value else f0.enabled)
            && f.output == (if on.Some? then on.value else f0.output)
            && f.activeLow == (if Has(c.mask, POLARITY) then c.polarity == 0 else f0.activeLow)
            && f.rest == f0.rest
            && GetPolarity(z) == (if Has(c.mask, POLARITY) then c.polarity else s.activeHigh)
    ensures var z := Config(s, c).0;
            var asked := Has(c.mask, PERIOD_NS) || Has(c.mask, PERIOD_TICKS);
            var period := if Has(c.mask, PERIOD_NS) then NsToTicks(s.tickHz, c.periodNs) else c.periodTicks;
            && z.period == (if asked && 1 <= period <= PERIOD_MAX then period else s.period)
            && z.duty == (if Has(c.mask, DUTY_PERCENT) then PercentOf(if asked then period else s.period, c.dutyPercent)
                          else if Has(c.mask, DUTY_NS) then NsToTicks(s.tickHz, c.dutyNs)
                          else if Has(c.mask, DUTY_TICKS) then c.dutyTicks
                          else s.duty)
  {
    hide Normalise, NormalMask, Has, Parts, DriverConfig, Fields, NsToTicks, PercentOf, Prescale;
    var n := Normalise(s, c);
    ChecksWhatItWrites(s, c);
    NormaliseMeaning(s, c);
    NormalMaskMeaning(c.mask);
    ConfigAnswer(s, c);
    DriverParts(s, n);
    PartsTiming(s, n);
    PartsControl(s, n);
  }

  function Later<T>(earlier: Option<T>, now: Option<T>): Option<T> {
    if now.Some? then now else earlier
  }

  lemma ControlNone(s: Chan)
    ensures ControlAfter(s, s, None, None, None)
  {
    hide Fields, Prescale;
  }

  lemma ControlChain(s: Chan, m: Chan, z: Chan, run: Option<bool>, polarity: Option<Int32>, period: Option<Word>,
                     run': Option<bool>, polarity': Option<Int32>, period': Option<Word>)
    requires ControlAfter(s, m, run, polarity, period)
    requires ControlAfter(m, z, run', polarity', period')
    ensures ControlAfter(s, z, Later(run, run'), Later(polarity, polarity'), Later(period, period'))
  {
    hide Fields, FieldsAfter;
    FieldsChain(Fields(s.regs.ctrl), run, polarity, period, run', polarity', period');
  }

  lemma FieldsChain(f: Control, run: Option<bool>, polarity: Option<Int32>, period: Option<Word>,
                    run': Option<bool>, polarity': Option<Int32>, period': Option<Word>)
    ensures FieldsAfter(FieldsAfter(f, run, polarity, period), run', polarity', period')
            == FieldsAfter(f, Later(run, run'), Later(polarity, polarity'), Later(period, period'))
  {
    hide Prescale;
  }

  /** Over every run from every state: since the last reload of the registers, or from the start, the
      run bits record the last start or stop, the polarity bit the last polarity, the prescale the
      last accepted period, and no other bit changes. */
  lemma {:induction false} ControlOverRuns(s: Chan, events: seq<Event>, n: nat)
    requires n <= |events|
    ensures ControlAfter(Base(s, events, n), StateAt(s, events, n), Last(s, events, n, RunEffect),
                         Last(s, events, n, PolarityEffect), Last(s, events, n, PeriodEffect))
  {
    hide Apply, ControlAfter, RunEffect, PolarityEffect, PeriodEffect;
    if n == 0 || events[n - 1].Reload? {
      ControlNone(StateAt(s, events, n));
    } else {
      ControlOverRuns(s, events, n - 1);
      var before := StateAt(s, events, n - 1);
      var e := events[n - 1];
      StepControl(before, e);
      ControlChain(Base(s, events, n - 1), before, Apply(before, e),
                   Last(s, events, n - 1, RunEffect), Last(s, events, n - 1, PolarityEffect),
                   Last(s, events, n - 1, PeriodEffect),
                   RunEffect(before, e), PolarityEffect(before, e), PeriodEffect(before, e));
    }
  }
}
