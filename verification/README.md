# A verified model of the Intel PWM driver

The driver controls the PWM block of the Intel CE5300 and CE2600: up to four channels per
controller, each with a control, a duty and a period register. A channel is requested, configured
in nanoseconds, ticks or percent, started and stopped, and released; user processes do so through a
character device that keeps a list of open nodes. This project models that driver and proves, for
all inputs and all runs, what its registers, its stored settings and its ownership bookkeeping are
after any sequence of calls.

`dafny verify dfyconfig.toml` checks everything.

## How the model is laid out

- `Words`, `Kernel`: 32-bit and 64-bit unsigned arithmetic with explicit wrap-around, facts about
  floor division, error numbers. The build targets i686 (`Makefile.inc:80-93`), so `unsigned long` is
  32 bits wide.
- `Ticks`, `Encoding`: the conversions between nanoseconds and clock ticks, and the prescale, period
  count and duty count that a period and a duty become.
- `Bits`: the fields of the control register and of the configuration mask, as bit vectors.
- `Channel`: a channel as a value and what each call makes of it. `Driver` holds the class that
  updates a channel in place, read-modify-write by read-modify-write; every method is proved equal to
  its value-level function.
- `Refinement`, `Runs`, `Accessors`, `Departures`: what holds of one channel over a call and over
  whole runs, what is read back after writing, and concrete calls that show where the driver departs
  from its intent.
- `Core`, `Device`: the device list, reference counts, request and release, register and unregister,
  interrupt, suspend and resume, as values. `Registry` and `Controller` hold the classes that do this
  in place, with the search loops, the interrupt loop and the save and restore loops.
- `System`, `Ownership`: the whole driver as a state machine. Each act is one section under a lock or
  one power callback; open and close are several acts, a suspend and its resume are two, and acts of
  any number of files and controllers interleave freely. Registers may lose their contents at any
  time.
- `Power`, `Devices`: what a resume gives back after whatever happened since the suspend, and what each
  act does to a controller besides its channels.
- `Chardev`: the node list and the file operations in place, and what an open and its close undo.

## What the code does where its intent is different

The model follows the code, and the exact condition for the intended behaviour is proved in each
case.

- A period of more than 2^24 ticks is refused inside the driver, but the error is dropped
  (`driver/_pwm.c:242-243`). A combined update then stores its duty beside the old period
  (`Departures.RefusedPeriodStoresDuty`); this is the only way to get a duty above the period
  (`Runs.StepKeepsOrder`).
- A period update that changes the prescale writes a duty count that is one too small or, for a duty
  of less than one prescaled step, minus one cut to 18 bits, which sets the full-duty bit
  (`driver/_pwm.c:172-173`, exactly `Refinement.NewPrescaleDuty`). So the first period given to a
  channel just opened, whose duty is zero, can mark a full duty cycle
  (`Departures.FirstPeriodFillsZeroDuty`).
- A period equal to the stored duty is not written to the period register (`driver/_pwm.c:176-179`), not
  even when a new duty comes with it. Halving both the period and a duty of 50 percent in one call
  therefore leaves the waveform at its old length (`Departures.HalvedPeriodKeepsOldLength`).
  `Refinement.CallAccuracy` says exactly when the waveform after a call is as long as asked. A period
  update with an unchanged prescale leaves an earlier full-duty bit set. `Refinement.Keeps`
  says exactly which calls are free of this and of the wrong duty count above.
- The area that suspend saves to is one static object for all controllers (`driver/_pwm.c:312`).
  `Device.SharedSaveArea` says exactly when a second controller's suspend does no harm to the first,
  shared registers included; a second one without any channel can still change the first one's clock
  source (`Departures.SharedAreaMixesClockSources`).
- Nothing stops a channel from being configured, stopped or released between a suspend and the resume,
  and the resume undoes that in the registers: a channel saved running and then released runs again,
  held by nobody (`Departures.ResumeRestartsReleased`). `Power.ResumeRefines` and
  `Power.ResumeSilence` give the exact conditions under which the registers are right, or the outputs
  off, after a resume.
- A percentage is read back as itself or one less exactly when the reported period is from 3666 ns to
  42949672 ns: below, four floors lose too much; above, the 32-bit product by 100 wraps
  (`driver/pwm_core.c:383`).
- `include/pwm.h:97` gives a clock step of 0.37 us to 1.185 us and a slowest clock of 843750 Hz,
  27 MHz divided by 32. One tick at 27 MHz is 0.037 us, and the code allows a division by up to 128
  (`driver/_pwm.h:113`), so periods up to 2^24 ticks are accepted, four times the documented maximum.
  The documentation also asks for a duty above zero and a percentage of at most 100; the code checks
  neither, only the resulting tick count, in wrapping arithmetic: `Accessors.AnyPercent` says exactly
  which integers are accepted as a percentage, among them 256 at the longest period
  (`Departures.WrappedPercentStoresZero`).
- `FLAG_STOP` is honoured by the interrupt (`driver/_pwm.c:295-299`) but set nowhere in the
  repository; the model lets a channel start with it in either state.

## Model

| member | source | states |
|---|---|---|
| Kernel.ErrorNumbers | driver/pwm_core.c:145-174 | the numbers that Linux gives the errors the driver returns |
| Ticks.ProductsFit | driver/pwm_core.c:222-223 | the 64-bit product of any two 32-bit operands does not wrap |
| Ticks.NsToTicksFloor | driver/pwm_core.c:217-226 | for a clock of at most 1 GHz the tick count is the exact floor, never truncated to 32 bits |
| Ticks.TicksToNsFloor | driver/pwm_core.c:229-241 | a report that fits 32 bits is the exact floor |
| Ticks.NoClock | driver/pwm_core.c:234-235 | without a clock both conversions give zero |
| Ticks.NsRoundTrip | driver/pwm_core.c:217-241 | ns to ticks to ns never truncates and loses exactly the remainder divided by the clock, rounded up, for every 32-bit ns |
| Ticks.NsRoundTripAt27MHz | driver/pwm_core.c:217-241 | that loss is at most 37 ns at 27 MHz |
| Ticks.TicksRoundTripReportable | driver/pwm_core.c:217-241 | ticks to ns to ticks loses one tick exactly when the tick count is not a whole number of ns |
| Ticks.TicksRoundTrip | driver/pwm_core.c:217-241 | the loss is 0 or 1 tick if and only if the reported ns fit 32 bits |
| Ticks.NsToTicksMono | driver/pwm_core.c:217-226 | the conversion keeps order |
| Ticks.TicksToNsMono | driver/pwm_core.c:229-241 | so does the report, below a reportable value |
| Bits.PrescaleWritten | driver/_pwm.c:161-170 | a prescale of at most 127 written to the control word reads back and disturbs no other field |
| Bits.RunWritten | driver/_pwm.c:87-89 | start sets both run bits, stop clears both, no other field changes |
| Bits.PolarityWritten | driver/_pwm.c:194-204 | the polarity bit is clear exactly for active high, no other field changes |
| Bits.FieldPlaces | driver/_pwm.h:76-111 | the prescale is bits 0 to 6, the polarity bit 10, the enable bit 13 and the output bit 14 of the control word |
| Bits.MaskPlaces | driver/pwm_core.h:36-48 | which bit of a configuration mask asks for what |
| Bits.NormalMaskMeaning | driver/pwm_core.c:244-276 | no ns or percent bit is left, tick bits stand exactly for what was asked, every other bit survives |
| Encoding.AcceptedPeriods | driver/_pwm.c:154-156 | the periods accepted are exactly 1 to 2^24 ticks; the unsigned wrap of a zero period is refused |
| Encoding.PrescaleIsLeast | driver/_pwm.c:154 | the prescale is the least under which the period fits its 17-bit count |
| Encoding.EncodingFits | driver/_pwm.c:130-138 | of the pure encoding of an accepted period and a duty below it: no mask cuts a count, the duty never reaches the full-duty bit, the duty count is at most the period, and the period falls short by less than a prescaled step and less than a 2^-17 part |
| Encoding.ProgrammedAccuracy | driver/_pwm.c:154-158 | of the pure encoding of a requested time: its length is never above that time and short of it by less than one prescaled step |
| Encoding.DocumentedRange | include/pwm.h:97-98 | 38 ns to 155344592 ns are exactly the periods of 1 to 2^22 - 1 ticks, with a prescale of at most 31 |
| Channel.NormaliseMeaning | driver/pwm_core.c:244-276 | ns override ticks, percent overrides both and is taken of the new period if there is one |
| Channel.ChecksWhatItWrites | driver/pwm_core.c:291-330 | normalisation is idempotent, so the values checked are those the driver writes after its second normalisation |
| Channel.OrderedNsIsAdmissible | driver/pwm_core.c:316-321 | a duty of at most the period, both in ns, always passes |
| Driver.PwmChannel.constructor | driver/pwm_core.c:54-63 | a new channel is zeroed over registers of any content |
| Driver.PwmChannel.Start | driver/_pwm.c:76-92 | in place: the run bits are set, nothing else |
| Driver.PwmChannel.Stop | driver/_pwm.c:94-111 | in place: the run bits are cleared, nothing else |
| Driver.PwmChannel.ConfigDutyTicks | driver/_pwm.c:113-141 | in place: stored duty and duty register, with the full-duty mark against the stored period |
| Driver.PwmChannel.ConfigPeriodTicks | driver/_pwm.c:143-182 | in place: a refused period changes nothing and returns EINVAL, exactly outside 1 to 2^24; otherwise prescale, duty and period registers as the code leaves them |
| Driver.PwmChannel.ConfigPolarity | driver/_pwm.c:185-208 | in place: polarity bit and stored polarity |
| Driver.PwmChannel.DriverConfigNosleep | driver/_pwm.c:221-253 | in place: the steps asked for, in order, with the period's error dropped |
| Driver.PwmChannel.DriverConfig | driver/_pwm.c:255-259 | in place: the hook normalises again and applies |
| Driver.PwmChannel.SetCallback | driver/_pwm.c:261-273 | in place: the callback is installed or removed |
| Driver.PwmChannel.Trigger | driver/_pwm.c:293-301 | in place: one callback if installed, stop if pending, completion |
| Driver.PwmChannel.ConfigNsToTicks | driver/pwm_core.c:244-259 | in place on the request record: period and duty in ns become ticks, their bits are exchanged, nothing else changes |
| Driver.PwmChannel.ConfigPercentToTicks | driver/pwm_core.c:261-276 | in place on the request record: the percentage of the new period, or of the stored one, in 32-bit arithmetic |
| Driver.PwmChannel.ConfigNosleep | driver/pwm_core.c:278-288 | in place: normalise and apply; the record is left normalised |
| Driver.PwmChannel.Config | driver/pwm_core.c:291-330 | in place: normalise, refuse with EINVAL and no change, or apply |
| Driver.PwmChannel.SetPeriodNs | driver/pwm_core.c:333-342 | in place: the new channel and the return value are those that `Accessors.SetPeriodThenGet` characterises |
| Driver.PwmChannel.SetDutyNs | driver/pwm_core.c:351-359 | in place: the new channel and the return value are those that `Accessors.SetDutyThenGet` characterises |
| Driver.PwmChannel.SetDutyPercent | driver/pwm_core.c:368-376 | in place: the new channel and the return value are those that `Accessors.PercentRoundTrip` is about |
| Driver.PwmChannel.SetPolarity | driver/pwm_core.c:387-395 | in place: the new channel and the return value are those that `Accessors.SetPolarityThenGet` characterises |
| Driver.PwmChannel.StartChannel | driver/pwm_core.c:405-411 | in place: the new channel and the return value are those that `Runs.StartStop` characterises |
| Driver.PwmChannel.StopChannel | driver/pwm_core.c:414-420 | in place: the new channel and the return value are those that `Runs.StartStop` characterises |
| Driver.PwmChannel.SetHandler | driver/pwm_core.c:466-477 | in place: handler, data and callback together |
| Driver.PwmChannel.Handler | driver/pwm_core.c:453-459 | in place: the queued handler stops the channel exactly if it is there and says so |
| Driver.PwmChannel.RequestChannel | driver/pwm_core.c:138-159 | in place: EBUSY if flagged; a failing hook takes the flag back; a grant stores the clock |
| Driver.PwmChannel.ReleaseChannel | driver/pwm_core.c:202-207 | in place: only a flagged channel is stopped and loses its handler |
| Refinement.DutyStep | driver/_pwm.c:113-141 | under the right prescale a duty update makes the registers right if and only if it is at most the period and the period register is right |
| Refinement.NewPrescaleDuty | driver/_pwm.c:166-174 | exactly what a change of the prescale leaves in the duty register: the duty count less one, or 0x3FFFF, and the full-duty bit is set if and only if the duty is less than one prescaled step |
| Refinement.PeriodOnly | driver/_pwm.c:143-182 | from any registers at all, exactly when a period update leaves them right |
| Refinement.CombinedUpdate | driver/_pwm.c:242-246 | from any registers at all, a combined update makes them right unless the new period is the stored duty and the period register held another count |
| Refinement.DriverParts | driver/_pwm.c:221-253 | a call is its run, timing and polarity parts, stop wins over start, and the only error changes nothing |
| Refinement.ConfigAnswer | driver/pwm_core.c:291-330 | the answer of any call on any channel: EINVAL if and only if the duty then in force would exceed the period then in force or, when neither is asked for, nothing is; a refused call changes nothing |
| Refinement.ConfigRefines | driver/pwm_core.c:291-330 | any call on any channel, one just opened included, leaves the registers equal to the encoding of the stored period and duty if and only if it is admitted and `RightAfter` holds, or it is refused and they were right |
| Refinement.ConfigKeepsRefinement | driver/pwm_core.c:291-330 | on a channel whose registers are right, any call keeps them so if and only if it is refused or `Keeps`, a condition on the stored settings alone, holds |
| Refinement.CallAccuracy | driver/_pwm.c:143-182 | after an admitted call with an accepted period in ns, from any registers, the programmed period is at most that time and short of it by less than one prescaled step if and only if the period is not the duty stored before, or the period register held its count already |
| Refinement.PulseAccuracy | driver/_pwm.c:113-141 | after a call with an accepted period and a shorter duty, both in ns, the programmed pulse is at most the duty and short of it by less than one prescaled step |
| Runs.StartStop | driver/pwm_core.c:405-421 | starting and stopping pass the check, succeed, and touch the run bits only |
| Runs.OtherEvents | driver/_pwm.c:274-360 | after an event other than a configuration: the registers, settings, flag and clock; only stopping and reloads touch registers, only requests and releases the flag and clock |
| Runs.OtherState | driver/_pwm.c:261-308 | the remaining fields after such an event: callback, handler, data, call count, completion and pending stop, each changed by exactly what should |
| Runs.HandlerRuns | driver/pwm_core.c:453-477 | an installed handler is called back once by an interrupt and stops the channel exactly when it runs and says so |
| Runs.CallbacksOverRuns | driver/_pwm.c:293-294 | over every run, a callback stays installed until it is replaced, removed or the channel is given up, and is called once by each interrupt in the meantime |
| Runs.ConfigFrame | driver/pwm_core.c:291-330 | a call changes the control, duty and period registers, the period, the duty and the polarity only |
| Runs.StepKeepsRefinement | driver/_pwm.c:113-360 | any event of a channel whose registers are right keeps them so if and only if it is neither a harmful configuration nor a reload of anything but the encoding |
| Runs.StepRefines | driver/_pwm.c:113-360 | from any state, exactly which events leave the registers right |
| Runs.RefinementOverRuns | driver/_pwm.c:113-360 | in any run from any state, the registers are right from a point on if and only if they are at that point and every later configuration and reload is harmless |
| Runs.RightFromUpdate | driver/_pwm.c:113-360 | from an accepted update of period and duty on, whatever the channel was, the registers stay right if and only if the update wrote its period, or found it written, and every later event is harmless |
| Runs.RightFromFirstDuty | driver/_pwm.c:113-360 | on a channel just opened, if the first call that stores a duty is an accepted update of both, the registers are right from there on if and only if every later event is harmless |
| Runs.PartsTiming | driver/_pwm.c:233-247 | what an admitted call stores as period and duty, refused periods included |
| Runs.StepKeepsOrder | driver/pwm_core.c:302-324 | the duty stays within the period if and only if the event is not a combined update with a refused period and a duty above the period in force |
| Runs.OrderExactly | driver/pwm_core.c:291-330 | the same at every point of a run |
| Runs.OrderOverRuns | driver/pwm_core.c:291-330 | in particular in every run in which no call asks for a period of more than 2^24 ticks, zero-tick periods included |
| Runs.OrderedReports | driver/pwm_core.c:345-365 | the reported duty is then at most the reported period |
| Runs.StepControl | driver/_pwm.c:76-208 | what one event other than a reload does to each field of the control word |
| Runs.ControlOverRuns | driver/_pwm.c:76-208 | over every run from every state, counted from the last reload if there was one: run bits record the last start or stop, the polarity bit the last polarity, the prescale the last accepted period, and no other bit changes |
| Runs.CallOutcome | driver/pwm_core.c:291-330 | what a successful call leaves, by the request as the caller wrote it: stop wins over start, polarity, ns over ticks, percent over both and of the new period, an unusable period ignored |
| Accessors.BackToTicks | driver/pwm_core.c:351-365 | at 27 MHz a duty written back as read loses a tick unless 27 divides it |
| Accessors.WriteBackDrift | driver/pwm_core.c:351-365 | after m rounds the duty is D - min(m, D mod 27), every round is accepted, and then it is a fixed point |
| Accessors.NsThroughChannel | driver/pwm_drv.c:227-265 | a period and duty in ns, with or without other settings and whatever the channel held, are read back short by exactly the rounded-up remainders, at most 37 ns each |
| Accessors.SetPeriodThenGet | driver/pwm_core.c:333-349 | refused exactly below the stored duty; read back within 37 ns for 1 to 2^24 ticks; otherwise success with the whole channel unchanged |
| Accessors.SetDutyThenGet | driver/pwm_core.c:351-365 | refused exactly above the stored period; otherwise read back within 37 ns |
| Accessors.SetPolarityThenGet | driver/pwm_core.c:387-402 | succeeds, reads back as 0 or 1, changes the polarity bit and nothing else |
| Accessors.SetDutyTouches | driver/pwm_core.c:351-359 | setting a duty in ns moves the stored duty and the duty register, to the stated count or full-duty mark, and nothing else |
| Accessors.SetPercentTouches | driver/pwm_core.c:368-376 | so does setting it in percent |
| Accessors.SetPeriodTouches | driver/pwm_core.c:333-342 | setting a period in ns moves the stored period, the prescale field and the duty and period registers, to the stated values, and nothing else; outside 1 to 2^24 ticks it moves nothing |
| Accessors.DutyPercentMeaning | driver/pwm_core.c:379-385 | what is read as a percentage: -1 without a reported period, otherwise the floor of the 32-bit product over the period |
| Accessors.DutyPercentFits | driver/pwm_core.c:379-385 | below the wrapping bound that is the whole percentage that the duty is, from 0 to 100 |
| Accessors.AnyPercent | driver/pwm_core.c:261-276 | any int as a percentage on any channel: accepted if and only if its 32-bit product with the stored period is below 100 times one more than the period, and then the duty is the hundredth of that product; refused without effect otherwise |
| Accessors.PercentAbove100 | driver/pwm_core.c:261-324 | a percentage above 100 whose product does not wrap is accepted if and only if the excess is less than one tick |
| Accessors.PercentThroughChannel | driver/pwm_core.c:368-385 | setting 0 to 100 percent succeeds and stores the floor; what is read is the stated nest of four floors |
| Accessors.PercentClose | driver/pwm_core.c:261-276 | from 99 to 1159641 ticks the reading is the percentage or one less |
| Accessors.PercentFarBelow | driver/pwm_core.c:379-385 | below 99 ticks, for every period, a percentage that is read back at least two too low |
| Accessors.PercentFarAbove | driver/pwm_core.c:379-385 | above 1159641 ticks the 32-bit product wraps and 100 percent is not read back |
| Accessors.PercentRoundTrip | driver/pwm_core.c:368-385 | every percentage is read back as itself or one less if and only if the reported period is 3666 to 42949672 ns |
| Accessors.PercentWithPeriod | driver/pwm_drv.c:239-256 | a percentage sent with a period in ns succeeds whatever the channel held, is taken of the new period, and reads back as the stated nest of floors |
| Accessors.PercentWithPeriodRoundTrip | driver/pwm_drv.c:239-265 | in that call every percentage is read back as itself or one less if and only if the period is reported as 3666 to 42949672 ns |
| Departures.RefusedPeriodStoresDuty | driver/_pwm.c:242-246 | a call that returns 0 and leaves a duty above the period |
| Departures.NewPrescaleShortensDuty | driver/_pwm.c:166-174 | a call that returns 0 and leaves the register of a duty of at least one prescaled step one too small |
| Departures.FirstPeriodFillsZeroDuty | driver/_pwm.c:166-174 | a call on a channel just opened that returns 0 and sets the full-duty bit for a duty of zero |
| Departures.FullDutyKeepsOldPeriod | driver/_pwm.c:176-179 | a call that returns 0 and leaves the old period in its register |
| Departures.HalvedPeriodKeepsOldLength | driver/_pwm.c:176-179 | a call that halves period and duty, returns 0, and leaves a waveform twice as long as asked |
| Departures.LongerPeriodStaysFull | driver/_pwm.c:166-179 | a call that returns 0 and leaves a half duty marked full |
| Departures.WrappedPercentStoresZero | driver/pwm_core.c:266-272 | 256 percent of 2^24 ticks returns 0 and stores a duty of zero |
| Departures.ResumeRestartsReleased | driver/_pwm.c:314-360 | a channel released between suspend and resume has its outputs on after the resume |
| Departures.SharedAreaMixesClockSources | driver/_pwm.c:312-360 | a second controller without channels that suspends in between changes the clock source the first resumes with |
| Core.RequestOutcome | driver/pwm_core.c:161-195 | a grant is of an existing, free channel of the device of that name and takes one reference of its module; a refusal changes no device and no count |
| Core.RequestGrants | driver/pwm_core.c:182-187 | the granted channel is flagged and has the clock of its place in the controller's list of clocks, and nothing else of it or of any other channel changes |
| Core.RequestAnswer | driver/pwm_core.c:138-195 | ENODEV without such a device, channel or pinned module; otherwise EBUSY for a taken channel, the hook's own error, or the channel |
| Core.RequestConserves | driver/pwm_core.c:161-195 | references minus requested channels of each module are unchanged by a request |
| Core.ReleaseConserves | driver/pwm_core.c:198-214 | and by a release |
| Core.RegisterConserves | driver/pwm_core.c:46-86 | and by a registration |
| Core.UnregisterConserves | driver/pwm_core.c:94-123 | and by an unregistration |
| Core.ReleasedIsSilent | driver/pwm_core.c:202-207 | a released channel has both output bits clear and no handler or callback, and nothing else of it changes |
| Core.RequestReleaseUndoes | driver/pwm_core.c:161-214 | a release undoes the request before it: counts, and every other channel, are as before |
| Core.ReleaseTwice | driver/pwm_core.c:202-203 | a second release does nothing |
| Core.UnregisterBusy | driver/pwm_core.c:101-106 | refused, with nothing changed, if and only if some channel is requested |
| Core.UnregisterRemoves | driver/pwm_core.c:108-122 | otherwise exactly that device leaves, and every other channel stays as it was |
| Core.UnregisterKeepsNames | driver/pwm_core.c:94-136 | names of other devices still lead to them |
| Core.RegisterNames | driver/pwm_core.c:67-76 | a device goes to the end, so names that led to a device still do |
| Core.RegisteredDevice | driver/pwm_core.c:46-76 | the registered device is the last, with the name, owner, clocks and registers it came with, and channels that are zero throughout |
| Core.RegisterChannels | driver/pwm_core.c:54-65 | only fresh channels of the new device are added |
| Device.ShiftedHit | driver/_pwm.c:288-291 | bit 8 of the status shifted i times is bit 8 + i of the status |
| Device.HitIsBit | driver/_pwm.h:146-149 | channel i is concerned by bit 8 + i of the status |
| Device.InterruptAcks | driver/_pwm.c:284-286 | bits 8 to 15 are written back, all others cleared, and nothing else of the controller but its channels changes |
| Device.TriggeredOutcome | driver/_pwm.c:293-301 | a hit channel is completed, called back once if it has a callback, which stays, and stopped exactly if a stop was pending; nothing else of it changes |
| Device.AreaRoomy | driver/_pwm.c:312 | the save area starts zeroed, with room exactly for controllers of at most four channels |
| Device.SavesShared | driver/_pwm.c:328-330 | the shared registers are saved as they are |
| Device.SuspendResume | driver/_pwm.c:314-360 | when nothing but a loss of power comes between, a resume gives every channel back as it was at the suspend, and of the interrupt register the masks and selections |
| Device.SharedSaveArea | driver/_pwm.c:312-360 | when a second controller suspends in between, the first resumes as it would have alone if and only if the registers of common channels, the rate, the clock source and the surviving interrupt bits agree |
| Controller.NewChannels | driver/pwm_core.c:54-65 | one fresh zeroed channel for each register block |
| Controller.PwmDevice.Irq | driver/_pwm.c:274-308 | the shifting loop, in place: exactly the channels below nchan with bit 8 + i set are triggered, the trigger bits read are written back, and it reports handled if and only if there was one |
| Controller.PwmDevice.SaveState | driver/_pwm.c:314-331 | the save loop, in place on the shared area |
| Controller.PwmDevice.RestoreState | driver/_pwm.c:342-360 | the restore loop, in place on every channel's registers |
| Controller.PwmDevice.Busy | driver/pwm_core.c:101-106 | the search loop: whether some channel is requested |
| Registry.PwmCore.Register | driver/pwm_core.c:46-86 | in place: the list gains a device with fresh channels that share nothing with the others |
| Registry.PwmCore.FindDevice | driver/pwm_core.c:126-136 | the search loop: the first device of that name |
| Registry.PwmCore.Request | driver/pwm_core.c:161-195 | in place, with both error exits and the module reference given back on failure |
| Registry.PwmCore.Release | driver/pwm_core.c:198-214 | in place: a flagged channel is given back with one module reference, any other is left alone |
| Registry.PwmCore.Unregister | driver/pwm_core.c:94-123 | in place: busy with nothing changed, or the device is removed |
| System.RequestKeeps | driver/pwm_core.c:161-195 | a request takes nothing from any holder, and a grant is of a channel nobody held |
| System.ReleaseOthers | driver/pwm_core.c:198-214 | a release takes away only the channel it names |
| System.StepKeepsInv | driver/pwm_drv.c:149-206 | every act of every file keeps: files hold distinct flagged channels whose name still leads to their device, and the node list is the open files, each once |
| Ownership.InvOverRuns | driver/pwm_drv.c:149-206 | so does every interleaving |
| Ownership.HostNameSpells | driver/pwm_drv.c:156-160 | a host's name is "pwm" and its number in decimal, without a leading zero |
| Ownership.PairsAreChannels | driver/pwm_drv.c:156-160 | among holders a (host, channel) pair and a channel stand for each other, because a name leads to one device and one host number spells it |
| Ownership.LookupsUnambiguous | driver/pwm_drv.c:160-178 | published nodes have distinct channels, distinct (host, channel) pairs and flagged channels |
| Ownership.CloseFindsOwnNode | driver/pwm_drv.c:193-201 | a close finds the node its own open published, and removes that one only |
| Ownership.ReferencesConserved | driver/pwm_core.c:138-214 | in every reachable state each module's count is the number of requested channels of its devices |
| Ownership.StepView | driver/pwm_core.c:138-478 | in any act a channel makes exactly the step that concerns it, or its device is unregistered |
| Ownership.ChannelHistory | driver/pwm_core.c:138-478 | whatever else happens, each channel goes through a run of its own events |
| Ownership.HolderActs | driver/pwm_drv.c:227-278 | a holder's acts are the call of pwm_config, or the installation of the handler, on its own channel |
| Ownership.InterruptActs | driver/_pwm.c:274-308 | an interrupt triggers exactly the channels of its controller whose bit 8 + i is set |
| Ownership.WorkActs | driver/pwm_core.c:453-459 | queued work stops its channel exactly if a handler is there and says so, and does nothing else |
| Ownership.ExclusiveGrants | driver/pwm_core.c:144-145 | no channel is granted twice without a release of it in between |
| Ownership.NoGrantAfterUnregister | driver/pwm_core.c:94-195 | nothing is granted on a device after its accepted unregistration |
| Ownership.SilentAfterRelease | driver/pwm_core.c:198-214 | a channel released and not granted since is silent at every point, whatever files, interrupts and queued handlers do, if and only if no resume and no loss of power writes registers with an output bit set to it |
| Ownership.OrderInSystem | driver/pwm_core.c:291-330 | from the empty driver on, every channel keeps its duty within its period if and only if nobody makes the disordering update |
| Ownership.RefinementInSystem | driver/_pwm.c:113-360 | the registers of a channel are right at every point if and only if they were at first and no act of the whole driver is a harmful configuration or reload of it |
| Power.AreaHolds | driver/_pwm.c:314-331 | each place of the shared save area holds the registers of the channel, of whatever controller, that was saved there last |
| Power.FitsInSystem | driver/_pwm.c:312-331 | in every reachable state a registered controller has its place in the save area if and only if it has at most four channels |
| Power.ResumeLoads | driver/_pwm.c:342-369 | whatever happened since, a resume gives each channel the registers saved last in its place and changes nothing else of it |
| Power.ResumeRefines | driver/_pwm.c:312-369 | if the saved registers were right for their channel, they are right after the resume if and only if the settings then in force are valid and encode to the same counts |
| Power.ResumeSilence | driver/_pwm.c:312-369 | a silent channel is silent after the resume if and only if what was saved in its place had both output bits clear |
| Power.UndisturbedResume | driver/_pwm.c:333-369 | if nothing but losses of power and resumes happens to a channel between its suspend and its resume, and no suspend saves another in its place, it is afterwards exactly what it was |
| Power.RightOutsideWindows | driver/_pwm.c:113-369 | over whole runs in which every suspension is undisturbed, losses of power included, the registers are right whenever the controller is not suspended if and only if they were at first and everything at such times was harmless |
| Devices.DeviceStep | driver/_pwm.c:274-360 | no act changes a controller's name, owner, clocks or number of channels, and only interrupts, resumes and losses of power touch its shared registers, as stated |
| Devices.IdentityOverRuns | driver/pwm_core.c:46-136 | over every run a registered controller keeps name, owner, clocks and number of channels |
| Devices.ResumeShared | driver/_pwm.c:312-360 | a resume gives a controller the rate, clock source and, but for the trigger bits, interrupt register of the controller suspended last |
| Chardev.CharDriver.Request | driver/pwm_drv.c:156-163 | in place: the first section of an open is one act of the system, and returns the error number of the request |
| Chardev.CharDriver.Publish | driver/pwm_drv.c:172-179 | in place: so is the publication |
| Chardev.CharDriver.Search | driver/pwm_drv.c:281-288 | the search loop for a channel's node |
| Chardev.CharDriver.SearchPair | driver/pwm_drv.c:294-299 | the search loop for a host and channel number |
| Chardev.CharDriver.UnlinkFile | driver/pwm_drv.c:193-201 | in place: search and removal are one act of the system |
| Chardev.CharDriver.ReleaseFile | driver/pwm_drv.c:167-170 | in place: so is giving the channel back |
| Chardev.CharDriver.OpenFile | driver/pwm_drv.c:149-181 | in place: the sections of an open in order; it returns the error number of the request, ENOMEM, or zero |
| Chardev.OpenErrors | driver/pwm_drv.c:159-163 | the error number of the request: ENODEV without the device, the channel or its module; otherwise EBUSY for a taken channel, or the hook's own |
| Chardev.CharDriver.CloseFile | driver/pwm_drv.c:188-206 | in place: the sections of a close in order |
| Chardev.CharDriver.Sync | driver/pwm_drv.c:280-347 | both lookups and the process check, in place |
| Chardev.OpenGrants | driver/pwm_drv.c:149-181 | a successful open holds the flagged channel its minor number stands for, four bits of host and four of channel, not held before, and publishes it under the opening process |
| Chardev.OpenFindsFirstHost | driver/pwm_drv.c:156-163 | a minor number below 16 opens that channel of the device registered as pwm0, when it is there and free |
| Chardev.OpenThenPeriod | driver/_pwm.c:210-218 | after an open the channel has the clock of its place; with 27 MHz, a period set on it reads back within the stated loss |
| Chardev.OpenUndone | driver/pwm_drv.c:149-206 | a failed open, and an open with its close, leave files, nodes, counts and every channel as they were, except the one the request granted, which nobody held and which ends silent with its settings |
| Chardev.SyncInSystem | driver/pwm_drv.c:280-347 | in every reachable state the caller finds its own node, so the BUG_ON never fires, and is always refused: with EPERM if another process has the numbered channel of the host open, with EINVAL otherwise |

## Left out

- PCI probe and remove, ioremap, interrupt, class and character-device registration: kernel plumbing.
- The sysfs attributes, whose request takes no module reference and whose release needs no holder
  (`driver/pwm_core.c:560-583`): they are outside the ownership protocol.
- The failure paths of registration (no memory, sysfs error).
- Copying from and to user space, poll and ioctl numbers: only the calls they lead to are modelled.
- Cross-channel synchronisation: the Intel driver installs no hook, so it only returns an error.
- `driver/pwm_wrapper.c`: a handle layer over the same calls; its polarity request replaces the mask.
- Direct callers of `pwm_config_nosleep`, which skip the check; it is modelled as the driver's hook.
- The check of `pwm_config` runs outside the channel's lock; a whole configuration call is one atomic
  step here, and so is each section under a lock. Weak memory and races inside a register
  read-modify-write are not modelled, nor is the ioctl's first lookup running without the lock.
- The waveform itself beyond the encoded counts, and what writing a set trigger bit does in hardware:
  the interrupt register is modelled as a register that keeps what is written. The counters that
  suspend does not save are not in the model.
- A power callback is one atomic act, and a loss of power may change any register at any time; what
  the hardware or the kernel guarantees about power beyond that is not modelled. A controller of more
  than four channels, which the driver never makes, is neither saved nor restored here, where the code
  would run past the save area.
- The insides of module pinning, work queues and completions: pinning is an input of a request, and
  queued handlers may run at any time.
- The requester name and process id stored with a grant.
- A freed device's address being used again: addresses are numbers that are never reused.
- A negative channel number, which `pwm_request` does not check; every caller in the repository passes
  a masked, non-negative one.
- System.StepKeepsInv: acts on devices that are not registered change nothing here, where the code
  would follow a dangling pointer; files never do so in a reachable state.
