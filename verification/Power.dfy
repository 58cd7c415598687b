/** Suspend and resume as separate acts of the whole driver, with anything in between: what a resume
    gives back, and exactly when that is right (driver/_pwm.c:312-369). */
module Power {
  import opened Kernel
  import opened Words
  import opened Encoding
  import opened Channel
  import opened Refinement
  import opened Core
  import C = Core
  import opened System
  import opened Ownership
  import R = Runs
  import D = Device

  /** The act is a suspend that saves a channel `c`. */
  predicate Saves(s: Sys, a: Act, c: nat) {
    a.Suspend? && Fits(s, a.id) && c < |DevAt(s.core, a.id).chans|
  }

  /** Of the first `n` acts the `k`-th was the last to save a channel `c`, of whatever controller. */
  ghost predicate SavedLast(s: Sys, acts: seq<Act>, k: nat, n: nat, c: nat) {
    && k < n <= |acts| && Saves(StateAt(s, acts, k), acts[k], c)
    && forall i :: k < i < n ==> !Saves(StateAt(s, acts, i), acts[i], c)
  }

  /** The channel that a saving act saves. */
  function SavedRef(a: Act, c: nat): Ref
    requires a.Suspend?
  {
    Ref(a.id, c)
  }

  lemma SavesPresent(s: Sys, a: Act, c: nat)
    requires Saves(s, a, c)
    ensures Present(s.core, SavedRef(a, c))
  {
  }

  /** One act leaves a place of the save area alone, or puts the registers of a channel there. */
  lemma AreaStep(s: Sys, a: Act, c: nat)
    requires c < |s.area.chan|
    ensures c < |Next(s, a).area.chan|
    ensures Saves(s, a, c) ==> Present(s.core, SavedRef(a, c))
    ensures Next(s, a).area.chan[c] == if Saves(s, a, c) then ChanAt(s.core, SavedRef(a, c)).regs else s.area.chan[c]
  {
    hide C.Request, C.Release, C.Register, C.Unregister, D.Restore, D.Interrupt, OnChannel, OnDevice, HostName, Unlink;
  }

  /** The channel that was saved, as it was then. */
  function SavedChan(s: Sys, acts: seq<Act>, k: nat, c: nat): Chan
    requires k < |acts| && Saves(StateAt(s, acts, k), acts[k], c)
  {
    SavesPresent(StateAt(s, acts, k), acts[k], c);
    ChanAt(StateAt(s, acts, k).core, SavedRef(acts[k], c))
  }

  lemma AreaSizeStep(s: Sys, a: Act)
    ensures |Next(s, a).area.chan| == |s.area.chan|
  {
    hide C.Request, C.Release, C.Register, C.Unregister, D.Restore, D.Interrupt, OnChannel, OnDevice, HostName, Unlink;
  }

  lemma {:induction false} AreaSize(s: Sys, acts: seq<Act>, n: nat)
    requires n <= |acts|
    ensures |StateAt(s, acts, n).area.chan| == |s.area.chan|
  {
    hide Next;
    if n > 0 {
      AreaSize(s, acts, n - 1);
      AreaSizeStep(StateAt(s, acts, n - 1), acts[n - 1]);
    }
  }

  /** Each place of the save area holds the registers of the channel saved there last. */
  lemma {:induction false} AreaHolds(s: Sys, acts: seq<Act>, k: nat, n: nat, c: nat)
    requires c < |s.area.chan| && SavedLast(s, acts, k, n, c)
    ensures c < |StateAt(s, acts, n).area.chan|
    ensures StateAt(s, acts, n).area.chan[c] == SavedChan(s, acts, k, c).regs
    decreases n
  {
    hide Next, Saves, Present, ChanAt;
    var before := StateAt(s, acts, n - 1);
    AreaSize(s, acts, n - 1);
    AreaStep(before, acts[n - 1], c);
    if k < n - 1 {
      AreaHolds(s, acts, k, n - 1, c);
    }
  }

  /** In every state of the driver that is reachable, a controller of at most four channels has its place
      in the save area. */
  lemma FitsInSystem(acts: seq<Act>, n: nat, id: nat)
    requires n <= |acts| && Registered(StateAt(EMPTY, acts, n).core, id)
    ensures Fits(StateAt(EMPTY, acts, n), id) <==> |DevAt(StateAt(EMPTY, acts, n).core, id).chans| <= 4
  {
    hide Next, DevAt, Registered;
    AreaSize(EMPTY, acts, n);
    D.AreaRoomy(DevAt(StateAt(EMPTY, acts, n).core, id));
  }

  /** The `j`-th act resumes the controller of a channel that the `k`-th act, a suspend of this or
      another controller, was the last to save. */
  ghost predicate ResumesSaved(s: Sys, acts: seq<Act>, k: nat, j: nat, r: Ref) {
    && j < |acts| && acts[j] == Resume(r.dev) && Fits(StateAt(s, acts, j), r.dev)
    && r.chan < |s.area.chan| && SavedLast(s, acts, k, j, r.chan)
    && Present(StateAt(s, acts, j).core, r)
  }

  /** A resume gives each channel the registers saved last in its place, and changes nothing else of
      it, whatever happened between. */
  lemma ResumeLoads(s: Sys, acts: seq<Act>, k: nat, j: nat, r: Ref)
    requires Inv(s) && ResumesSaved(s, acts, k, j, r)
    ensures var t := StateAt(s, acts, j + 1).core;
            && Present(t, r)
            && ChanAt(t, r) == ChanAt(StateAt(s, acts, j).core, r).(regs := SavedChan(s, acts, k, r.chan).regs)
  {
    hide Inv, Next, Present, ChanAt, Saves, Fits, OnDevice, D.Restore;
    var before := StateAt(s, acts, j);
    InvOverRuns(s, acts, j);
    InvIds(before);
    AreaHolds(s, acts, k, j, r.chan);
    OneStep(s, acts, j);
    ResumeStep(before, r);
  }

  lemma ResumeStep(s: Sys, r: Ref)
    requires DistinctIds(s.core) && Fits(s, r.dev) && Present(s.core, r)
    ensures var t := Next(s, Resume(r.dev)).core;
            && Present(t, r) && r.chan < |s.area.chan|
            && ChanAt(t, r) == ChanAt(s.core, r).(regs := s.area.chan[r.chan])
  {
    hide D.Restore, Present, ChanAt, OnDevice;
    ResumeView(s, r.dev, r);
  }

  /** The encodings of two settings are the same. */
  predicate SameCounts(period: Word, duty: Word, period': Word, duty': Word) {
    && Prescale(period) == Prescale(period') && PeriodCount(period) == PeriodCount(period')
    && DutyCount(period, duty) == DutyCount(period', duty')
  }

  /** If the registers were right when they were saved, they are right after the resume exactly when
      the settings in force then are ones the hardware can have and encode to the same counts as the
      settings of the channel that was saved. */
  lemma ResumeRefines(s: Sys, acts: seq<Act>, k: nat, j: nat, r: Ref)
    requires Inv(s) && ResumesSaved(s, acts, k, j, r)
    requires Refines(SavedChan(s, acts, k, r.chan))
    ensures var saved := SavedChan(s, acts, k, r.chan);
            var now := ChanAt(StateAt(s, acts, j).core, r);
            Present(StateAt(s, acts, j + 1).core, r)
            && (Refines(ChanAt(StateAt(s, acts, j + 1).core, r))
                <==> 1 <= now.period <= PERIOD_MAX && now.duty <= now.period
                     && SameCounts(now.period, now.duty, saved.period, saved.duty))
  {
    hide Inv, StateAt, SavedChan, Present, ChanAt, Prescale, PeriodCount, DutyCount;
    ResumeLoads(s, acts, k, j, r);
  }

  /** A silent channel is silent after the resume exactly when the channel saved in its place had its
      outputs off at that time: a release between the suspend and the resume is undone by a resume
      that was saved running. */
  lemma ResumeSilence(s: Sys, acts: seq<Act>, k: nat, j: nat, r: Ref)
    requires Inv(s) && ResumesSaved(s, acts, k, j, r)
    requires Silent(ChanAt(StateAt(s, acts, j).core, r))
    ensures Present(StateAt(s, acts, j + 1).core, r)
            && (Silent(ChanAt(StateAt(s, acts, j + 1).core, r)) <==> Quiet(SavedChan(s, acts, k, r.chan).regs))
  {
    hide Inv, StateAt, SavedChan, Present, ChanAt, Quiet, Silent, R.Apply;
    ResumeLoads(s, acts, k, j, r);
    var regs := SavedChan(s, acts, k, r.chan).regs;
    ReloadSilence(ChanAt(StateAt(s, acts, j).core, r), regs);
    Reloaded(ChanAt(StateAt(s, acts, j).core, r), regs);
  }

  lemma Reloaded(c: Chan, regs: Regs)
    ensures R.Apply(c, R.Reload(regs)) == c.(regs := regs)
  {
  }

  /** Between the two acts nothing happens to the channel but losses of power and other resumes. */
  ghost predicate OnlyReloads(s: Sys, acts: seq<Act>, i: nat, j: nat, r: Ref)
    requires j <= |acts|
  {
    forall k :: i <= k < j ==>
      var e := Seen(StateAt(s, acts, k), acts[k], r);
      e.Some? ==> e.value.Reload?
  }

  lemma {:induction false} ReloadsKeepSettings(s: Sys, acts: seq<Act>, i: nat, j: nat, r: Ref)
    requires Inv(s) && i <= j <= |acts| && OnlyReloads(s, acts, i, j, r)
    requires Present(StateAt(s, acts, i).core, r) && Present(StateAt(s, acts, j).core, r)
    ensures var c := ChanAt(StateAt(s, acts, i).core, r);
            ChanAt(StateAt(s, acts, j).core, r) == c.(regs := ChanAt(StateAt(s, acts, j).core, r).regs)
    decreases j
  {
    hide Inv, Next, Present, ChanAt, Seen, R.Apply;
    if i < j {
      var before := StateAt(s, acts, j - 1);
      PresentBetween(s, acts, i, j, r);
      ReloadsKeepSettings(s, acts, i, j - 1, r);
      InvOverRuns(s, acts, j - 1);
      InvIds(before);
      OneStep(s, acts, j - 1);
      StepView(before, acts[j - 1], r);
      var e := Seen(before, acts[j - 1], r);
      if e.Some? {
        Reloaded(ChanAt(before.core, r), e.value.regs);
      }
    }
  }

  /** When a controller is suspended and then resumed, nothing but losses of power and resumes happens
      to a channel between, and no suspend saves another channel in its place, then the channel is
      after the resume exactly what it was at the suspend. */
  lemma UndisturbedResume(s: Sys, acts: seq<Act>, i: nat, j: nat, r: Ref)
    requires Inv(s) && ResumesSaved(s, acts, i, j, r) && acts[i] == Suspend(r.dev)
    requires OnlyReloads(s, acts, i, j, r)
    ensures Present(StateAt(s, acts, i).core, r) && Present(StateAt(s, acts, j + 1).core, r)
    ensures ChanAt(StateAt(s, acts, j + 1).core, r) == ChanAt(StateAt(s, acts, i).core, r)
  {
    hide Inv, Present, ChanAt, OnlyReloads, Fits;
    SavesPresent(StateAt(s, acts, i), acts[i], r.chan);
    assert SavedRef(acts[i], r.chan) == r;
    ResumeLoads(s, acts, i, j, r);
    ReloadsKeepSettings(s, acts, i, j, r);
  }

  /* ----- whole runs ----- */

  /** After the first `n` acts, the suspend of a channel's controller that has not been followed by a
      resume yet, if there is one. */
  function Window(s: Sys, acts: seq<Act>, n: nat, r: Ref): Option<nat>
    requires n <= |acts|
  {
    if n == 0 then None
    else
      var w := Window(s, acts, n - 1, r);
      if w.None? && acts[n - 1] == Suspend(r.dev) && Fits(StateAt(s, acts, n - 1), r.dev) then Some(n - 1)
      else if w.Some? && acts[n - 1] == Resume(r.dev) && Fits(StateAt(s, acts, n - 1), r.dev) then None
      else w
  }

  /** While the controller is suspended, nothing happens to the channel but losses of power and the
      resume, and no suspend saves another channel in its place. */
  ghost predicate Undisturbed(s: Sys, acts: seq<Act>, n: nat, r: Ref)
    requires n <= |acts|
  {
    forall k :: 0 <= k < n && Window(s, acts, k, r).Some? ==>
      var e := Seen(StateAt(s, acts, k), acts[k], r);
      (e.Some? ==> e.value.Reload?) && !Saves(StateAt(s, acts, k), acts[k], r.chan)
  }

  /** Whenever the controller is not suspended, the channel's registers are right. */
  ghost predicate RightAwake(s: Sys, acts: seq<Act>, n: nat, r: Ref)
    requires n <= |acts|
  {
    forall k :: 0 <= k <= n && Window(s, acts, k, r).None? ==>
      Present(StateAt(s, acts, k).core, r) && Refines(ChanAt(StateAt(s, acts, k).core, r))
  }

  /** Whenever the controller is not suspended, what happens is harmless to the channel. */
  ghost predicate HarmlessAwake(s: Sys, acts: seq<Act>, n: nat, r: Ref)
    requires n <= |acts|
  {
    forall k :: 0 <= k < n && Window(s, acts, k, r).None? ==>
      Present(StateAt(s, acts, k).core, r) && HarmlessTo(StateAt(s, acts, k), acts[k], r)
  }

  /** A window was opened by a suspend, and has been open since. */
  lemma {:induction false} WindowOpened(s: Sys, acts: seq<Act>, n: nat, r: Ref)
    requires n <= |acts| && Window(s, acts, n, r).Some?
    ensures var i := Window(s, acts, n, r).value;
            && i < n && Window(s, acts, i, r).None?
            && acts[i] == Suspend(r.dev) && Fits(StateAt(s, acts, i), r.dev)
            && forall k :: i < k <= n ==> Window(s, acts, k, r) == Some(i)
  {
    hide StateAt, Fits;
    if Window(s, acts, n - 1, r).Some? {
      WindowOpened(s, acts, n - 1, r);
    }
  }

  lemma PresentThroughout(s: Sys, acts: seq<Act>, k: nat, n: nat, r: Ref)
    requires Inv(s) && k <= n <= |acts|
    requires Present(s.core, r) && Present(StateAt(s, acts, n).core, r)
    ensures Present(StateAt(s, acts, k).core, r)
  {
    hide Inv, Present, Gone, Next;
    PresentOrGone(s, acts, 0, k, r);
    if Gone(StateAt(s, acts, k).core, r.dev) {
      GoneOverRuns(s, acts, k, n, r.dev);
      GoneAbsent(StateAt(s, acts, n).core, r);
    }
  }

  lemma SuspendUnseen(s: Sys, r: Ref)
    ensures Seen(s, Suspend(r.dev), r) == None
  {
  }

  lemma FitsSaves(s: Sys, r: Ref)
    requires Fits(s, r.dev) && Present(s.core, r)
    ensures Saves(s, Suspend(r.dev), r.chan) && r.chan < |s.area.chan|
  {
  }

  lemma WindowQuiet(s: Sys, acts: seq<Act>, i: nat, j: nat, r: Ref)
    requires i < j < |acts| && Undisturbed(s, acts, j + 1, r)
    requires acts[i] == Suspend(r.dev) && Saves(StateAt(s, acts, i), acts[i], r.chan)
    requires forall k :: i < k <= j ==> Window(s, acts, k, r) == Some(i)
    ensures OnlyReloads(s, acts, i, j, r) && SavedLast(s, acts, i, j, r.chan)
  {
    hide StateAt, Window, Saves, Seen;
    SuspendUnseen(StateAt(s, acts, i), r);
  }

  /** The resume that closes an undisturbed window gives the channel back as it was when the window
      was opened. */
  lemma WindowRestores(s: Sys, acts: seq<Act>, j: nat, r: Ref)
    requires Inv(s) && j < |acts| && Undisturbed(s, acts, j + 1, r)
    requires Present(s.core, r) && Present(StateAt(s, acts, j + 1).core, r)
    requires Window(s, acts, j, r).Some? && acts[j] == Resume(r.dev) && Fits(StateAt(s, acts, j), r.dev)
    ensures var i := Window(s, acts, j, r).value;
            && i < j && Window(s, acts, i, r).None? && Present(StateAt(s, acts, i).core, r)
            && ChanAt(StateAt(s, acts, j + 1).core, r) == ChanAt(StateAt(s, acts, i).core, r)
  {
    hide Inv, StateAt, Window, Present, ChanAt, Fits, Saves, Seen;
    var i := Window(s, acts, j, r).value;
    WindowOpened(s, acts, j, r);
    PresentThroughout(s, acts, i, j + 1, r);
    PresentThroughout(s, acts, j, j + 1, r);
    FitsSaves(StateAt(s, acts, i), r);
    AreaSize(s, acts, i);
    WindowQuiet(s, acts, i, j, r);
    hide Undisturbed, OnlyReloads, SavedLast;
    UndisturbedResume(s, acts, i, j, r);
  }

  /** Over whole runs with suspends and resumes: as long as every suspension of its controller is
      undisturbed, losses of power included, a channel's registers are right whenever the controller
      is not suspended exactly when they were at first and everything that happened to the channel at
      such times was harmless. */
  lemma {:induction false} RightOutsideWindows(s: Sys, acts: seq<Act>, n: nat, r: Ref)
    requires Inv(s) && n <= |acts| && Undisturbed(s, acts, n, r)
    requires Present(s.core, r) && Present(StateAt(s, acts, n).core, r)
    ensures RightAwake(s, acts, n, r) <==> Refines(ChanAt(s.core, r)) && HarmlessAwake(s, acts, n, r)
  {
    hide Inv, Next, Present, ChanAt, Fits, Saves, Seen, R.Apply, Refines, HarmlessTo;
    hide RightAwake, HarmlessAwake, Undisturbed;
    if n == 0 {
      AwakeAtFirst(s, acts, r);
    } else {
      PresentThroughout(s, acts, n - 1, n, r);
      UndisturbedBefore(s, acts, n, r);
      RightOutsideWindows(s, acts, n - 1, r);
      if Window(s, acts, n - 1, r).Some? {
        AsleepStep(s, acts, n, r);
      } else {
        AwakeStep(s, acts, n, r);
      }
    }
  }

  lemma UndisturbedBefore(s: Sys, acts: seq<Act>, n: nat, r: Ref)
    requires 0 < n <= |acts| && Undisturbed(s, acts, n, r)
    ensures Undisturbed(s, acts, n - 1, r)
  {
    hide StateAt, Window, Seen, Saves;
  }

  lemma AwakeAtFirst(s: Sys, acts: seq<Act>, r: Ref)
    requires Present(s.core, r)
    ensures RightAwake(s, acts, 0, r) <==> Refines(ChanAt(s.core, r))
    ensures HarmlessAwake(s, acts, 0, r)
  {
    hide Present, ChanAt, Refines;
    assert StateAt(s, acts, 0) == s && Window(s, acts, 0, r).None?;
  }

  /** An act while the controller is suspended decides nothing. */
  lemma AsleepStep(s: Sys, acts: seq<Act>, n: nat, r: Ref)
    requires Inv(s) && 0 < n <= |acts| && Undisturbed(s, acts, n, r)
    requires Present(s.core, r) && Present(StateAt(s, acts, n).core, r)
    requires Window(s, acts, n - 1, r).Some?
    ensures RightAwake(s, acts, n, r) <==> RightAwake(s, acts, n - 1, r)
    ensures HarmlessAwake(s, acts, n, r) <==> HarmlessAwake(s, acts, n - 1, r)
  {
    hide Inv, StateAt, Present, ChanAt, Fits, Saves, Seen, Refines, HarmlessTo, Undisturbed;
    if Window(s, acts, n, r).None? {
      WindowRestores(s, acts, n - 1, r);
    }
  }

  /** An act while it is not keeps right registers right exactly when it is harmless. */
  lemma AwakeStep(s: Sys, acts: seq<Act>, n: nat, r: Ref)
    requires Inv(s) && 0 < n <= |acts|
    requires Present(StateAt(s, acts, n - 1).core, r) && Present(StateAt(s, acts, n).core, r)
    requires Window(s, acts, n - 1, r).None?
    ensures RightAwake(s, acts, n, r) ==> RightAwake(s, acts, n - 1, r)
    ensures HarmlessAwake(s, acts, n, r) ==> HarmlessAwake(s, acts, n - 1, r)
    ensures RightAwake(s, acts, n - 1, r) && HarmlessAwake(s, acts, n - 1, r) ==>
              (RightAwake(s, acts, n, r) <==> HarmlessAwake(s, acts, n, r))
  {
    hide Inv, Next, Present, ChanAt, Fits, Saves, R.Apply, Refines, HarmlessTo, StateAt, DistinctIds;
    var before := StateAt(s, acts, n - 1);
    InvOverRuns(s, acts, n - 1);
    InvIds(before);
    OneStep(s, acts, n - 1);
    if Refines(ChanAt(before.core, r)) {
      HarmlessStep(before, acts[n - 1], r);
    }
    if Window(s, acts, n, r).Some? {
      SuspendHarmless(before, r);
    }
  }

  lemma HarmlessStep(s: Sys, a: Act, r: Ref)
    requires DistinctIds(s.core) && Present(s.core, r) && Present(Next(s, a).core, r) && Refines(ChanAt(s.core, r))
    ensures Refines(ChanAt(Next(s, a).core, r)) <==> HarmlessTo(s, a, r)
  {
    hide Next, Present, ChanAt, Seen, R.Apply, R.HarmlessAt, Refines, DistinctIds;
    StepView(s, a, r);
    var e := Seen(s, a, r);
    if e.Some? {
      R.StepKeepsRefinement(ChanAt(s.core, r), e.value);
    }
  }

  lemma SuspendHarmless(s: Sys, r: Ref)
    requires Present(s.core, r)
    ensures HarmlessTo(s, Suspend(r.dev), r)
  {
    hide Seen, R.HarmlessAt, Present;
    SuspendUnseen(s, r);
  }
}
