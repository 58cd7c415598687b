/** Controllers in the whole driver: what each act does to a controller besides its channels, that its
    name, owner and clocks never change, and what a resume makes of its shared registers
    (driver/_pwm.c:274-360, driver/pwm_core.c:46-214). */
module Devices {
  import opened Words
  import opened Channel
  import opened Core
  import opened System
  import opened Ownership
  import R = Runs
  import K = Core
  import D = Device

  /** The two views of a controller differ in its channels only, and it has as many. */
  predicate SameShell(d: Dev, e: Dev) {
    e == d.(chans := e.chans) && |e.chans| == |d.chans|
  }

  lemma SetChanShell(s: Core, r: Ref, c: Chan, id: nat)
    requires Present(s, r) && Registered(s, id)
    ensures Registered(SetChan(s, r, c), id) && SameShell(DevAt(s, id), DevAt(SetChan(s, r, c), id))
  {
    SetChanFrame(s, r, c, Ref(id, 0), "");
  }

  lemma OnChannelShell(s: Core, r: Ref, e: R.Event, id: nat)
    requires Registered(s, id)
    ensures Registered(OnChannel(s, r, e), id) && SameShell(DevAt(s, id), DevAt(OnChannel(s, r, e), id))
  {
    hide R.Apply, SetChan;
    if Present(s, r) {
      SetChanShell(s, r, R.Apply(ChanAt(s, r), e), id);
    }
  }

  lemma OnDeviceShell(s: Core, other: nat, d: Dev, id: nat)
    requires Registered(s, other) && Registered(s, id) && d.id == other && d.busId == DevAt(s, other).busId
    ensures Registered(OnDevice(s, other, d), id)
    ensures DevAt(OnDevice(s, other, d), id) == if id == other then d else DevAt(s, id)
  {
    SameLookups(s.devs, IndexOf(s.devs, other), d, id, "");
  }

  lemma ReleaseShell(s: Core, r: Ref, id: nat)
    requires Registered(s, id)
    ensures Registered(Release(s, r), id) && SameShell(DevAt(s, id), DevAt(Release(s, r), id))
  {
    hide R.Released, SetChan;
    if Requested(s, r) {
      SetChanShell(s, r, R.Released(ChanAt(s, r)), id);
    }
  }

  lemma RequestShell(s: Core, busId: string, chan: nat, live: bool, hook: int, id: nat)
    requires DistinctIds(s) && Registered(s, id)
    ensures var t := K.Request(s, busId, chan, live, hook).0;
            Registered(t, id) && SameShell(DevAt(s, id), DevAt(t, id))
  {
    hide K.Request, R.Granted, SetChan, ClockOf;
    RequestOutcome(s, busId, chan, live, hook);
    var reply := K.Request(s, busId, chan, live, hook).1;
    if reply.Ok? {
      var r := reply.ref;
      SetChanShell(s, r, R.Granted(ChanAt(s, r), ClockOf(s.devs[IndexOf(s.devs, r.dev)], chan)), id);
    }
  }

  lemma RegisterShell(s: Core, d: Dev, regs: seq<Regs>, id: nat)
    requires Registered(s, id)
    ensures var t := K.Register(s, d, regs);
            Registered(t, id) && DevAt(t, id) == DevAt(s, id)
  {
    AppendedLookup(s.devs, K.Register(s, d, regs).devs[|s.devs|], id, "");
  }

  lemma UnregisterShell(s: Core, other: nat, id: nat)
    requires DistinctIds(s) && Registered(s, id)
    ensures var t := K.Unregister(s, other).0;
            Registered(t, id) ==> DevAt(t, id) == DevAt(s, id)
  {
    if Registered(s, other) {
      UnregisteredIs(s, IndexOf(s.devs, other));
      RemovedLookup(s.devs, IndexOf(s.devs, other), id);
    }
  }

  /** The rate, clock source and interrupt registers of a controller. */
  function Shared(d: Dev): (Word, Word, bv32) {
    (d.ddsRate, d.clkSrc, d.intTrg)
  }

  /** These after an act: a resume writes what the save area holds, but for the trigger bits; an
      interrupt acknowledges; a loss of power leaves anything; nothing else touches them. */
  function SharedAfter(s: Sys, a: Act, id: nat): (Word, Word, bv32)
    requires Registered(s.core, id)
  {
    var d := DevAt(s.core, id);
    if a == Resume(id) && Fits(s, id) then (s.area.ddsRate, s.area.clkSrc, s.area.intTrg & 0xF0F0)
    else if a.PowerLoss? && a.id == id && CanLose(s.core, id, a.lost) then Shared(a.lost)
    else if a.Interrupt? && a.id == id then (d.ddsRate, d.clkSrc, a.status & 0xFF00)
    else Shared(d)
  }

  /** One act keeps what identifies a controller, and leaves its shared registers as stated. */
  predicate KeepsDevice(s: Sys, a: Act, id: nat)
    requires Registered(s.core, id) && Registered(Next(s, a).core, id)
  {
    var d, e := DevAt(s.core, id), DevAt(Next(s, a).core, id);
    && e.id == d.id && e.busId == d.busId && e.owner == d.owner && e.clk == d.clk
    && |e.chans| == |d.chans|
    && Shared(e) == SharedAfter(s, a, id)
  }

  lemma ShellKept(s: Sys, a: Act, id: nat)
    requires Registered(s.core, id) && Registered(Next(s, a).core, id)
    requires SameShell(DevAt(s.core, id), DevAt(Next(s, a).core, id))
    requires !a.Interrupt? && !a.Resume? && !a.PowerLoss?
    ensures KeepsDevice(s, a, id)
  {
    hide Next, DevAt, Registered;
  }

  lemma FileActs(s: Sys, a: Act, id: nat)
    requires a.OpenRequest? || a.OpenNoMemory? || a.OpenPublish? || a.CloseUnlink? || a.CloseRelease?
    requires DistinctIds(s.core) && Registered(s.core, id)
    ensures Registered(Next(s, a).core, id) && SameShell(DevAt(s.core, id), DevAt(Next(s, a).core, id))
  {
    hide K.Request, Release, HostName, DistinctIds, Registered, DevAt;
    match a
    case OpenRequest(f, minor, live, hook) =>
      RequestShell(s.core, HostName(HostOf(minor)), ChanOf(minor), live, hook, id);
    case OpenNoMemory(f) => if f in s.files { ReleaseShell(s.core, RefOf(s, f), id); }
    case CloseRelease(f) => if f in s.files { ReleaseShell(s.core, RefOf(s, f), id); }
    case _ =>
  }

  lemma UseActs(s: Sys, a: Act, id: nat)
    requires a.Configure? || a.Handle? || a.Work? || a.Register? || a.Unregister? || a.Suspend?
    requires DistinctIds(s.core) && Registered(s.core, id) && Registered(Next(s, a).core, id)
    ensures SameShell(DevAt(s.core, id), DevAt(Next(s, a).core, id))
  {
    hide OnChannel, K.Register, K.Unregister, DistinctIds, Registered, DevAt;
    match a
    case Register(d, regs) => RegisterShell(s.core, d, regs, id);
    case Unregister(other) => UnregisterShell(s.core, other, id);
    case Configure(f, c) => if f in s.files { OnChannelShell(s.core, RefOf(s, f), R.Configure(c), id); }
    case Handle(f, h, data) => if f in s.files { OnChannelShell(s.core, RefOf(s, f), R.Handle(h, data), id); }
    case Work(r, answer) => OnChannelShell(s.core, r, R.Work(answer), id);
    case _ =>
  }

  lemma InterruptKeeps(s: Sys, other: nat, status: bv32, id: nat)
    requires Registered(s.core, id)
    ensures Registered(Next(s, Interrupt(other, status)).core, id) && KeepsDevice(s, Interrupt(other, status), id)
  {
    hide D.TriggeredUpTo, OnDevice, DevAt, Registered;
    if Registered(s.core, other) {
      DevAtId(s.core, other);
      OnDeviceShell(s.core, other, D.Interrupt(DevAt(s.core, other), status), id);
    }
  }

  lemma ResumeKeepsDevice(s: Sys, other: nat, id: nat)
    requires Registered(s.core, id)
    ensures Registered(Next(s, Resume(other)).core, id) && KeepsDevice(s, Resume(other), id)
  {
    hide D.RestoredUpTo, OnDevice, DevAt, Registered;
    if Fits(s, other) {
      DevAtId(s.core, other);
      OnDeviceShell(s.core, other, D.Restore(DevAt(s.core, other), s.area), id);
    }
  }

  lemma PowerLossKeepsDevice(s: Sys, other: nat, lost: Dev, id: nat)
    requires Registered(s.core, id)
    ensures Registered(Next(s, PowerLoss(other, lost)).core, id) && KeepsDevice(s, PowerLoss(other, lost), id)
  {
    hide OnDevice, DevAt, Registered;
    if CanLose(s.core, other, lost) {
      DevAtId(s.core, other);
      OnDeviceShell(s.core, other, lost, id);
    }
  }

  /** No act changes a controller's name, owner, clocks or number of channels, and each leaves its shared
      registers as `SharedAfter` says. */
  lemma DeviceStep(s: Sys, a: Act, id: nat)
    requires DistinctIds(s.core) && Registered(s.core, id) && Registered(Next(s, a).core, id)
    ensures KeepsDevice(s, a, id)
  {
    hide Next, DistinctIds, Registered, KeepsDevice, SameShell;
    match a
    case Interrupt(other, status) => InterruptKeeps(s, other, status, id);
    case Resume(other) => ResumeKeepsDevice(s, other, id);
    case PowerLoss(other, lost) => PowerLossKeepsDevice(s, other, lost, id);
    case OpenRequest(_, _, _, _) => FileActs(s, a, id); ShellKept(s, a, id);
    case OpenNoMemory(_) => FileActs(s, a, id); ShellKept(s, a, id);
    case OpenPublish(_, _) => FileActs(s, a, id); ShellKept(s, a, id);
    case CloseUnlink(_) => FileActs(s, a, id); ShellKept(s, a, id);
    case CloseRelease(_) => FileActs(s, a, id); ShellKept(s, a, id);
    case _ => UseActs(s, a, id); ShellKept(s, a, id);
  }

  lemma RegisteredBetween(s: Sys, acts: seq<Act>, i: nat, n: nat, id: nat)
    requires Inv(s) && i <= n <= |acts| && Registered(StateAt(s, acts, i).core, id)
    requires Registered(StateAt(s, acts, n).core, id)
    requires i < n
    ensures Registered(StateAt(s, acts, n - 1).core, id)
  {
    hide Inv, Next, Registered, DistinctIds;
    InvOverRuns(s, acts, i);
    InvIds(StateAt(s, acts, i));
    RegisteredBelow(StateAt(s, acts, i).core, id);
    NextGrows(s, acts, i, n - 1);
    var before := StateAt(s, acts, n - 1);
    if !Registered(before.core, id) {
      InvOverRuns(s, acts, n - 1);
      InvIds(before);
      GoneStays(before, acts[n - 1], id);
    }
  }

  lemma {:induction false} NextGrows(s: Sys, acts: seq<Act>, i: nat, n: nat)
    requires Inv(s) && i <= n <= |acts|
    ensures StateAt(s, acts, i).core.next <= StateAt(s, acts, n).core.next
    decreases n
  {
    hide Inv, Next, DistinctIds;
    if i < n {
      NextGrows(s, acts, i, n - 1);
      var before := StateAt(s, acts, n - 1);
      InvOverRuns(s, acts, n - 1);
      InvIds(before);
      Newcomers(before, acts[n - 1], Ref(0, 0));
      if acts[n - 1].Register? {
        RegisterAct(before, acts[n - 1]);
      }
    }
  }

  lemma RegisterAct(s: Sys, a: Act)
    requires a.Register?
    ensures Next(s, a).core.next == s.core.next + 1
  {
  }

  /** Over whole runs, a registered controller keeps its name, owner, clocks and number of channels. */
  lemma {:induction false} IdentityOverRuns(s: Sys, acts: seq<Act>, i: nat, n: nat, id: nat)
    requires Inv(s) && i <= n <= |acts|
    requires Registered(StateAt(s, acts, i).core, id) && Registered(StateAt(s, acts, n).core, id)
    ensures var d, e := DevAt(StateAt(s, acts, i).core, id), DevAt(StateAt(s, acts, n).core, id);
            e.busId == d.busId && e.owner == d.owner && e.clk == d.clk && |e.chans| == |d.chans|
    decreases n
  {
    hide Inv, Next, Registered, DistinctIds, DevAt, SharedAfter;
    if i < n {
      RegisteredBetween(s, acts, i, n, id);
      IdentityOverRuns(s, acts, i, n - 1, id);
      InvOverRuns(s, acts, n - 1);
      InvIds(StateAt(s, acts, n - 1));
      DeviceStep(StateAt(s, acts, n - 1), acts[n - 1], id);
    }
  }

  /* ----- shared registers across a suspend and a resume ----- */

  /** Of the first `n` acts the `k`-th was the last suspend that took effect, of whatever controller. */
  ghost predicate SuspendedLast(s: Sys, acts: seq<Act>, k: nat, n: nat) {
    && k < n <= |acts| && Suspends(StateAt(s, acts, k), acts[k])
    && forall i :: k < i < n ==> !Suspends(StateAt(s, acts, i), acts[i])
  }

  predicate Suspends(s: Sys, a: Act) {
    a.Suspend? && Fits(s, a.id)
  }

  /** The shared places of the save area hold what the controller suspended last had. */
  lemma {:induction false} AreaShared(s: Sys, acts: seq<Act>, k: nat, n: nat)
    requires SuspendedLast(s, acts, k, n)
    ensures var area := StateAt(s, acts, n).area;
            (area.ddsRate, area.clkSrc, area.intTrg) == Shared(DevAt(StateAt(s, acts, k).core, acts[k].id))
    decreases n
  {
    hide Next, Fits;
    AreaSharedStep(StateAt(s, acts, n - 1), acts[n - 1]);
    if k < n - 1 {
      AreaShared(s, acts, k, n - 1);
    }
  }

  lemma AreaSharedStep(s: Sys, a: Act)
    ensures var area := Next(s, a).area;
            if Suspends(s, a) then (area.ddsRate, area.clkSrc, area.intTrg) == Shared(DevAt(s.core, a.id))
            else area == s.area
  {
    hide K.Request, K.Release, K.Register, K.Unregister, D.Restore, D.Interrupt, OnChannel, OnDevice, HostName, Unlink;
  }

  /** A resume gives a controller the rate and clock source, and but for the trigger bits the interrupt
      register, that the controller suspended last had: its own exactly as far as those agree. */
  lemma ResumeShared(s: Sys, acts: seq<Act>, k: nat, j: nat, id: nat)
    requires Inv(s) && j < |acts| && SuspendedLast(s, acts, k, j)
    requires acts[j] == Resume(id) && Fits(StateAt(s, acts, j), id)
    ensures var saved := DevAt(StateAt(s, acts, k).core, acts[k].id);
            var t := StateAt(s, acts, j + 1).core;
            Registered(t, id) && Shared(DevAt(t, id)) == (saved.ddsRate, saved.clkSrc, saved.intTrg & 0xF0F0)
  {
    hide Inv, DistinctIds, StateAt, Next, DevAt;
    InvOverRuns(s, acts, j);
    InvIds(StateAt(s, acts, j));
    AreaShared(s, acts, k, j);
    OneStep(s, acts, j);
    ResumeKeepsDevice(StateAt(s, acts, j), id, id);
  }
}
