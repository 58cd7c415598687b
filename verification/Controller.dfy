/** The controller object: its channels, its interrupt, and its suspend and resume, in place
    (driver/_pwm.c:47-56, 274-369). */
module Controller {
  import opened Bits
  import opened Kernel
  import opened Words
  import opened Driver
  import K = Core
  import D = Device
  import C = Channel
  import R = Runs

  /** The static save area. */
  class SaveArea {
    const chan: array<C.Regs>
    var ddsRate: Word
    var clkSrc: Word
    var intTrg: bv32

    constructor ()
      ensures fresh(chan) && chan.Length == D.CHAN_MAX
    {
      chan := new C.Regs[D.CHAN_MAX](_ => C.Regs(0, 0, 0, 0, 0));
      ddsRate, clkSrc, intTrg := 0, 0, 0;
    }

    function View(): D.Image
      reads this, chan
    {
      D.Image(chan[..], ddsRate, clkSrc, intTrg)
    }
  }

  /** The channels of a controller to be registered, zeroed, one for each register block
      (driver/pwm_core.c:54-65). */
  method NewChannels(regs: seq<ChannelRegs>) returns (channels: seq<PwmChannel>)
    ensures |channels| == |regs|
    ensures forall i :: 0 <= i < |regs| ==>
              fresh(channels[i]) && channels[i].regs == regs[i] && channels[i].State() == C.Fresh(regs[i].View())
    ensures forall i, j :: 0 <= i < j < |regs| ==> channels[i] != channels[j]
  {
    hide PwmChannel.State, C.Fresh;
    channels := [];
    for wchan := 0 to |regs|
      invariant |channels| == wchan
      invariant forall i :: 0 <= i < wchan ==>
                  fresh(channels[i]) && channels[i].regs == regs[i] && channels[i].State() == C.Fresh(regs[i].View())
      invariant forall i, j :: 0 <= i < j < wchan ==> channels[i] != channels[j]
    {
      var p := new PwmChannel(regs[wchan]);
      channels := channels + [p];
    }
  }

  class PwmDevice {
    const id: nat
    const busId: string
    const owner: nat
    const clk: seq<Word>
    const channels: seq<PwmChannel>
    var ddsRate: Word
    var clkSrc: Word
    var intTrg: bv32

    /** A controller over shared registers of any content. */
    constructor (id: nat, busId: string, owner: nat, clk: seq<Word>, channels: seq<PwmChannel>,
                 ddsRate: Word, clkSrc: Word, intTrg: bv32)
      ensures this.id == id && this.busId == busId && this.owner == owner && this.clk == clk
          && this.channels == channels
      ensures this.ddsRate == ddsRate && this.clkSrc == clkSrc && this.intTrg == intTrg
    {
      this.id, this.busId, this.owner, this.clk, this.channels := id, busId, owner, clk, channels;
      this.ddsRate, this.clkSrc, this.intTrg := ddsRate, clkSrc, intTrg;
    }

    /** The objects a channel of this device lives in. */
    ghost function Parts(): set<object>
    {
      (set i | 0 <= i < |channels| :: channels[i]) + (set i | 0 <= i < |channels| :: channels[i].regs)
    }

    /** No two channels share an object. */
    ghost predicate Valid() {
      forall i, j :: 0 <= i < j < |channels| ==> channels[i] != channels[j] && channels[i].regs != channels[j].regs
    }

    ghost function Chans(): (s: seq<C.Chan>)
      reads Parts()
      ensures |s| == |channels| && forall i :: 0 <= i < |s| ==> s[i] == channels[i].State()
    {
      seq(|channels|, i requires 0 <= i < |channels| reads Parts() => channels[i].State())
    }

    ghost function State(): K.Dev
      reads this, Parts()
    {
      K.Dev(id, busId, owner, clk, Chans(), ddsRate, clkSrc, intTrg)
    }

    /** `pwm_irq`. Every channel is triggered or left alone as its status bit says, and the trigger
        bits that were read are written back. */
    method Irq() returns (handled: bool)
      requires Valid() && |channels| <= D.CHAN_MAX
      modifies this`intTrg, Parts()
      ensures State() == D.Interrupt(old(State()), old(intTrg))
      ensures handled <==> D.Handled(|channels|, old(intTrg))
    {
      hide D.Hit, D.Shifted, D.Handled, D.Halved, D.TriggeredUpTo, Has, R.Triggered, PwmChannel.State;
      var status := intTrg;
      ghost var all, before := status, Chans();
      PartsAllocated();
      D.NoneHandled(all);
      D.TriggeredNone(before, all);
      intTrg := status & D.INT_ACK_MSK;
      handled := false;
      var i := 0;
      while i < |channels|
        invariant 0 <= i <= |channels|
        invariant intTrg == all & D.INT_ACK_MSK && ddsRate == old(ddsRate) && clkSrc == old(clkSrc)
        invariant status == D.Shifted(all, i)
        invariant handled <==> D.Handled(i, all)
        invariant Chans() == D.TriggeredUpTo(before, all, i)
      {
        D.ShiftedHit(all, i);
        D.ShiftedNext(all, i);
        D.HandledNext(all, i);
        D.TriggeredNext(before, all, i);
        if Has(status, D.TRG_INT0) {
          TriggerChannel(i);
          handled := true;
        }
        status := D.Halved(status);
        i := i + 1;
      }
    }

    /** Requesting one channel (driver/pwm_core.c:138-159). */
    method RequestAt(i: nat, hook: int) returns (ret: int)
      requires Valid() && i < |channels|
      modifies Parts()
      ensures ret == if old(Chans())[i].requested then -EBUSY else hook
      ensures State() == if ret == 0 && !old(Chans())[i].requested
                         then old(State()).(chans := old(Chans())[i :=
                                R.Granted(old(Chans())[i], K.ClockOf(old(State()), i))])
                         else old(State())
    {
      hide PwmChannel.State, R.Granted;
      PartsHave(i);
      SeenRequested(i);
      ret := channels[i].RequestChannel(if i < |clk| then clk[i] else 0, hook);
      assert ret != 0 || old(channels[i].requested) ==> Chans() == old(Chans());
    }

    method ReleaseAt(i: nat) returns (dropped: bool)
      requires Valid() && i < |channels|
      modifies Parts()
      ensures dropped == old(Chans())[i].requested
      ensures State() == if dropped then old(State()).(chans := old(Chans())[i := R.Released(old(Chans())[i])])
          else old(State())
    {
      hide PwmChannel.State, R.Released;
      PartsHave(i);
      SeenRequested(i);
      dropped := channels[i].ReleaseChannel();
      assert Chans() == if dropped then old(Chans())[i := R.Released(old(Chans())[i])] else old(Chans());
    }

    /** Whether some channel is requested (driver/pwm_core.c:101-106). */
    method Busy() returns (busy: bool)
      ensures busy <==> K.AnyRequested(Chans())
    {
      hide PwmChannel.State;
      var c := 0;
      while c < |channels|
        invariant 0 <= c <= |channels|
        invariant forall k :: 0 <= k < c ==> !Chans()[k].requested
      {
        SeenRequested(c);
        if channels[c].requested {
          return true;
        }
        c := c + 1;
      }
      busy := false;
    }

    lemma PartsHave(i: nat)
      requires i < |channels|
      ensures channels[i] in Parts() && channels[i].regs in Parts()
    {
    }

    lemma PartsAllocated()
      ensures forall o :: o in Parts() ==> allocated(o)
      ensures this !in Parts()
    {
    }

    lemma SeenRequested(i: nat)
      requires i < |channels|
      ensures Chans()[i].requested == channels[i].requested
    {
    }

    method TriggerChannel(i: nat)
      requires Valid() && i < |channels|
      modifies channels[i], channels[i].regs
      ensures Chans() == old(Chans())[i := R.Triggered(old(Chans())[i])]
    {
      hide PwmChannel.State, R.Triggered;
      channels[i].Trigger();
    }

    method LoadChannel(i: nat, r: C.Regs)
      requires Valid() && i < |channels|
      modifies channels[i].regs
      ensures Chans() == old(Chans())[i := old(Chans())[i].(regs := r)]
    {
      channels[i].regs.Load(r);
    }

    /** `pwm_save_state`, into the shared area. */
    method SaveState(area: SaveArea)
      requires Valid() && |channels| <= area.chan.Length
      modifies area, area.chan
      ensures area.View() == D.Save(State(), old(area.View()))
    {
      var i := 0;
      while i < |channels|
        invariant 0 <= i <= |channels|
        invariant forall j :: 0 <= j < i ==> area.chan[j] == channels[j].regs.View()
        invariant forall j :: i <= j < area.chan.Length ==> area.chan[j] == old(area.chan[j])
      {
        var r := channels[i].regs;
        area.chan[i] := C.Regs(r.ctrl, r.duty, r.perval, r.hold, r.pulses);
        i := i + 1;
      }
      area.ddsRate := ddsRate;
      area.clkSrc := clkSrc;
      area.intTrg := intTrg;
    }

    /** `pwm_restore_state`, from the shared area. */
    method RestoreState(area: SaveArea)
      requires Valid() && |channels| <= area.chan.Length
      modifies this, Parts()
      ensures State() == D.Restore(old(State()), area.View())
    {
      hide PwmChannel.State;
      ddsRate := area.ddsRate;
      clkSrc := area.clkSrc;
      intTrg := area.intTrg & 0xF0F0;
      RestoreChannels(area);
    }

    /** The loop of the restore. */
    method RestoreChannels(area: SaveArea)
      requires Valid() && |channels| <= area.chan.Length
      modifies Parts()
      ensures Chans() == D.RestoredUpTo(old(Chans()), area.chan[..], |channels|)
    {
      hide D.RestoredUpTo, PwmChannel.State;
      ghost var before, saved := Chans(), area.chan[..];
      D.RestoredNone(before, saved);
      var i := 0;
      while i < |channels|
        invariant 0 <= i <= |channels|
        invariant area.chan[..] == saved
        invariant Chans() == D.RestoredUpTo(before, saved, i)
      {
        D.RestoredNext(before, saved, i);
        LoadChannel(i, area.chan[i]);
        i := i + 1;
      }
    }
  }
}
