/** The core object: the device list and the reference counts, updated in place
    (driver/pwm_core.c:46-214). Each method is one section under the list mutex. */
module Registry {
  import opened Kernel
  import opened Words
  import opened Driver
  import opened Controller
  import C = Channel
  import R = Runs
  import K = Core

  class PwmCore {
    var devices: seq<PwmDevice>
    var refs: map<nat, int>
    var next: nat

    constructor ()
      ensures Valid() && State() == K.Core([], map[], 0)
    {
      devices, refs, next := [], map[], 0;
    }

    /** Devices are distinct, each is sound, and no two share a channel or a register block. */
    ghost predicate Valid()
      reads this`devices, this`next
    {
      && (forall i :: 0 <= i < |devices| ==> devices[i].Valid() && devices[i].id < next)
      && (forall i, j :: 0 <= i < j < |devices| ==>
            devices[i].id != devices[j].id && devices[i].Parts() !! devices[j].Parts())
    }

    ghost function AllParts(): set<object>
      reads this`devices
    {
      set i, o | 0 <= i < |devices| && o in devices[i].Parts() :: o
    }

    ghost function Devs(): (s: seq<K.Dev>)
      reads this`devices, devices, AllParts()
      ensures |s| == |devices| && forall i :: 0 <= i < |s| ==> s[i] == devices[i].State()
    {
      var ds, ps := devices, AllParts();
      seq(|ds|, i requires 0 <= i < |ds| reads ds, ps => ds[i].State())
    }

    ghost function State(): K.Core
      reads this, devices, AllParts()
    {
      K.Core(Devs(), refs, next)
    }

    /** `pwm_register` of a controller with the given name, owner, clocks and registers. */
    method Register(busId: string, owner: nat, clk: seq<Word>, regs: seq<ChannelRegs>,
                    ddsRate: Word, clkSrc: Word, intTrg: bv32)
      returns (d: PwmDevice)
      requires Valid()
      requires forall i, j :: 0 <= i < j < |regs| ==> regs[i] != regs[j]
      requires forall i :: 0 <= i < |regs| ==> regs[i] !in AllParts()
      modifies this`devices, this`next
      ensures Valid() && fresh(d) && devices == old(devices) + [d]
      ensures State() == K.Register(old(State()), K.Dev(0, busId, owner, clk, [], ddsRate, clkSrc, intTrg), Views(regs))
    {
      hide PwmDevice.State, PwmDevice.Valid, K.FreshChans;
      ghost var before := Devs();
      d := NewDevice(next, busId, owner, clk, regs, ddsRate, clkSrc, intTrg);
      assert Devs() == before;
      Append(d);
    }

    /** `list_add_tail`. */
    method Append(d: PwmDevice)
      requires Valid() && d.Valid() && d.id == next
      requires d.Parts() !! AllParts()
      modifies this`devices, this`next
      ensures Valid() && devices == old(devices) + [d] && next == old(next) + 1
      ensures Devs() == old(Devs()) + [d.State()]
    {
      hide PwmDevice.State;
      ghost var was, before := devices, Devs();
      forall i | 0 <= i < |devices|
        ensures devices[i].Parts() !! d.Parts()
      {
        PartsHave(i);
      }
      devices, next := devices + [d], next + 1;
      forall j | 0 <= j < |devices|
        ensures Devs()[j] == (before + [d.State()])[j]
      {
        assert j < |was| ==> devices[j] == was[j];
      }
    }

    method FindDevice(busId: string) returns (i: nat)
      requires Valid()
      ensures i == K.FindDevice(State().devs, busId)
    {
      hide PwmDevice.State;
      i := 0;
      while i < |devices| && devices[i].busId != busId
        invariant i <= |devices|
        invariant forall j :: 0 <= j < i ==> devices[j].busId != busId
      {
        i := i + 1;
      }
      ghost var k := K.FindDevice(Devs(), busId);
      Names();
    }

    lemma Names()
      ensures forall i :: 0 <= i < |devices| ==>
        Devs()[i].busId == devices[i].busId && Devs()[i].id == devices[i].id && Devs()[i].owner == devices[i].owner
        && |Devs()[i].chans| == |devices[i].channels|
    {
    }

    lemma PartsHave(i: nat)
      requires i < |devices|
      ensures devices[i] in devices && devices[i].Parts() <= AllParts()
      ensures forall j, o :: 0 <= j < |devices| && o in devices[j].Parts() ==> allocated(o)
    {
    }

    /** Requesting a channel of the `i`-th device; the other devices are not touched. */
    method RequestIn(i: nat, chan: nat, hook: int) returns (ret: int)
      requires Valid() && i < |devices| && chan < |devices[i].channels|
      modifies AllParts()
      ensures ret == AnswerIn(old(Devs())[i], chan, hook)
      ensures Devs() == old(Devs())[i := RequestedIn(old(Devs())[i], chan, hook)]
    {
      hide PwmDevice.State, R.Granted;
      ghost var before := Devs();
      PartsHave(i);
      DevState(i);
      ret := devices[i].RequestAt(chan, hook);
      assert devices[i].State() == RequestedIn(before[i], chan, hook);
      hide RequestedIn;
      OthersApart(i);
      forall j | 0 <= j < |devices| && j != i
        ensures devices[j].State() == before[j]
      {
      }
      assert Devs() == before[i := RequestedIn(before[i], chan, hook)];
    }

    lemma OthersApart(i: nat)
      requires Valid() && i < |devices|
      ensures forall j :: 0 <= j < |devices| && j != i ==>
                devices[j].Parts() !! devices[i].Parts() && devices[j] !in devices[i].Parts()
    {
    }

    lemma DevState(i: nat)
      requires i < |devices|
      ensures Devs()[i].chans == devices[i].Chans() && Devs()[i] == devices[i].State()
    {
    }

    /** Releasing a channel of the `i`-th device. */
    method ReleaseIn(i: nat, chan: nat) returns (dropped: bool)
      requires Valid() && i < |devices| && chan < |devices[i].channels|
      modifies AllParts()
      ensures dropped == old(Devs())[i].chans[chan].requested
      ensures Devs() == old(Devs())[i := ReleasedIn(old(Devs())[i], chan)]
    {
      hide PwmDevice.State, R.Released;
      ghost var before := Devs();
      PartsHave(i);
      DevState(i);
      dropped := devices[i].ReleaseAt(chan);
      assert devices[i].State() == ReleasedIn(before[i], chan);
      hide ReleasedIn;
      OthersApart(i);
      forall j | 0 <= j < |devices| && j != i
        ensures devices[j].State() == before[j]
      {
      }
      assert Devs() == before[i := ReleasedIn(before[i], chan)];
    }

    /** `try_module_get`, when it succeeds. */
    method ModuleGet(owner: nat)
      modifies this`refs
      ensures State() == K.Get(old(State()), owner)
    {
      refs := refs[owner := (if owner in refs then refs[owner] else 0) + 1];
    }

    /** `module_put`. */
    method ModulePut(owner: nat)
      modifies this`refs
      ensures State() == K.Put(old(State()), owner)
    {
      refs := refs[owner := (if owner in refs then refs[owner] else 0) - 1];
    }

    /** The part of `pwm_request` that runs on the device it found. */
    method RequestOn(i: nat, chan: nat, hook: int) returns (ret: int)
      requires Valid() && i < |devices| && chan < |devices[i].channels|
      modifies this`refs, AllParts()
      ensures ret == AnswerIn(old(State()).devs[i], chan, hook)
      ensures State() == RequestedOn(old(State()), i, chan, hook)
    {
      hide PwmDevice.State, RequestedIn, AnswerIn, K.Get, K.Put;
      Names();
      ghost var s := State();
      ModuleGet(devices[i].owner);
      ghost var s1 := State();
      KeepsDevs(s, devices[i].owner);
      ret := RequestIn(i, chan, hook);
      assert State() == s1.(devs := Devs());
      if ret != 0 {
        ModulePut(devices[i].owner);
      }
    }

    /** `pwm_request`; the channel it returns is channel `chan` of the device `d`. */
    method Request(busId: string, chan: nat, live: bool, hook: int) returns (d: PwmDevice?, reply: K.Reply)
      requires Valid()
      modifies this`refs, AllParts()
      ensures Valid()
      ensures (State(), reply) == K.Request(old(State()), busId, chan, live, hook)
      ensures reply.Ok? <==> d != null
      ensures reply.Ok? ==> d in devices && reply.ref == K.Ref(d.id, chan) && chan < |d.channels|
    {
      hide PwmDevice.State, RequestedOn, AnswerIn, Valid, K.Request, K.FindDevice;
      Names();
      RefusedIs(State(), busId, chan, live, hook);
      var i := FindDevice(busId);
      if i == |devices| || chan >= |devices[i].channels| {
        return null, K.Err(-ENODEV);
      }
      if !live {
        return null, K.Err(-ENODEV);
      }
      RequestedInIs(State(), i, chan, hook);
      var ret := RequestOn(i, chan, hook);
      if ret != 0 {
        return null, K.Err(ret);
      }
      return devices[i], K.Ok(K.Ref(devices[i].id, chan));
    }

    /** `pwm_release` of a channel of a registered device. */
    method Release(d: PwmDevice, chan: nat)
      requires Valid() && d in devices && chan < |d.channels|
      modifies this`refs, AllParts()
      ensures Valid()
      ensures State() == K.Release(old(State()), K.Ref(d.id, chan))
    {
      hide PwmDevice.State, ReleasedIn, K.Put, K.Release, K.IndexOf;
      Names();
      ghost var s := State();
      var i: nat :| i < |devices| && devices[i] == d;
      DevIndex(i);
      ReleasedInIs(s, i, chan);
      var dropped := ReleaseIn(i, chan);
      assert State() == s.(devs := Devs());
      if dropped {
        ModulePut(d.owner);
      }
    }

    lemma DevIndex(i: nat)
      requires Valid() && i < |devices|
      ensures K.IndexOf(Devs(), devices[i].id) == i
    {
    }

    /** `list_del`. */
    method Remove(i: nat)
      requires Valid() && i < |devices|
      modifies this`devices
      ensures Valid()
      ensures Devs() == old(Devs())[..i] + old(Devs())[i + 1..]
    {
      hide PwmDevice.State;
      ghost var was, before := devices, Devs();
      devices := devices[..i] + devices[i + 1..];
      forall j | 0 <= j < |devices|
        ensures Devs()[j] == (before[..i] + before[i + 1..])[j]
      {
        assert devices[j] == was[if j < i then j else j + 1];
      }
    }

    /** `pwm_unregister` of a registered device. */
    method Unregister(d: PwmDevice) returns (ret: int)
      requires Valid() && d in devices
      modifies this`devices
      ensures Valid()
      ensures (State(), ret) == K.Unregister(old(State()), d.id)
    {
      hide PwmDevice.State, PwmDevice.Valid, PwmChannel.State, Valid, K.AnyRequested, K.Unregister, K.IndexOf;
      ghost var s := State();
      var i: nat :| i < |devices| && devices[i] == d;
      DevIndex(i);
      DevState(i);
      K.UnregisteredIs(s, i);
      var busy := d.Busy();
      if busy {
        return -EBUSY;
      }
      Remove(i);
      assert State() == s.(devs := Devs());
      ret := 0;
    }
  }

  /** A controller with zeroed channels, not yet on the list. */
  method NewDevice(id: nat, busId: string, owner: nat, clk: seq<Word>, regs: seq<ChannelRegs>,
                   ddsRate: Word, clkSrc: Word, intTrg: bv32)
    returns (d: PwmDevice)
    requires forall i, j :: 0 <= i < j < |regs| ==> regs[i] != regs[j]
    ensures fresh(d) && d.Valid() && d.id == id
    ensures forall o :: o in d.Parts() ==> fresh(o) || o in regs
    ensures d.State() == K.Dev(id, busId, owner, clk, K.FreshChans(Views(regs)), ddsRate, clkSrc, intTrg)
  {
    hide PwmChannel.State, C.Fresh;
    var channels := NewChannels(regs);
    d := new PwmDevice(id, busId, owner, clk, channels, ddsRate, clkSrc, intTrg);
    assert d.Chans() == K.FreshChans(Views(regs));
  }

  /** What a controller's registers hold. */
  ghost function Views(regs: seq<ChannelRegs>): (r: seq<C.Regs>)
    reads regs
    ensures |r| == |regs| && forall i :: 0 <= i < |r| ==> r[i] == regs[i].View()
  {
    seq(|regs|, i requires 0 <= i < |regs| reads regs => regs[i].View())
  }

  /** What `K.Release` amounts to on a registered device. */
  lemma ReleasedInIs(s: K.Core, i: nat, chan: nat)
    requires i < |s.devs| && chan < |s.devs[i].chans| && K.IndexOf(s.devs, s.devs[i].id) == i
    ensures var d := s.devs[i];
            var t := s.(devs := s.devs[i := ReleasedIn(d, chan)]);
            K.Release(s, K.Ref(d.id, chan)) == if d.chans[chan].requested then K.Put(t, d.owner) else t
  {
  }

  lemma KeepsDevs(s: K.Core, owner: nat)
    ensures K.Get(s, owner).devs == s.devs && K.Put(s, owner).devs == s.devs
    ensures K.Get(s, owner).next == s.next && K.Put(s, owner).next == s.next
  {
  }

  function AnswerIn(d: K.Dev, chan: nat, hook: int): int
    requires chan < |d.chans|
  {
    if d.chans[chan].requested then -EBUSY else hook
  }

  function RequestedIn(d: K.Dev, chan: nat, hook: int): K.Dev
    requires chan < |d.chans|
  {
    if AnswerIn(d, chan, hook) != 0 then d
    else d.(chans := d.chans[chan := R.Granted(d.chans[chan], K.ClockOf(d, chan))])
  }

  function ReleasedIn(d: K.Dev, chan: nat): K.Dev
    requires chan < |d.chans|
  {
    if d.chans[chan].requested then d.(chans := d.chans[chan := R.Released(d.chans[chan])]) else d
  }

  function RequestedOn(s: K.Core, i: nat, chan: nat, hook: int): K.Core
    requires i < |s.devs| && chan < |s.devs[i].chans|
  {
    var d := s.devs[i];
    var t := K.Get(s, d.owner).(devs := s.devs[i := RequestedIn(d, chan, hook)]);
    if AnswerIn(d, chan, hook) == 0 then t else K.Put(t, d.owner)
  }

  /** A request without a device, a channel or a module to pin. */
  lemma RefusedIs(s: K.Core, busId: string, chan: nat, live: bool, hook: int)
    ensures var i := K.FindDevice(s.devs, busId);
            i == |s.devs| || chan >= |s.devs[i].chans| || !live ==>
              K.Request(s, busId, chan, live, hook) == (s, K.Err(-ENODEV))
  {
  }

  /** What `K.Request` amounts to once the device is found and pinned. */
  lemma RequestedInIs(s: K.Core, i: nat, chan: nat, hook: int)
    requires i < |s.devs| && chan < |s.devs[i].chans| && K.FindDevice(s.devs, s.devs[i].busId) == i
    ensures var d := s.devs[i];
            var ret := AnswerIn(d, chan, hook);
            K.Request(s, d.busId, chan, true, hook)
            == (RequestedOn(s, i, chan, hook), if ret == 0 then K.Ok(K.Ref(d.id, chan)) else K.Err(ret))
  {
    hide R.Granted, K.FindDevice;
    var d := s.devs[i];
    assert s.devs[i := d] == s.devs;
  }
}
