/** What holds over every run of the whole driver, for any interleaving of any number of files:
    lookups are unambiguous, channels are exclusive, reference counts are conserved, released
    channels are silent, and every channel goes through a run of its own (driver/pwm_core.c:94-214,
    driver/pwm_drv.c:149-356). */
module Ownership {
  import opened Bits
  import opened Kernel
  import opened Words
  import opened Channel
  import opened Refinement
  import opened Core
  import opened System
  import R = Runs
  import K = Core
  import D = Device

  lemma EmptyInv()
    ensures Inv(EMPTY)
  {
  }

  lemma {:induction false} InvOverRuns(s: Sys, acts: seq<Act>, n: nat)
    requires Inv(s) && n <= |acts|
    ensures Inv(StateAt(s, acts, n))
  {
    hide Inv, Next;
    if n > 0 {
      InvOverRuns(s, acts, n - 1);
      StepKeepsInv(StateAt(s, acts, n - 1), acts[n - 1]);
    }
  }

  lemma OneStep(s: Sys, acts: seq<Act>, i: nat)
    requires i < |acts|
    ensures StateAt(s, acts, i + 1) == Next(StateAt(s, acts, i), acts[i])
  {
  }

  /* ----- lookups ----- */

  /** The number that a string of decimal digits spells. */
  function Decimal(text: string): int {
    if text == [] then 0 else Decimal(text[..|text| - 1]) * 10 + (text[|text| - 1] as int - '0' as int)
  }

  /** The name of a host is "pwm" and its number in decimal digits, without a leading zero. */
  lemma HostNameSpells(host: nat)
    requires host < 16
    ensures var name := HostName(host);
            && |name| > 3 && name[..3] == "pwm"
            && (forall i :: 3 <= i < |name| ==> '0' <= name[i] <= '9')
            && (|name| > 4 ==> name[3] != '0')
            && Decimal(name[3..]) == host
  {
    var digits := "0123456789";
    assert digits[0] == '0' && digits[1] == '1' && digits[2] == '2' && digits[3] == '3' && digits[4] == '4';
    assert digits[5] == '5' && digits[6] == '6' && digits[7] == '7' && digits[8] == '8' && digits[9] == '9';
    var text := HostName(host)[3..];
    if host < 10 {
      assert text == [Digit(host)] && text[..0] == [];
    } else {
      assert text == ['1', Digit(host - 10)] && text[..1] == ['1'] && ['1'][..0] == [];
      assert Decimal(['1']) == 1;
    }
  }

  lemma HostNameInjective(a: nat, b: nat)
    requires a < 16 && b < 16 && HostName(a) == HostName(b)
    ensures a == b
  {
    assert |HostName(a)| == |HostName(b)|;
    if a < 10 && b < 10 {
      assert HostName(a)[3] == HostName(b)[3];
      DigitInjective(a, b);
    } else {
      assert HostName(a)[4] == HostName(b)[4];
      DigitInjective(a - 10, b - 10);
    }
  }

  lemma DigitInjective(a: nat, b: nat)
    requires a < 10 && b < 10 && Digit(a) == Digit(b)
    ensures a == b
  {
  }

  /** Among holders a (host, channel) pair and a channel stand for each other: a name leads to one
      device at a time, and a device has one name, which only one host number spells. */
  lemma PairsAreChannels(core: Core, m: Node, n: Node)
    requires DistinctIds(core) && Holding(core, m) && Holding(core, n)
    ensures m.host == n.host && m.chan == n.chan <==> m.ref == n.ref
  {
    hide HostName, Requested;
    if m.ref == n.ref {
      var i := FindDevice(core.devs, HostName(m.host));
      var j := FindDevice(core.devs, HostName(n.host));
      assert core.devs[i].id == core.devs[j].id;
      HostNameInjective(m.host, n.host);
    }
  }

  /** In every reachable state the published nodes have distinct channels and distinct
      (host, channel) pairs, each one's channel is flagged requested, and no two files share one. */
  lemma LookupsUnambiguous(s: Sys)
    requires Inv(s)
    ensures forall i, j :: 0 <= i < j < |s.nodes| ==>
              s.nodes[i].ref != s.nodes[j].ref
              && (s.nodes[i].host, s.nodes[i].chan) != (s.nodes[j].host, s.nodes[j].chan)
    ensures forall i :: 0 <= i < |s.nodes| ==> Requested(s.core, s.nodes[i].ref)
  {
    hide HostName;
    forall i | 0 <= i < |s.nodes|
      ensures Holding(s.core, s.nodes[i])
    {
      assert s.nodes[i] in s.nodes;
      assert Owned(s.files, s.nodes[i]);
    }
    forall i, j | 0 <= i < j < |s.nodes|
      ensures (s.nodes[i].host, s.nodes[i].chan) != (s.nodes[j].host, s.nodes[j].chan)
    {
      PairsAreChannels(s.core, s.nodes[i], s.nodes[j]);
    }
  }

  lemma OnlyNodeOf(nodes: seq<Node>, files: map<nat, File>, f: nat)
    requires NodesMatch(nodes, files) && f in files && files[f].stage == Open
    ensures forall n :: n in nodes && n.ref == files[f].node.ref ==> n == files[f].node
  {
  }

  /** A close always finds its own node, and afterwards the list has every other node and not
      that one. */
  lemma CloseFindsOwnNode(s: Sys, f: nat)
    requires Inv(s) && InStage(s, f, Open)
    ensures var i := FindNode(s.nodes, RefOf(s, f));
            i < |s.nodes| && s.nodes[i] == s.files[f].node
    ensures forall n :: n in Next(s, CloseUnlink(f)).nodes <==> n in s.nodes && n != s.files[f].node
  {
    hide Holding, DistinctIds, FilesHold, FilesApart, NodesMatch;
    OwnNode(s.nodes, s.files, f);
    OnlyNodeOf(s.nodes, s.files, f);
    NodesApart(s.nodes, s.files);
    UnlinkedList(s.nodes, RefOf(s, f));
  }

  /* ----- references ----- */

  lemma StepConserves(s: Sys, a: Act, owner: nat)
    requires DistinctIds(s.core)
    ensures Surplus(Next(s, a).core, owner) == Surplus(s.core, owner)
  {
    hide R.Apply, D.Interrupt, D.Restore, D.Save, K.Request, K.Register, K.Unregister, Release, Surplus;
    match a
    case Register(d, regs) => RegisterConserves(s.core, d, regs, owner);
    case Unregister(id) => UnregisterConserves(s.core, id, owner);
    case OpenRequest(f, minor, live, hook) =>
      RequestConserves(s.core, HostName(HostOf(minor)), ChanOf(minor), live, hook, owner);
    case OpenNoMemory(f) => if f in s.files { ReleaseConserves(s.core, RefOf(s, f), owner); }
    case OpenPublish(f, tgid) =>
    case CloseUnlink(f) =>
    case CloseRelease(f) => if f in s.files { ReleaseConserves(s.core, RefOf(s, f), owner); }
    case Configure(f, c) => if f in s.files { OnChannelConserves(s.core, RefOf(s, f), R.Configure(c), owner); }
    case Handle(f, h, data) => if f in s.files { OnChannelConserves(s.core, RefOf(s, f), R.Handle(h, data), owner); }
    case Work(r, answer) => OnChannelConserves(s.core, r, R.Work(answer), owner);
    case Interrupt(id, status) =>
      if Registered(s.core, id) {
        InterruptFlags(DevAt(s.core, id), status);
        OnDeviceConserves(s.core, id, D.Interrupt(DevAt(s.core, id), status), owner);
      }
    case Suspend(id) =>
    case Resume(id) =>
      if Fits(s, id) {
        RestoreFlags(DevAt(s.core, id), s.area);
        OnDeviceConserves(s.core, id, D.Restore(DevAt(s.core, id), s.area), owner);
      }
    case PowerLoss(id, lost) =>
      if CanLose(s.core, id, lost) {
        LostFlags(DevAt(s.core, id), lost);
        OnDeviceConserves(s.core, id, lost, owner);
      }
  }

  lemma OnChannelConserves(s: Core, r: Ref, e: R.Event, owner: nat)
    requires e.Configure? || e.Handle? || e.Work?
    ensures Surplus(OnChannel(s, r, e), owner) == Surplus(s, owner)
  {
    hide R.Apply;
    if Present(s, r) {
      EventKeepsRequested(ChanAt(s, r), e);
      var i := IndexOf(s.devs, r.dev);
      var t := OnChannel(s, r, e);
      CountChansUpdate(s.devs[i].chans, r.chan, R.Apply(ChanAt(s, r), e));
      CountDevsUpdate(s.devs, i, t.devs[i], owner);
    }
  }

  lemma SameFlags(xs: seq<Chan>, ys: seq<Chan>)
    requires |xs| == |ys| && forall i :: 0 <= i < |xs| ==> xs[i].requested == ys[i].requested
    ensures CountRequested(xs) == CountRequested(ys)
  {
  }

  lemma InterruptFlags(d: Dev, status: bv32)
    ensures var e := D.Interrupt(d, status);
            e.id == d.id && e.owner == d.owner && e.busId == d.busId && |e.chans| == |d.chans|
            && forall i :: 0 <= i < |d.chans| ==> e.chans[i].requested == d.chans[i].requested
  {
  }

  lemma RestoreFlags(d: Dev, area: D.Image)
    requires D.Roomy(area, d)
    ensures var e := D.Restore(d, area);
            e.id == d.id && e.owner == d.owner && e.busId == d.busId && |e.chans| == |d.chans|
            && forall i :: 0 <= i < |d.chans| ==>
                 e.chans[i].requested == d.chans[i].requested && e.chans[i] == d.chans[i].(regs := area.chan[i])
  {
  }

  lemma OnDeviceConserves(s: Core, id: nat, d: Dev, owner: nat)
    requires Registered(s, id) && d.owner == DevAt(s, id).owner && |d.chans| == |DevAt(s, id).chans|
    requires forall i :: 0 <= i < |d.chans| ==> d.chans[i].requested == DevAt(s, id).chans[i].requested
    ensures Surplus(OnDevice(s, id, d), owner) == Surplus(s, owner)
  {
    SameFlags(d.chans, DevAt(s, id).chans);
    CountDevsUpdate(s.devs, IndexOf(s.devs, id), d, owner);
  }

  lemma {:induction false} SurplusOverRuns(s: Sys, acts: seq<Act>, n: nat, owner: nat)
    requires Inv(s) && n <= |acts|
    ensures Surplus(StateAt(s, acts, n).core, owner) == Surplus(s.core, owner)
  {
    hide Inv, Next, Surplus, DistinctIds;
    if n > 0 {
      SurplusOverRuns(s, acts, n - 1, owner);
      InvOverRuns(s, acts, n - 1);
      InvIds(StateAt(s, acts, n - 1));
      StepConserves(StateAt(s, acts, n - 1), acts[n - 1], owner);
    }
  }

  /** From the empty driver on, each module's reference count is the number of requested channels
      of its devices, whatever the interleaving. */
  lemma ReferencesConserved(acts: seq<Act>, n: nat, owner: nat)
    requires n <= |acts|
    ensures RefsOf(StateAt(EMPTY, acts, n).core, owner) == CountOwned(StateAt(EMPTY, acts, n).core.devs, owner)
  {
    EmptyInv();
    SurplusOverRuns(EMPTY, acts, n, owner);
  }

  /* ----- one channel's share of a run ----- */

  /** The channel an act grants. */
  function Grants(s: Sys, a: Act): Option<Ref> {
    match a
    case OpenRequest(f, minor, live, hook) =>
      var reply := K.Request(s.core, HostName(HostOf(minor)), ChanOf(minor), live, hook).1;
      if f !in s.files && reply.Ok? then Some(reply.ref) else None
    case _ => None
  }

  /** The channel an act gives back. */
  function Retires(s: Sys, a: Act): Option<Ref> {
    match a
    case OpenNoMemory(f) => if InStage(s, f, Pending) then Some(RefOf(s, f)) else None
    case CloseRelease(f) => if InStage(s, f, Closing) then Some(RefOf(s, f)) else None
    case _ => None
  }

  function ClockAt(s: Core, r: Ref): Word {
    if Registered(s, r.dev) then ClockOf(DevAt(s, r.dev), r.chan) else 0
  }

  /** What an act means for one channel. */
  function Seen(s: Sys, a: Act, r: Ref): Option<R.Event> {
    if Grants(s, a) == Some(r) then Some(R.Grant(ClockAt(s.core, r)))
    else if Retires(s, a) == Some(r) then Some(R.Retire)
    else match a
      case Configure(f, c) => if f in s.files && RefOf(s, f) == r then Some(R.Configure(c)) else None
      case Handle(f, h, data) => if f in s.files && RefOf(s, f) == r then Some(R.Handle(h, data)) else None
      case Interrupt(id, status) => if id == r.dev && D.Hit(status, r.chan) then Some(R.Trigger) else None
      case Work(q, answer) => if q == r then Some(R.Work(answer)) else None
      case Resume(id) =>
        if id == r.dev && Fits(s, id) && r.chan < |s.area.chan| then Some(R.Reload(s.area.chan[r.chan])) else None
      case PowerLoss(id, lost) =>
        if id == r.dev && CanLose(s.core, id, lost) && r.chan < |lost.chans|
        then Some(R.Reload(lost.chans[r.chan].regs)) else None
      case _ => None
  }

  function After(c: Chan, e: Option<R.Event>): Chan {
    if e.Some? then R.Apply(c, e.value) else c
  }

  lemma OnChannelView(s: Core, q: Ref, e: R.Event, r: Ref)
    requires Present(s, r)
    ensures Present(OnChannel(s, q, e), r)
    ensures ChanAt(OnChannel(s, q, e), r) == if q == r then R.Apply(ChanAt(s, r), e) else ChanAt(s, r)
  {
    hide R.Apply;
    if Present(s, q) {
      SetChanFrame(s, q, R.Apply(ChanAt(s, q), e), r, "");
    }
  }

  lemma ReleaseView(s: Core, q: Ref, r: Ref)
    requires Present(s, r)
    ensures Present(Release(s, q), r)
    ensures ChanAt(Release(s, q), r) == if q == r then R.Apply(ChanAt(s, r), R.Retire) else ChanAt(s, r)
  {
    hide R.Released;
    if Requested(s, q) {
      SetChanFrame(s, q, R.Released(ChanAt(s, q)), r, "");
    }
  }

  lemma RequestView(s: Core, busId: string, chan: nat, live: bool, hook: int, r: Ref)
    requires DistinctIds(s) && Present(s, r)
    ensures var (t, reply) := K.Request(s, busId, chan, live, hook);
            && Present(t, r)
            && ChanAt(t, r) == if reply == Ok(r) then R.Apply(ChanAt(s, r), R.Grant(ClockAt(s, r))) else ChanAt(s, r)
  {
    hide K.Request, R.Granted;
    var (t, reply) := K.Request(s, busId, chan, live, hook);
    RequestOutcome(s, busId, chan, live, hook);
    if reply.Ok? {
      var q := reply.ref;
      SetChanFrame(s, q, R.Granted(ChanAt(s, q), ClockOf(s.devs[IndexOf(s.devs, q.dev)], chan)), r, "");
    }
  }

  lemma OnDeviceView(s: Core, id: nat, d: Dev, r: Ref)
    requires DistinctIds(s) && Registered(s, id) && Present(s, r)
    requires d.id == id && d.busId == DevAt(s, id).busId && |d.chans| == |DevAt(s, id).chans|
    ensures Present(OnDevice(s, id, d), r)
    ensures ChanAt(OnDevice(s, id, d), r) == if r.dev == id then d.chans[r.chan] else ChanAt(s, r)
  {
    OnDeviceFrame(s, id, d, r, "");
  }

  lemma UnregisterView(s: Core, id: nat, r: Ref)
    requires DistinctIds(s) && Present(s, r)
    ensures var t := K.Unregister(s, id).0;
            if Present(t, r) then ChanAt(t, r) == ChanAt(s, r) else r.dev == id && !Registered(t, id)
  {
    if Registered(s, id) && K.Unregister(s, id).1 == 0 {
      UnregisterRemoves(s, id, r);
    } else if Registered(s, id) {
      UnregisterBusy(s, id);
    }
  }

  predicate ViewHolds(s: Sys, a: Act, r: Ref)
    requires Present(s.core, r)
  {
    var t := Next(s, a);
    if Present(t.core, r) then ChanAt(t.core, r) == After(ChanAt(s.core, r), Seen(s, a, r))
    else a == Unregister(r.dev) && !Registered(t.core, r.dev)
  }

  lemma ViewOfFiles(s: Sys, a: Act, r: Ref)
    requires DistinctIds(s.core) && Present(s.core, r)
    requires a.OpenRequest? || a.OpenNoMemory? || a.OpenPublish? || a.CloseUnlink? || a.CloseRelease?
    ensures ViewHolds(s, a, r)
  {
    hide R.Apply, K.Request, Release, Present, ChanAt, HostName, DistinctIds, Registered;
    match a
    case OpenRequest(f, minor, live, hook) =>
      RequestView(s.core, HostName(HostOf(minor)), ChanOf(minor), live, hook, r);
    case OpenNoMemory(f) => if f in s.files { ReleaseView(s.core, RefOf(s, f), r); }
    case CloseRelease(f) => if f in s.files { ReleaseView(s.core, RefOf(s, f), r); }
    case _ =>
  }

  lemma ViewOfUses(s: Sys, a: Act, r: Ref)
    requires DistinctIds(s.core) && Present(s.core, r)
    requires a.Configure? || a.Handle? || a.Work?
    ensures ViewHolds(s, a, r)
  {
    hide R.Apply, OnChannel, Present, ChanAt, DistinctIds, Registered;
    match a
    case Configure(f, c) => if f in s.files { OnChannelView(s.core, RefOf(s, f), R.Configure(c), r); }
    case Handle(f, h, data) => if f in s.files { OnChannelView(s.core, RefOf(s, f), R.Handle(h, data), r); }
    case Work(q, answer) => OnChannelView(s.core, q, R.Work(answer), r);
  }

  lemma ViewOfDevices(s: Sys, a: Act, r: Ref)
    requires DistinctIds(s.core) && Present(s.core, r)
    requires a.Register? || a.Unregister? || a.Interrupt? || a.Suspend? || a.Resume? || a.PowerLoss?
    ensures ViewHolds(s, a, r)
  {
    hide R.Apply, D.Interrupt, D.Restore, D.Save, D.Hit, K.Register, K.Unregister, OnDevice, ChanAt, DistinctIds;
    hide IndexOf, Fits, CanLose, DevAt;
    match a
    case Register(d, regs) => RegisterChannels(s.core, d, regs, r);
    case Unregister(id) => UnregisterView(s.core, id, r);
    case Interrupt(id, status) => if Registered(s.core, id) { InterruptView(s.core, id, status, r); }
    case Suspend(id) =>
    case Resume(id) => if Fits(s, id) { ResumeView(s, id, r); }
    case PowerLoss(id, lost) => if CanLose(s.core, id, lost) { PowerLossView(s.core, id, lost, r); }
  }

  /** In one act a channel makes exactly the step it sees, or its device is unregistered. */
  lemma StepView(s: Sys, a: Act, r: Ref)
    requires DistinctIds(s.core) && Present(s.core, r)
    ensures ViewHolds(s, a, r)
  {
    hide ViewHolds, DistinctIds, Present;
    match a
    case Register(_, _) => ViewOfDevices(s, a, r);
    case Unregister(_) => ViewOfDevices(s, a, r);
    case Interrupt(_, _) => ViewOfDevices(s, a, r);
    case Suspend(_) => ViewOfDevices(s, a, r);
    case Resume(_) => ViewOfDevices(s, a, r);
    case PowerLoss(_, _) => ViewOfDevices(s, a, r);
    case Configure(_, _) => ViewOfUses(s, a, r);
    case Handle(_, _, _) => ViewOfUses(s, a, r);
    case Work(_, _) => ViewOfUses(s, a, r);
    case _ => ViewOfFiles(s, a, r);
  }

  lemma InterruptView(s: Core, id: nat, status: bv32, r: Ref)
    requires DistinctIds(s) && Registered(s, id) && Present(s, r)
    ensures var t := OnDevice(s, id, D.Interrupt(DevAt(s, id), status));
            && Present(t, r)
            && ChanAt(t, r) == if id == r.dev && D.Hit(status, r.chan) then R.Apply(ChanAt(s, r), R.Trigger)
                else ChanAt(s, r)
  {
    hide R.Triggered, D.Hit;
    OnDeviceView(s, id, D.Interrupt(DevAt(s, id), status), r);
  }

  lemma ResumeView(s: Sys, id: nat, r: Ref)
    requires DistinctIds(s.core) && Fits(s, id) && Present(s.core, r)
    ensures var t := OnDevice(s.core, id, D.Restore(DevAt(s.core, id), s.area));
            && Present(t, r)
            && (id == r.dev ==> r.chan < |s.area.chan|)
            && ChanAt(t, r) == if id == r.dev then R.Apply(ChanAt(s.core, r), R.Reload(s.area.chan[r.chan]))
                               else ChanAt(s.core, r)
  {
    hide D.Restore;
    RestoreFlags(DevAt(s.core, id), s.area);
    OnDeviceView(s.core, id, D.Restore(DevAt(s.core, id), s.area), r);
  }

  lemma PowerLossView(s: Core, id: nat, lost: Dev, r: Ref)
    requires DistinctIds(s) && CanLose(s, id, lost) && Present(s, r)
    ensures var t := OnDevice(s, id, lost);
            && Present(t, r)
            && (id == r.dev ==> r.chan < |lost.chans|)
            && ChanAt(t, r) == if id == r.dev then R.Apply(ChanAt(s, r), R.Reload(lost.chans[r.chan].regs))
                               else ChanAt(s, r)
  {
    LostFlags(DevAt(s, id), lost);
    OnDeviceView(s, id, lost, r);
  }

  /* ----- devices come once and go for good ----- */

  /** Only a registration brings in a device or a channel, at the next address and fresh. */
  predicate NoNewcomer(s: Core, t: Core, r: Ref) {
    && (Registered(t, r.dev) ==> Registered(s, r.dev))
    && (Present(t, r) ==> Present(s, r))
    && t.next == s.next
  }

  lemma NoNewcomerOnChannel(s: Core, q: Ref, e: R.Event, r: Ref)
    ensures NoNewcomer(s, OnChannel(s, q, e), r)
  {
    hide R.Apply;
    if Present(s, q) {
      SetChanFrame(s, q, R.Apply(ChanAt(s, q), e), r, "");
    }
  }

  lemma NoNewcomerRelease(s: Core, q: Ref, r: Ref)
    ensures NoNewcomer(s, Release(s, q), r)
  {
    hide R.Released;
    if Requested(s, q) {
      SetChanFrame(s, q, R.Released(ChanAt(s, q)), r, "");
    }
  }

  lemma NoNewcomerRequest(s: Core, busId: string, chan: nat, live: bool, hook: int, r: Ref)
    requires DistinctIds(s)
    ensures NoNewcomer(s, K.Request(s, busId, chan, live, hook).0, r)
  {
    hide K.Request, R.Granted;
    var (t, reply) := K.Request(s, busId, chan, live, hook);
    RequestOutcome(s, busId, chan, live, hook);
    if reply.Ok? {
      var q := reply.ref;
      SetChanFrame(s, q, R.Granted(ChanAt(s, q), ClockOf(s.devs[IndexOf(s.devs, q.dev)], chan)), r, "");
    }
  }

  lemma NoNewcomerOnDevice(s: Core, id: nat, d: Dev, r: Ref)
    requires DistinctIds(s) && Registered(s, id)
    requires d.id == id && d.busId == DevAt(s, id).busId && |d.chans| == |DevAt(s, id).chans|
    ensures NoNewcomer(s, OnDevice(s, id, d), r)
  {
  }

  lemma NoNewcomerUnregister(s: Core, id: nat, r: Ref)
    requires DistinctIds(s)
    ensures NoNewcomer(s, K.Unregister(s, id).0, r)
  {
    if Registered(s, id) && K.Unregister(s, id).1 == 0 {
      UnregisterRemoves(s, id, r);
      RemovedLookup(s.devs, IndexOf(s.devs, id), r.dev);
    } else if Registered(s, id) {
      UnregisterBusy(s, id);
    }
  }

  lemma Newcomers(s: Sys, a: Act, r: Ref)
    requires DistinctIds(s.core)
    ensures a.Register? || NoNewcomer(s.core, Next(s, a).core, r)
  {
    hide R.Apply, D.Interrupt, D.Restore, D.Save, K.Request, K.Unregister, OnDevice, OnChannel, Release, DistinctIds;
    hide Present, HostName;
    match a
    case Register(d, regs) =>
    case Unregister(id) => NoNewcomerUnregister(s.core, id, r);
    case OpenRequest(f, minor, live, hook) =>
      NoNewcomerRequest(s.core, HostName(HostOf(minor)), ChanOf(minor), live, hook, r);
    case OpenNoMemory(f) => if f in s.files { NoNewcomerRelease(s.core, RefOf(s, f), r); }
    case OpenPublish(f, tgid) =>
    case CloseUnlink(f) =>
    case CloseRelease(f) => if f in s.files { NoNewcomerRelease(s.core, RefOf(s, f), r); }
    case Configure(f, c) => if f in s.files { NoNewcomerOnChannel(s.core, RefOf(s, f), R.Configure(c), r); }
    case Handle(f, h, data) => if f in s.files { NoNewcomerOnChannel(s.core, RefOf(s, f), R.Handle(h, data), r); }
    case Work(q, answer) => NoNewcomerOnChannel(s.core, q, R.Work(answer), r);
    case Interrupt(id, status) =>
      if Registered(s.core, id) {
        InterruptFlags(DevAt(s.core, id), status);
        DevAtId(s.core, id);
        NoNewcomerOnDevice(s.core, id, D.Interrupt(DevAt(s.core, id), status), r);
      }
    case Suspend(id) =>
    case Resume(id) =>
      if Fits(s, id) {
        RestoreFlags(DevAt(s.core, id), s.area);
        DevAtId(s.core, id);
        NoNewcomerOnDevice(s.core, id, D.Restore(DevAt(s.core, id), s.area), r);
      }
    case PowerLoss(id, lost) =>
      if CanLose(s.core, id, lost) {
        LostFlags(DevAt(s.core, id), lost);
        DevAtId(s.core, id);
        NoNewcomerOnDevice(s.core, id, lost, r);
      }
  }

  lemma DevAtId(s: Core, id: nat)
    requires Registered(s, id)
    ensures DevAt(s, id).id == id
  {
  }

  /** A device that left the list never comes back: its address is below the next one. */
  predicate Gone(s: Core, id: nat) {
    !Registered(s, id) && id < s.next
  }

  lemma GoneStays(s: Sys, a: Act, id: nat)
    requires DistinctIds(s.core) && Gone(s.core, id)
    ensures Gone(Next(s, a).core, id)
  {
    hide DistinctIds;
    Newcomers(s, a, Ref(id, 0));
    if a.Register? {
      RegisterNames(s.core, a.d, a.regs, "", id);
    }
  }

  lemma {:induction false} GoneOverRuns(s: Sys, acts: seq<Act>, i: nat, n: nat, id: nat)
    requires Inv(s) && i <= n <= |acts| && Gone(StateAt(s, acts, i).core, id)
    ensures Gone(StateAt(s, acts, n).core, id)
    decreases n
  {
    hide Inv, Next, Gone;
    if i < n {
      GoneOverRuns(s, acts, i, n - 1, id);
      InvOverRuns(s, acts, n - 1);
      InvIds(StateAt(s, acts, n - 1));
      GoneStays(StateAt(s, acts, n - 1), acts[n - 1], id);
    }
  }

  lemma GrantsPresent(s: Sys, a: Act, r: Ref)
    requires DistinctIds(s.core) && Grants(s, a) == Some(r)
    ensures Present(s.core, r) && !Requested(s.core, r) && Registered(s.core, r.dev)
  {
    hide K.Request;
    RequestOutcome(s.core, HostName(HostOf(a.minor)), ChanOf(a.minor), a.live, a.hook);
  }

  /** After an accepted unregistration, nothing is ever granted on that device again. */
  lemma NoGrantAfterUnregister(s: Sys, acts: seq<Act>, i: nat, n: nat, id: nat, chan: nat)
    requires Inv(s) && i < n < |acts|
    requires acts[i] == Unregister(id) && Registered(StateAt(s, acts, i).core, id)
    requires K.Unregister(StateAt(s, acts, i).core, id).1 == 0
    ensures Gone(StateAt(s, acts, n).core, id) && Grants(StateAt(s, acts, n), acts[n]) != Some(Ref(id, chan))
  {
    hide Inv, Grants, K.Unregister, DistinctIds, Present, Registered;
    var before := StateAt(s, acts, i);
    InvOverRuns(s, acts, i);
    InvIds(before);
    UnregisterRemoves(before.core, id, Ref(id, 0));
    RegisteredBelow(before.core, id);
    assert StateAt(s, acts, i + 1).core == K.Unregister(before.core, id).0;
    GoneOverRuns(s, acts, i + 1, n, id);
    InvOverRuns(s, acts, n);
    InvIds(StateAt(s, acts, n));
    if Grants(StateAt(s, acts, n), acts[n]) == Some(Ref(id, chan)) {
      GrantsPresent(StateAt(s, acts, n), acts[n], Ref(id, chan));
    }
  }

  lemma RegisteredBelow(s: Core, id: nat)
    requires DistinctIds(s) && Registered(s, id)
    ensures id < s.next
  {
  }

  /* ----- a channel's own run ----- */

  lemma PresentRegistered(s: Core, r: Ref)
    requires Present(s, r)
    ensures Registered(s, r.dev)
  {
  }

  lemma {:induction false} PresentOrGone(s: Sys, acts: seq<Act>, i: nat, n: nat, r: Ref)
    requires Inv(s) && i <= n <= |acts| && Present(StateAt(s, acts, i).core, r)
    ensures Present(StateAt(s, acts, n).core, r) || Gone(StateAt(s, acts, n).core, r.dev)
    decreases n
  {
    hide Inv, Next, Present, Gone, Seen, After;
    if i < n {
      PresentOrGone(s, acts, i, n - 1, r);
      var before := StateAt(s, acts, n - 1);
      InvOverRuns(s, acts, n - 1);
      InvIds(before);
      if Present(before.core, r) {
        LeavesForGood(before, acts[n - 1], r);
      } else {
        GoneStays(before, acts[n - 1], r.dev);
      }
    }
  }

  lemma LeavesForGood(s: Sys, a: Act, r: Ref)
    requires DistinctIds(s.core) && Present(s.core, r)
    ensures Present(Next(s, a).core, r) || Gone(Next(s, a).core, r.dev)
  {
    hide Next, Present, Seen, After, DistinctIds;
    StepView(s, a, r);
    PresentRegistered(s.core, r);
    RegisteredBelow(s.core, r.dev);
    Newcomers(s, a, r);
  }

  /** A channel that was there at the `i`-th act and is there at the `n`-th was there just before. */
  lemma PresentBetween(s: Sys, acts: seq<Act>, i: nat, n: nat, r: Ref)
    requires Inv(s) && i < n <= |acts|
    requires Present(StateAt(s, acts, i).core, r) && Present(StateAt(s, acts, n).core, r)
    ensures Present(StateAt(s, acts, n - 1).core, r)
  {
    hide Inv, Next, Present, Gone;
    var before := StateAt(s, acts, n - 1);
    PresentOrGone(s, acts, i, n - 1, r);
    if Gone(before.core, r.dev) {
      InvOverRuns(s, acts, n - 1);
      InvIds(before);
      GoneStays(before, acts[n - 1], r.dev);
      GoneAbsent(StateAt(s, acts, n).core, r);
    }
  }

  /** The events of a run that concern one channel, in order. */
  function History(s: Sys, acts: seq<Act>, n: nat, r: Ref): seq<R.Event>
    requires n <= |acts|
  {
    if n == 0 then []
    else
      var e := Seen(StateAt(s, acts, n - 1), acts[n - 1], r);
      History(s, acts, n - 1, r) + if e.Some? then [e.value] else []
  }

  lemma {:induction false} RunPrefix(c: Chan, events: seq<R.Event>, more: seq<R.Event>, i: nat)
    requires i <= |events|
    ensures R.StateAt(c, events + more, i) == R.StateAt(c, events, i)
  {
    hide R.Apply;
    if i > 0 {
      RunPrefix(c, events, more, i - 1);
    }
  }

  lemma RunOneMore(c: Chan, events: seq<R.Event>, e: R.Event)
    ensures R.StateAt(c, events + [e], |events| + 1) == R.Apply(R.StateAt(c, events, |events|), e)
  {
    hide R.Apply;
    RunPrefix(c, events, [e], |events|);
  }

  /** Whatever the rest of the system does, each channel goes through a run of its own events, so
      that everything proved of channel runs holds of every channel of the driver. */
  lemma {:induction false} ChannelHistory(s: Sys, acts: seq<Act>, n: nat, r: Ref)
    requires Inv(s) && n <= |acts|
    requires Present(s.core, r) && Present(StateAt(s, acts, n).core, r)
    ensures var h := History(s, acts, n, r);
            ChanAt(StateAt(s, acts, n).core, r) == R.StateAt(ChanAt(s.core, r), h, |h|)
  {
    hide Inv, Next, Present, ChanAt, Gone, Seen, R.Apply;
    if n > 0 {
      var before := StateAt(s, acts, n - 1);
      InvOverRuns(s, acts, n - 1);
      InvIds(before);
      PresentBetween(s, acts, 0, n, r);
      ChannelHistory(s, acts, n - 1, r);
      StepView(before, acts[n - 1], r);
      var e := Seen(before, acts[n - 1], r);
      if e.Some? {
        RunOneMore(ChanAt(s.core, r), History(s, acts, n - 1, r), e.value);
      } else {
        assert History(s, acts, n, r) == History(s, acts, n - 1, r);
      }
    }
  }

  lemma GoneAbsent(s: Core, r: Ref)
    requires Gone(s, r.dev)
    ensures !Present(s, r)
  {
  }

  /* ----- exclusive channels ----- */

  lemma StaysRequested(s: Sys, a: Act, r: Ref)
    requires DistinctIds(s.core) && Requested(s.core, r) && Retires(s, a) != Some(r)
    ensures Requested(Next(s, a).core, r)
  {
    hide Next, Present, ChanAt, DistinctIds, R.Apply, Grants, Retires, D.Hit;
    StepView(s, a, r);
    if a == Unregister(r.dev) {
      UnregisterKeepsRequested(s, r);
    }
    var e := Seen(s, a, r);
    if e.Some? {
      EventsKeepGrant(ChanAt(s.core, r), e.value);
    }
  }

  lemma UnregisterKeepsRequested(s: Sys, r: Ref)
    requires Requested(s.core, r)
    ensures Requested(Next(s, Unregister(r.dev)).core, r)
  {
  }

  lemma EventsKeepGrant(c: Chan, e: R.Event)
    requires c.requested && !e.Retire?
    ensures R.Apply(c, e).requested
  {
    hide Config, Run;
    if !e.Grant? {
      EventKeepsRequested(c, e);
    }
  }

  lemma {:induction false} RequestedUntilRetired(s: Sys, acts: seq<Act>, i: nat, n: nat, r: Ref)
    requires Inv(s) && i <= n <= |acts| && Requested(StateAt(s, acts, i).core, r)
    requires forall k :: i <= k < n ==> Retires(StateAt(s, acts, k), acts[k]) != Some(r)
    ensures Requested(StateAt(s, acts, n).core, r)
    decreases n
  {
    hide Inv, Next, Requested, Retires;
    if i < n {
      RequestedUntilRetired(s, acts, i, n - 1, r);
      InvOverRuns(s, acts, n - 1);
      InvIds(StateAt(s, acts, n - 1));
      StaysRequested(StateAt(s, acts, n - 1), acts[n - 1], r);
    }
  }

  lemma GrantRequests(s: Sys, a: Act, r: Ref)
    requires DistinctIds(s.core) && Grants(s, a) == Some(r)
    ensures Requested(Next(s, a).core, r)
  {
    hide Next, Present, ChanAt, DistinctIds, Grants, R.Granted, K.Request;
    GrantsPresent(s, a, r);
    StepView(s, a, r);
    GrantIsOpen(s, a, r);
    GrantedIsRequested(ChanAt(s.core, r), ClockAt(s.core, r));
  }

  lemma GrantIsOpen(s: Sys, a: Act, r: Ref)
    requires Grants(s, a) == Some(r)
    ensures a.OpenRequest?
  {
  }

  lemma NotGrantedAgain(s: Sys, acts: seq<Act>, i: nat, j: nat, r: Ref)
    requires Inv(s) && i < j < |acts|
    requires Grants(StateAt(s, acts, i), acts[i]) == Some(r)
    requires forall k :: i + 1 <= k < j ==> Retires(StateAt(s, acts, k), acts[k]) != Some(r)
    ensures Grants(StateAt(s, acts, j), acts[j]) != Some(r)
  {
    hide Inv, Next, Grants, Retires, Requested, Present, DistinctIds, StateAt;
    var before, after := StateAt(s, acts, i), StateAt(s, acts, j);
    InvOverRuns(s, acts, i);
    InvIds(before);
    GrantRequests(before, acts[i], r);
    OneStep(s, acts, i);
    RequestedUntilRetired(s, acts, i + 1, j, r);
    InvOverRuns(s, acts, j);
    InvIds(after);
    if Grants(after, acts[j]) == Some(r) {
      GrantsPresent(after, acts[j], r);
    }
  }

  /** No channel is granted twice without a release of it in between. */
  lemma ExclusiveGrants(s: Sys, acts: seq<Act>, i: nat, j: nat, r: Ref)
    requires Inv(s) && i < j < |acts|
    requires Grants(StateAt(s, acts, i), acts[i]) == Some(r)
    requires Grants(StateAt(s, acts, j), acts[j]) == Some(r)
    ensures exists k :: i < k < j && Retires(StateAt(s, acts, k), acts[k]) == Some(r)
  {
    hide Inv, Grants, Retires, StateAt;
    if forall k :: i + 1 <= k < j ==> Retires(StateAt(s, acts, k), acts[k]) != Some(r) {
      NotGrantedAgain(s, acts, i, j, r);
    }
  }

  /* ----- what holders do ----- */

  /** A holder's acts reach its own channel: a configuration is a call of `pwm_config` on it, and a
      handler is installed with its data. */
  lemma HolderActs(s: Sys, f: nat, c: Request, h: Option<nat>, data: Option<nat>)
    requires Inv(s) && f in s.files
    ensures var r := RefOf(s, f);
            && Present(s.core, r)
            && var t := Next(s, Configure(f, c)).core;
            && Present(t, r) && ChanAt(t, r) == Config(ChanAt(s.core, r), c).0
            && var u := Next(s, Handle(f, h, data)).core;
            && Present(u, r) && ChanAt(u, r).handler == h && ChanAt(u, r).handlerData == data
            && (ChanAt(u, r).callback <==> h.Some?)
  {
    hide Inv, Config, Present, ChanAt, OnChannel;
    var r := RefOf(s, f);
    HoldersRequested(s, f);
    OnChannelView(s.core, r, R.Configure(c), r);
    OnChannelView(s.core, r, R.Handle(h, data), r);
  }

  /** An interrupt triggers exactly the channels of its controller whose bit is set. */
  lemma InterruptActs(s: Sys, id: nat, status: bv32, r: Ref)
    requires Inv(s) && Present(s.core, r) && r.chan < D.CHAN_MAX
    ensures var t := Next(s, Interrupt(id, status)).core;
            && Present(t, r)
            && ChanAt(t, r) == if id == r.dev && D.TriggerBit(status, r.chan) then R.Triggered(ChanAt(s.core, r))
                               else ChanAt(s.core, r)
  {
    hide Inv, Present, ChanAt, OnDevice, D.Interrupt, D.Hit, D.TriggerBit, R.Triggered;
    InvIds(s);
    D.HitIsBit(status, r.chan);
    if Registered(s.core, id) {
      InterruptView(s.core, id, status, r);
    } else {
      PresentRegistered(s.core, r);
    }
  }

  /** Queued work whose handler says so stops its channel, and does nothing else. */
  lemma WorkActs(s: Sys, r: Ref, answer: bool)
    requires Present(s.core, r)
    ensures var c := ChanAt(s.core, r);
            var t := Next(s, Work(r, answer)).core;
            && Present(t, r)
            && ChanAt(t, r) == if c.handler.Some? && answer then Run(c, false) else c
  {
    hide Present, ChanAt, OnChannel, Run, StopChannel;
    OnChannelView(s.core, r, R.Work(answer), r);
    R.StartStop(ChanAt(s.core, r));
  }

  /* ----- idle channels ----- */

  lemma EventsKeepSilent(c: Chan, e: R.Event)
    requires Silent(c) && (e.Retire? || e.Trigger? || e.Work?)
    ensures Silent(R.Apply(c, e))
  {
    hide Fields, WithRun;
    RunWritten(c.regs.ctrl, false);
  }

  lemma HoldersRequested(s: Sys, f: nat)
    requires Inv(s) && f in s.files
    ensures Requested(s.core, RefOf(s, f))
  {
    hide HostName;
  }

  /** The act does not switch an output of the channel on from outside. */
  predicate QuietTo(s: Sys, a: Act, r: Ref) {
    var e := Seen(s, a, r);
    e.Some? && e.value.Reload? ==> Quiet(e.value.regs)
  }

  /** Register contents with both output bits clear. */
  predicate Quiet(regs: Regs) {
    !Fields(regs.ctrl).enabled && !Fields(regs.ctrl).output
  }

  lemma ReloadSilence(c: Chan, regs: Regs)
    requires Silent(c)
    ensures Silent(R.Apply(c, R.Reload(regs))) <==> Quiet(regs)
  {
    hide Fields;
  }

  lemma StaysSilent(s: Sys, a: Act, r: Ref)
    requires Inv(s) && Present(s.core, r) && Silent(ChanAt(s.core, r)) && Grants(s, a) != Some(r)
    requires Present(Next(s, a).core, r)
    ensures Silent(ChanAt(Next(s, a).core, r)) <==> QuietTo(s, a, r)
  {
    hide Inv, Next, Present, ChanAt, R.Apply, Grants, Retires, D.Hit, Fields, Fits, CanLose, Quiet;
    InvIds(s);
    StepView(s, a, r);
    if (a.Configure? || a.Handle?) && a.f in s.files {
      HoldersRequested(s, a.f);
    }
    var e := Seen(s, a, r);
    if e.Some? {
      if e.value.Reload? {
        ReloadSilence(ChanAt(s.core, r), e.value.regs);
      } else {
        EventsKeepSilent(ChanAt(s.core, r), e.value);
      }
    }
  }

  lemma RetiresToSilence(s: Sys, a: Act, r: Ref)
    requires Inv(s) && Retires(s, a) == Some(r)
    ensures Present(Next(s, a).core, r) && Silent(ChanAt(Next(s, a).core, r))
  {
    hide Inv, Next, Present, ChanAt, R.Released, Silent, K.Request;
    InvIds(s);
    HoldersRequested(s, a.f);
    StepView(s, a, r);
    ReleasedIsSilent(ChanAt(s.core, r));
  }

  /** Silent after each act from the `i`-th on. */
  ghost predicate SilentFrom(s: Sys, acts: seq<Act>, i: nat, n: nat, r: Ref)
    requires n <= |acts|
  {
    forall k :: i < k <= n && Present(StateAt(s, acts, k).core, r) ==> Silent(ChanAt(StateAt(s, acts, k).core, r))
  }

  /** No act after the `i`-th switches the outputs on from outside. */
  ghost predicate QuietFrom(s: Sys, acts: seq<Act>, i: nat, n: nat, r: Ref)
    requires n <= |acts|
  {
    forall k :: i < k < n && Present(StateAt(s, acts, k + 1).core, r) ==> QuietTo(StateAt(s, acts, k), acts[k], r)
  }

  /** A channel that was released and not granted since has its outputs off and neither handler
      nor callback at every point, whatever files, interrupts and queued handlers do, exactly when
      no resume and no loss of power writes registers with an output bit set to it. */
  lemma {:induction false} SilentAfterRelease(s: Sys, acts: seq<Act>, i: nat, n: nat, r: Ref)
    requires Inv(s) && i < n <= |acts|
    requires Retires(StateAt(s, acts, i), acts[i]) == Some(r)
    requires forall k :: i < k < n ==> Grants(StateAt(s, acts, k), acts[k]) != Some(r)
    ensures SilentFrom(s, acts, i, n, r) <==> QuietFrom(s, acts, i, n, r)
    ensures Present(StateAt(s, acts, n).core, r) || Gone(StateAt(s, acts, n).core, r.dev)
    decreases n
  {
    hide Inv, Next, Present, ChanAt, Grants, Retires, Gone, SilentFrom, QuietFrom;
    var before := StateAt(s, acts, n - 1);
    InvOverRuns(s, acts, n - 1);
    InvIds(before);
    if i == n - 1 {
      SilentAtFirst(s, acts, i, r);
    } else {
      SilentAfterRelease(s, acts, i, n - 1, r);
      if Gone(before.core, r.dev) {
        GoneStays(before, acts[n - 1], r.dev);
        GoneAbsent(StateAt(s, acts, n).core, r);
        GoneAbsent(before.core, r);
        SilentWhenGone(s, acts, i, n, r);
      } else {
        assert Present(before.core, r);
        LeavesForGood(before, acts[n - 1], r);
        SilentOneMore(s, acts, i, n, r);
      }
    }
  }

  lemma SilentAtFirst(s: Sys, acts: seq<Act>, i: nat, r: Ref)
    requires i < |acts| && Inv(StateAt(s, acts, i)) && Retires(StateAt(s, acts, i), acts[i]) == Some(r)
    ensures SilentFrom(s, acts, i, i + 1, r) && QuietFrom(s, acts, i, i + 1, r)
    ensures Present(StateAt(s, acts, i + 1).core, r)
  {
    hide Inv, Next, Present, ChanAt, Silent, Retires, QuietTo;
    OneStep(s, acts, i);
    RetiresToSilence(StateAt(s, acts, i), acts[i], r);
  }

  lemma SilentWhenGone(s: Sys, acts: seq<Act>, i: nat, n: nat, r: Ref)
    requires i < n - 1 && n <= |acts| && !Present(StateAt(s, acts, n).core, r)
    ensures SilentFrom(s, acts, i, n, r) <==> SilentFrom(s, acts, i, n - 1, r)
    ensures QuietFrom(s, acts, i, n, r) <==> QuietFrom(s, acts, i, n - 1, r)
  {
    hide Next, Present, ChanAt, Silent, QuietTo, StateAt;
  }

  lemma SilentOneMore(s: Sys, acts: seq<Act>, i: nat, n: nat, r: Ref)
    requires i < n - 1 && n <= |acts|
    requires Inv(StateAt(s, acts, n - 1)) && Present(StateAt(s, acts, n - 1).core, r)
    requires Grants(StateAt(s, acts, n - 1), acts[n - 1]) != Some(r)
    requires SilentFrom(s, acts, i, n - 1, r) <==> QuietFrom(s, acts, i, n - 1, r)
    ensures SilentFrom(s, acts, i, n, r) <==> QuietFrom(s, acts, i, n, r)
  {
    hide Inv, Next, Present, ChanAt, Silent, Grants, Retires, QuietTo;
    var before := StateAt(s, acts, n - 1);
    OneStep(s, acts, n - 1);
    if SilentFrom(s, acts, i, n - 1, r) && Present(StateAt(s, acts, n).core, r) {
      StaysSilent(before, acts[n - 1], r);
    }
  }

  /* ----- periods and duties of the whole driver ----- */

  /** The act is not the combined update that stores a duty above the period in force. */
  predicate Orderly(s: Sys, a: Act) {
    a.Configure? && a.f in s.files && Present(s.core, RefOf(s, a.f)) ==>
      !R.DisordersAt(ChanAt(s.core, RefOf(s, a.f)), R.Configure(a.c))
  }

  ghost predicate AllOrdered(s: Sys) {
    forall r: Ref :: Present(s.core, r) ==> R.Ordered(ChanAt(s.core, r))
  }

  lemma OrderStep(s: Sys, a: Act, r: Ref)
    requires DistinctIds(s.core) && Orderly(s, a)
    requires Present(s.core, r) ==> R.Ordered(ChanAt(s.core, r))
    ensures Present(Next(s, a).core, r) ==> R.Ordered(ChanAt(Next(s, a).core, r))
  {
    hide Present, ChanAt, DistinctIds, R.Apply, R.Ordered, Grants, Retires, D.Hit, Normalise, Admissible, K.Register;
    hide Next;
    if Present(s.core, r) {
      StepView(s, a, r);
      var e := Seen(s, a, r);
      if e.Some? {
        R.StepKeepsOrder(ChanAt(s.core, r), e.value);
      }
    } else if a.Register? {
      NewIsOrdered(s, a.d, a.regs, r);
    } else {
      Newcomers(s, a, r);
    }
  }

  lemma NewIsOrdered(s: Sys, d: Dev, regs: seq<Regs>, r: Ref)
    requires DistinctIds(s.core) && !Present(s.core, r)
    ensures var t := Next(s, Register(d, regs)).core;
            Present(t, r) ==> R.Ordered(ChanAt(t, r))
  {
    RegisterChannels(s.core, d, regs, r);
  }

  /** A disordering update is seen by its channel, whose order it breaks. */
  lemma DisorderStep(s: Sys, a: Act)
    requires DistinctIds(s.core) && AllOrdered(s) && !Orderly(s, a)
    ensures !AllOrdered(Next(s, a))
  {
    hide Present, ChanAt, DistinctIds, R.Apply, R.Ordered, D.Hit, Normalise, Admissible, Next, R.DisordersAt;
    var r := RefOf(s, a.f);
    var e := R.Configure(a.c);
    StepView(s, a, r);
    assert Seen(s, a, r) == Some(e);
    R.StepKeepsOrder(ChanAt(s.core, r), e);
  }

  lemma AllOrderedStep(s: Sys, a: Act)
    requires DistinctIds(s.core) && AllOrdered(s)
    ensures AllOrdered(Next(s, a)) <==> Orderly(s, a)
  {
    hide Present, ChanAt, DistinctIds, R.Ordered, Orderly, Next;
    if Orderly(s, a) {
      forall r: Ref | Present(Next(s, a).core, r)
        ensures R.Ordered(ChanAt(Next(s, a).core, r))
      {
        OrderStep(s, a, r);
      }
    } else {
      DisorderStep(s, a);
    }
  }

  ghost predicate OrderedSystemUpTo(acts: seq<Act>, n: nat)
    requires n <= |acts|
  {
    forall i :: 0 <= i <= n ==> AllOrdered(StateAt(EMPTY, acts, i))
  }

  ghost predicate OrderlyUpTo(acts: seq<Act>, n: nat)
    requires n <= |acts|
  {
    forall i :: 0 <= i < n ==> Orderly(StateAt(EMPTY, acts, i), acts[i])
  }

  /** From the empty driver on, every channel of every device keeps its duty within its period, and
      its period within 2^24 ticks, exactly when nobody makes the disordering update. */
  lemma {:induction false} OrderInSystem(acts: seq<Act>, n: nat)
    requires n <= |acts|
    ensures OrderedSystemUpTo(acts, n) <==> OrderlyUpTo(acts, n)
  {
    hide Inv, Next, AllOrdered, Orderly;
    EmptyInv();
    if n == 0 {
      EmptyOrdered();
    } else {
      OrderInSystem(acts, n - 1);
      InvOverRuns(EMPTY, acts, n - 1);
      var before := StateAt(EMPTY, acts, n - 1);
      InvIds(before);
      OneStep(EMPTY, acts, n - 1);
      if AllOrdered(before) {
        AllOrderedStep(before, acts[n - 1]);
      }
    }
  }

  lemma EmptyOrdered()
    ensures AllOrdered(EMPTY)
  {
  }

  /* ----- registers of the whole driver ----- */

  /** The act does not make right registers of the channel wrong: it is no harmful configuration of
      it, and no resume or loss of power that writes anything but the encoding of its settings. */
  predicate HarmlessTo(s: Sys, a: Act, r: Ref)
    requires Present(s.core, r)
  {
    var e := Seen(s, a, r);
    e.Some? ==> R.HarmlessAt(ChanAt(s.core, r), e.value)
  }

  ghost predicate RightUpTo(s: Sys, acts: seq<Act>, n: nat, r: Ref)
    requires n <= |acts|
  {
    forall i :: 0 <= i <= n ==> Present(StateAt(s, acts, i).core, r) && Refines(ChanAt(StateAt(s, acts, i).core, r))
  }

  ghost predicate HarmlessUpTo(s: Sys, acts: seq<Act>, n: nat, r: Ref)
    requires n <= |acts|
  {
    forall i :: 0 <= i < n ==> Present(StateAt(s, acts, i).core, r) && HarmlessTo(StateAt(s, acts, i), acts[i], r)
  }

  /** The registers of a channel encode its period and duty at every point exactly when they did at
      first and no act of the whole driver is harmful to it. */
  lemma {:induction false} RefinementInSystem(s: Sys, acts: seq<Act>, n: nat, r: Ref)
    requires Inv(s) && n <= |acts|
    requires Present(s.core, r) && Present(StateAt(s, acts, n).core, r)
    ensures RightUpTo(s, acts, n, r) <==> Refines(ChanAt(s.core, r)) && HarmlessUpTo(s, acts, n, r)
  {
    hide Inv, Next, Present, ChanAt, Seen, R.Apply, R.HarmlessAt, Refines;
    if n > 0 {
      var before := StateAt(s, acts, n - 1);
      PresentBetween(s, acts, 0, n, r);
      RefinementInSystem(s, acts, n - 1, r);
      InvOverRuns(s, acts, n - 1);
      InvIds(before);
      OneStep(s, acts, n - 1);
      StepView(before, acts[n - 1], r);
      var e := Seen(before, acts[n - 1], r);
      if e.Some? && Refines(ChanAt(before.core, r)) {
        R.StepKeepsRefinement(ChanAt(before.core, r), e.value);
      }
    } else {
      assert RightUpTo(s, acts, 0, r) <==> Refines(ChanAt(StateAt(s, acts, 0).core, r));
    }
  }
}
