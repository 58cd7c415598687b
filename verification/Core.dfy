/** The list of registered devices, the module reference counts, and what requesting, releasing,
    registering and unregistering make of them (driver/pwm_core.c:46-214), as values. */
module Core {
  import opened Bits
  import opened Kernel
  import opened Words
  import opened Channel
  import opened Runs

  /** `struct pwm_device` with the shared registers of the Intel controller. `id` stands for its
      address; an address is never reused. */
  datatype Dev = Dev(
    id: nat,
    busId: string,
    owner: nat,
    clk: seq<Word>,
    chans: seq<Chan>,
    ddsRate: Word,
    clkSrc: Word,
    intTrg: bv32)

  /** A pointer to a channel of a device. */
  datatype Ref = Ref(dev: nat, chan: nat)

  /** The device list, the reference count of each owning module, and the next unused address. */
  datatype Core = Core(devs: seq<Dev>, refs: map<nat, int>, next: nat)

  /** A channel pointer, or an error number. */
  datatype Reply = Ok(ref: Ref) | Err(ret: int)

  /* ----- finding devices and channels ----- */

  /** The position of a device, or the length of the list. */
  function IndexOf(devs: seq<Dev>, id: nat): (i: nat)
    ensures i <= |devs|
    ensures i < |devs| ==> devs[i].id == id
    ensures forall j :: 0 <= j < i ==> devs[j].id != id
  {
    if devs == [] then 0
    else if devs[0].id == id then 0
    else 1 + IndexOf(devs[1..], id)
  }

  /** `__pwm_find_device`: the first device of that name. */
  function FindDevice(devs: seq<Dev>, busId: string): (i: nat)
    ensures i <= |devs|
    ensures i < |devs| ==> devs[i].busId == busId
    ensures forall j :: 0 <= j < i ==> devs[j].busId != busId
  {
    if devs == [] then 0
    else if devs[0].busId == busId then 0
    else 1 + FindDevice(devs[1..], busId)
  }

  predicate Registered(s: Core, id: nat) {
    IndexOf(s.devs, id) < |s.devs|
  }

  predicate Present(s: Core, r: Ref) {
    var i := IndexOf(s.devs, r.dev);
    i < |s.devs| && r.chan < |s.devs[i].chans|
  }

  function ChanAt(s: Core, r: Ref): Chan
    requires Present(s, r)
  {
    s.devs[IndexOf(s.devs, r.dev)].chans[r.chan]
  }

  predicate Requested(s: Core, r: Ref) {
    Present(s, r) && ChanAt(s, r).requested
  }

  function SetChan(s: Core, r: Ref, c: Chan): Core
    requires Present(s, r)
  {
    var i := IndexOf(s.devs, r.dev);
    var d := s.devs[i];
    s.(devs := s.devs[i := d.(chans := d.chans[r.chan := c])])
  }

  /** Whether the device that answers to a name is the one at an address. */
  predicate Answers(s: Core, busId: string, id: nat) {
    var i := FindDevice(s.devs, busId);
    i < |s.devs| && s.devs[i].id == id
  }

  /** Addresses are distinct and below the next one. */
  predicate DistinctIds(s: Core) {
    && (forall i, j :: 0 <= i < j < |s.devs| ==> s.devs[i].id != s.devs[j].id)
    && (forall i :: 0 <= i < |s.devs| ==> s.devs[i].id < s.next)
  }

  /* ----- reference counts ----- */

  function RefsOf(s: Core, owner: nat): int {
    if owner in s.refs then s.refs[owner] else 0
  }

  function Get(s: Core, owner: nat): Core {
    s.(refs := s.refs[owner := RefsOf(s, owner) + 1])
  }

  function Put(s: Core, owner: nat): Core {
    s.(refs := s.refs[owner := RefsOf(s, owner) - 1])
  }

  function CountRequested(chans: seq<Chan>): nat {
    if chans == [] then 0
    else (if chans[0].requested then 1 else 0) + CountRequested(chans[1..])
  }

  /** The requested channels of the devices that a module owns. */
  function CountOwned(devs: seq<Dev>, owner: nat): nat {
    if devs == [] then 0
    else (if devs[0].owner == owner then CountRequested(devs[0].chans) else 0) + CountOwned(devs[1..], owner)
  }

  /* ----- the operations ----- */

  function ClockOf(d: Dev, chan: nat): Word {
    if chan < |d.clk| then d.clk[chan] else 0
  }

  /** `pwm_request`. `live` is whether the owner's module can still be pinned, `hook` the answer
      of the device's request hook (always 0 for the Intel driver). */
  function Request(s: Core, busId: string, chan: nat, live: bool, hook: int): (Core, Reply) {
    var i := FindDevice(s.devs, busId);
    if i == |s.devs| || chan >= |s.devs[i].chans| then (s, Err(-ENODEV))
    else
      var d := s.devs[i];
      var r := Ref(d.id, chan);
      if !live then (s, Err(-ENODEV))
      else if d.chans[chan].requested then (Put(Get(s, d.owner), d.owner), Err(-EBUSY))
      else if hook != 0 then (Put(Get(s, d.owner), d.owner), Err(hook))
      else
        var granted := d.chans[chan := Granted(d.chans[chan], ClockOf(d, chan))];
        (Get(s.(devs := s.devs[i := d.(chans := granted)]), d.owner), Ok(r))
  }

  /** `pwm_release`. */
  function Release(s: Core, r: Ref): Core {
    if Requested(s, r) then Put(SetChan(s, r, Released(ChanAt(s, r))), s.devs[IndexOf(s.devs, r.dev)].owner)
    else s
  }

  function FreshChans(regs: seq<Regs>): (r: seq<Chan>)
    ensures |r| == |regs|
  {
    seq(|regs|, i requires 0 <= i < |regs| => Fresh(regs[i]))
  }

  /** `pwm_register`: a device with zeroed channels, at the end of the list. */
  function Register(s: Core, d: Dev, regs: seq<Regs>): Core {
    s.(devs := s.devs + [d.(id := s.next, chans := FreshChans(regs))],
       next := s.next + 1)
  }

  predicate AnyRequested(chans: seq<Chan>) {
    exists c :: 0 <= c < |chans| && chans[c].requested
  }

  /** `pwm_unregister`. */
  function Unregister(s: Core, id: nat): (Core, int) {
    var i := IndexOf(s.devs, id);
    if i == |s.devs| then (s, 0)
    else if AnyRequested(s.devs[i].chans) then (s, -EBUSY)
    else (s.(devs := s.devs[..i] + s.devs[i + 1..]), 0)
  }

  /* ----- frames ----- */

  lemma IndexUnique(devs: seq<Dev>, i: nat, id: nat)
    requires i < |devs| && devs[i].id == id
    requires forall j :: 0 <= j < |devs| && j != i ==> devs[j].id != id
    ensures IndexOf(devs, id) == i
  {
  }

  /** Replacing a device by one with the same address and name leaves every lookup alone. */
  lemma SameLookups(devs: seq<Dev>, i: nat, d: Dev, id: nat, busId: string)
    requires i < |devs| && d.id == devs[i].id && d.busId == devs[i].busId
    ensures IndexOf(devs[i := d], id) == IndexOf(devs, id)
    ensures FindDevice(devs[i := d], busId) == FindDevice(devs, busId)
  {
    var devs' := devs[i := d];
    var a, b := IndexOf(devs, id), IndexOf(devs', id);
    assert a < |devs| ==> devs'[a].id == id;
    assert b < |devs| ==> devs[b].id == id;
    var f, g := FindDevice(devs, busId), FindDevice(devs', busId);
    assert f < |devs| ==> devs'[f].busId == busId;
    assert g < |devs| ==> devs[g].busId == busId;
  }

  /** Changing one channel changes that channel and nothing else. */
  lemma SetChanFrame(s: Core, r: Ref, c: Chan, q: Ref, busId: string)
    requires Present(s, r)
    ensures var t := SetChan(s, r, c);
            && (Present(t, q) <==> Present(s, q))
            && (Present(s, q) ==> ChanAt(t, q) == if q == r then c else ChanAt(s, q))
            && IndexOf(t.devs, q.dev) == IndexOf(s.devs, q.dev)
            && (forall id :: Answers(t, busId, id) <==> Answers(s, busId, id))
            && (DistinctIds(s) ==> DistinctIds(t))
            && t.refs == s.refs && t.next == s.next
  {
    var i := IndexOf(s.devs, r.dev);
    var d := s.devs[i];
    SameLookups(s.devs, i, d.(chans := d.chans[r.chan := c]), q.dev, busId);
  }

  lemma CountChansUpdate(chans: seq<Chan>, i: nat, c: Chan)
    requires i < |chans|
    ensures CountRequested(chans[i := c])
            == CountRequested(chans) - (if chans[i].requested then 1 else 0) + (if c.requested then 1 else 0)
  {
    if i > 0 {
      CountChansUpdate(chans[1..], i - 1, c);
      assert chans[i := c][1..] == chans[1..][i - 1 := c];
    } else {
      assert chans[i := c][1..] == chans[1..];
    }
  }

  lemma CountDevsUpdate(devs: seq<Dev>, i: nat, d: Dev, owner: nat)
    requires i < |devs| && d.owner == devs[i].owner
    ensures CountOwned(devs[i := d], owner)
            == CountOwned(devs, owner)
               + (if d.owner == owner then CountRequested(d.chans) - CountRequested(devs[i].chans) else 0)
  {
    if i > 0 {
      CountDevsUpdate(devs[1..], i - 1, d, owner);
      assert devs[i := d][1..] == devs[1..][i - 1 := d];
    } else {
      assert devs[i := d][1..] == devs[1..];
    }
  }

  lemma CountDevsSplit(xs: seq<Dev>, ys: seq<Dev>, owner: nat)
    ensures CountOwned(xs + ys, owner) == CountOwned(xs, owner) + CountOwned(ys, owner)
  {
    if xs == [] {
      assert xs + ys == ys;
    } else {
      CountDevsSplit(xs[1..], ys, owner);
      assert (xs + ys)[1..] == xs[1..] + ys;
    }
  }

  lemma NoneRequested(chans: seq<Chan>)
    ensures CountRequested(chans) == 0 <==> forall c :: 0 <= c < |chans| ==> !chans[c].requested
  {
  }

  /** The references a module has beyond one for each requested channel of its devices. */
  function Surplus(s: Core, owner: nat): int {
    RefsOf(s, owner) - CountOwned(s.devs, owner)
  }

  /* ----- what the operations promise ----- */

  /** A channel can be granted only when it exists, is free, and its module can be pinned; the
      grant flags it, stores its clock and takes one reference; a refused request leaves every
      device as it was and every reference count too. */
  lemma RequestOutcome(s: Core, busId: string, chan: nat, live: bool, hook: int)
    requires DistinctIds(s)
    ensures var (t, reply) := Request(s, busId, chan, live, hook);
            match reply
            case Ok(r) =>
              && live && hook == 0 && r.chan == chan
              && Answers(s, busId, r.dev) && Present(s, r) && !Requested(s, r)
              && t.devs == SetChan(s, r, Granted(ChanAt(s, r), ClockOf(s.devs[IndexOf(s.devs, r.dev)], chan))).devs
              && t.next == s.next
              && (forall m :: RefsOf(t, m) == RefsOf(s, m) + if m == s.devs[IndexOf(s.devs, r.dev)].owner then 1 else 0)
            case Err(ret) =>
              ret != 0 && t.devs == s.devs && t.next == s.next && forall m :: RefsOf(t, m) == RefsOf(s, m)
  {
    var i := FindDevice(s.devs, busId);
    if i < |s.devs| {
      IndexUnique(s.devs, i, s.devs[i].id);
    }
  }

  /** No operation changes what a module owes beyond its requested channels. */
  lemma RequestConserves(s: Core, busId: string, chan: nat, live: bool, hook: int, owner: nat)
    requires DistinctIds(s)
    ensures Surplus(Request(s, busId, chan, live, hook).0, owner) == Surplus(s, owner)
  {
    RequestOutcome(s, busId, chan, live, hook);
    var (t, reply) := Request(s, busId, chan, live, hook);
    if reply.Ok? {
      var i := IndexOf(s.devs, reply.ref.dev);
      CountDevsUpdate(s.devs, i, t.devs[i], owner);
      CountChansUpdate(s.devs[i].chans, chan, t.devs[i].chans[chan]);
    }
  }

  lemma ReleaseConserves(s: Core, r: Ref, owner: nat)
    ensures Surplus(Release(s, r), owner) == Surplus(s, owner)
  {
    if Requested(s, r) {
      var t := Release(s, r);
      var i := IndexOf(s.devs, r.dev);
      CountDevsUpdate(s.devs, i, t.devs[i], owner);
      ReleasedIsSilent(ChanAt(s, r));
      CountChansUpdate(s.devs[i].chans, r.chan, t.devs[i].chans[r.chan]);
    }
  }

  lemma RegisterConserves(s: Core, d: Dev, regs: seq<Regs>, owner: nat)
    ensures Surplus(Register(s, d, regs), owner) == Surplus(s, owner)
  {
    var added := Register(s, d, regs).devs[|s.devs|];
    CountDevsSplit(s.devs, [added], owner);
    NoneRequested(added.chans);
  }

  lemma UnregisterConserves(s: Core, id: nat, owner: nat)
    ensures Surplus(Unregister(s, id).0, owner) == Surplus(s, owner)
  {
    var i := IndexOf(s.devs, id);
    var t := Unregister(s, id).0;
    if t != s {
      NoneRequested(s.devs[i].chans);
      assert s.devs == s.devs[..i] + ([s.devs[i]] + s.devs[i + 1..]);
      CountDevsSplit(s.devs[..i], [s.devs[i]] + s.devs[i + 1..], owner);
      CountDevsSplit([s.devs[i]], s.devs[i + 1..], owner);
      CountDevsSplit(s.devs[..i], s.devs[i + 1..], owner);
    }
  }

  /** A channel nobody holds: outputs off, no handler, no callback. */
  predicate Silent(c: Chan) {
    && !c.requested
    && !Fields(c.regs.ctrl).enabled && !Fields(c.regs.ctrl).output
    && c.handler == None && c.handlerData == None && !c.callback
  }

  lemma ReleasedIsSilent(c: Chan)
    ensures Silent(Released(c))
    ensures var z := Released(c);
            z == c.(requested := false, handler := None, handlerData := None, callback := false,
                    regs := c.regs.(ctrl := z.regs.ctrl))
  {
    hide Fields, WithRun, StopChannel;
    StartStop(c.(requested := false));
    RunWritten(c.regs.ctrl, false);
  }

  /** The answer to a request: ENODEV without a device of that name, such a channel or a module that
      can be pinned; otherwise EBUSY for a channel that is taken; otherwise the hook's own error; and
      otherwise the channel. */
  lemma RequestAnswer(s: Core, busId: string, chan: nat, live: bool, hook: int)
    requires DistinctIds(s)
    ensures var reply := Request(s, busId, chan, live, hook).1;
            && (!live || (forall id :: Answers(s, busId, id) ==> !Present(s, Ref(id, chan))) ==> reply == Err(-ENODEV))
            && (live ==> forall id :: Answers(s, busId, id) && Present(s, Ref(id, chan)) ==>
                  reply == if Requested(s, Ref(id, chan)) then Err(-EBUSY)
                           else if hook != 0 then Err(hook) else Ok(Ref(id, chan)))
  {
    var i := FindDevice(s.devs, busId);
    if i < |s.devs| {
      IndexUnique(s.devs, i, s.devs[i].id);
      assert Answers(s, busId, s.devs[i].id);
    }
  }

  /** A granted channel is flagged and has its place's clock, and is otherwise as it was; every other
      channel is as it was. */
  lemma RequestGrants(s: Core, busId: string, chan: nat, live: bool, hook: int, q: Ref)
    requires DistinctIds(s) && Request(s, busId, chan, live, hook).1.Ok?
    ensures var (t, reply) := Request(s, busId, chan, live, hook);
            var r := reply.ref;
            && Requested(t, r)
            && ChanAt(t, r) == ChanAt(s, r).(requested := true, tickHz := ChanAt(t, r).tickHz)
            && (var clk := s.devs[IndexOf(s.devs, r.dev)].clk; chan < |clk| ==> ChanAt(t, r).tickHz == clk[chan])
            && (q != r ==> (Present(t, q) <==> Present(s, q)) && (Present(s, q) ==> ChanAt(t, q) == ChanAt(s, q)))
  {
    hide Request, Granted, ClockOf;
    RequestOutcome(s, busId, chan, live, hook);
    var r := Request(s, busId, chan, live, hook).1.ref;
    var hz := ClockOf(s.devs[IndexOf(s.devs, r.dev)], chan);
    GrantedFrame(ChanAt(s, r), hz);
    SetChanFrame(s, r, Granted(ChanAt(s, r), hz), q, "");
    SetChanFrame(s, r, Granted(ChanAt(s, r), hz), r, "");
    ClockIs(s.devs[IndexOf(s.devs, r.dev)], chan);
  }

  lemma ClockIs(d: Dev, chan: nat)
    ensures chan < |d.clk| ==> ClockOf(d, chan) == d.clk[chan]
  {
  }

  /** A release undoes the request before it: the reference is given back, the channel is as it was
      but for its clock and its silence, and no other channel has changed. */
  lemma RequestReleaseUndoes(s: Core, busId: string, chan: nat, live: bool, hook: int, q: Ref, owner: nat)
    requires DistinctIds(s) && Request(s, busId, chan, live, hook).1.Ok?
    ensures var (t, reply) := Request(s, busId, chan, live, hook);
            var z := Release(t, reply.ref);
            && RefsOf(z, owner) == RefsOf(s, owner)
            && (Present(z, q) <==> Present(s, q))
            && (Present(s, q) && q != reply.ref ==> ChanAt(z, q) == ChanAt(s, q))
            && (Present(s, q) && q == reply.ref ==>
                  && Silent(ChanAt(z, q)) && ChanAt(z, q).activeHigh == ChanAt(s, q).activeHigh
                  && ChanAt(z, q).period == ChanAt(s, q).period && ChanAt(z, q).duty == ChanAt(s, q).duty)
  {
    hide Released, Granted, ClockOf, Silent;
    var (t, reply) := Request(s, busId, chan, live, hook);
    RequestOutcome(s, busId, chan, live, hook);
    var r := reply.ref;
    var c := Granted(ChanAt(s, r), ClockOf(s.devs[IndexOf(s.devs, r.dev)], chan));
    GrantedFrame(ChanAt(s, r), ClockOf(s.devs[IndexOf(s.devs, r.dev)], chan));
    SetChanFrame(s, r, c, q, "");
    SetChanFrame(s, r, c, r, "");
    SetChanFrame(t, r, Released(c), q, "");
    ReleasedIsSilent(c);
  }

  lemma GrantedFrame(c: Chan, hz: Word)
    ensures var z := Granted(c, hz);
            z == c.(requested := true, tickHz := hz)
  {
  }

  /** A second release does nothing. */
  lemma ReleaseTwice(s: Core, r: Ref)
    ensures Release(Release(s, r), r) == Release(s, r)
  {
    if Requested(s, r) {
      ReleasedIsSilent(ChanAt(s, r));
      SetChanFrame(s, r, Released(ChanAt(s, r)), r, "");
    }
  }

  /** Unregistering is all or nothing. It is refused, with nothing changed, exactly when some
      channel of the device is requested. */
  lemma UnregisterBusy(s: Core, id: nat)
    requires Registered(s, id)
    ensures Unregister(s, id).1 == -EBUSY <==> exists c: nat :: Requested(s, Ref(id, c))
    ensures Unregister(s, id).1 == 0 || Unregister(s, id) == (s, -EBUSY)
  {
    var i := IndexOf(s.devs, id);
    if c :| 0 <= c < |s.devs[i].chans| && s.devs[i].chans[c].requested {
      assert Requested(s, Ref(id, c));
    }
  }

  lemma RemovedLookup(devs: seq<Dev>, i: nat, id: nat)
    requires i < |devs|
    requires forall j, k :: 0 <= j < k < |devs| ==> devs[j].id != devs[k].id
    ensures var rest := devs[..i] + devs[i + 1..];
            if id == devs[i].id then IndexOf(rest, id) == |rest|
            else (IndexOf(rest, id) < |rest| <==> IndexOf(devs, id) < |devs|)
                 && (IndexOf(devs, id) < |devs| ==> rest[IndexOf(rest, id)] == devs[IndexOf(devs, id)])
  {
    var rest := devs[..i] + devs[i + 1..];
    var a := IndexOf(devs, id);
    if id != devs[i].id && a < |devs| {
      IndexUnique(rest, if a < i then a else a - 1, id);
    }
  }

  lemma UnregisteredIs(s: Core, i: nat)
    requires i < |s.devs| && IndexOf(s.devs, s.devs[i].id) == i
    ensures Unregister(s, s.devs[i].id)
            == if AnyRequested(s.devs[i].chans) then (s, -EBUSY) else (s.(devs := s.devs[..i] + s.devs[i + 1..]), 0)
  {
  }

  lemma RemovedIds(s: Core, i: nat)
    requires DistinctIds(s) && i < |s.devs|
    ensures DistinctIds(s.(devs := s.devs[..i] + s.devs[i + 1..]))
  {
    var rest := s.devs[..i] + s.devs[i + 1..];
    assert forall j :: 0 <= j < |rest| ==> rest[j] == s.devs[if j < i then j else j + 1];
  }

  /** Otherwise exactly that device leaves the list, and every other stays as it was. */
  lemma UnregisterRemoves(s: Core, id: nat, r: Ref)
    requires DistinctIds(s) && Registered(s, id) && Unregister(s, id).1 == 0
    ensures var t := Unregister(s, id).0;
            && !Registered(t, id) && DistinctIds(t) && t.refs == s.refs && t.next == s.next
            && |t.devs| == |s.devs| - 1
            && (r.dev != id ==> (Present(t, r) <==> Present(s, r)) && (Present(s, r) ==> ChanAt(t, r) == ChanAt(s, r)))
  {
    hide Unregister, AnyRequested, IndexOf;
    var i := IndexOf(s.devs, id);
    UnregisteredIs(s, i);
    RemovedIds(s, i);
    RemovedLookup(s.devs, i, id);
    RemovedLookup(s.devs, i, r.dev);
  }

  lemma RemovedAnswers(devs: seq<Dev>, i: nat, busId: string, k: nat)
    requires i < |devs| && k < |devs| && k != i
    requires FindDevice(devs, busId) == k
    ensures var rest := devs[..i] + devs[i + 1..];
            FindDevice(rest, busId) < |rest| && rest[FindDevice(rest, busId)] == devs[k]
  {
    var rest := devs[..i] + devs[i + 1..];
    var k' := if k < i then k else k - 1;
    var f := FindDevice(rest, busId);
    assert rest[k'] == devs[k];
    assert f < |rest| ==> rest[f] == if f < i then devs[f] else devs[f + 1];
  }

  /** A name that leads to another device still leads to it. */
  lemma UnregisterKeepsNames(s: Core, id: nat, busId: string, other: nat)
    requires DistinctIds(s) && other != id && Answers(s, busId, other)
    ensures Answers(Unregister(s, id).0, busId, other)
  {
    if Unregister(s, id).0 != s {
      RemovedAnswers(s.devs, IndexOf(s.devs, id), busId, FindDevice(s.devs, busId));
    }
  }

  /** A registered device goes to the end of the list with a new address; names that led to a
      device still lead to it. */
  lemma RegisterNames(s: Core, d: Dev, regs: seq<Regs>, busId: string, id: nat)
    requires DistinctIds(s)
    ensures var t := Register(s, d, regs);
            && DistinctIds(t)
            && (Registered(t, id) <==> Registered(s, id) || id == s.next)
            && (Answers(s, busId, id) ==> Answers(t, busId, id))
  {
    hide FreshChans;
    var t := Register(s, d, regs);
    AppendedLookup(s.devs, t.devs[|s.devs|], id, busId);
    AppendedIds(s, t.devs[|s.devs|]);
  }

  lemma AppendedIds(s: Core, d: Dev)
    requires DistinctIds(s) && d.id == s.next
    ensures DistinctIds(s.(devs := s.devs + [d], next := s.next + 1))
  {
  }

  /** The registered device is the last on the list, under the next address, with the name, owner,
      clocks and shared registers it came with, and each of its channels is zero but for what its
      registers hold. */
  lemma RegisteredDevice(s: Core, d: Dev, regs: seq<Regs>)
    requires DistinctIds(s)
    ensures var t := Register(s, d, regs);
            && t.refs == s.refs && t.next == s.next + 1
            && |t.devs| == |s.devs| + 1 && t.devs[..|s.devs|] == s.devs
            && var added := t.devs[|s.devs|];
            && IndexOf(t.devs, s.next) == |s.devs| && added.id == s.next
            && added.busId == d.busId && added.owner == d.owner && added.clk == d.clk
            && added.ddsRate == d.ddsRate && added.clkSrc == d.clkSrc && added.intTrg == d.intTrg
            && |added.chans| == |regs|
            && forall c :: 0 <= c < |regs| ==>
                 added.chans[c] == Chan(regs[c], requested := false, stopPending := false, tickHz := 0,
                                      callback := false, callbacks := 0, completed := false,
                                      handler := None, handlerData := None, activeHigh := 0, period := 0, duty := 0)
  {
    AppendedLookup(s.devs, Register(s, d, regs).devs[|s.devs|], s.next, "");
  }

  /** Every channel stays as it was, and only the new device's channels, all fresh, are added. */
  lemma RegisterChannels(s: Core, d: Dev, regs: seq<Regs>, r: Ref)
    requires DistinctIds(s)
    ensures var t := Register(s, d, regs);
            && (Present(s, r) ==> Present(t, r) && ChanAt(t, r) == ChanAt(s, r))
            && (Present(t, r) && !Present(s, r) ==>
                  r.dev == s.next && r.chan < |regs| && ChanAt(t, r) == Fresh(regs[r.chan]))
  {
    var t := Register(s, d, regs);
    AppendedLookup(s.devs, t.devs[|s.devs|], r.dev, "");
  }

  lemma AppendedLookup(devs: seq<Dev>, d: Dev, id: nat, busId: string)
    ensures IndexOf(devs + [d], id) == if IndexOf(devs, id) < |devs| then IndexOf(devs, id)
                                       else if d.id == id then |devs| else |devs| + 1
    ensures FindDevice(devs, busId) < |devs| ==> FindDevice(devs + [d], busId) == FindDevice(devs, busId)
  {
    var all := devs + [d];
    assert forall j :: 0 <= j < |devs| ==> all[j] == devs[j];
    assert all[|devs|] == d;
    var a, b := IndexOf(devs, id), IndexOf(all, id);
    assert a < |devs| ==> all[a].id == id;
    assert b < |devs| ==> devs[b].id == id;
    var f, g := FindDevice(devs, busId), FindDevice(all, busId);
    assert f < |devs| ==> all[f].busId == busId;
    assert g < |devs| ==> devs[g].busId == busId;
  }
}
