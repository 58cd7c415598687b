/** The character device: the list of open nodes and the file operations that use it
    (driver/pwm_drv.c:131-356). Each section under a lock is a method proved to be one act of
    the system; open and close are those sections in order. */
module Chardev {
  import opened Kernel
  import opened Words
  import opened Ticks
  import opened Encoding
  import opened Channel
  import opened Accessors
  import opened Controller
  import opened Registry
  import opened System
  import opened Ownership
  import opened Core
  import K = Core
  import D = Device

  /** The first node of a host and channel number, or the length of the list. */
  function FindPair(nodes: seq<Node>, host: nat, chan: nat): (i: nat)
    ensures i <= |nodes|
    ensures i < |nodes| ==> nodes[i].host == host && nodes[i].chan == chan
    ensures forall j :: 0 <= j < i ==> nodes[j].host != host || nodes[j].chan != chan
  {
    if nodes == [] then 0
    else if nodes[0].host == host && nodes[0].chan == chan then 0
    else 1 + FindPair(nodes[1..], host, chan)
  }

  /** PWM_IOC_SYNC and PWM_IOC_UNSYNC, called by the owner of the node `own`. The controller has
      no synchronize hook, so the last answer is an error too. */
  function SyncAnswer(nodes: seq<Node>, own: Node, arg: Word): int {
    var i := FindPair(nodes, own.host, arg);
    if i == |nodes| then -EINVAL
    else if own.tgid != nodes[i].tgid then -EPERM
    else -EINVAL
  }

  /** What an open's request returns: the error number of `pwm_request`, or zero. */
  function RequestError(s: Sys, minor: nat, live: bool, hook: int): int {
    var reply := K.Request(s.core, HostName(HostOf(minor)), ChanOf(minor), live, hook).1;
    if reply.Ok? then 0 else reply.ret
  }

  class CharDriver {
    const core: PwmCore
    var nodes: seq<Node>
    var files: map<nat, File>

    /** The device of each file's channel. */
    var devs: map<nat, PwmDevice>

    /** What the shared save area holds; file operations have nothing to do with it. */
    var area: D.Image

    constructor (core: PwmCore)
      requires core.Valid()
      ensures Valid() && this.core == core && State() == Sys(core.State(), [], map[], D.EMPTY_AREA)
    {
      this.core, nodes, files, devs, area := core, [], map[], map[], D.EMPTY_AREA;
    }

    ghost predicate Valid()
      reads this, core
    {
      && core.Valid()
      && forall f :: f in files ==>
           f in devs && devs[f] in core.devices && devs[f].id == files[f].node.ref.dev
           && files[f].node.ref.chan < |devs[f].channels|
    }

    /** The core does not live in this object. */
    lemma Apart()
      ensures forall i :: 0 <= i < |core.devices| ==> core.devices[i] as object != this
      ensures this !in core.AllParts()
    {
    }

    ghost function State(): Sys
      reads this, core, core.devices, core.AllParts()
    {
      Sys(core.State(), nodes, files, area)
    }

    /** The first section of an open: host and channel from the minor number, and the request. */
    method Request(f: nat, minor: nat, live: bool, hook: int) returns (ret: int)
      requires Valid() && f !in files
      modifies this, core`refs, core.AllParts()
      ensures Valid()
      ensures State() == Next(old(State()), OpenRequest(f, minor, live, hook))
      ensures ret == RequestError(old(State()), minor, live, hook)
      ensures ret == 0 <==> f in files
      ensures ret == 0 ==> files[f].stage == Pending
    {
      hide K.Request, HostName, PwmCore.Valid, PwmCore.State;
      Apart();
      var host, chan := HostOf(minor), ChanOf(minor);
      RefusedCode(core.State(), HostName(host), chan, live, hook);
      var d, reply := core.Request(HostName(host), chan, live, hook);
      if reply.Err? {
        return reply.ret;
      }
      files := files[f := File(Pending, Node(reply.ref, host, chan, 0))];
      devs := devs[f := d];
      ret := 0;
    }

    /** Giving the channel of a file back. */
    method ReleaseFile(f: nat)
      requires Valid() && f in files && files[f].stage != Open
      modifies this, core`refs, core.AllParts()
      ensures Valid()
      ensures State() == GivenBack(old(State()), f) && f !in files
    {
      hide K.Release, PwmCore.Valid, PwmCore.State;
      Apart();
      core.Release(devs[f], files[f].node.ref.chan);
      files := files - {f};
    }

    /** `list_add_tail` under the list's lock. */
    method Publish(f: nat, tgid: int)
      requires Valid() && f in files && files[f].stage == Pending
      modifies this
      ensures Valid()
      ensures State() == Next(old(State()), OpenPublish(f, tgid)) && f in files
    {
      hide PwmCore.Valid, PwmCore.State, PwmCore.AllParts, K.Request, K.Release, K.Register, K.Unregister, HostName;
      Apart();
      var n := files[f].node.(tgid := tgid);
      nodes := nodes + [n];
      files := files[f := File(Open, n)];
    }

    method Search(r: K.Ref) returns (i: nat)
      ensures i == FindNode(nodes, r)
    {
      i := 0;
      while i < |nodes| && nodes[i].ref != r
        invariant i <= |nodes|
        invariant forall j :: 0 <= j < i ==> nodes[j].ref != r
      {
        i := i + 1;
      }
    }

    method SearchPair(host: nat, chan: nat) returns (i: nat)
      ensures i == FindPair(nodes, host, chan)
    {
      i := 0;
      while i < |nodes| && !(nodes[i].host == host && nodes[i].chan == chan)
        invariant i <= |nodes|
        invariant forall j :: 0 <= j < i ==> nodes[j].host != host || nodes[j].chan != chan
      {
        i := i + 1;
      }
    }

    /** Taking the first node of a channel off the list. */
    method Remove(r: K.Ref)
      modifies this`nodes
      ensures nodes == Unlink(old(nodes), r)
    {
      var i := Search(r);
      if i < |nodes| {
        nodes := nodes[..i] + nodes[i + 1..];
      }
    }

    /** The search and removal of a close, under the list's lock. */
    method UnlinkFile(f: nat)
      requires Valid() && f in files && files[f].stage == Open
      modifies this
      ensures Valid()
      ensures State() == Next(old(State()), CloseUnlink(f))
      ensures f in files && files[f].stage == Closing
    {
      hide PwmCore.Valid, PwmCore.State, K.Request, K.Release, K.Register, K.Unregister, HostName, Unlink;
      Apart();
      ghost var s := core.State();
      Remove(files[f].node.ref);
      assert core.State() == s;
      Apart();
      files := files[f := files[f].(stage := Closing)];
    }

    /** `pwm_drv_open`; `memory` is whether the node can be allocated. */
    method OpenFile(f: nat, minor: nat, live: bool, hook: int, memory: bool, tgid: int) returns (ret: int)
      requires Valid() && f !in files
      modifies this, core`refs, core.AllParts()
      ensures Valid()
      ensures State() == Opened(old(State()), f, minor, live, hook, memory, tgid)
      ensures var error := RequestError(old(State()), minor, live, hook);
              ret == if error != 0 then error else if memory then 0 else -ENOMEM
      ensures ret == 0 <==> f in files
    {
      hide PwmCore.Valid, PwmCore.State, Next, GivenBack;
      ret := Request(f, minor, live, hook);
      assert Next(old(State()), OpenRequest(f, minor, live, hook)).files == files;
      if ret != 0 {
        return;
      }
      if !memory {
        GivenBackIs(State(), f);
        ReleaseFile(f);
        return -ENOMEM;
      }
      Publish(f, tgid);
    }

    /** `pwm_drv_close`. */
    method CloseFile(f: nat)
      requires Valid() && f in files && files[f].stage == Open
      modifies this, core`refs, core.AllParts()
      ensures Valid()
      ensures State() == Closed(old(State()), f)
    {
      hide PwmCore.Valid, PwmCore.State, Next, GivenBack;
      UnlinkFile(f);
      GivenBackIs(State(), f);
      ReleaseFile(f);
    }

    /** PWM_IOC_SYNC and PWM_IOC_UNSYNC. The caller's own node must be on the list (the BUG_ON). */
    method Sync(f: nat, arg: Word) returns (ret: int)
      requires f in files && FindNode(nodes, files[f].node.ref) < |nodes|
      ensures ret == SyncAnswer(nodes, nodes[FindNode(nodes, files[f].node.ref)], arg)
    {
      var a := Search(files[f].node.ref);
      var b := SearchPair(nodes[a].host, arg);
      if b == |nodes| {
        ret := -EINVAL;
      } else if nodes[a].tgid != nodes[b].tgid {
        ret := -EPERM;
      } else {
        ret := -EINVAL;
      }
    }
  }

  /** The error numbers of a request, by what the file would see of the driver. */
  lemma OpenErrors(s: Sys, minor: nat, live: bool, hook: int)
    requires Inv(s)
    ensures var name, chan, ret := HostName(HostOf(minor)), ChanOf(minor), RequestError(s, minor, live, hook);
            && (!live || (forall id :: Answers(s.core, name, id) ==> !Present(s.core, K.Ref(id, chan))) ==>
                  ret == -ENODEV)
            && (live ==> forall id :: Answers(s.core, name, id) && Present(s.core, K.Ref(id, chan)) ==>
                  ret == if Requested(s.core, K.Ref(id, chan)) then -EBUSY else hook)
  {
    hide HostName, K.Request, Answers, Present, Requested, DistinctIds;
    InvIds(s);
    RequestAnswer(s.core, HostName(HostOf(minor)), ChanOf(minor), live, hook);
  }

  lemma RefusedCode(s: K.Core, busId: string, chan: nat, live: bool, hook: int)
    ensures var reply := K.Request(s, busId, chan, live, hook).1;
            reply.Err? ==> reply.ret != 0
  {
  }

  /* ----- open and close as wholes ----- */

  /** What OpenNoMemory and CloseRelease make of a file in their stage. */
  function GivenBack(s: Sys, f: nat): Sys
    requires f in s.files
  {
    s.(core := K.Release(s.core, RefOf(s, f)), files := s.files - {f})
  }

  lemma GivenBackIs(s: Sys, f: nat)
    requires f in s.files
    ensures InStage(s, f, Pending) ==> Next(s, OpenNoMemory(f)) == GivenBack(s, f)
    ensures InStage(s, f, Closing) ==> Next(s, CloseRelease(f)) == GivenBack(s, f)
  {
    hide K.Release;
  }

  function Opened(s: Sys, f: nat, minor: nat, live: bool, hook: int, memory: bool, tgid: int): Sys {
    var s1 := Next(s, OpenRequest(f, minor, live, hook));
    if f !in s1.files then s1
    else if memory then Next(s1, OpenPublish(f, tgid))
    else Next(s1, OpenNoMemory(f))
  }

  function Closed(s: Sys, f: nat): Sys {
    Next(Next(s, CloseUnlink(f)), CloseRelease(f))
  }

  /** Nobody's node names a channel that is being granted. */
  lemma GrantedUnlisted(s: Sys, minor: nat, live: bool, hook: int)
    requires Inv(s)
    ensures var reply := K.Request(s.core, HostName(HostOf(minor)), ChanOf(minor), live, hook).1;
            reply.Ok? ==> FindNode(s.nodes, reply.ref) == |s.nodes|
  {
    hide HostName, K.Request, DistinctIds, Holding;
    var reply := K.Request(s.core, HostName(HostOf(minor)), ChanOf(minor), live, hook).1;
    RequestKeeps(s.core, HostOf(minor), ChanOf(minor), live, hook);
    NodesHold(s);
  }

  lemma NodesHold(s: Sys)
    requires Inv(s)
    ensures forall j :: 0 <= j < |s.nodes| ==> Holding(s.core, s.nodes[j])
  {
    hide Holding, DistinctIds;
    forall j | 0 <= j < |s.nodes|
      ensures Holding(s.core, s.nodes[j])
    {
      assert s.nodes[j] in s.nodes;
      assert Owned(s.files, s.nodes[j]);
    }
  }

  lemma UnlinkLast(nodes: seq<Node>, n: Node)
    requires FindNode(nodes, n.ref) == |nodes|
    ensures Unlink(nodes + [n], n.ref) == nodes
  {
    var all := nodes + [n];
    assert all[|nodes|].ref == n.ref;
    assert forall j :: 0 <= j < |nodes| ==> all[j] == nodes[j];
    var i := FindNode(all, n.ref);
    assert i == |nodes|;
  }

  /** The files and nodes after an open, and after a close of it. */
  lemma OpenCloseFiles(s: Sys, f: nat, minor: nat, live: bool, hook: int, memory: bool, tgid: int)
    requires Inv(s) && f !in s.files
    ensures var (core, reply) := K.Request(s.core, HostName(HostOf(minor)), ChanOf(minor), live, hook);
            var o := Opened(s, f, minor, live, hook, memory, tgid);
            && (reply.Err? ==> o == s.(core := core))
            && (reply.Ok? && !memory ==> o == s.(core := K.Release(core, reply.ref)))
            && (reply.Ok? && memory ==> InStage(o, f, Open) && Closed(o, f) == s.(core := K.Release(core, reply.ref)))
  {
    hide HostName, K.Request, K.Release, Unlink, Inv;
    var (core, reply) := K.Request(s.core, HostName(HostOf(minor)), ChanOf(minor), live, hook);
    GrantedUnlisted(s, minor, live, hook);
    if reply.Ok? {
      var n := Node(reply.ref, HostOf(minor), ChanOf(minor), tgid);
      UnlinkLast(s.nodes, n);
      assert s.files[f := File(Pending, n.(tgid := 0))] - {f} == s.files;
      assert s.files[f := File(Pending, n.(tgid := 0))][f := File(Open, n)][f := File(Closing, n)] - {f} == s.files;
    }
  }

  lemma OpenedIs(s: Sys, f: nat, minor: nat, live: bool, hook: int, tgid: int)
    requires f !in s.files
    ensures var (core, reply) := K.Request(s.core, HostName(HostOf(minor)), ChanOf(minor), live, hook);
            Opened(s, f, minor, live, hook, true, tgid)
            == if reply.Err? then s.(core := core)
               else
                 var n := Node(reply.ref, HostOf(minor), ChanOf(minor), tgid);
                 s.(core := core, nodes := s.nodes + [n], files := s.files[f := File(Open, n)])
  {
    hide HostName, K.Request, K.Release;
    var reply := K.Request(s.core, HostName(HostOf(minor)), ChanOf(minor), live, hook).1;
    if reply.Ok? {
      var n := Node(reply.ref, HostOf(minor), ChanOf(minor), tgid);
      assert s.files[f := File(Pending, n.(tgid := 0))][f := File(Open, n)] == s.files[f := File(Open, n)];
    }
  }

  lemma GrantedWasFree(s: K.Core, busId: string, chan: nat, live: bool, hook: int)
    requires DistinctIds(s)
    ensures var reply := K.Request(s, busId, chan, live, hook).1;
            reply.Ok? ==> reply.ref.chan == chan && !Requested(s, reply.ref)
  {
    RequestOutcome(s, busId, chan, live, hook);
  }

  /** An open that succeeds gives the file the flagged channel that its minor number stands for, 16
      channels to a host, and publishes that under the process that opened it. */
  lemma OpenGrants(s: Sys, f: nat, minor: nat, live: bool, hook: int, tgid: int)
    requires Inv(s) && f !in s.files
    ensures var o := Opened(s, f, minor, live, hook, true, tgid);
            f in o.files ==>
              var n := o.files[f].node;
              && o.files[f].stage == Open && o.nodes == s.nodes + [n]
              && n.host < 16 && n.chan < 16 && 16 * n.host + n.chan == minor % 256 && n.tgid == tgid
              && Requested(o.core, n.ref) && n.ref.chan == n.chan && Answers(o.core, HostName(n.host), n.ref.dev)
              && !Requested(s.core, n.ref)
  {
    hide HostName, K.Request, DistinctIds, Requested, Answers, Inv, CoreKeeps, Opened, Holding, HostOf, ChanOf;
    InvIds(s);
    OpenedIs(s, f, minor, live, hook, tgid);
    RequestKeeps(s.core, HostOf(minor), ChanOf(minor), live, hook);
    GrantedWasFree(s.core, HostName(HostOf(minor)), ChanOf(minor), live, hook);
    MinorSplits(minor);
    var (core, reply) := K.Request(s.core, HostName(HostOf(minor)), ChanOf(minor), live, hook);
    if reply.Ok? {
      var n := Node(reply.ref, HostOf(minor), ChanOf(minor), tgid);
      HeldNode(core, n);
      assert Opened(s, f, minor, live, hook, true, tgid).files[f] == File(Open, n);
    }
  }

  lemma MinorSplits(minor: nat)
    ensures 16 * HostOf(minor) + ChanOf(minor) == minor % 256
  {
  }

  lemma HeldNode(core: K.Core, n: Node)
    requires Holding(core, n.(tgid := 0))
    ensures n.host < 16 && Requested(core, n.ref) && n.ref.chan == n.chan
    ensures Answers(core, HostName(n.host), n.ref.dev)
  {
  }

  /** A minor number below 16 opens that channel of the device registered as pwm0, when it is there and
      free. */
  lemma OpenFindsFirstHost(s: Sys, f: nat, minor: nat, id: nat, tgid: int)
    requires Inv(s) && f !in s.files && minor < 16
    requires Answers(s.core, "pwm0", id) && Present(s.core, K.Ref(id, minor)) && !Requested(s.core, K.Ref(id, minor))
    ensures var o := Opened(s, f, minor, true, 0, true, tgid);
            && f in o.files && o.files[f] == File(Open, Node(K.Ref(id, minor), 0, minor, tgid))
            && Requested(o.core, K.Ref(id, minor))
  {
    hide K.Request, DistinctIds, Requested, Answers, Inv, CoreKeeps, Present, Opened, HostName;
    FirstHostName();
    InvIds(s);
    RequestAnswer(s.core, "pwm0", minor, true, 0);
    OpenedIs(s, f, minor, true, 0, tgid);
    RequestGrants(s.core, "pwm0", minor, true, 0, K.Ref(id, minor));
  }

  lemma FirstHostName()
    ensures HostName(0) == "pwm0"
  {
  }

  /** Through a whole open of a channel that the driver clocks at 27 MHz: it then has that clock, and a
      period of 1 to 2^24 ticks set on it, not shorter than the duty it has from before, is read back
      as `Reported`. */
  lemma OpenThenPeriod(s: Sys, f: nat, minor: nat, id: nat, tgid: int, ns: Word)
    requires Inv(s) && f !in s.files
    requires var r := K.Ref(id, ChanOf(minor));
             Answers(s.core, HostName(HostOf(minor)), id) && Present(s.core, r) && !Requested(s.core, r)
    requires ChanOf(minor) < |DevAt(s.core, id).clk| && DevAt(s.core, id).clk[ChanOf(minor)] == CLK_27MHZ
    requires 1 <= NsToTicks(CLK_27MHZ, ns) <= PERIOD_MAX
    requires ChanAt(s.core, K.Ref(id, ChanOf(minor))).duty <= NsToTicks(CLK_27MHZ, ns)
    ensures var r := K.Ref(id, ChanOf(minor));
            var o := Opened(s, f, minor, true, 0, true, tgid);
            && f in o.files && Present(o.core, r) && ChanAt(o.core, r).tickHz == CLK_27MHZ
            && var (z, ret) := SetPeriodNs(ChanAt(o.core, r), ns);
            && ret == 0 && GetPeriodNs(z) == Reported(ns)
  {
    hide HostName, K.Request, DistinctIds, Answers, Inv, CoreKeeps, Opened, HostOf, ChanOf, NsToTicks, Reported;
    hide SetPeriodNs, GetPeriodNs, IndexOf;
    var name, chan := HostName(HostOf(minor)), ChanOf(minor);
    var r := K.Ref(id, chan);
    InvIds(s);
    RequestAnswer(s.core, name, chan, true, 0);
    RequestGrants(s.core, name, chan, true, 0, r);
    OpenedIs(s, f, minor, true, 0, tgid);
    SetPeriodThenGet(ChanAt(K.Request(s.core, name, chan, true, 0).0, r), ns);
  }

  /** An open that fails, for whatever reason, and an open followed by its close both leave the
      files, the node list, every reference count and every channel but the one it was granted as
      they were; that one, which nobody held, ends silent, with its period, duty and polarity. */
  lemma OpenUndone(s: Sys, f: nat, minor: nat, live: bool, hook: int, memory: bool, tgid: int, q: K.Ref, owner: nat)
    requires Inv(s) && f !in s.files
    ensures var o := Opened(s, f, minor, live, hook, memory, tgid);
            var z := if f in o.files then Closed(o, f) else o;
            && z.files == s.files && z.nodes == s.nodes
            && RefsOf(z.core, owner) == RefsOf(s.core, owner)
            && (Present(z.core, q) <==> Present(s.core, q))
            && (Present(s.core, q) ==>
                  var granted := K.Request(s.core, HostName(HostOf(minor)), ChanOf(minor), live, hook).1 == Ok(q);
                  if !granted then ChanAt(z.core, q) == ChanAt(s.core, q)
                  else
                    && Silent(ChanAt(z.core, q)) && !Requested(s.core, q)
                    && ChanAt(z.core, q).period == ChanAt(s.core, q).period
                    && ChanAt(z.core, q).duty == ChanAt(s.core, q).duty
                    && ChanAt(z.core, q).activeHigh == ChanAt(s.core, q).activeHigh)
  {
    hide HostName, K.Request, K.Release, Closed, Inv, Silent, K.IndexOf;
    var (core, reply) := K.Request(s.core, HostName(HostOf(minor)), ChanOf(minor), live, hook);
    InvIds(s);
    OpenCloseFiles(s, f, minor, live, hook, memory, tgid);
    RequestOutcome(s.core, HostName(HostOf(minor)), ChanOf(minor), live, hook);
    if reply.Ok? {
      RequestReleaseUndoes(s.core, HostName(HostOf(minor)), ChanOf(minor), live, hook, q, owner);
    }
  }

  lemma PublishedPairs(nodes: seq<Node>, files: map<nat, File>, f: nat)
    requires NodesMatch(nodes, files) && f in files && files[f].stage == Open
    requires forall i, j :: 0 <= i < j < |nodes| ==> (nodes[i].host, nodes[i].chan) != (nodes[j].host, nodes[j].chan)
    ensures var i := FindPair(nodes, files[f].node.host, files[f].node.chan);
            i < |nodes| && nodes[i] == files[f].node
  {
  }

  /** Another process has the numbered channel of the node's host open. */
  ghost predicate OpenElsewhere(files: map<nat, File>, own: Node, arg: Word) {
    exists g :: g in files && files[g].stage == Open && files[g].node.host == own.host
                && files[g].node.chan == arg && files[g].node.tgid != own.tgid
  }

  lemma SyncRefused(nodes: seq<Node>, files: map<nat, File>, own: Node, arg: Word)
    requires NodesMatch(nodes, files)
    requires forall i, j :: 0 <= i < j < |nodes| ==> (nodes[i].host, nodes[i].chan) != (nodes[j].host, nodes[j].chan)
    ensures SyncAnswer(nodes, own, arg) == if OpenElsewhere(files, own, arg) then -EPERM else -EINVAL
  {
    var i := FindPair(nodes, own.host, arg);
    if i < |nodes| {
      assert nodes[i] in nodes;
      assert Owned(files, nodes[i]);
      var g :| g in files && files[g] == File(Open, nodes[i]);
      assert files[g].node == nodes[i];
    }
    if OpenElsewhere(files, own, arg) {
      var g :| g in files && files[g].stage == Open && files[g].node.host == own.host
               && files[g].node.chan == arg && files[g].node.tgid != own.tgid;
      PublishedPairs(nodes, files, g);
    }
  }

  /** In every reachable state the caller of a synchronisation finds its own node (the BUG_ON
      never fires), and is always refused: with EPERM exactly when another process has the numbered
      channel of the same host open, and with EINVAL otherwise, no controller having a synchronize
      hook. */
  lemma SyncInSystem(s: Sys, f: nat, arg: Word)
    requires Inv(s) && InStage(s, f, Open)
    ensures var i := FindNode(s.nodes, RefOf(s, f));
            i < |s.nodes| && s.nodes[i] == s.files[f].node
    ensures SyncAnswer(s.nodes, s.files[f].node, arg)
            == if OpenElsewhere(s.files, s.files[f].node, arg) then -EPERM else -EINVAL
  {
    hide Holding, DistinctIds, FilesHold, FilesApart, NodesMatch, SyncAnswer, OpenElsewhere;
    OwnNode(s.nodes, s.files, f);
    LookupsUnambiguous(s);
    SyncRefused(s.nodes, s.files, s.files[f].node, arg);
  }
}
