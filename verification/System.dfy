/** The whole driver as one state machine: the device list and its channels, the list of open
    nodes, any number of files, each on its way through open and close, and the save area that all
    controllers share. Every act is one critical section (driver/pwm_drv.c:149-206,
    driver/pwm_core.c:94-214) or one power callback (driver/_pwm.c:333-369); acts of different files
    and controllers interleave freely, between a suspend and the resume too. An in-kernel user is a
    file that requests and releases without publishing. */
module System {
  import opened Kernel
  import opened Words
  import opened Channel
  import R = Runs
  import opened Core
  import K = Core
  import D = Device

  /** `struct pwm_chrdev` (driver/pwm_drv.c:131-139). */
  datatype Node = Node(ref: Ref, host: nat, chan: nat, tgid: int)

  /** Between the grant and the publication, open, and between the removal of the node and the
      release. */
  datatype Stage = Pending | Open | Closing

  datatype File = File(stage: Stage, node: Node)

  datatype Sys = Sys(core: Core, nodes: seq<Node>, files: map<nat, File>, area: D.Image)

  datatype Act =
    | Register(d: Dev, regs: seq<Regs>)
    | Unregister(id: nat)
    | OpenRequest(f: nat, minor: nat, live: bool, hook: int)
    | OpenNoMemory(f: nat)
    | OpenPublish(f: nat, tgid: int)
    | CloseUnlink(f: nat)
    | CloseRelease(f: nat)
    | Configure(f: nat, c: Request)
    | Handle(f: nat, handler: Option<nat>, data: Option<nat>)
    | Interrupt(id: nat, status: bv32)
    | Work(ref: Ref, answer: bool)
    | Suspend(id: nat)
    | Resume(id: nat)
    | PowerLoss(id: nat, lost: Dev)

  /* ----- names and nodes ----- */

  function Digit(d: nat): char
    requires d < 10
  {
    "0123456789"[d]
  }

  /** `sprintf("pwm%d")` of a four-bit host number. */
  function HostName(host: nat): string
    requires host < 16
  {
    if host < 10 then "pwm" + [Digit(host)] else "pwm1" + [Digit(host - 10)]
  }

  function HostOf(minor: nat): (host: nat)
    ensures host < 16
  {
    minor / 16 % 16
  }

  function ChanOf(minor: nat): (chan: nat)
    ensures chan < 16
  {
    minor % 16
  }

  /** The first node of a channel, or the length of the list. */
  function FindNode(nodes: seq<Node>, r: Ref): (i: nat)
    ensures i <= |nodes|
    ensures i < |nodes| ==> nodes[i].ref == r
    ensures forall j :: 0 <= j < i ==> nodes[j].ref != r
  {
    if nodes == [] then 0
    else if nodes[0].ref == r then 0
    else 1 + FindNode(nodes[1..], r)
  }

  function Unlink(nodes: seq<Node>, r: Ref): seq<Node> {
    var i := FindNode(nodes, r);
    if i == |nodes| then nodes else nodes[..i] + nodes[i + 1..]
  }

  /* ----- one act ----- */

  predicate InStage(s: Sys, f: nat, stage: Stage) {
    f in s.files && s.files[f].stage == stage
  }

  function RefOf(s: Sys, f: nat): Ref
    requires f in s.files
  {
    s.files[f].node.ref
  }

  /** Something happens to one channel, if it is there. */
  function OnChannel(s: Core, r: Ref, e: R.Event): Core {
    if Present(s, r) then SetChan(s, r, R.Apply(ChanAt(s, r), e)) else s
  }

  function OnDevice(s: Core, id: nat, d: Dev): Core
    requires Registered(s, id)
  {
    s.(devs := s.devs[IndexOf(s.devs, id) := d])
  }

  function DevAt(s: Core, id: nat): Dev
    requires Registered(s, id)
  {
    s.devs[IndexOf(s.devs, id)]
  }

  /** The controller is there and its channels have a place in the save area, as those of every
      controller of at most four channels do. */
  predicate Fits(s: Sys, id: nat) {
    Registered(s.core, id) && D.Roomy(s.area, DevAt(s.core, id))
  }

  /** Losing power changes register contents only. */
  predicate CanLose(s: Core, id: nat, lost: Dev) {
    Registered(s, id) && D.SameSoftware(DevAt(s, id), lost)
  }

  function Next(s: Sys, a: Act): Sys {
    match a
    case Register(d, regs) => s.(core := K.Register(s.core, d, regs))
    case Unregister(id) => s.(core := K.Unregister(s.core, id).0)
    case OpenRequest(f, minor, live, hook) =>
      if f in s.files then s
      else
        var (core, reply) := K.Request(s.core, HostName(HostOf(minor)), ChanOf(minor), live, hook);
        if reply.Ok?
        then s.(core := core, files := s.files[f := File(Pending, Node(reply.ref, HostOf(minor), ChanOf(minor), 0))])
        else s.(core := core)
    case OpenNoMemory(f) =>
      if InStage(s, f, Pending) then s.(core := Release(s.core, RefOf(s, f)), files := s.files - {f}) else s
    case OpenPublish(f, tgid) =>
      if InStage(s, f, Pending) then
        var n := s.files[f].node.(tgid := tgid);
        s.(nodes := s.nodes + [n], files := s.files[f := File(Open, n)])
      else s
    case CloseUnlink(f) =>
      if InStage(s, f, Open)
      then s.(nodes := Unlink(s.nodes, RefOf(s, f)), files := s.files[f := s.files[f].(stage := Closing)])
      else s
    case CloseRelease(f) =>
      if InStage(s, f, Closing) then s.(core := Release(s.core, RefOf(s, f)), files := s.files - {f}) else s
    case Configure(f, c) =>
      if f in s.files then s.(core := OnChannel(s.core, RefOf(s, f), R.Configure(c))) else s
    case Handle(f, h, data) =>
      if f in s.files then s.(core := OnChannel(s.core, RefOf(s, f), R.Handle(h, data))) else s
    case Interrupt(id, status) =>
      if Registered(s.core, id) then s.(core := OnDevice(s.core, id, D.Interrupt(DevAt(s.core, id), status))) else s
    case Work(r, answer) => s.(core := OnChannel(s.core, r, R.Work(answer)))
    case Suspend(id) => if Fits(s, id) then s.(area := D.Save(DevAt(s.core, id), s.area)) else s
    case Resume(id) =>
      if Fits(s, id) then s.(core := OnDevice(s.core, id, D.Restore(DevAt(s.core, id), s.area))) else s
    case PowerLoss(id, lost) => if CanLose(s.core, id, lost) then s.(core := OnDevice(s.core, id, lost)) else s
  }

  /** The system after the first `i` acts. */
  function StateAt(s: Sys, acts: seq<Act>, i: nat): Sys
    requires i <= |acts|
  {
    if i == 0 then s else Next(StateAt(s, acts, i - 1), acts[i - 1])
  }

  /** Before anything is registered. */
  const EMPTY := Sys(Core([], map[], 0), [], map[], D.EMPTY_AREA)

  /* ----- what every act keeps ----- */

  /** A file past its grant has its channel flagged, and its node still names that channel. */
  predicate Holding(core: Core, n: Node) {
    && Requested(core, n.ref)
    && n.host < 16 && n.chan == n.ref.chan
    && Answers(core, HostName(n.host), n.ref.dev)
  }

  predicate FilesHold(core: Core, files: map<nat, File>) {
    forall f :: f in files ==> Holding(core, files[f].node)
  }

  /** No two files have the same channel. */
  predicate FilesApart(files: map<nat, File>) {
    forall f, g :: f in files && g in files && f != g ==> files[f].node.ref != files[g].node.ref
  }

  ghost predicate Owned(files: map<nat, File>, n: Node) {
    exists f :: f in files && files[f] == File(Open, n)
  }

  /** The nodes on the list are those of the open files, each once. */
  ghost predicate NodesMatch(nodes: seq<Node>, files: map<nat, File>) {
    && (forall n :: n in nodes ==> Owned(files, n))
    && (forall f :: f in files && files[f].stage == Open ==> files[f].node in nodes)
    && (forall i, j :: 0 <= i < j < |nodes| ==> nodes[i].ref != nodes[j].ref)
  }

  ghost predicate Inv(s: Sys) {
    DistinctIds(s.core) && FilesHold(s.core, s.files) && FilesApart(s.files) && NodesMatch(s.nodes, s.files)
  }

  /** What a change of the core must keep for the files to be unaffected. */
  ghost predicate CoreKeeps(s: Core, t: Core) {
    && DistinctIds(t)
    && forall n: Node :: Holding(s, n) ==> Holding(t, n)
  }

  lemma SetChanKeeps(s: Core, r: Ref, c: Chan)
    requires DistinctIds(s) && Present(s, r) && c.requested == ChanAt(s, r).requested
    ensures CoreKeeps(s, SetChan(s, r, c))
  {
    var t := SetChan(s, r, c);
    SetChanFrame(s, r, c, r, "");
    forall n: Node | Holding(s, n)
      ensures Holding(t, n)
    {
      SetChanFrame(s, r, c, n.ref, HostName(n.host));
    }
  }

  /** Configuration, interrupts and handlers do not change who has a channel. */
  lemma EventKeepsRequested(c: Chan, e: R.Event)
    requires !e.Grant? && !e.Retire?
    ensures R.Apply(c, e).requested == c.requested
  {
    hide R.Apply, Config;
    if e.Configure? {
      R.ConfigApplied(c, e);
      R.ConfigFrame(c, e.c);
    } else {
      R.OtherEvents(c, e);
    }
  }

  lemma OnChannelKeeps(s: Core, r: Ref, e: R.Event)
    requires DistinctIds(s)
    requires e.Configure? || e.Handle? || e.Work?
    ensures CoreKeeps(s, OnChannel(s, r, e))
  {
    hide R.Apply;
    if Present(s, r) {
      EventKeepsRequested(ChanAt(s, r), e);
      SetChanKeeps(s, r, R.Apply(ChanAt(s, r), e));
    }
  }

  /** Replacing a device by one with the same identity and as many channels. */
  lemma OnDeviceFrame(s: Core, id: nat, d: Dev, q: Ref, busId: string)
    requires DistinctIds(s) && Registered(s, id)
    requires d.id == id && d.busId == DevAt(s, id).busId && |d.chans| == |DevAt(s, id).chans|
    ensures var t := OnDevice(s, id, d);
            && DistinctIds(t)
            && (Present(t, q) <==> Present(s, q))
            && (Present(s, q) ==> ChanAt(t, q) == if q.dev == id then d.chans[q.chan] else ChanAt(s, q))
            && (Answers(t, busId, q.dev) <==> Answers(s, busId, q.dev))
  {
    SameLookups(s.devs, IndexOf(s.devs, id), d, q.dev, busId);
  }

  lemma OnDeviceKeeps(s: Core, id: nat, d: Dev)
    requires DistinctIds(s) && Registered(s, id)
    requires d.id == id && d.busId == DevAt(s, id).busId && |d.chans| == |DevAt(s, id).chans|
    requires forall i :: 0 <= i < |d.chans| ==> d.chans[i].requested == DevAt(s, id).chans[i].requested
    ensures CoreKeeps(s, OnDevice(s, id, d))
  {
    var t := OnDevice(s, id, d);
    OnDeviceFrame(s, id, d, Ref(id, 0), "");
    forall n: Node | Holding(s, n)
      ensures Holding(t, n)
    {
      OnDeviceFrame(s, id, d, n.ref, HostName(n.host));
    }
  }

  lemma InterruptKeeps(s: Core, id: nat, status: bv32)
    requires DistinctIds(s) && Registered(s, id)
    ensures CoreKeeps(s, OnDevice(s, id, D.Interrupt(DevAt(s, id), status)))
  {
    OnDeviceKeeps(s, id, D.Interrupt(DevAt(s, id), status));
  }

  lemma ResumeKeeps(s: Core, id: nat, area: D.Image)
    requires DistinctIds(s) && Registered(s, id) && D.Roomy(area, DevAt(s, id))
    ensures CoreKeeps(s, OnDevice(s, id, D.Restore(DevAt(s, id), area)))
  {
    OnDeviceKeeps(s, id, D.Restore(DevAt(s, id), area));
  }

  lemma PowerLossKeeps(s: Core, id: nat, lost: Dev)
    requires DistinctIds(s) && CanLose(s, id, lost)
    ensures CoreKeeps(s, OnDevice(s, id, lost))
  {
    LostFlags(DevAt(s, id), lost);
    OnDeviceKeeps(s, id, lost);
  }

  lemma LostFlags(d: Dev, lost: Dev)
    requires D.SameSoftware(d, lost)
    ensures lost.id == d.id && lost.owner == d.owner && lost.busId == d.busId && |lost.chans| == |d.chans|
    ensures forall i :: 0 <= i < |d.chans| ==>
              lost.chans[i].requested == d.chans[i].requested
              && lost.chans[i] == d.chans[i].(regs := lost.chans[i].regs)
  {
  }

  lemma RegisterKeeps(s: Core, d: Dev, regs: seq<Regs>)
    requires DistinctIds(s)
    ensures CoreKeeps(s, K.Register(s, d, regs))
  {
    RegisterNames(s, d, regs, "", 0);
    forall n: Node | Holding(s, n)
      ensures Holding(K.Register(s, d, regs), n)
    {
      RegisterNames(s, d, regs, HostName(n.host), n.ref.dev);
      RegisterChannels(s, d, regs, n.ref);
    }
  }

  lemma UnregisterKeeps(s: Core, id: nat)
    requires DistinctIds(s)
    ensures CoreKeeps(s, K.Unregister(s, id).0)
  {
    var (t, ret) := K.Unregister(s, id);
    if Registered(s, id) && ret == 0 {
      UnregisterRemoves(s, id, Ref(id, 0));
      UnregisterBusy(s, id);
      forall n: Node | Holding(s, n)
        ensures Holding(t, n)
      {
        assert n.ref == Ref(n.ref.dev, n.ref.chan);
        UnregisterRemoves(s, id, n.ref);
        UnregisterKeepsNames(s, id, HostName(n.host), n.ref.dev);
      }
    } else if Registered(s, id) {
      UnregisterBusy(s, id);
    }
  }

  lemma SameHolding(s: Core, t: Core, n: Node)
    requires t.devs == s.devs
    ensures Holding(t, n) <==> Holding(s, n)
  {
  }

  lemma SameDevices(s: Core, t: Core)
    requires DistinctIds(s) && t.devs == s.devs && t.next == s.next
    ensures CoreKeeps(s, t)
    ensures forall n: Node :: Holding(t, n) ==> Holding(s, n)
  {
    hide Holding;
    forall n: Node
      ensures Holding(t, n) <==> Holding(s, n)
    {
      SameHolding(s, t, n);
    }
  }

  lemma SetGranted(s: Core, r: Ref, c: Chan, host: nat)
    requires DistinctIds(s) && Present(s, r) && !Requested(s, r) && c.requested
    requires host < 16 && Answers(s, HostName(host), r.dev)
    ensures CoreKeeps(s, SetChan(s, r, c))
    ensures Holding(SetChan(s, r, c), Node(r, host, r.chan, 0))
  {
    hide HostName;
    SetChanFrame(s, r, c, r, HostName(host));
    forall n: Node | Holding(s, n)
      ensures Holding(SetChan(s, r, c), n)
    {
      SetChanFrame(s, r, c, n.ref, HostName(n.host));
    }
  }

  /** A request, granted or not, takes nothing from anyone; a grant is of a channel nobody held. */
  lemma RequestKeeps(s: Core, host: nat, chan: nat, live: bool, hook: int)
    requires DistinctIds(s) && host < 16
    ensures var (t, reply) := K.Request(s, HostName(host), chan, live, hook);
            && CoreKeeps(s, t)
            && (reply.Ok? ==>
                  Holding(t, Node(reply.ref, host, chan, 0)) && forall n: Node :: Holding(s, n) ==> n.ref != reply.ref)
  {
    hide HostName, K.Request, R.Granted, SetChan, Answers, Present;
    var (t, reply) := K.Request(s, HostName(host), chan, live, hook);
    RequestOutcome(s, HostName(host), chan, live, hook);
    if reply.Ok? {
      var r := reply.ref;
      var hz := ClockOf(s.devs[IndexOf(s.devs, r.dev)], chan);
      var c := R.Granted(ChanAt(s, r), hz);
      GrantedIsRequested(ChanAt(s, r), hz);
      SetGranted(s, r, c, host);
      SetChanFrame(s, r, c, r, HostName(host));
      SameDevices(SetChan(s, r, c), t);
    } else {
      SameDevices(s, t);
    }
  }

  lemma GrantedIsRequested(c: Chan, hz: Word)
    ensures R.Granted(c, hz).requested
  {
  }

  /** A release takes away only the channel it names. */
  lemma ReleaseOthers(s: Core, r: Ref)
    requires DistinctIds(s)
    ensures DistinctIds(Release(s, r))
    ensures forall n: Node :: Holding(s, n) && n.ref != r ==> Holding(Release(s, r), n)
  {
    hide HostName, R.Released, Answers, SetChan, IndexOf;
    if Requested(s, r) {
      var c := R.Released(ChanAt(s, r));
      SetChanFrame(s, r, c, r, "");
      forall n: Node | Holding(s, n) && n.ref != r
        ensures Holding(Release(s, r), n)
      {
        SetChanFrame(s, r, c, n.ref, HostName(n.host));
        SameHolding(SetChan(s, r, c), Release(s, r), n);
      }
    }
  }

  lemma CoreStep(s: Sys, core: Core)
    requires Inv(s) && CoreKeeps(s.core, core)
    ensures Inv(s.(core := core))
  {
  }

  lemma AreaStep(s: Sys, area: D.Image)
    requires Inv(s)
    ensures Inv(s.(area := area))
  {
  }

  /* ----- the node list ----- */

  /** Changing the file `f`, which is not open before or after, does not concern the nodes. */
  lemma UnpublishedFile(nodes: seq<Node>, files: map<nat, File>, files': map<nat, File>, f: nat)
    requires NodesMatch(nodes, files)
    requires f in files ==> files[f].stage != Open
    requires f in files' ==> files'[f].stage != Open
    requires files' - {f} == files - {f}
    ensures NodesMatch(nodes, files')
  {
    assert forall g :: g != f ==> (g in files' <==> g in files' - {f}) && (g in files <==> g in files - {f});
    assert forall g :: g in files' && g != f ==> files'[g] == (files' - {f})[g];
    assert forall g :: g in files && g != f ==> files[g] == (files - {f})[g];
    forall n | n in nodes
      ensures Owned(files', n)
    {
      var g :| g in files && files[g] == File(Open, n);
      assert files'[g] == File(Open, n);
    }
  }

  lemma PublishedNode(nodes: seq<Node>, files: map<nat, File>, f: nat, n: Node)
    requires NodesMatch(nodes, files) && FilesApart(files)
    requires f in files && files[f].stage == Pending && n.ref == files[f].node.ref
    ensures NodesMatch(nodes + [n], files[f := File(Open, n)])
  {
    var files' := files[f := File(Open, n)];
    forall m | m in nodes
      ensures Owned(files', m) && m.ref != n.ref
    {
      var g :| g in files && files[g] == File(Open, m);
      assert files'[g] == File(Open, m);
    }
    assert files'[f] == File(Open, n);
  }

  /** The node a close takes off the list is the one its own open put there. */
  lemma OwnNode(nodes: seq<Node>, files: map<nat, File>, f: nat)
    requires NodesMatch(nodes, files)
    requires f in files && files[f].stage == Open
    ensures var i := FindNode(nodes, files[f].node.ref);
            i < |nodes| && nodes[i] == files[f].node
  {
    NodesApart(nodes, files);
    OnlyNode(nodes, files[f].node);
  }

  lemma NodesApart(nodes: seq<Node>, files: map<nat, File>)
    requires NodesMatch(nodes, files)
    ensures forall i, j :: 0 <= i < j < |nodes| ==> nodes[i].ref != nodes[j].ref
  {
  }

  lemma OnlyNode(nodes: seq<Node>, n: Node)
    requires n in nodes && forall i, j :: 0 <= i < j < |nodes| ==> nodes[i].ref != nodes[j].ref
    ensures var i := FindNode(nodes, n.ref);
            i < |nodes| && nodes[i] == n
  {
    var k :| 0 <= k < |nodes| && nodes[k] == n;
    assert FindNode(nodes, n.ref) <= k;
  }

  lemma UnlinkedList(nodes: seq<Node>, r: Ref)
    requires forall i, j :: 0 <= i < j < |nodes| ==> nodes[i].ref != nodes[j].ref
    ensures var rest := Unlink(nodes, r);
            && (forall i, j :: 0 <= i < j < |rest| ==> rest[i].ref != rest[j].ref)
            && (forall n :: n in rest <==> n in nodes && n.ref != r)
  {
  }

  lemma UnlinkedNode(nodes: seq<Node>, files: map<nat, File>, f: nat)
    requires NodesMatch(nodes, files) && FilesApart(files)
    requires f in files && files[f].stage == Open
    ensures NodesMatch(Unlink(nodes, files[f].node.ref), files[f := files[f].(stage := Closing)])
  {
    var r := files[f].node.ref;
    UnlinkedList(nodes, r);
    var files' := files[f := files[f].(stage := Closing)];
    forall n | n in Unlink(nodes, r)
      ensures Owned(files', n)
    {
      assert Owned(files, n);
      var g :| g in files && files[g] == File(Open, n);
      assert files'[g] == File(Open, n);
    }
  }

  /* ----- the files ----- */

  lemma FilePut(core: Core, files: map<nat, File>, f: nat, file: File)
    requires FilesHold(core, files) && FilesApart(files) && Holding(core, file.node)
    requires forall g :: g in files && g != f ==> files[g].node.ref != file.node.ref
    ensures FilesHold(core, files[f := file]) && FilesApart(files[f := file])
  {
    hide Holding;
    var files' := files[f := file];
    forall g, h | g in files' && h in files' && g != h
      ensures files'[g].node.ref != files'[h].node.ref
    {
    }
  }

  lemma OpenRequestKeeps(s: Sys, f: nat, minor: nat, live: bool, hook: int)
    requires Inv(s) && f !in s.files
    ensures Inv(Next(s, OpenRequest(f, minor, live, hook)))
  {
    hide NodesMatch, Holding, HostName, K.Request, DistinctIds;
    var (core, reply) := K.Request(s.core, HostName(HostOf(minor)), ChanOf(minor), live, hook);
    RequestKeeps(s.core, HostOf(minor), ChanOf(minor), live, hook);
    CoreStep(s, core);
    if reply.Ok? {
      var file := File(Pending, Node(reply.ref, HostOf(minor), ChanOf(minor), 0));
      FilePut(core, s.files, f, file);
      UnpublishedFile(s.nodes, s.files, s.files[f := file], f);
    }
  }

  lemma ReleaseKeeps(s: Sys, f: nat)
    requires Inv(s) && f in s.files && s.files[f].stage != Open
    ensures Inv(s.(core := Release(s.core, RefOf(s, f)), files := s.files - {f}))
  {
    hide NodesMatch, Holding, DistinctIds, Release;
    ReleaseOthers(s.core, RefOf(s, f));
    UnpublishedFile(s.nodes, s.files, s.files - {f}, f);
  }

  lemma PublishKeeps(s: Sys, f: nat, tgid: int)
    requires Inv(s) && InStage(s, f, Pending)
    ensures Inv(Next(s, OpenPublish(f, tgid)))
  {
    hide NodesMatch, Answers, HostName, DistinctIds, Requested;
    var n := s.files[f].node.(tgid := tgid);
    PublishedNode(s.nodes, s.files, f, n);
    FilePut(s.core, s.files, f, File(Open, n));
  }

  lemma UnlinkKeeps(s: Sys, f: nat)
    requires Inv(s) && InStage(s, f, Open)
    ensures Inv(Next(s, CloseUnlink(f)))
  {
    hide NodesMatch, Answers, HostName, DistinctIds, Requested;
    UnlinkedNode(s.nodes, s.files, f);
    FilePut(s.core, s.files, f, s.files[f].(stage := Closing));
  }

  lemma InvIds(s: Sys)
    requires Inv(s)
    ensures DistinctIds(s.core)
  {
  }

  /** Every act of every file keeps the invariant. */
  lemma StepKeepsInv(s: Sys, a: Act)
    requires Inv(s)
    ensures Inv(Next(s, a))
  {
    hide R.Apply, D.Interrupt, D.Restore, D.Save, K.Request, K.Register, K.Unregister, Release;
    hide Inv, CoreKeeps, DistinctIds, OnChannel, OnDevice, HostName, Unlink;
    InvIds(s);
    match a
    case Register(d, regs) =>
      RegisterKeeps(s.core, d, regs);
      CoreStep(s, Next(s, a).core);
    case Unregister(id) =>
      UnregisterKeeps(s.core, id);
      CoreStep(s, Next(s, a).core);
    case OpenRequest(f, minor, live, hook) =>
      if f !in s.files {
        OpenRequestKeeps(s, f, minor, live, hook);
      }
    case OpenNoMemory(f) =>
      if InStage(s, f, Pending) {
        ReleaseKeeps(s, f);
      }
    case OpenPublish(f, tgid) =>
      if InStage(s, f, Pending) {
        PublishKeeps(s, f, tgid);
      }
    case CloseUnlink(f) =>
      if InStage(s, f, Open) {
        UnlinkKeeps(s, f);
      }
    case CloseRelease(f) =>
      if InStage(s, f, Closing) {
        ReleaseKeeps(s, f);
      }
    case Configure(f, c) =>
      if f in s.files {
        OnChannelKeeps(s.core, RefOf(s, f), R.Configure(c));
        CoreStep(s, Next(s, a).core);
      }
    case Handle(f, h, data) =>
      if f in s.files {
        OnChannelKeeps(s.core, RefOf(s, f), R.Handle(h, data));
        CoreStep(s, Next(s, a).core);
      }
    case Interrupt(id, status) =>
      if Registered(s.core, id) {
        InterruptKeeps(s.core, id, status);
        CoreStep(s, Next(s, a).core);
      }
    case Work(r, answer) =>
      OnChannelKeeps(s.core, r, R.Work(answer));
      CoreStep(s, Next(s, a).core);
    case Suspend(id) =>
      AreaStep(s, Next(s, a).area);
    case Resume(id) =>
      if Fits(s, id) {
        ResumeKeeps(s.core, id, s.area);
        CoreStep(s, Next(s, a).core);
      }
    case PowerLoss(id, lost) =>
      if CanLose(s.core, id, lost) {
        PowerLossKeeps(s.core, id, lost);
        CoreStep(s, Next(s, a).core);
      }
  }
}
