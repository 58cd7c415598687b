/** The interrupt of a controller and its suspend and resume (driver/_pwm.c:274-369), as values. */
module Device {
  import opened Bits
  import opened Words
  import opened Channel
  import opened Runs
  import opened Refinement
  import opened Core

  /** PWM_CHAN_MAX: the channels a controller can have. */
  const CHAN_MAX := 4

  /* ----- interrupt ----- */

  const TRG_INT0: bv32 := 0x100

  /** The trigger bits and their masks, which the interrupt writes back. */
  const INT_ACK_MSK: bv32 := 0xFF00

  /** Whether an interrupt status concerns channel `i`: bit 8 + i. */
  predicate Hit(status: bv32, i: nat) {
    match i
    case 0 => Has(status, 0x100)
    case 1 => Has(status, 0x200)
    case 2 => Has(status, 0x400)
    case 3 => Has(status, 0x800)
    case _ => false
  }

  function Halved(status: bv32): bv32 {
    status >> 1
  }

  /** The status after `i` turns of the loop. */
  function Shifted(status: bv32, i: nat): bv32
    requires i <= CHAN_MAX
  {
    match i
    case 0 => status
    case 1 => Halved(status)
    case 2 => Halved(Halved(status))
    case 3 => Halved(Halved(Halved(status)))
    case _ => Halved(Halved(Halved(Halved(status))))
  }

  /** Bit 8 of the status after `i` shifts is bit 8 + i of the status. */
  lemma ShiftedHit(status: bv32, i: nat)
    requires i < CHAN_MAX
    ensures Has(Shifted(status, i), TRG_INT0) <==> Hit(status, i)
  {
    hide Has, Halved;
    ShiftedBits(status);
  }

  lemma ShiftedNext(status: bv32, i: nat)
    requires i < CHAN_MAX
    ensures Shifted(status, i + 1) == Halved(Shifted(status, i))
  {
  }

  /** Bit 8 + i of a status, counted from the least. */
  predicate TriggerBit(status: bv32, i: nat)
    requires i < CHAN_MAX
  {
    (status >> (8 + i)) & 1 == 1
  }

  /** A channel is concerned by its trigger bit. */
  lemma HitIsBit(status: bv32, i: nat)
    requires i < CHAN_MAX
    ensures Hit(status, i) <==> TriggerBit(status, i)
  {
    match i
    case 0 => assert Has(status, 0x100) <==> (status >> 8) & 1 == 1;
    case 1 => assert Has(status, 0x200) <==> (status >> 9) & 1 == 1;
    case 2 => assert Has(status, 0x400) <==> (status >> 10) & 1 == 1;
    case 3 => assert Has(status, 0x800) <==> (status >> 11) & 1 == 1;
  }

  /** The interrupt writes back the trigger bits and their masks, bits 8 to 15, and clears the others;
      of the controller nothing but this register and the channels' own state changes. */
  lemma InterruptAcks(d: Dev, status: bv32)
    ensures var z := Interrupt(d, status);
            && z.intTrg & 0xFF00 == status & 0xFF00 && z.intTrg & 0xFFFF_00FF == 0
            && z == d.(intTrg := z.intTrg, chans := z.chans) && |z.chans| == |d.chans|
  {
  }

  lemma NoneHandled(status: bv32)
    ensures !Handled(0, status) && Shifted(status, 0) == status
  {
  }

  lemma HandledNext(status: bv32, i: nat)
    ensures Handled(i + 1, status) <==> Handled(i, status) || Hit(status, i)
  {
  }

  lemma ShiftedBits(status: bv32)
    ensures Has(Halved(status), TRG_INT0) <==> Has(status, 0x200)
    ensures Has(Halved(Halved(status)), TRG_INT0) <==> Has(status, 0x400)
    ensures Has(Halved(Halved(Halved(status))), TRG_INT0) <==> Has(status, 0x800)
  {
  }

  /** The first `n` channels triggered as the status says, the others left alone. */
  function TriggeredUpTo(chans: seq<Chan>, status: bv32, n: nat): (r: seq<Chan>)
    ensures |r| == |chans|
  {
    seq(|chans|, i requires 0 <= i < |chans| => if i < n && Hit(status, i) then Triggered(chans[i]) else chans[i])
  }

  function Interrupt(d: Dev, status: bv32): Dev {
    d.(chans := TriggeredUpTo(d.chans, status, |d.chans|), intTrg := status & INT_ACK_MSK)
  }

  lemma TriggeredNone(chans: seq<Chan>, status: bv32)
    ensures TriggeredUpTo(chans, status, 0) == chans
  {
  }

  lemma TriggeredNext(chans: seq<Chan>, status: bv32, i: nat)
    requires i < |chans|
    ensures TriggeredUpTo(chans, status, i)[i] == chans[i]
    ensures TriggeredUpTo(chans, status, i + 1)
            == if Hit(status, i) then TriggeredUpTo(chans, status, i)[i := Triggered(chans[i])]
               else TriggeredUpTo(chans, status, i)
  {
  }

  /** IRQ_HANDLED or IRQ_NONE. */
  predicate Handled(nchan: nat, status: bv32) {
    exists i :: 0 <= i < nchan && Hit(status, i)
  }

  /** A hit channel is completed, its callback is called once if there is one, and stays, and it is
      stopped exactly if a stop was pending; nothing else changes. */
  lemma TriggeredOutcome(c: Chan)
    ensures var z := Triggered(c);
            && z.completed && !z.stopPending
            && z.callbacks == c.callbacks + (if c.callback then 1 else 0)
            && Fields(z.regs.ctrl) == (if c.stopPending then Fields(c.regs.ctrl).(enabled := false, output := false)
                                       else Fields(c.regs.ctrl))
            && z == c.(callbacks := z.callbacks, stopPending := false, completed := true,
                       regs := c.regs.(ctrl := z.regs.ctrl))
            && (Refines(c) ==> Refines(z))
  {
    hide Refines, Fields, WithRun;
    RunWritten(c.regs.ctrl, false);
    if Refines(c) {
      StepKeepsRefinement(c, Trigger);
    }
  }

  /* ----- suspend and resume ----- */

  /** The static save area; it is shared by all controllers (driver/_pwm.c:312). */
  datatype Image = Image(chan: seq<Regs>, ddsRate: Word, clkSrc: Word, intTrg: bv32)

  /** The save area as the kernel zeroes it. */
  const EMPTY_AREA := Image([NO_REGS, NO_REGS, NO_REGS, NO_REGS], 0, 0, 0)

  const NO_REGS := Regs(0, 0, 0, 0, 0)

  /** The area as the kernel zeroes it has room for every controller of at most four channels. */
  lemma AreaRoomy(d: Dev)
    ensures Roomy(EMPTY_AREA, d) <==> |d.chans| <= 4
    ensures forall c :: 0 <= c < |EMPTY_AREA.chan| ==> EMPTY_AREA.chan[c] == Regs(0, 0, 0, 0, 0)
    ensures EMPTY_AREA.ddsRate == 0 && EMPTY_AREA.clkSrc == 0 && EMPTY_AREA.intTrg == 0
  {
  }

  predicate Roomy(image: Image, d: Dev) {
    |d.chans| <= |image.chan|
  }

  function Save(d: Dev, image: Image): (r: Image)
    requires Roomy(image, d)
    ensures |r.chan| == |image.chan|
  {
    Image(seq(|image.chan|, i requires 0 <= i < |image.chan| => if i < |d.chans| then d.chans[i].regs
        else image.chan[i]),
          d.ddsRate, d.clkSrc, d.intTrg)
  }

  /** The first `n` channels with their registers from the image. */
  function RestoredUpTo(chans: seq<Chan>, regs: seq<Regs>, n: nat): (r: seq<Chan>)
    requires |chans| <= |regs|
    ensures |r| == |chans|
  {
    seq(|chans|, i requires 0 <= i < |chans| => if i < n then chans[i].(regs := regs[i]) else chans[i])
  }

  lemma RestoredNone(chans: seq<Chan>, regs: seq<Regs>)
    requires |chans| <= |regs|
    ensures RestoredUpTo(chans, regs, 0) == chans
  {
  }

  lemma RestoredNext(chans: seq<Chan>, regs: seq<Regs>, i: nat)
    requires i < |chans| <= |regs|
    ensures RestoredUpTo(chans, regs, i)[i] == chans[i]
    ensures RestoredUpTo(chans, regs, i + 1) == RestoredUpTo(chans, regs, i)[i := chans[i].(regs := regs[i])]
  {
  }

  function Restore(d: Dev, image: Image): (r: Dev)
    requires Roomy(image, d)
    ensures |r.chans| == |d.chans|
  {
    d.(chans := RestoredUpTo(d.chans, image.chan, |d.chans|),
       ddsRate := image.ddsRate, clkSrc := image.clkSrc, intTrg := image.intTrg & 0xF0F0)
  }

  /** Two views of the same software state: only register contents differ. */
  predicate SameSoftware(d: Dev, e: Dev) {
    && d.id == e.id && d.busId == e.busId && d.owner == e.owner && d.clk == e.clk
    && |d.chans| == |e.chans|
    && forall i :: 0 <= i < |d.chans| ==> d.chans[i].(regs := e.chans[i].regs) == e.chans[i]
  }

  /** What is saved of the shared registers is what they held. */
  lemma SavesShared(d: Dev, image: Image)
    requires Roomy(image, d)
    ensures var z := Save(d, image);
            z.ddsRate == d.ddsRate && z.clkSrc == d.clkSrc && z.intTrg == d.intTrg
  {
  }

  /** Whatever power loss leaves in the registers, a resume after a suspend gives every channel
      back as it was, and with it every invariant of its registers; of the interrupt register the
      masks and selections survive and the trigger bits do not. */
  lemma SuspendResume(d: Dev, lost: Dev, image: Image)
    requires Roomy(image, d) && SameSoftware(d, lost)
    ensures Restore(lost, Save(d, image)) == d.(intTrg := d.intTrg & 0xF0F0)
  {
  }

  /** The registers that a second controller's suspend leaves in the save area are as good as the
      first one's own: those of the channels both have, and the shared ones as far as a resume
      writes them. */
  predicate SameSaved(d: Dev, other: Dev) {
    && (forall i :: 0 <= i < |d.chans| && i < |other.chans| ==> other.chans[i].regs == d.chans[i].regs)
    && other.ddsRate == d.ddsRate && other.clkSrc == d.clkSrc
    && other.intTrg & 0xF0F0 == d.intTrg & 0xF0F0
  }

  lemma SharedChannels(d: Dev, lost: Dev, other: Dev, image: Image)
    requires Roomy(image, d) && Roomy(image, other) && SameSoftware(d, lost)
    ensures Restore(lost, Save(other, Save(d, image))).chans == d.chans
            <==> forall i :: 0 <= i < |d.chans| && i < |other.chans| ==> other.chans[i].regs == d.chans[i].regs
  {
    var z := Restore(lost, Save(other, Save(d, image)));
    assert forall i :: 0 <= i < |d.chans| ==>
                         z.chans[i].regs == if i < |other.chans| then other.chans[i].regs else d.chans[i].regs;
    assert forall i :: 0 <= i < |d.chans| ==> (z.chans[i] == d.chans[i] <==> z.chans[i].regs == d.chans[i].regs);
  }

  lemma SharedRest(d: Dev, lost: Dev, other: Dev, image: Image)
    requires Roomy(image, d) && Roomy(image, other) && SameSoftware(d, lost)
    ensures var z := Restore(lost, Save(other, Save(d, image)));
            z == d.(chans := z.chans, ddsRate := other.ddsRate, clkSrc := other.clkSrc, intTrg := other.intTrg & 0xF0F0)
  {
    hide RestoredUpTo;
  }

  /** With two controllers the shared save area is not enough: when a second one suspends in
      between, resuming the first gives it back what its own suspend alone would have (see
      `SuspendResume`) exactly if the second one saved the same. */
  lemma SharedSaveArea(d: Dev, lost: Dev, other: Dev, image: Image)
    requires Roomy(image, d) && Roomy(image, other) && SameSoftware(d, lost)
    ensures Restore(lost, Save(other, Save(d, image))) == d.(intTrg := d.intTrg & 0xF0F0) <==> SameSaved(d, other)
  {
    hide Restore, Save;
    SharedChannels(d, lost, other, image);
    SharedRest(d, lost, other, image);
  }
}
