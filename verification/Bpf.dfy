/**
 The packet filters that decide which multicast frames reach a card: the
 classic BPF programs of bpdu.c and the part of the BPF machine they use.
 */
module Bpf {

  /** One instruction, with the fields of struct sock_filter. */
  datatype Insn = Insn(code: nat, jt: nat, jf: nat, k: nat)

  const LD_WORD := 0x20
  const LD_HALF := 0x28
  const JEQ := 0x15
  const RET := 0x06

  type Frame = f: seq<nat> | forall i :: 0 <= i < |f| ==> f[i] < 256 witness []

  function Word(f: Frame, i: nat): nat
    requires i + 4 <= |f|
  {
    ((f[i] * 256 + f[i + 1]) * 256 + f[i + 2]) * 256 + f[i + 3]
  }

  function Half(f: Frame, i: nat): nat
    requires i + 2 <= |f|
  {
    f[i] * 256 + f[i + 1]
  }

  /** Runs the program from instruction pc on; 0 means the frame is dropped. A
      load outside the frame, like an unknown instruction, drops it. */
  function Run(p: seq<Insn>, f: Frame, pc: nat, acc: nat): nat
    decreases |p| - pc
  {
    if pc >= |p| then 0
    else
      var i := p[pc];
      if i.code == RET then i.k
      else if i.code == JEQ then Run(p, f, pc + 1 + (if acc == i.k then i.jt else i.jf), acc)
      else if i.code == LD_WORD && i.k + 4 <= |f| then Run(p, f, pc + 1, Word(f, i.k))
      else if i.code == LD_HALF && i.k + 2 <= |f| then Run(p, f, pc + 1, Half(f, i.k))
      else 0
  }

  predicate Passes(p: seq<Insn>, f: Frame) {
    Run(p, f, 0, 0) > 0
  }

  const STP_FILTER3 := [
    Insn(0x20, 0, 0, 0x00000002),
    Insn(0x15, 0, 3, 0xb5000001),
    Insn(0x28, 0, 0, 0x00000000),
    Insn(0x15, 0, 1, 0x00000110),
    Insn(0x6, 0, 0, 0x0000ffff),
    Insn(0x6, 0, 0, 0x00000000)]

  const STP_FILTER4 := [
    Insn(0x20, 0, 0, 0x00000002),
    Insn(0x15, 0, 3, 0xb5000002),
    Insn(0x28, 0, 0, 0x00000000),
    Insn(0x15, 0, 1, 0x00000110),
    Insn(0x6, 0, 0, 0x0000ffff),
    Insn(0x6, 0, 0, 0x00000000)]

  /** A filter of this shape lets exactly the frames of one address through. */
  lemma FilterSteps(p: seq<Insn>, f: Frame, low: nat)
    requires |f| >= 6 && |p| == 6
    requires p[0] == Insn(0x20, 0, 0, 2) && p[1] == Insn(0x15, 0, 3, low)
    requires p[2] == Insn(0x28, 0, 0, 0) && p[3] == Insn(0x15, 0, 1, 0x110)
    requires p[4] == Insn(0x6, 0, 0, 0xffff) && p[5] == Insn(0x6, 0, 0, 0)
    ensures Passes(p, f) <==> Word(f, 2) == low && Half(f, 0) == 0x110
  {
    assert Run(p, f, 5, Word(f, 2)) == 0;
    assert Run(p, f, 4, Half(f, 0)) == 0xffff;
    assert Run(p, f, 5, Half(f, 0)) == 0;
    assert Run(p, f, 2, Word(f, 2)) == Run(p, f, 3, Half(f, 0));
    assert Run(p, f, 0, 0) == Run(p, f, 1, Word(f, 2));
  }

  lemma Filter3Passes(f: Frame)
    requires |f| >= 6
    ensures Passes(STP_FILTER3, f) <==> f[..6] == [0x01, 0x10, 0xb5, 0x00, 0x00, 0x01]
  {
    FilterSteps(STP_FILTER3, f, 0xb5000001);
  }

  lemma Filter4Passes(f: Frame)
    requires |f| >= 6
    ensures Passes(STP_FILTER4, f) <==> f[..6] == [0x01, 0x10, 0xb5, 0x00, 0x00, 0x02]
  {
    FilterSteps(STP_FILTER4, f, 0xb5000002);
  }
}
