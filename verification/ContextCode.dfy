/** The two assembly routines instruction by instruction, and BufferContext on
    top of them, in terms of the frames of module Context. */
module ContextCode {
  import opened Context

  /** The registers that the routines use, and the words of memory. */
  class Processor {
    var rsp: int
    var rbx: int
    var rbp: int
    var r11: int
    var r12: int
    var r13: int
    var r14: int
    var r15: int
    var rax: int
    var rip: int
    var mem: Memory

    function Kept(): (r: Regs)
      reads this
    {
      Regs(rsp, rbx, rbp, r12, r13, r14, r15, rip)
    }

    method PushQ(v: int)
      modifies this`rsp, this`mem
      ensures rsp == old(rsp) - 8 && mem == old(mem)[rsp := v]
    {
      rsp := rsp - 8;
      mem := mem[rsp := v];
    }

    method PopQ() returns (v: int)
      modifies this`rsp
      ensures rsp == old(rsp) + 8 && v == Load(mem, old(rsp))
    {
      v := Load(mem, rsp);
      rsp := rsp + 8;
    }

    method RetQ()
      modifies this`rsp, this`rip
      ensures rsp == old(rsp) + 8 && rip == Load(mem, old(rsp))
    {
      rip := PopQ();
    }

    method PushSix(a: int, b: int, c: int, d: int, e: int, f: int)
      modifies this`rsp, this`mem
      ensures rsp == old(rsp) - 48
      ensures mem == Six(old(mem), old(rsp), a, b, c, d, e, f)
    {
      PushQ(a);
      PushQ(b);
      PushQ(c);
      PushQ(d);
      PushQ(e);
      PushQ(f);
    }

    method PopSix()
      modifies this`rsp, this`rbp, this`rbx, this`r12, this`r13, this`r14, this`r15
      ensures Kept() == Restore(mem, old(rsp)).(rsp := old(rsp) + 48, rip := old(rip))
    {
      rbp := PopQ();
      rbx := PopQ();
      r12 := PopQ();
      r13 := PopQ();
      r14 := PopQ();
      r15 := PopQ();
    }

    /** `buffer`, `callRunner` and `runner` arrive in rdi, rsi and rdx; the return
        address is on the stack. */
    method PrepareContextInBuffer(buffer: int, callRunner: int, runner: int)
      requires rsp % 8 == 0
      requires rsp < Top(buffer) - 56 || rsp > Top(buffer) + 8
      modifies this
      ensures mem == FirstFrame(old(mem), buffer, callRunner, runner)
      ensures rax == Top(buffer) - 56
      ensures Kept() == old(Kept()).(rsp := old(rsp) + 8, rip := Load(old(mem), old(rsp)))
    {
      hide Six, Load;
      FirstFrameStays(mem, buffer, callRunner, runner, rsp);
      r11 := rsp;
      rsp := buffer;
      rsp := rsp - 64;
      rsp := rsp - rsp % 16;
      rsp := rsp + 8;
      mem := mem[rsp + 8 := runner];
      PushQ(callRunner);
      PushSix(0, 0, 0, 0, 0, 0);
      rax := rsp;
      rsp := r11;
      RetQ();
    }
  }

  lemma PushedElsewhere(m: Memory, t: int, v: int, a: int)
    requires a != t
    ensures Load(m[t := v], a) == Load(m, a)
  {
  }

  lemma PushedThere(m: Memory, t: int, v: int)
    ensures Load(m[t := v], t) == v
  {
  }

  /** One object per context: where its stack pointer is while it is away. */
  class BufferContext {
    var rsp: int

    constructor ()
      ensures rsp == 0
    {
      rsp := 0;
    }

    /** Calls PrepareContextInBuffer with the address of the last byte. */
    method Setup(cpu: Processor, base: int, size: nat, callRunner: int, runner: int, back: int)
      requires Roomy(Stack(base, size)) && cpu.rsp % 8 == 0
      requires cpu.rsp <= base || base + size <= cpu.rsp - 8
      modifies this, cpu
      ensures rsp == Top(base + size - 1) - 56
      ensures Restore(cpu.mem, rsp) == Regs(Top(base + size - 1), 0, 0, 0, 0, 0, 0, callRunner)
      ensures (rsp + 64) % 16 == 0 && Load(cpu.mem, rsp + 64) == runner
      ensures Inside(rsp, base, size) && Inside(rsp + 64, base, size)
      ensures cpu.Kept() == old(cpu.Kept()).(rip := back)
      ensures forall a :: a != old(cpu.rsp) - 8 && !Inside(a, base, size) ==> Load(cpu.mem, a) == Load(old(cpu.mem), a)
    {
      hide FirstFrame, Load, Top;
      TopFits(Stack(base, size));
      cpu.PushQ(back);
      ghost var m := cpu.mem;
      cpu.PrepareContextInBuffer(base + size - 1, callRunner, runner);
      rsp := cpu.rax;
      FirstFrameRestores(m, base + size - 1, callRunner, runner);
      forall a | a != old(cpu.rsp) - 8 && !Inside(a, base, size) ensures Load(cpu.mem, a) == Load(old(cpu.mem), a) {
        PushedElsewhere(old(cpu.mem), old(cpu.rsp) - 8, back, a);
        FirstFrameStays(m, base + size - 1, callRunner, runner, a);
      }
      PushedThere(old(cpu.mem), old(cpu.rsp) - 8, back);
    }

    /** SwitchBufferContext, called with the addresses of the two stack pointers
        and `back` as the return address. */
    method SwitchTo(target: BufferContext, cpu: Processor, back: int)
      requires this != target ==> target.rsp > cpu.rsp || target.rsp + 56 <= cpu.rsp - 56
      modifies this, cpu
      ensures var r := old(cpu.Kept()).(rip := back);
        && rsp == r.rsp - 56 && cpu.mem == Frame(old(cpu.mem), r) && Restore(cpu.mem, rsp) == r
        && cpu.Kept() == (if target == this then r else Restore(old(cpu.mem), old(target.rsp)))
    {
      hide Six, Load;
      cpu.PushQ(back);
      cpu.PushSix(cpu.r15, cpu.r14, cpu.r13, cpu.r12, cpu.rbx, cpu.rbp);
      rsp := cpu.rsp;
      cpu.rsp := target.rsp;
      cpu.PopSix();
      cpu.RetQ();
      if target != this { FrameApart(old(cpu.mem), old(cpu.Kept()).(rip := back), old(target.rsp)); }
      FrameRestores(old(cpu.mem), old(cpu.Kept()).(rip := back));
    }
  }
}
