/**
 * Counting compiled instructions of a runtime program: MR-job instructions,
 * CP instructions, or both, over every instruction list of every block,
 * including loop predicates and FOR bounds.
 */
module InstructionCount {
  import opened ProgramTree

  // ---------------------------------------------------------------------
  // Specification: counts as recursive functions
  // ---------------------------------------------------------------------

  /** What one instruction adds to a count that selects MR jobs (mr) and/or CP instructions (cp). */
  function Weight(inst: Instruction, mr: bool, cp: bool): nat
  {
    (if mr && inst.MRJob? then 1 else 0) + (if cp && inst.CP? then 1 else 0)
  }

  /** The count over one instruction list. No instruction is counted twice, and selecting nothing counts nothing. */
  function InstCount(insts: seq<Instruction>, mr: bool, cp: bool): (r: nat)
    ensures r <= |insts|
    ensures !mr && !cp ==> r == 0
  {
    if insts == [] then 0
    else InstCount(insts[..|insts| - 1], mr, cp) + Weight(insts[|insts| - 1], mr, cp)
  }

  /** The count of one block: its own instruction lists plus all of its child blocks. */
  function BlockCount(b: Block, mr: bool, cp: bool): nat
    decreases b
  {
    match b
    case While(pred, kids) => InstCount(pred, mr, cp) + BlocksCount(kids, mr, cp)
    case If(pred, thenKids, elseKids) =>
      InstCount(pred, mr, cp) + BlocksCount(thenKids, mr, cp) + BlocksCount(elseKids, mr, cp)
    case For(_, fromInsts, toInsts, incrInsts, kids) =>
      InstCount(fromInsts, mr, cp) + InstCount(toInsts, mr, cp) + InstCount(incrInsts, mr, cp)
        + BlocksCount(kids, mr, cp)
    case Function(_, kids) => BlocksCount(kids, mr, cp)
    case CV(kids) => BlocksCount(kids, mr, cp)
    case Generic(insts, _) => InstCount(insts, mr, cp)
  }

  function BlocksCount(bs: seq<Block>, mr: bool, cp: bool): nat
    decreases bs
  {
    if bs == [] then 0
    else BlocksCount(bs[..|bs| - 1], mr, cp) + BlockCount(bs[|bs| - 1], mr, cp)
  }

  /** The count over the function blocks of a program's function map. */
  function FunctionsCount(fs: seq<FunctionEntry>, mr: bool, cp: bool): nat
  {
    if fs == [] then 0
    else FunctionsCount(fs[..|fs| - 1], mr, cp) + BlockCount(fs[|fs| - 1].AsBlock(), mr, cp)
  }

  /** The count of a program: all function blocks, then all main-program blocks. */
  function ProgramCount(p: Program, mr: bool, cp: bool): nat
  {
    FunctionsCount(p.functions, mr, cp) + BlocksCount(p.main, mr, cp)
  }

  // ---------------------------------------------------------------------
  // Reference definitions: every instruction a block holds, in walk order,
  // and the positions a count selects
  // ---------------------------------------------------------------------

  function BlockInstructions(b: Block): seq<Instruction>
    decreases b
  {
    match b
    case While(pred, kids) => pred + BlocksInstructions(kids)
    case If(pred, thenKids, elseKids) =>
      pred + BlocksInstructions(thenKids) + BlocksInstructions(elseKids)
    case For(_, fromInsts, toInsts, incrInsts, kids) =>
      fromInsts + toInsts + incrInsts + BlocksInstructions(kids)
    case Function(_, kids) => BlocksInstructions(kids)
    case CV(kids) => BlocksInstructions(kids)
    case Generic(insts, _) => insts
  }

  function BlocksInstructions(bs: seq<Block>): seq<Instruction>
    decreases bs
  {
    if bs == [] then []
    else BlocksInstructions(bs[..|bs| - 1]) + BlockInstructions(bs[|bs| - 1])
  }

  function FunctionsInstructions(fs: seq<FunctionEntry>): seq<Instruction>
  {
    if fs == [] then []
    else FunctionsInstructions(fs[..|fs| - 1]) + BlockInstructions(fs[|fs| - 1].AsBlock())
  }

  function ProgramInstructions(p: Program): seq<Instruction>
  {
    FunctionsInstructions(p.functions) + BlocksInstructions(p.main)
  }

  /** The positions of a list holding an instruction of a selected kind. */
  ghost function Selected(insts: seq<Instruction>, mr: bool, cp: bool): set<int>
  {
    set i | 0 <= i < |insts| && ((mr && insts[i].MRJob?) || (cp && insts[i].CP?))
  }

  // ---------------------------------------------------------------------
  // Lemmas
  // ---------------------------------------------------------------------

  /** The list count is exactly the number of positions holding a selected kind of instruction. */
  lemma {:induction false} InstCountIsSelected(insts: seq<Instruction>, mr: bool, cp: bool)
    ensures InstCount(insts, mr, cp) == |Selected(insts, mr, cp)|
  {
    if insts != [] {
      var n := |insts| - 1;
      var front := insts[..n];
      InstCountIsSelected(front, mr, cp);
      var last := if (mr && insts[n].MRJob?) || (cp && insts[n].CP?) then {n} else {};
      forall i ensures i in Selected(insts, mr, cp) <==> i in Selected(front, mr, cp) + last {
        if 0 <= i < n {
          assert insts[i] == front[i];
        }
      }
      assert Selected(insts, mr, cp) == Selected(front, mr, cp) + last;
      assert n !in Selected(front, mr, cp);
    }
  }

  /** Counting MR jobs only counts exactly the MR-job instructions; CP only, the CP instructions. */
  lemma InstCountByKind(insts: seq<Instruction>)
    ensures InstCount(insts, true, false) == |set i | 0 <= i < |insts| && insts[i].MRJob?|
    ensures InstCount(insts, false, true) == |set i | 0 <= i < |insts| && insts[i].CP?|
  {
    InstCountIsSelected(insts, true, false);
    InstCountIsSelected(insts, false, true);
    assert Selected(insts, true, false) == set i | 0 <= i < |insts| && insts[i].MRJob?;
    assert Selected(insts, false, true) == set i | 0 <= i < |insts| && insts[i].CP?;
  }

  /** The count over two lists placed one after the other is the sum of their counts. */
  lemma {:induction false} InstCountAppend(a: seq<Instruction>, b: seq<Instruction>, mr: bool, cp: bool)
    ensures InstCount(a + b, mr, cp) == InstCount(a, mr, cp) + InstCount(b, mr, cp)
  {
    if b == [] {
      assert a + b == a;
    } else {
      InstCountAppend(a, b[..|b| - 1], mr, cp);
      assert (a + b)[..|a + b| - 1] == a + b[..|b| - 1];
    }
  }

  /** Counting both kinds at once is counting MR jobs plus counting CP instructions. */
  lemma {:induction false} InstCountSplit(insts: seq<Instruction>)
    ensures InstCount(insts, true, true) == InstCount(insts, true, false) + InstCount(insts, false, true)
  {
    if insts != [] {
      InstCountSplit(insts[..|insts| - 1]);
    }
  }

  /** A block's count is the count over every instruction it holds, at any depth. */
  lemma {:induction false} BlockCountIsFlatCount(b: Block, mr: bool, cp: bool)
    ensures BlockCount(b, mr, cp) == InstCount(BlockInstructions(b), mr, cp)
    decreases b
  {
    match b
    case While(pred, kids) =>
      BlocksCountIsFlatCount(kids, mr, cp);
      InstCountAppend(pred, BlocksInstructions(kids), mr, cp);
    case If(pred, thenKids, elseKids) =>
      BlocksCountIsFlatCount(thenKids, mr, cp);
      BlocksCountIsFlatCount(elseKids, mr, cp);
      InstCountAppend(pred, BlocksInstructions(thenKids), mr, cp);
      InstCountAppend(pred + BlocksInstructions(thenKids), BlocksInstructions(elseKids), mr, cp);
    case For(_, fromInsts, toInsts, incrInsts, kids) =>
      BlocksCountIsFlatCount(kids, mr, cp);
      InstCountAppend(fromInsts, toInsts, mr, cp);
      InstCountAppend(fromInsts + toInsts, incrInsts, mr, cp);
      InstCountAppend(fromInsts + toInsts + incrInsts, BlocksInstructions(kids), mr, cp);
    case Function(_, kids) =>
      BlocksCountIsFlatCount(kids, mr, cp);
    case CV(kids) =>
      BlocksCountIsFlatCount(kids, mr, cp);
    case Generic(insts, _) =>
  }

  lemma {:induction false} BlocksCountIsFlatCount(bs: seq<Block>, mr: bool, cp: bool)
    ensures BlocksCount(bs, mr, cp) == InstCount(BlocksInstructions(bs), mr, cp)
    decreases bs
  {
    if bs != [] {
      var n := |bs| - 1;
      BlocksCountIsFlatCount(bs[..n], mr, cp);
      BlockCountIsFlatCount(bs[n], mr, cp);
      InstCountAppend(BlocksInstructions(bs[..n]), BlockInstructions(bs[n]), mr, cp);
    }
  }

  lemma {:induction false} FunctionsCountIsFlatCount(fs: seq<FunctionEntry>, mr: bool, cp: bool)
    ensures FunctionsCount(fs, mr, cp) == InstCount(FunctionsInstructions(fs), mr, cp)
  {
    if fs != [] {
      var n := |fs| - 1;
      FunctionsCountIsFlatCount(fs[..n], mr, cp);
      BlockCountIsFlatCount(fs[n].AsBlock(), mr, cp);
      InstCountAppend(FunctionsInstructions(fs[..n]), BlockInstructions(fs[n].AsBlock()), mr, cp);
    }
  }

  /** A program's count is the count over every instruction of every function and main block. */
  lemma ProgramCountIsFlatCount(p: Program, mr: bool, cp: bool)
    ensures ProgramCount(p, mr, cp) == InstCount(ProgramInstructions(p), mr, cp)
  {
    FunctionsCountIsFlatCount(p.functions, mr, cp);
    BlocksCountIsFlatCount(p.main, mr, cp);
    InstCountAppend(FunctionsInstructions(p.functions), BlocksInstructions(p.main), mr, cp);
  }

  /** For every block, count(MR and CP) = count(MR only) + count(CP only). */
  lemma BlockCountSplit(b: Block)
    ensures BlockCount(b, true, true) == BlockCount(b, true, false) + BlockCount(b, false, true)
  {
    BlockCountIsFlatCount(b, true, true);
    BlockCountIsFlatCount(b, true, false);
    BlockCountIsFlatCount(b, false, true);
    InstCountSplit(BlockInstructions(b));
  }

  /** For every program, count(MR and CP) = count(MR only) + count(CP only). */
  lemma ProgramCountSplit(p: Program)
    ensures ProgramCount(p, true, true) == ProgramCount(p, true, false) + ProgramCount(p, false, true)
  {
    ProgramCountIsFlatCount(p, true, true);
    ProgramCountIsFlatCount(p, true, false);
    ProgramCountIsFlatCount(p, false, true);
    InstCountSplit(ProgramInstructions(p));
  }

  /** A block's count never exceeds the number of instructions it holds; selecting nothing counts nothing. */
  lemma BlockCountBounds(b: Block, mr: bool, cp: bool)
    ensures BlockCount(b, mr, cp) <= |BlockInstructions(b)|
    ensures !mr && !cp ==> BlockCount(b, mr, cp) == 0
  {
    BlockCountIsFlatCount(b, mr, cp);
  }

  lemma {:induction false} FunctionsCountAppend(a: seq<FunctionEntry>, b: seq<FunctionEntry>, mr: bool, cp: bool)
    ensures FunctionsCount(a + b, mr, cp) == FunctionsCount(a, mr, cp) + FunctionsCount(b, mr, cp)
  {
    if b == [] {
      assert a + b == a;
    } else {
      FunctionsCountAppend(a, b[..|b| - 1], mr, cp);
      assert (a + b)[..|a + b| - 1] == a + b[..|b| - 1];
    }
  }

  /**
   * The count over the function map does not depend on the order in which the
   * map is iterated: any two orderings of the same entries give the same count.
   */
  lemma {:induction false} FunctionsCountPermutation(fs: seq<FunctionEntry>, gs: seq<FunctionEntry>, mr: bool, cp: bool)
    requires multiset(fs) == multiset(gs)
    ensures FunctionsCount(fs, mr, cp) == FunctionsCount(gs, mr, cp)
    decreases |fs|
  {
    if fs != [] {
      var n := |fs| - 1;
      var x := fs[n];
      assert fs == fs[..n] + [x];
      assert multiset(fs) == multiset(fs[..n]) + multiset{x};
      assert x in multiset(gs);
      var j :| 0 <= j < |gs| && gs[j] == x;
      var rest := gs[..j] + gs[j + 1..];
      FunctionsCountRemove(gs, j, mr, cp);
      assert multiset(fs[..n]) == multiset(rest);
      FunctionsCountPermutation(fs[..n], rest, mr, cp);
    }
  }

  /** Taking one entry out of a function map takes its block's count out of the map's count. */
  lemma FunctionsCountRemove(gs: seq<FunctionEntry>, j: int, mr: bool, cp: bool)
    requires 0 <= j < |gs|
    ensures multiset(gs[..j] + gs[j + 1..]) == multiset(gs) - multiset{gs[j]}
    ensures FunctionsCount(gs, mr, cp) == FunctionsCount(gs[..j] + gs[j + 1..], mr, cp) + BlockCount(gs[j].AsBlock(), mr, cp)
  {
    var x := gs[j];
    assert gs == gs[..j] + [x] + gs[j + 1..];
    assert multiset(gs) == multiset(gs[..j]) + multiset{x} + multiset(gs[j + 1..]);
    FunctionsCountAppend(gs[..j], [x], mr, cp);
    FunctionsCountAppend(gs[..j] + [x], gs[j + 1..], mr, cp);
    FunctionsCountAppend(gs[..j], gs[j + 1..], mr, cp);
    assert FunctionsCount([x], mr, cp) == BlockCount(x.AsBlock(), mr, cp) by {
      assert [x][..0] == [];
    }
  }

  /** Reordering a program's function map leaves every count unchanged. */
  lemma ProgramCountOrderIndependent(p: Program, q: Program, mr: bool, cp: bool)
    requires multiset(p.functions) == multiset(q.functions) && p.main == q.main
    ensures ProgramCount(p, mr, cp) == ProgramCount(q, mr, cp)
  {
    FunctionsCountPermutation(p.functions, q.functions, mr, cp);
  }

  // ---------------------------------------------------------------------
  // The counting loops
  // ---------------------------------------------------------------------

  /** Counts the selected kinds of instruction in one instruction list. */
  method CountCompiledInstructionsInList(insts: seq<Instruction>, mr: bool, cp: bool) returns (ret: nat)
    ensures ret == InstCount(insts, mr, cp)
  {
    ret := 0;
    for i := 0 to |insts|
      invariant ret == InstCount(insts[..i], mr, cp)
    {
      assert insts[..i + 1][..i] == insts[..i];
      if mr && insts[i].MRJob? {
        ret := ret + 1;
      }
      if cp && insts[i].CP? {
        ret := ret + 1;
      }
    }
    assert insts[..|insts|] == insts;
  }

  /** Counts the selected kinds of instruction in a list of blocks, adding to `acc`. */
  method CountCompiledInstructionsInBlocks(bs: seq<Block>, mr: bool, cp: bool, acc: nat) returns (ret: nat)
    ensures ret == acc + BlocksCount(bs, mr, cp)
    decreases bs, 0
  {
    ret := acc;
    for i := 0 to |bs|
      invariant ret == acc + BlocksCount(bs[..i], mr, cp)
    {
      assert bs[..i + 1][..i] == bs[..i];
      var c := CountCompiledInstructionsInBlock(bs[i], mr, cp);
      ret := ret + c;
    }
    assert bs[..|bs|] == bs;
  }

  /** Recursively counts the selected kinds of instruction in a block and everything below it. */
  method CountCompiledInstructionsInBlock(b: Block, mr: bool, cp: bool) returns (ret: nat)
    ensures ret == BlockCount(b, mr, cp)
    decreases b, 1
  {
    ret := 0;
    match b
    case While(pred, kids) =>
      var c := CountCompiledInstructionsInList(pred, mr, cp);
      ret := ret + c;
      ret := CountCompiledInstructionsInBlocks(kids, mr, cp, ret);
    case If(pred, thenKids, elseKids) =>
      var c := CountCompiledInstructionsInList(pred, mr, cp);
      ret := ret + c;
      ret := CountCompiledInstructionsInBlocks(thenKids, mr, cp, ret);
      ret := CountCompiledInstructionsInBlocks(elseKids, mr, cp, ret);
    case For(_, fromInsts, toInsts, incrInsts, kids) =>
      var c := CountCompiledInstructionsInList(fromInsts, mr, cp);
      ret := ret + c;
      c := CountCompiledInstructionsInList(toInsts, mr, cp);
      ret := ret + c;
      c := CountCompiledInstructionsInList(incrInsts, mr, cp);
      ret := ret + c;
      ret := CountCompiledInstructionsInBlocks(kids, mr, cp, ret);
    case Function(_, kids) =>
      ret := CountCompiledInstructionsInBlocks(kids, mr, cp, ret);
    case CV(kids) =>
      ret := CountCompiledInstructionsInBlocks(kids, mr, cp, ret);
    case Generic(insts, _) =>
      var c := CountCompiledInstructionsInList(insts, mr, cp);
      ret := ret + c;
  }

  /** Counts the selected kinds of instruction in a whole program: function blocks first, then main blocks. */
  method CountCompiledInstructions(p: Program, mr: bool, cp: bool) returns (ret: nat)
    ensures ret == ProgramCount(p, mr, cp)
  {
    ret := 0;
    for i := 0 to |p.functions|
      invariant ret == FunctionsCount(p.functions[..i], mr, cp)
    {
      assert p.functions[..i + 1][..i] == p.functions[..i];
      var c := CountCompiledInstructionsInBlock(p.functions[i].AsBlock(), mr, cp);
      ret := ret + c;
    }
    assert p.functions[..|p.functions|] == p.functions;
    ret := CountCompiledInstructionsInBlocks(p.main, mr, cp, ret);
  }

  /** The number of compiled MR-job instructions of a program. */
  method CountCompiledMRJobs(p: Program) returns (n: nat)
    ensures n == ProgramCount(p, true, false)
    ensures n == |set i | 0 <= i < |ProgramInstructions(p)| && ProgramInstructions(p)[i].MRJob?|
  {
    n := CountCompiledInstructions(p, true, false);
    ProgramCountIsFlatCount(p, true, false);
    InstCountByKind(ProgramInstructions(p));
  }
}
