/**
The workload seccomp filter (pkg/isolation/filesystem_linux.go): a generator of
classic BPF, the machine it is written for, and the policy it means.
*/
module Seccomp {
  import opened Options

  /** struct sock_filter. */
  datatype Instruction = Instruction(code: bv16, jt: bv8, jf: bv8, k: bv32)

  const LD_W_ABS: bv16 := 0x20
  const JMP_JEQ_K: bv16 := 0x15
  const JMP_JSET_K: bv16 := 0x45
  const RET_K: bv16 := 0x06

  const RET_KILL_PROCESS: bv32 := 0x8000_0000
  const RET_ERRNO: bv32 := 0x0005_0000
  const RET_ALLOW: bv32 := 0x7fff_0000
  const EPERM: bv32 := 1
  const ENOSYS: bv32 := 38

  /** Bit 30 of the system call number marks the x32 ABI. */
  const X32_BIT: bv32 := 0x4000_0000

  /** CLONE_NEWUSER, NEWNS, NEWPID, NEWNET, NEWIPC, NEWUTS and NEWCGROUP together. */
  const NAMESPACE_FLAGS: bv32 :=
    0x1000_0000 | 0x0002_0000 | 0x2000_0000 | 0x4000_0000 | 0x0800_0000 | 0x0400_0000 | 0x0200_0000

  /** What differs between the two supported architectures. */
  datatype Target = Target(auditArch: bv32, clone: bv32, clone3: bv32)

  const AMD64 := Target(0xC000_003E, 56, 435)
  const ARM64 := Target(0xC000_00B7, 220, 435)

  /** struct seccomp_data on a little-endian machine, as 32-bit words: nr, arch, ip, then six 64-bit arguments. */
  type Data = w: seq<bv32> | |w| == 16 witness seq(16, _ => 0)

  // ------------------------------------------------------------- the machine

  /**
  Runs `prog` from `pc` with accumulator `a`.  None is a program the kernel would not
  accept: an unknown opcode, a load outside the data, or control leaving the program.
  */
  function Execute(prog: seq<Instruction>, pc: nat, a: bv32, data: Data): Option<bv32>
    decreases |prog| - pc
  {
    if pc >= |prog| then None
    else
      var i := prog[pc];
      if i.code == LD_W_ABS then
        var offset := i.k as int;
        if offset % 4 != 0 || offset / 4 >= |data| then None
        else Execute(prog, pc + 1, data[offset / 4], data)
      else if i.code == JMP_JEQ_K then
        Execute(prog, pc + 1 + (if a == i.k then i.jt else i.jf) as int, a, data)
      else if i.code == JMP_JSET_K then
        Execute(prog, pc + 1 + (if a & i.k != 0 then i.jt else i.jf) as int, a, data)
      else if i.code == RET_K then Some(i.k)
      else None
  }

  // ------------------------------------------------------------ the policy

  /** What the filter is for, independently of how it is compiled. */
  function Policy(t: Target, denied: seq<bv32>, data: Data): bv32 {
    var nr, arch, flags := data[0], data[1], data[4];
    if arch != t.auditArch || nr & X32_BIT != 0 then RET_KILL_PROCESS
    else if nr in denied then RET_ERRNO | EPERM
    else if nr == t.clone3 then RET_ERRNO | ENOSYS
    else if nr == t.clone && flags & NAMESPACE_FLAGS != 0 then RET_ERRNO | EPERM
    else RET_ALLOW
  }

  // ---------------------------------------------------------- the generator

  function Prologue(t: Target): seq<Instruction> {
    [ Instruction(LD_W_ABS, 0, 0, 4),
      Instruction(JMP_JEQ_K, 1, 0, t.auditArch),
      Instruction(RET_K, 0, 0, RET_KILL_PROCESS),
      Instruction(LD_W_ABS, 0, 0, 0),
      Instruction(JMP_JSET_K, 0, 1, X32_BIT),
      Instruction(RET_K, 0, 0, RET_KILL_PROCESS) ]
  }

  function Deny(nr: bv32, errno: bv32): seq<Instruction> {
    [Instruction(JMP_JEQ_K, 0, 1, nr), Instruction(RET_K, 0, 0, RET_ERRNO | errno)]
  }

  function DenyAll(denied: seq<bv32>): seq<Instruction> {
    if denied == [] then [] else DenyAll(denied[..|denied| - 1]) + Deny(denied[|denied| - 1], EPERM)
  }

  function Epilogue(t: Target): seq<Instruction> {
    [ Instruction(JMP_JEQ_K, 0, 3, t.clone),
      Instruction(LD_W_ABS, 0, 0, 16),
      Instruction(JMP_JSET_K, 0, 1, NAMESPACE_FLAGS),
      Instruction(RET_K, 0, 0, RET_ERRNO | EPERM),
      Instruction(RET_K, 0, 0, RET_ALLOW) ]
  }

  function Program(t: Target, denied: seq<bv32>): seq<Instruction> {
    Prologue(t) + DenyAll(denied) + Deny(t.clone3, ENOSYS) + Epilogue(t)
  }

  /** The generator itself, growing the instruction slice as the source does. */
  method WorkloadFilter(t: Target, denied: seq<bv32>) returns (ins: seq<Instruction>)
    ensures ins == Program(t, denied)
    ensures |ins| == 13 + 2 * |denied|
    ensures forall data: Data :: Execute(ins, 0, 0, data) == Some(Policy(t, denied, data))
  {
    ins := [
      Instruction(LD_W_ABS, 0, 0, 4),
      Instruction(JMP_JEQ_K, 1, 0, t.auditArch),
      Instruction(RET_K, 0, 0, RET_KILL_PROCESS),
      Instruction(LD_W_ABS, 0, 0, 0)];
    ins := ins + [Instruction(JMP_JSET_K, 0, 1, X32_BIT), Instruction(RET_K, 0, 0, RET_KILL_PROCESS)];
    for i := 0 to |denied|
      invariant ins == Prologue(t) + DenyAll(denied[..i])
    {
      assert denied[..i + 1][..i] == denied[..i];
      ins := ins + Deny(denied[i], EPERM);
    }
    assert denied[..|denied|] == denied;
    ins := ins + Deny(t.clone3, ENOSYS);
    ins := ins + Epilogue(t);
    DenyAllLength(denied);
    forall data: Data
      ensures Execute(ins, 0, 0, data) == Some(Policy(t, denied, data))
    {
      CompiledMeansPolicy(t, denied, data);
    }
  }

  lemma {:induction false} DenyAllLength(denied: seq<bv32>)
    ensures |DenyAll(denied)| == 2 * |denied|
  {
    if denied != [] {
      DenyAllLength(denied[..|denied| - 1]);
    }
  }

  /** Where the deny pair of the i-th listed call ends up. */
  lemma {:induction false} DenyAllAt(denied: seq<bv32>, i: nat)
    requires i < |denied|
    ensures |DenyAll(denied)| == 2 * |denied|
    ensures DenyAll(denied)[2 * i..2 * i + 2] == Deny(denied[i], EPERM)
  {
    var n := |denied| - 1;
    DenyAllLength(denied[..n]);
    if i < n {
      DenyAllAt(denied[..n], i);
      assert DenyAll(denied)[2 * i..2 * i + 2] == DenyAll(denied[..n])[2 * i..2 * i + 2];
    }
  }

  // One instruction at a time.

  lemma Loads(prog: seq<Instruction>, pc: nat, a: bv32, data: Data, word: nat)
    requires pc < |prog| && word < 16 && prog[pc].code == LD_W_ABS && prog[pc].k as int == 4 * word
    ensures Execute(prog, pc, a, data) == Execute(prog, pc + 1, data[word], data)
  {
  }

  lemma JumpsEqual(prog: seq<Instruction>, pc: nat, a: bv32, data: Data, jt: nat, jf: nat)
    requires pc < |prog| && prog[pc].code == JMP_JEQ_K && prog[pc].jt as int == jt && prog[pc].jf as int == jf
    ensures Execute(prog, pc, a, data)
         == if a == prog[pc].k then Execute(prog, pc + 1 + jt, a, data) else Execute(prog, pc + 1 + jf, a, data)
  {
  }

  lemma JumpsSet(prog: seq<Instruction>, pc: nat, a: bv32, data: Data, jt: nat, jf: nat)
    requires pc < |prog| && prog[pc].code == JMP_JSET_K && prog[pc].jt as int == jt && prog[pc].jf as int == jf
    ensures Execute(prog, pc, a, data)
         == if a & prog[pc].k != 0 then Execute(prog, pc + 1 + jt, a, data) else Execute(prog, pc + 1 + jf, a, data)
  {
  }

  lemma Returns(prog: seq<Instruction>, pc: nat, a: bv32, data: Data)
    requires pc < |prog| && prog[pc].code == RET_K
    ensures Execute(prog, pc, a, data) == Some(prog[pc].k)
  {
  }

  /** One pair: return the errno if the accumulator matches, otherwise fall through to the next pair. */
  lemma DenyPair(prog: seq<Instruction>, pc: nat, a: bv32, data: Data, nr: bv32, errno: bv32)
    requires pc + 2 <= |prog| && prog[pc] == Deny(nr, errno)[0] && prog[pc + 1] == Deny(nr, errno)[1]
    ensures Execute(prog, pc, a, data) == if a == nr then Some(RET_ERRNO | errno) else Execute(prog, pc + 2, a, data)
  {
  }

  /** The chain of pairs from the i-th on decides membership in the rest of the list. */
  lemma {:induction false} DenyChain(prog: seq<Instruction>, denied: seq<bv32>, i: nat, a: bv32, data: Data)
    requires i <= |denied| && |prog| >= 6 + 2 * |denied|
    requires forall j :: 0 <= j < |denied| ==>
               prog[6 + 2 * j] == Deny(denied[j], EPERM)[0] && prog[6 + 2 * j + 1] == Deny(denied[j], EPERM)[1]
    ensures Execute(prog, 6 + 2 * i, a, data)
         == if a in denied[i..] then Some(RET_ERRNO | EPERM) else Execute(prog, 6 + 2 * |denied|, a, data)
    decreases |denied| - i
  {
    hide Execute;
    if i < |denied| {
      DenyPair(prog, 6 + 2 * i, a, data, denied[i], EPERM);
      DenyChain(prog, denied, i + 1, a, data);
      assert denied[i..] == [denied[i]] + denied[i + 1..];
    }
  }

  /** The last five instructions, with the system call number still in the accumulator. */
  lemma CloneTail(prog: seq<Instruction>, pc: nat, t: Target, nr: bv32, data: Data)
    requires pc + 5 <= |prog| && forall j :: 0 <= j < 5 ==> prog[pc + j] == Epilogue(t)[j]
    ensures Execute(prog, pc, nr, data)
         == Some(if nr == t.clone && data[4] & NAMESPACE_FLAGS != 0 then RET_ERRNO | EPERM else RET_ALLOW)
  {
    hide Execute;
    assert prog[pc] == Epilogue(t)[0] && prog[pc + 1] == Epilogue(t)[1] && prog[pc + 2] == Epilogue(t)[2]
        && prog[pc + 3] == Epilogue(t)[3] && prog[pc + 4] == Epilogue(t)[4];
    JumpsEqual(prog, pc, nr, data, 0, 3);
    Loads(prog, pc + 1, nr, data, 4);
    JumpsSet(prog, pc + 2, data[4], data, 0, 1);
    Returns(prog, pc + 3, data[4], data);
    Returns(prog, pc + 4, data[4], data);
    Returns(prog, pc + 4, nr, data);
  }

  /** The first six instructions: the wrong architecture and the x32 ABI are killed. */
  lemma PrologueRuns(prog: seq<Instruction>, t: Target, data: Data)
    requires |prog| >= 6 && forall j :: 0 <= j < 6 ==> prog[j] == Prologue(t)[j]
    ensures Execute(prog, 0, 0, data)
         == if data[1] != t.auditArch || data[0] & X32_BIT != 0 then Some(RET_KILL_PROCESS)
            else Execute(prog, 6, data[0], data)
  {
    hide Execute;
    assert prog[0] == Prologue(t)[0] && prog[1] == Prologue(t)[1] && prog[2] == Prologue(t)[2]
        && prog[3] == Prologue(t)[3] && prog[4] == Prologue(t)[4] && prog[5] == Prologue(t)[5];
    Loads(prog, 0, 0, data, 1);
    JumpsEqual(prog, 1, data[1], data, 1, 0);
    Returns(prog, 2, data[1], data);
    Loads(prog, 3, data[1], data, 0);
    JumpsSet(prog, 4, data[0], data, 0, 1);
    Returns(prog, 5, data[0], data);
  }

  /**
  For every deny list and every system call, the compiled program runs to a return inside
  its own bounds and returns exactly what the policy says.
  */
  lemma CompiledMeansPolicy(t: Target, denied: seq<bv32>, data: Data)
    ensures Execute(Program(t, denied), 0, 0, data) == Some(Policy(t, denied, data))
  {
    hide Execute;
    var prog := Program(t, denied);
    var n := 6 + 2 * |denied|;
    DenyAllLength(denied);
    PrologueRuns(prog, t, data);
    forall j | 0 <= j < |denied|
      ensures prog[6 + 2 * j] == Deny(denied[j], EPERM)[0] && prog[6 + 2 * j + 1] == Deny(denied[j], EPERM)[1]
    {
      DenyAllAt(denied, j);
      assert prog[6 + 2 * j] == DenyAll(denied)[2 * j..2 * j + 2][0];
      assert prog[6 + 2 * j + 1] == DenyAll(denied)[2 * j..2 * j + 2][1];
    }
    DenyChain(prog, denied, 0, data[0], data);
    assert denied[0..] == denied;
    DenyPair(prog, n, data[0], data, t.clone3, ENOSYS);
    CloneTail(prog, n + 2, t, data[0], data);
  }

  /** Every jump of the program lands on an instruction of the program, whatever it is fed. */
  lemma JumpsStayInside(t: Target, denied: seq<bv32>, pc: nat)
    requires pc < |Program(t, denied)|
    ensures var i := Program(t, denied)[pc];
            i.code == JMP_JEQ_K || i.code == JMP_JSET_K ==>
              pc + 1 + i.jt as int < |Program(t, denied)| && pc + 1 + i.jf as int < |Program(t, denied)|
  {
    DenyAllLength(denied);
    var prog := Program(t, denied);
    if 6 <= pc < 6 + 2 * |denied| {
      var i := (pc - 6) / 2;
      DenyAllAt(denied, i);
      assert prog[pc] == DenyAll(denied)[2 * i..2 * i + 2][pc - 6 - 2 * i];
    }
  }

  // ------------------------------------------------------- the filter in use

  /** The calls the source lists, in its order, by their numbers on each architecture. */
  const AMD64_DENIED: seq<bv32> :=
    [272, 308, 165, 166, 155, 161, 101, 310, 311, 438, 304, 303, 428, 429, 430, 432, 431, 433, 442, 321, 298, 323, 425]
  const ARM64_DENIED: seq<bv32> :=
    [97, 268, 40, 39, 41, 51, 117, 270, 271, 438, 265, 264, 428, 429, 430, 432, 431, 433, 442, 280, 241, 282, 425]

  /** The filter for an architecture; there is none for any but the two. */
  method FilterFor(goarch: string) returns (ins: Option<seq<Instruction>>)
    ensures ins.Some? <==> goarch == "arm64" || goarch == "amd64"
    ensures goarch == "arm64" ==> forall data: Data :: Execute(ins.value, 0, 0, data) == Some(Policy(ARM64, ARM64_DENIED, data))
    ensures goarch == "amd64" ==> forall data: Data :: Execute(ins.value, 0, 0, data) == Some(Policy(AMD64, AMD64_DENIED, data))
  {
    hide Execute, Policy, Program;
    match goarch {
      case "arm64" =>
        var prog := WorkloadFilter(ARM64, ARM64_DENIED);
        ins := Some(prog);
      case "amd64" =>
        var prog := WorkloadFilter(AMD64, AMD64_DENIED);
        ins := Some(prog);
      case _ => ins := None;
    }
  }

  /**
  On both architectures ordinary threads and processes can still be made: clone without a
  namespace flag is allowed, and clone3 is answered so that the C library falls back to it.
  */
  lemma OrdinaryCloneIsAllowed(data: Data)
    requires data[0] & X32_BIT == 0
    ensures data[1] == AMD64.auditArch && data[0] == AMD64.clone3 ==>
              Policy(AMD64, AMD64_DENIED, data) == RET_ERRNO | ENOSYS
    ensures data[1] == ARM64.auditArch && data[0] == ARM64.clone3 ==>
              Policy(ARM64, ARM64_DENIED, data) == RET_ERRNO | ENOSYS
    ensures data[1] == AMD64.auditArch && data[0] == AMD64.clone && data[4] & NAMESPACE_FLAGS == 0 ==>
              Policy(AMD64, AMD64_DENIED, data) == RET_ALLOW
    ensures data[1] == ARM64.auditArch && data[0] == ARM64.clone && data[4] & NAMESPACE_FLAGS == 0 ==>
              Policy(ARM64, ARM64_DENIED, data) == RET_ALLOW
  {
  }

  /**
  Each of the seven flags that make a namespace gets a clone refused, alone or among others; a
  clone with none of them (a thread's flags, say) is let through.
  */
  lemma NamespaceFlagsAreRefused(t: Target, denied: seq<bv32>, data: Data)
    requires data[1] == t.auditArch && data[0] == t.clone && data[0] & X32_BIT == 0
    requires t.clone !in denied && t.clone != t.clone3
    ensures Policy(t, denied, data) == RET_ERRNO | EPERM
       <==> || data[4] & 0x1000_0000 != 0  // user
            || data[4] & 0x0002_0000 != 0  // mount
            || data[4] & 0x2000_0000 != 0  // pid
            || data[4] & 0x4000_0000 != 0  // network
            || data[4] & 0x0800_0000 != 0  // ipc
            || data[4] & 0x0400_0000 != 0  // uts
            || data[4] & 0x0200_0000 != 0  // cgroup
    ensures Policy(t, denied, data) == RET_ALLOW <==> data[4] & 0x7E02_0000 == 0
  {
    assert NAMESPACE_FLAGS == 0x7E02_0000;
  }
}
