/**
 A call of the translated function: what its caller provides, the stack frame
 the prologue builds, and the relation between machine states inside that frame
 and the registers of the reference interpreter.
 */
module Frame {
  import opened Words
  import opened Bpf
  import opened Native
  import opened Lowering

  // ----- the call and its frame -----

  /** A call of the translated function: the machine at entry and the input it is given. */
  datatype Call = Call(entry: State, input: Input) {
    function StackTop(): U64 { entry.regs[RSP] }

    function Context(): U64 { entry.regs[RDI] }

    /** The packet pointer, passed directly or through the context record. */
    function Data(): nat {
      if input.PacketInput? && Mapped(entry.mem, Context(), 8) then Read(entry.mem, Context(), 8) else Context()
    }

    function Size(): nat { |input.data| }
  }

  predicate HoldsData(mem: Memory, a: int, data: seq<U8>) {
    forall i :: a <= i < a + |data| ==> i in mem && mem[i] == data[i - a]
  }

  /** The context record: data pointer, length and eight metadata words. */
  predicate HoldsContext(mem: Memory, a: int, size: int, metadata: Metadata) {
    && Mapped(mem, a, 48)
    && Read(mem, a + LEN_OFFSET, 4) == size
    && forall field: Ancillary ::
         Read(mem, a + METADATA_OFFSET + MetadataOffset(field), 4) == ReadField(field, metadata)
  }

  predicate Apart(a: int, n: nat, c: Call) {
    n == 0 || a + n <= c.StackTop() - 104 || c.StackTop() <= a
  }

  /** The input: at most 2^32 - 1 bytes that do not wrap around the address space. */
  predicate ValidInput(c: Call) {
    && c.Size() < B32
    && c.Data() + c.Size() <= B64
    && HoldsData(c.entry.mem, c.Data(), c.input.data)
    && Apart(c.Data(), c.Size(), c)
  }

  /** The arguments: pointer and length, or a pointer to the context record. */
  predicate ValidArguments(c: Call) {
    if c.input.PacketInput? then
      && c.Context() + 48 <= B64
      && HoldsContext(c.entry.mem, c.Context(), c.Size(), c.input.metadata)
      && Apart(c.Context(), 48, c)
    else c.entry.regs[RSI] % B32 == c.Size()
  }

  /** The stack: 104 bytes below the return address. */
  predicate ValidStack(c: Call) {
    104 <= c.StackTop() <= B64 - 8 && Mapped(c.entry.mem, c.StackTop() - 104, 112)
  }

  /**
   What the caller of the native function provides. Input, context record and
   stack do not overlap; every register and every stack byte may hold anything.
   */
  predicate ValidCall(c: Call) { ValidInput(c) && ValidArguments(c) && ValidStack(c) }

  /** The registers that the prologue pushes, in order. */
  const SAVED: seq<nat> := [5, 12, 13, 14, 15]

  /** Where the `j`-th of them is saved. */
  function SavedAddress(c: Call, j: nat): int { c.StackTop() - 8 * (j + 1) }

  predicate SavedAt(c: Call, mem: Memory, j: nat)
    requires j < 5
  {
    Mapped(mem, SavedAddress(c, j), 8) && Read(mem, SavedAddress(c, j), 8) == c.entry.regs[SAVED[j]]
  }

  /** The caller's registers as the prologue saved them. */
  predicate SavedRegisters(c: Call, mem: Memory) { forall j :: 0 <= j < 5 ==> SavedAt(c, mem, j) }

  /** Only the 104 bytes below the return address may have changed. */
  predicate OutsideKept(c: Call, mem: Memory) {
    && mem.Keys == c.entry.mem.Keys
    && forall a :: a in mem && !(c.StackTop() - 104 <= a < c.StackTop()) ==> mem[a] == c.entry.mem[a]
  }

  predicate FrameRegisters(c: Call, regs: Registers) {
    && regs[RBP] == c.StackTop() - 40
    && regs[RSP] == c.StackTop() - 104
    && regs[RDI] == c.Context()
    && regs[3] == c.entry.regs[3]
    && regs[12] == c.Data()
    && regs[13] == c.Size()
  }

  function SlotAddress(c: Call, k: nat): int { c.StackTop() - 44 - 4 * k }

  /** The frame holds the scratch words that are known to be stored. */
  predicate Remembers(c: Call, mem: Memory, m: seq<U32>, known: set<nat>) {
    && Mapped(mem, c.StackTop() - 104, 64)
    && forall k :: k in known ==> k < SCRATCH_WORDS && k < |m| && Read(mem, SlotAddress(c, k), 4) == m[k]
  }

  /** The registers hold what the interpreter's registers hold. */
  predicate Matches(c: Call, s: State, vm: Vm) {
    FrameRegisters(c, s.regs) && s.regs[RAX] == vm.a && s.regs[RCX] == vm.x
  }

  /** The bytes of the input as the processor loads them. */
  function LittleAt(data: seq<U8>, offset: nat, width: LoadWidth): U32
    requires offset + width.Bytes() <= |data|
  {
    match width
    case Byte => data[offset]
    case Half => Little16(data[offset], data[offset + 1])
    case Word => Little32(data[offset], data[offset + 1], data[offset + 2], data[offset + 3])
  }

  lemma ReadOne(mem: Memory, a: int)
    requires Mapped(mem, a, 1)
    ensures Read(mem, a, 1) == mem[a]
  {
    assert Read(mem, a + 1, 0) == 0;
  }

  lemma ReadTwo(mem: Memory, a: int)
    requires Mapped(mem, a, 2)
    ensures Read(mem, a, 2) == Little16(mem[a], mem[a + 1])
  {
    ReadOne(mem, a + 1);
  }

  lemma ReadFour(mem: Memory, a: int)
    requires Mapped(mem, a, 4)
    ensures Read(mem, a, 4) == Little32(mem[a], mem[a + 1], mem[a + 2], mem[a + 3])
  {
    ReadTwo(mem, a + 2);
    assert Read(mem, a + 1, 3) == mem[a + 1] as int + 0x100 * Read(mem, a + 2, 2);
  }

  /** Input bytes lie outside the frame, so they are read as the caller left them. */
  lemma DataRead(c: Call, mem: Memory, offset: nat, width: LoadWidth)
    requires ValidInput(c) && OutsideKept(c, mem)
    requires offset + width.Bytes() <= c.Size()
    ensures Mapped(mem, c.Data() + offset, width.Bytes())
    ensures Read(mem, c.Data() + offset, width.Bytes()) == LittleAt(c.input.data, offset, width)
  {
    var a := c.Data() + offset;
    forall j | a <= j < a + width.Bytes()
      ensures j in mem && mem[j] == c.input.data[j - c.Data()]
    {
      assert j in c.entry.mem;
    }
    match width
    case Byte => ReadOne(mem, a);
    case Half => ReadTwo(mem, a);
    case Word => ReadFour(mem, a);
  }
}
