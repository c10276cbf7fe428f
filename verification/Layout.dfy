// Physical memory as frames of 512 words, and the words of a paging table.
module Layout {

  const ENTRIES := 512

  // A 64-bit word of a table: the frame it points at (bits 12 and up) and its flags (bits 0 to 11).
  datatype Entry = Entry(frame: nat, flags: bv12)

  const EMPTY := Entry(0, 0)

  const PRESENT: bv12 := 0x001
  const WRITE: bv12 := 0x002
  const PROCESS: bv12 := 0x200
  const SHARED: bv12 := 0x400

  // Top-level entries every space keeps for itself: the user stack and the context stack.
  const ENTRY_STACK := 223
  const ENTRY_CONTEXT := 510

  predicate Reserved(i: nat) {
    i == ENTRY_STACK || i == ENTRY_CONTEXT
  }

  // Some of these bits are set.
  predicate Carries(flags: bv12, bits: bv12) {
    flags & bits != 0
  }

  predicate Process(flags: bv12) {
    flags & PROCESS != 0
  }

  predicate Shared(flags: bv12) {
    flags & SHARED != 0
  }

  // A leaf that belongs to the process alone: teardown returns its frame.
  predicate Owned(flags: bv12) {
    Process(flags) && !Shared(flags)
  }

  lemma WriteKeepsProcess(flags: bv12)
    ensures Process(flags | WRITE) == Process(flags)
  {
  }

  type Page = p: seq<Entry> | |p| == ENTRIES witness seq(ENTRIES, _ => EMPTY)

  function ZeroPage(): (page: Page)
    ensures forall i | 0 <= i < ENTRIES :: page[i] == EMPTY
  {
    seq(ENTRIES, _ => EMPTY)
  }
}
