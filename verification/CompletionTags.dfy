/** Flags packed into the low bits of an object's address: `Completion_callback::completion_tag`. */
module CompletionTags {
  import opened GrpcCall

  // The address of an object; `operator new` aligns to 16 bytes.
  datatype Pointer = Pointer(bits: bv64)

  predicate Aligned(p: Pointer) { p.bits & 0xF == 0 }

  function ToUlong(f: Flags): bv64 {
    (if f.b0 then 1 else 0) | (if f.b1 then 2 else 0) | (if f.b2 then 4 else 0) | (if f.b3 then 8 else 0)
  }

  function CompletionTag(p: Pointer, f: Flags): bv64 { p.bits | ToUlong(f) }

  // The bits of a `std::bitset<4>`.
  function FlagsFrom(bits: bv64): Flags {
    Flags(bits & 1 != 0, bits & 2 != 0, bits & 4 != 0, bits & 8 != 0)
  }

  function TagFlags(tag: bv64): Flags { FlagsFrom(tag & 0xF) }

  function TagPointer(tag: bv64): Pointer { Pointer(tag & 0xFFFF_FFFF_FFFF_FFF0) }

  /** Packing the flags into an aligned pointer loses neither. */
  lemma TagRoundTrip(p: Pointer, f: Flags)
    requires Aligned(p)
    ensures TagPointer(CompletionTag(p, f)) == p
    ensures TagFlags(CompletionTag(p, f)) == f
  {
  }

  /** `completion_tag(n)`, the number that a batch is started with, is added to the address and read
      back as the flags of that number. */
  lemma TagNumber(p: Pointer, n: bv64)
    requires Aligned(p) && n <= 15
    ensures CompletionTag(p, FlagsFrom(n)) == p.bits + n
    ensures TagFlags(p.bits + n) == FlagsFrom(n) && TagPointer(p.bits + n) == p
    ensures FlagsFrom(0) == F0 && FlagsFrom(1) == F1 && FlagsFrom(2) == F2 && FlagsFrom(4) == F4 && FlagsFrom(8) == F8
  {
  }
}
