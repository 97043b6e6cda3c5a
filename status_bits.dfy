/**
 * Decoding of the TSL2540 STATUS register snapshot that the deferred
 * interrupt pass reads.
 */
module StatusBits {

  /** Bit positions in the STATUS register. */
  const ASAT_BIT: nat := 7  // analog saturation
  const AINT_BIT: nat := 4  // ambient light interrupt
  const CINT_BIT: nat := 3  // calibration interrupt

  function Pow2(k: nat): (r: nat)
    ensures r >= 1
  {
    if k == 0 then 1 else 2 * Pow2(k - 1)
  }

  /** Reference meaning of "bit k of x is set", on unbounded integers. */
  predicate BitAt(x: nat, k: nat) {
    (x / Pow2(k)) % 2 == 1
  }

  /** The ASAT test `(1 << 7) & status`. */
  function Asat(status: bv8): (flag: bool)
    ensures flag <==> BitAt(status as int, ASAT_BIT)
  {
    assert Pow2(ASAT_BIT) == 128;
    (1 << 7) & status != 0
  }

  /** The AINT test `(1 << 4) & status`. */
  function Aint(status: bv8): (flag: bool)
    ensures flag <==> BitAt(status as int, AINT_BIT)
  {
    assert Pow2(AINT_BIT) == 16;
    (1 << 4) & status != 0
  }

  /** The CINT test `(1 << 3) & status`. */
  function Cint(status: bv8): (flag: bool)
    ensures flag <==> BitAt(status as int, CINT_BIT)
  {
    assert Pow2(CINT_BIT) == 8;
    (1 << 3) & status != 0
  }

  /** The three flags of a status snapshot as a typed bitset. */
  datatype StatusFlags = StatusFlags(asat: bool, aint: bool, cint: bool)

  function Decode(status: bv8): StatusFlags {
    StatusFlags(Asat(status), Aint(status), Cint(status))
  }

  /** The status byte carrying exactly the given flags and no other bit. */
  function Encode(f: StatusFlags): (status: bv8)
    ensures Decode(status) == f
  {
    (if f.asat then 0x80 else 0) | (if f.aint then 0x10 else 0) | (if f.cint then 0x08 else 0)
  }

  /** Decoding looks at bits 7, 4 and 3 only: every other bit is ignored. */
  lemma DecodeKnownBitsOnly(status: bv8)
    ensures Encode(Decode(status)) == status & 0x98
    ensures Decode(status & 0x98) == Decode(status)
  {
  }
}
