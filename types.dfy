/** Value types shared by the expectation ledger: the integer widths of the host-call
    ABI, byte strings, the wildcard field type and the tri-state verification outcome. */
module Types {

  /** Fixed-width integers of the host-call ABI, as ranges of the unbounded `int`. */
  const MIN_I32: int := -0x8000_0000
  const MAX_I32: int := 0x7fff_ffff
  const TWO_TO_32: int := 0x1_0000_0000

  type I32 = x: int | MIN_I32 <= x <= MAX_I32
  type I64 = x: int | -0x8000_0000_0000_0000 <= x <= 0x7fff_ffff_ffff_ffff
  type U32 = x: int | 0 <= x < 0x1_0000_0000
  type U64 = x: int | 0 <= x < 0x1_0000_0000_0000_0000
  type U128 = x: int | 0 <= x < 0x1_0000_0000_0000_0000_0000_0000_0000_0000

  type Byte = x: int | 0 <= x < 0x100
  type Bytes = seq<Byte>

  datatype Option<+T> = None | Some(value: T)

  /** One argument position of an expectation record: either unconstrained or pinned
      to a concrete value. `Wildcard` is what the source writes as `None`. */
  datatype Field<+T> = Wildcard | Exact(value: T)

  /** The source's `unwrap_or`: the pinned value, or `default` for a wildcard. */
  function UnwrapOr<T>(f: Field<T>, default: T): T {
    match f
    case Wildcard => default
    case Exact(v) => v
  }

  /** The comparison every kind performs per position: `actual == f.unwrap_or(actual)`.
      It holds exactly when the position is a wildcard or is pinned to `actual`. */
  predicate Agrees<T(==)>(f: Field<T>, actual: T)
    ensures Agrees(f, actual) <==> (f.Exact? ==> f.value == actual)
    ensures Agrees(f, actual) <==> f == Wildcard || f == Exact(actual)
  {
    actual == UnwrapOr(f, actual)
  }

  /** The outcome reported to the signalling collaborator for one consumed call. */
  datatype ExpectStatus = Expected | Unexpected | Failed

  /** `set_expect_status`: a comparison result becomes `Expected` or `Failed`, never
      `Unexpected` (which is reserved for calls that found an empty queue). */
  function StatusOf(checks: bool): (s: ExpectStatus)
    ensures s != Unexpected
    ensures s == Expected <==> checks
  {
    if checks then Expected else Failed
  }

  /** Rust's `as i32` on an unsigned value: keep the low 32 bits and read them as a
      two's-complement number. The result is the unique `I32` congruent to `x`
      modulo 2^32, and `x` itself whenever `x` already fits. */
  function AsI32(x: nat): (r: I32)
    ensures (x - r) % TWO_TO_32 == 0
    ensures x <= MAX_I32 ==> r == x
  {
    var low := x % TWO_TO_32;
    if low <= MAX_I32 then low else low - TWO_TO_32
  }

  /** A value pinned through `as i32` is matched by exactly the actual arguments that
      are congruent to it modulo 2^32. */
  lemma {:induction false} AsI32Congruence(x: nat, actual: I32)
    ensures AsI32(x) == actual <==> (x - actual) % TWO_TO_32 == 0
  {
  }
}
