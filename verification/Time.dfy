// Saturating 64-bit time arithmetic (runtime/ngx_healthcheck_state.c).

module Time {
  import Arith

  const U64_MAX: nat := 0xFFFF_FFFF_FFFF_FFFF

  // Every counter, identity number and time of the shared record is 64 bits wide;
  // a value of this type is therefore also a proof that nothing wrapped.
  type U64 = n: nat | n <= U64_MAX

  const INT64_MAX: nat := 0x7FFF_FFFF_FFFF_FFFF

  const NS_PER_MS: nat := 1000000

  // The largest millisecond value a nanosecond clock reading can give.
  const MS_MAX: nat := U64_MAX / NS_PER_MS

  datatype Option<+T> = None | Some(value: T)

  function Min(a: nat, b: nat): nat { if a <= b then a else b }

  function Max(a: nat, b: nat): nat { if a >= b then a else b }

  // A deadline saturates into the future instead of wrapping into the past.
  function AddTime(a: U64, b: U64): (r: U64)
    ensures r == Min(a + b, U64_MAX)
  {
    if a > U64_MAX - b then U64_MAX else a + b
  }

  function MulTime(a: U64, b: U64): (r: U64)
    ensures r == Min(a * b, U64_MAX)
  {
    if b == 0 then 0
    else
      Arith.DivTest(a, b, U64_MAX);
      if a > U64_MAX / b then U64_MAX else a * b
  }

  // A clock reading that reached a saturating deadline really is that much later:
  // readings stay below the saturation point.
  lemma ReachedDeadline(now: U64, a: U64, b: U64)
    requires now <= MS_MAX && now >= AddTime(a, b)
    ensures now >= a + b
  {
  }
}
