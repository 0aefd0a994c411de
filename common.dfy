// Shared vocabulary: 32-bit unsigned integers as the C++ code uses them,
// optional values, small arithmetic helpers and decimal numbers.
module Common {
  const TWO32: int := 0x1_0000_0000

  /** A C/C++ `uint32_t` / `UINT` value. */
  type u32 = x: int | 0 <= x < 0x1_0000_0000

  /** `~0U`, also `VK_ATTACHMENT_UNUSED` and `VK_QUEUE_FAMILY_IGNORED`. */
  const U32Max: u32 := 0xFFFF_FFFF

  /** Unsigned 32-bit wrap-around of an exact integer result. */
  function Wrap32(x: int): (r: u32)
    ensures 0 <= x < TWO32 ==> r == x
    ensures TWO32 <= x < 2 * TWO32 ==> r == x - TWO32
  {
    x % TWO32
  }

  /** An unsigned 8-bit value. */
  type byte = x: int | 0 <= x < 0x100

  datatype Option<T> = None | Some(value: T)

  datatype Result<T, E> = Ok(value: T) | Error(error: E)

  function Min(a: int, b: int): (r: int)
    ensures r <= a && r <= b && (r == a || r == b)
  {
    if a < b then a else b
  }

  function Max(a: int, b: int): (r: int)
    ensures r >= a && r >= b && (r == a || r == b)
  {
    if a < b then b else a
  }

  // ---- Decimal numbers, as `atoi` reads them and `format` writes them ----

  predicate IsDigit(c: char) { '0' as int <= c as int <= '9' as int }

  /** The value of a string of decimal digits. */
  function DigitsValue(ds: string): (v: nat)
    requires forall i :: 0 <= i < |ds| ==> IsDigit(ds[i])
  {
    if ds == [] then 0
    else
      assert IsDigit(ds[|ds| - 1]);
      10 * DigitsValue(ds[..|ds| - 1]) + (ds[|ds| - 1] as int - '0' as int)
  }

  /** Decimal rendering of a natural number, without leading zeros. */
  function Decimal(n: nat): (ds: string)
    ensures |ds| > 0
    ensures forall i :: 0 <= i < |ds| ==> IsDigit(ds[i])
  {
    if n < 10 then [('0' as int + n) as char]
    else Decimal(n / 10) + [('0' as int + n % 10) as char]
  }

  lemma {:induction false} DigitsValueOfDecimal(n: nat)
    ensures DigitsValue(Decimal(n)) == n
  {
    if n >= 10 {
      DigitsValueOfDecimal(n / 10);
      assert Decimal(n)[..|Decimal(n)| - 1] == Decimal(n / 10);
    }
  }
}
