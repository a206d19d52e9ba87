/** Values shared by both canisters: principals, optional values, results and
    the fixed-width unsigned integers of the Rust code. */
module IcTypes {

  datatype Option<T> = None | Some(value: T)

  /** Rust's `Result<T, E>`. */
  datatype Result<T, E> = Ok(value: T) | Err(error: E)

  newtype byte = x: int | 0 <= x < 0x100
  newtype u8 = x: int | 0 <= x < 0x100
  newtype u32 = x: int | 0 <= x < 0x1_0000_0000
  newtype u64 = x: int | 0 <= x < 0x1_0000_0000_0000_0000

  /** `a + b` on `u32` in a release build (overflow checks off): the sum wraps around at 2^32. */
  function AddU32(a: u32, b: u32): (r: u32)
    ensures a as int + b as int < 0x1_0000_0000 ==> r as int == a as int + b as int
    ensures a as int + b as int >= 0x1_0000_0000 ==> r as int == a as int + b as int - 0x1_0000_0000
  {
    ((a as int + b as int) % 0x1_0000_0000) as u32
  }

  /** `a + b` on `u64` in a release build: the sum wraps around at 2^64. */
  function AddU64(a: u64, b: u64): (r: u64)
    ensures a as int + b as int < 0x1_0000_0000_0000_0000 ==> r as int == a as int + b as int
    ensures a as int + b as int >= 0x1_0000_0000_0000_0000 ==>
              r as int == a as int + b as int - 0x1_0000_0000_0000_0000
  {
    ((a as int + b as int) % 0x1_0000_0000_0000_0000) as u64
  }

  /** An Internet Computer principal: an opaque byte string (at most 29 bytes on the IC). */
  datatype Principal = Principal(bytes: seq<byte>)

  /** `Principal::anonymous()`: the single byte 0x04. */
  const Anonymous: Principal := Principal([4])

  /** The management canister, whose textual form is "aaaaa-aa": the empty byte string. */
  const ManagementCanister: Principal := Principal([])

  /** `format!("{}", n)` for an unsigned integer: its decimal digits, most significant first. */
  function DecimalString(n: nat): (s: string)
    ensures |s| > 0
    ensures forall i :: 0 <= i < |s| ==> '0' <= s[i] <= '9'
    ensures s[0] == '0' ==> n == 0 && s == "0"
    decreases n
  {
    if n < 10 then [Digit(n)] else DecimalString(n / 10) + [Digit(n % 10)]
  }

  function Digit(d: nat): (c: char)
    requires d < 10
    ensures '0' <= c <= '9' && (c as int) - ('0' as int) == d
  {
    (('0' as int) + d) as char
  }

  /** Reads a string of decimal digits back as a number. */
  function ParseDecimal(s: string): nat
    requires forall i :: 0 <= i < |s| ==> '0' <= s[i] <= '9'
  {
    if s == [] then 0
    else 10 * ParseDecimal(s[..|s| - 1]) + ((s[|s| - 1] as int) - ('0' as int))
  }

  /** The decimal rendering of a number reads back as that number. */
  lemma {:induction false} DecimalRoundTrip(n: nat)
    ensures ParseDecimal(DecimalString(n)) == n
    decreases n
  {
    var s := DecimalString(n);
    if n >= 10 {
      DecimalRoundTrip(n / 10);
      assert s[..|s| - 1] == DecimalString(n / 10);
    }
  }
}
