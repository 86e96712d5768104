/** Values shared by every contract of the model: identities, the machine
    integer bounds the Rust code relies on, the error taxonomy and the
    Result type that stands for `panic_with_error!` / `Err(..)` aborts. */
module Types {

  /** Rust integer bounds used by the contracts. */
  const U8_MAX: int := 0xFF
  const U32_MAX: int := 0xFFFF_FFFF
  const I128_MAX: int := 0x7FFF_FFFF_FFFF_FFFF_FFFF_FFFF_FFFF_FFFF
  const I128_MIN: int := -0x8000_0000_0000_0000_0000_0000_0000_0000

  /** A Rust `u32` value (split amounts, sub-NFT amounts, total_amount). */
  type U32 = x: nat | x <= 0xFFFF_FFFF

  /** A Rust `u64` value (pledge certificate ids, amounts and times). */
  type U64 = x: nat | x <= 0xFFFF_FFFF_FFFF_FFFF

  /** An account or contract address; only equality matters. */
  type Address = nat

  datatype Option<T> = None | Some(value: T)

  /** Every reason a contract call can abort. The first group are the
      ledgers' contract errors, the second the offer pool's, the third the
      aborts that come from the host or from Rust itself (a `panic!` with a
      message, a failed `require_auth`, an arithmetic overflow check, a value
      that does not convert to the requested type, a failed token transfer). */
  datatype Error =
    | NotFound | NotEmpty | NotOwned | NotAuthorized | NotPermitted
    | InvalidArgs | AmountTooMuch | InvalidContract
    | VCStringTooLong | VCListCapacityReached
    | OfferEmpty | OfferExist | OfferChanged | AdminExist
    | AlreadyInitialized | AlreadyMinted | DecimalsTooLarge | Uninitialized
    | AuthFailed | Overflow | ConversionFailed | TransferFailed

  /** The outcome of a contract call; `Err` means the whole call aborted. */
  datatype Result<T> = Ok(value: T) | Err(error: Error) {
    predicate IsFailure() { Err? }
    function PropagateFailure<U>(): Result<U> requires Err? { Err(error) }
    function Extract(): T requires Ok? { value }
  }

  /** 10^d, as `10i128.pow(d)` computes it when it does not overflow. */
  function Pow10(d: nat): (p: nat)
    ensures p >= 1
    ensures d > 0 ==> p >= 10
  {
    if d == 0 then 1 else 10 * Pow10(d - 1)
  }

  /** `i128::from(amount) * 10i128.pow(decimals)` under Rust's overflow
      checks: the power and the product must both fit in an i128. */
  function ScaleToToken(amount: nat, decimals: nat): (r: Result<int>)
    ensures r.Ok? <==> Pow10(decimals) <= I128_MAX && amount * Pow10(decimals) <= I128_MAX
    ensures r.Ok? ==> r.value == amount * Pow10(decimals) && 0 <= r.value <= I128_MAX
    ensures r.Err? ==> r.error == Overflow
  {
    var p := Pow10(decimals);
    if p > I128_MAX || amount * p > I128_MAX then Err(Overflow) else Ok(amount * p)
  }

  /** Sum of a sequence, taken from the back so that a loop over a prefix
      extends it one element at a time. */
  function Sum(s: seq<nat>): nat
  {
    if |s| == 0 then 0 else Sum(s[..|s| - 1]) + s[|s| - 1]
  }

  lemma {:induction false} SumAppend(a: seq<nat>, b: seq<nat>)
    ensures Sum(a + b) == Sum(a) + Sum(b)
    decreases |b|
  {
    if |b| == 0 {
      assert a + b == a;
    } else {
      var c := a + b;
      assert c[..|c| - 1] == a + b[..|b| - 1];
      SumAppend(a, b[..|b| - 1]);
    }
  }

  /** A prefix never sums to more than the whole (every element is non-negative). */
  lemma {:induction false} SumPrefixLe(s: seq<nat>, i: nat)
    requires i <= |s|
    ensures Sum(s[..i]) <= Sum(s)
  {
    assert s == s[..i] + s[i..];
    SumAppend(s[..i], s[i..]);
  }

  lemma SumPrefixStep(s: seq<nat>, i: nat)
    requires i < |s|
    ensures Sum(s[..i + 1]) == Sum(s[..i]) + s[i]
  {
    assert s[..i + 1][..i] == s[..i];
  }
}
