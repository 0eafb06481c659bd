/** Vocabulary shared by every module: optional values, results, times, and the two traded products. */
module Basics {

  datatype Option<+T> = None | Some(value: T)

  datatype Result<+T> = Ok(value: T) | Fail(error: string)

  datatype Product = Btc | Eth

  /** One value per product: the source's `Record<Product, T>`. */
  datatype PerProduct<T> = PerProduct(btc: T, eth: T) {
    function At(p: Product): T {
      match p
      case Btc => btc
      case Eth => eth
    }

    function With(p: Product, v: T): (r: PerProduct<T>)
      ensures r.At(p) == v
      ensures forall q: Product :: q != p ==> r.At(q) == At(q)
    {
      match p
      case Btc => PerProduct(v, eth)
      case Eth => PerProduct(btc, v)
    }
  }

  /** The phases of the local campaign; everything economic asks whether it is observing. */
  datatype CampaignPhase = Registered | LocalObserving | Suspended | Stopped | Invalid | Ended

  /** JavaScript's largest safe integer. */
  const MAX_SAFE := 9007199254740991

  const HOUR := 3_600_000
  const DAY := 86_400_000

  /** The source's `timestamp`/`safeTime` test. */
  predicate Timestamp(t: int) {
    0 <= t <= MAX_SAFE
  }

  /** Something remains after trimming (ASCII white space and the no-break space). */
  predicate NonBlank(s: string) {
    exists i :: 0 <= i < |s| && s[i] !in " \t\n\r\U{b}\U{c}\U{a0}"
  }

  predicate AlphaNumeric(c: char) {
    'a' <= c <= 'z' || 'A' <= c <= 'Z' || '0' <= c <= '9'
  }

  /** `^[a-zA-Z0-9][a-zA-Z0-9._-]{0,127}$` */
  predicate Identifier(s: string) {
    1 <= |s| <= 128 && AlphaNumeric(s[0]) && forall i :: 1 <= i < |s| ==> AlphaNumeric(s[i]) || s[i] in "._-"
  }

  /** `^[a-f0-9]{64}$` */
  predicate Sha256(s: string) {
    |s| == 64 && forall i :: 0 <= i < |s| ==> '0' <= s[i] <= '9' || 'a' <= s[i] <= 'f'
  }

  /** `^[A-Z][A-Z0-9_]{0,63}$` */
  predicate ReasonCode(s: string) {
    1 <= |s| <= 64 && 'A' <= s[0] <= 'Z' && forall i :: 1 <= i < |s| ==> 'A' <= s[i] <= 'Z' || '0' <= s[i] <= '9' || s[i] == '_'
  }

  /** The gap between 1 and the next double. */
  const EPSILON := 1.0 / 4503599627370496.0

  function Min(a: real, b: real): (r: real)
    ensures r <= a && r <= b && (r == a || r == b)
  {
    if a <= b then a else b
  }

  function Max(a: real, b: real): (r: real)
    ensures r >= a && r >= b && (r == a || r == b)
  {
    if a >= b then a else b
  }
}
