/** Small shared vocabulary: options, instants and durations. */
module Prelude {

  datatype Option<+T> = None | Some(value: T) {
    function GetOr(default: T): T {
      match this
      case None => default
      case Some(v) => v
    }
  }

  /** An instant, in nanoseconds (the resolution of `DateTime<Utc>`). */
  type Time = int

  const SECOND: int := 1_000_000_000
  const U32_MAX: nat := 0xFFFF_FFFF
  const U64_MAX: nat := 0xFFFF_FFFF_FFFF_FFFF

  /** The machine word of the modelled targets is 64 bits wide. */
  const USIZE_MAX: nat := U64_MAX

  function Seconds(n: int): int { n * SECOND }

  function Days(n: int): int { Seconds(n * 86400) }

  function Max(a: int, b: int): int { if a < b then b else a }

  function Min(a: int, b: int): int { if a < b then a else b }

  /** The order of Rust's `Option<DateTime>`: `None` comes before every instant. */
  function Later(a: Option<Time>, b: Option<Time>): Option<Time> {
    match (a, b)
    case (None, _) => b
    case (_, None) => a
    case (Some(x), Some(y)) => Some(Max(x, y))
  }

  /** The instant is known and is not before `cutoff`. */
  predicate Reaches(t: Option<Time>, cutoff: Time) {
    t.Some? && t.value >= cutoff
  }

  lemma SubsetSize<T>(a: set<T>, b: set<T>)
    requires a <= b
    ensures |a| <= |b|
  {
    assert b == a + (b - a);
  }

  lemma MulMonotone(a: nat, x: nat, y: nat)
    requires x <= y
    ensures a * x <= a * y
  {
  }
}
