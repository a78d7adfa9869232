/** Values shared by every part of the model: optional results, the clock,
    and the few string operations the source takes from Go's `strings`. */
module Basics {

  datatype Option<+T> = None | Some(value: T)

  /** A call that either returns a value or fails with one of the source's errors. */
  datatype Result<+T> = Ok(value: T) | Err(error: Error)

  datatype Error =
    | SessionNotFound
    | BlacklistEntryNotFound
    | UserNotFound
    | UserAlreadyExists
    | KeyNotFound
    | KeyAlreadyExists
    | NoSuchSite
    | ValueRefused

  // ---------------------------------------------------------------- time

  /** An instant, in nanoseconds since Go's zero `time.Time`. */
  type Time = int

  const ZERO_TIME: Time := 0

  const SECOND: int := 1_000_000_000
  const MINUTE: int := 60 * SECOND
  const HOUR: int := 60 * MINUTE
  const DAY: int := 24 * HOUR

  predicate SortedTimes(ts: seq<Time>) {
    forall i, j | 0 <= i < j < |ts| :: ts[i] <= ts[j]
  }

  // ---------------------------------------------------- machine integers

  newtype byte = x: int | 0 <= x < 256

  /** Two's complement wrap-around of Go's int64. */
  function Wrap(x: int): int {
    (x + 0x8000_0000_0000_0000) % 0x1_0000_0000_0000_0000 - 0x8000_0000_0000_0000
  }

  lemma WrapIsIdentityIff(x: int)
    ensures Wrap(x) == x <==> -0x8000_0000_0000_0000 <= x < 0x8000_0000_0000_0000
  {
  }

  lemma WrapDropsMultiples(x: int, k: int)
    ensures Wrap(x + k * 0x1_0000_0000_0000_0000) == Wrap(x)
  {
  }

  lemma AtLeastOnce(k: int, d: int)
    requires k >= 1 && d > 0
    ensures k * d >= d
  {
  }

  /** Division has one answer. */
  lemma QuotientAndRemainder(x: int, d: int, q: int, r: int)
    requires d > 0 && x == q * d + r && 0 <= r < d
    ensures x / d == q && x % d == r
  {
    var k := x / d - q;
    assert k * d == r - x % d by {
      assert x == x / d * d + x % d;
      assert k * d == x / d * d - q * d;
    }
    if k > 0 {
      AtLeastOnce(k, d);
    } else if k < 0 {
      AtLeastOnce(-k, d);
    }
  }

  // ------------------------------------------------------------- strings

  /** `strings.ToLower` on ASCII letters; every other character is kept. */
  function LowerChar(c: char): char {
    if 'A' <= c <= 'Z' then ((c as int) + 32) as char else c
  }

  function ToLower(s: string): (r: string)
    ensures |r| == |s|
    ensures forall i | 0 <= i < |s| :: r[i] == LowerChar(s[i])
  {
    seq(|s|, i requires 0 <= i < |s| => LowerChar(s[i]))
  }

  lemma LowerTwice(s: string)
    ensures ToLower(ToLower(s)) == ToLower(s)
  {
  }

  predicate OccursAt(s: string, sub: string, i: int) {
    0 <= i <= |s| - |sub| && s[i..i + |sub|] == sub
  }

  /** `strings.Contains`. */
  predicate Contains(s: string, sub: string) {
    exists i | 0 <= i <= |s| :: OccursAt(s, sub, i)
  }

  /** What a VARCHAR column of this width stores of `s`, if anything: the
      database cuts excess spaces off, and refuses any other excess and NUL. */
  function Column(s: string, width: nat): (r: Option<string>)
    ensures r == Some(s) <==> Fits(s, width)
    ensures r.Some? ==> Fits(r.value, width) && r.value <= s
  {
    if '\0' in s then None
    else if |s| <= width then Some(s)
    else if forall i | width <= i < |s| :: s[i] == ' ' then Some(s[..width])
    else None
  }

  /** The column stores `s` as it is. */
  predicate Fits(s: string, width: nat) {
    |s| <= width && '\0' !in s
  }

  /** `%d` of a number that is not negative. */
  function Decimal(n: nat): string {
    var digit := [((n % 10) + ('0' as int)) as char];
    if n < 10 then digit else Decimal(n / 10) + digit
  }

  // ------------------------------------------------- what the strings mean

  /** Each of the 26 letters goes to the one as far from 'a' as it is from 'A',
      and everything else is left alone. */
  lemma LowerMeaning(s: string, i: nat)
    requires i < |s|
    ensures 'A' <= s[i] <= 'Z' ==> ToLower(s)[i] as int - 'a' as int == s[i] as int - 'A' as int
    ensures !('A' <= s[i] <= 'Z') ==> ToLower(s)[i] == s[i]
  {
  }

  /** Containing a part is being that part with something before and after. */
  lemma ContainsIff(s: string, part: string)
    ensures Contains(s, part) <==> exists before, after :: s == before + part + after
  {
    if Contains(s, part) {
      var i :| 0 <= i <= |s| && OccursAt(s, part, i);
      assert s == s[..i] + part + s[i + |part|..];
    }
    if before, after :| s == before + part + after {
      assert s[|before|..|before| + |part|] == part;
      assert OccursAt(s, part, |before|);
    }
  }

  /** A column keeps a text that is not too long, and of one that is too long by
      spaces only as much as it holds; it takes no other. */
  lemma ColumnMeaning(s: string, width: nat)
    ensures '\0' !in s && |s| <= width ==> Column(s, width) == Some(s)
    ensures '\0' !in s && |s| > width ==>
              Column(s, width) == if forall i | width <= i < |s| :: s[i] == ' ' then Some(s[..width]) else None
    ensures '\0' in s ==> Column(s, width) == None
    ensures Fits(s, width) <==> '\0' !in s && |s| <= width
  {
  }
}
