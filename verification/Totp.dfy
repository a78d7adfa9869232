/** One-time codes of backend/auth/auth.go: the counter written as eight bytes,
    the dynamic truncation of section 5.3 of RFC 4226, and the time steps of
    section 4.2 of RFC 6238. HMAC and base32 are parameters. */
module Totp {
  import opened Basics

  // ------------------------------------------------------------- bytes

  function Pow(base: nat, n: nat): (p: nat)
    ensures base > 0 ==> p > 0
  {
    if n == 0 then 1 else base * Pow(base, n - 1)
  }

  /** The `n` lowest bytes of `c`, the most significant first. */
  function BigEndian(c: int, n: nat): (s: seq<byte>)
    ensures |s| == n
    decreases n
  {
    if n == 0 then [] else BigEndian(c / 256, n - 1) + [(c % 256) as byte]
  }

  function Value(s: seq<byte>): nat {
    if s == [] then 0 else Value(s[..|s| - 1]) * 256 + s[|s| - 1] as nat
  }

  /** Reading the bytes gives the number back, up to what `n` bytes can hold;
      eight of them hold the two's complement of any int64. */
  lemma {:induction false} ValueOfBigEndian(c: int, n: nat)
    ensures Value(BigEndian(c, n)) == c % Pow(256, n)
    decreases n
  {
    if n > 0 {
      ValueOfBigEndian(c / 256, n - 1);
      assert BigEndian(c, n)[..n - 1] == BigEndian(c / 256, n - 1);
      SplitRemainder(c, 256, Pow(256, n - 1));
    }
  }

  /** The last digit to base `k`, and the remainder of the others. */
  lemma SplitRemainder(c: int, k: nat, p: nat)
    requires k > 0 && p > 0
    ensures k * p > 0
    ensures c % (k * p) == (c / k) % p * k + c % k
  {
    var q, r, d := c / k / p, c / k % p, c % k;
    Regroup(q, r, d, k, p);
    assert c == c / k * k + d && c / k == q * p + r;
    QuotientAndRemainder(c, k * p, q, r * k + d);
  }

  lemma Regroup(q: int, r: nat, d: nat, k: nat, p: nat)
    requires r < p && d < k
    ensures (q * p + r) * k + d == q * (k * p) + (r * k + d)
    ensures r * k + d < k * p
  {
    assert (q * p + r) * k == q * p * k + r * k;
    assert q * p * k == q * (k * p);
    AtLeastOnce(p - r, k);
    assert (p - r) * k == k * p - r * k;
  }

  lemma EightBytes(counter: int)
    ensures Value(BigEndian(counter, 8)) == counter % 0x1_0000_0000_0000_0000
  {
    ValueOfBigEndian(counter, 8);
    assert Pow(256, 4) == 0x1_0000_0000;
    assert Pow(256, 8) == 0x1_0000_0000_0000_0000;
  }

  /** The shift loop: the lowest byte of the counter goes to the last free
      place, then the counter moves down by eight bits. */
  method WriteCounter(counter: int) returns (msg: array<byte>)
    ensures fresh(msg) && msg[..] == BigEndian(counter, 8)
    ensures Value(msg[..]) == counter % 0x1_0000_0000_0000_0000
  {
    msg := new byte[8];
    var c, i := counter, 7;
    while i >= 0
      invariant -1 <= i <= 7
      invariant BigEndian(counter, 8) == BigEndian(c, i + 1) + msg[i + 1..]
    {
      ghost var done := msg[i + 1..];
      msg[i] := (c % 256) as byte;
      assert msg[i..] == [(c % 256) as byte] + done;
      c := c / 256;
      i := i - 1;
    }
    EightBytes(counter);
  }

  // --------------------------------------------------------------- bits

  /** Go's `&`, `|` and `<<` on numbers that are not negative. */
  function And(a: nat, b: nat): nat {
    if a == 0 || b == 0 then 0 else 2 * And(a / 2, b / 2) + (a % 2) * (b % 2)
  }

  function Or(a: nat, b: nat): nat {
    if a == 0 then b else if b == 0 then a
    else 2 * Or(a / 2, b / 2) + if a % 2 == 1 || b % 2 == 1 then 1 else 0
  }

  function Shift(a: nat, n: nat): nat {
    a * Pow(2, n)
  }

  /** The bit of weight 2^k. */
  function Bit(a: nat, k: nat): nat {
    if k == 0 then a % 2 else Bit(a / 2, k - 1)
  }

  /** Both work bit by bit. */
  lemma {:induction false} BitByBit(a: nat, b: nat, k: nat)
    ensures Bit(And(a, b), k) == 1 <==> Bit(a, k) == 1 && Bit(b, k) == 1
    ensures Bit(Or(a, b), k) == 1 <==> Bit(a, k) == 1 || Bit(b, k) == 1
    decreases k
  {
    BitOfZero(k);
    if k > 0 {
      BitByBit(a / 2, b / 2, k - 1);
      BitOfZero(k - 1);
    }
  }

  lemma {:induction false} BitOfZero(k: nat)
    ensures Bit(0, k) == 0
  {
    if k > 0 {
      BitOfZero(k - 1);
    }
  }

  /** A mask of `n` ones keeps the remainder. */
  lemma {:induction false} MaskIsRemainder(a: nat, n: nat)
    ensures And(a, Pow(2, n) - 1) == a % Pow(2, n)
    decreases n
  {
    hide And;
    if n == 0 {
      NoMask(a);
    } else {
      MaskIsRemainder(a / 2, n - 1);
      OneMoreOne(a, Pow(2, n - 1));
    }
  }

  lemma OneMoreOne(a: nat, p: nat)
    requires p > 0 && And(a / 2, p - 1) == a / 2 % p
    ensures And(a, 2 * p - 1) == a % (2 * p)
  {
    hide And;
    AndOfOdd(a, p);
    SplitRemainder(a, 2, p);
  }

  lemma NoMask(a: nat)
    ensures And(a, 0) == 0
  {
  }

  lemma AndOfOdd(a: nat, p: nat)
    requires p > 0
    ensures And(a, 2 * p - 1) == 2 * And(a / 2, p - 1) + a % 2
  {
    assert (2 * p - 1) / 2 == p - 1 && (2 * p - 1) % 2 == 1;
  }

  /** Bits that do not meet add up. */
  lemma {:induction false} OrOfParts(a: nat, b: nat, n: nat)
    requires b < Pow(2, n)
    ensures Or(Shift(a, n), b) == Shift(a, n) + b
  {
    if n > 0 && a > 0 && b > 0 {
      assert Shift(a, n) == 2 * Shift(a, n - 1);
      assert Shift(a, n - 1) > 0;
      OrOfParts(a, b / 2, n - 1);
    }
  }

  // --------------------------------------------------------- truncation

  /** The low four bits of the last byte say where to read. */
  function Offset(hash: seq<byte>): (o: nat)
    requires |hash| == 20
    ensures o + 3 < |hash|
  {
    MaskIsRemainder(hash[19] as nat, 4);
    And(hash[19] as nat, 0x0f)
  }

  function Truncate(hash: seq<byte>): nat
    requires |hash| == 20
  {
    var o := Offset(hash);
    Or(Or(Or(Shift(And(hash[o] as nat, 0x7f), 24),
             Shift(And(hash[o + 1] as nat, 0xff), 16)),
          Shift(And(hash[o + 2] as nat, 0xff), 8)),
       And(hash[o + 3] as nat, 0xff))
  }

  lemma Powers()
    ensures Pow(2, 4) == 16 && Pow(2, 7) == 128 && Pow(2, 8) == 256
    ensures Pow(2, 16) == 0x1_0000 && Pow(2, 24) == 0x100_0000
  {
    assert Pow(2, 4) == 16;
    assert Pow(2, 8) == 256;
    assert Pow(2, 12) == 4096;
    assert Pow(2, 16) == 0x1_0000;
    assert Pow(2, 20) == 0x10_0000;
  }

  lemma Shifts(a: nat)
    ensures Shift(a, 8) == a * 0x100 && Shift(a, 16) == a * 0x1_0000 && Shift(a, 24) == a * 0x100_0000
  {
    hide Pow;
    Powers();
  }

  lemma Assemble(a: nat, b: nat, c: nat, d: nat)
    requires b < 256 && c < 256 && d < 256
    ensures Or(Or(Or(Shift(a, 24), Shift(b, 16)), Shift(c, 8)), d) == a * 0x100_0000 + b * 0x1_0000 + c * 0x100 + d
  {
    hide Or, Pow, Shift;
    Powers();
    Shifts(a);
    Shifts(b);
    Shifts(c);
    Shifts(a * 256 + b);
    Shifts((a * 256 + b) * 256 + c);
    OrOfParts(a, Shift(b, 16), 24);
    OrOfParts(a * 256 + b, Shift(c, 8), 16);
    OrOfParts((a * 256 + b) * 256 + c, d, 8);
  }

  lemma ValueOfFour(s: seq<byte>)
    requires |s| == 4
    ensures Value(s) == s[0] as nat * 0x100_0000 + s[1] as nat * 0x1_0000 + s[2] as nat * 0x100 + s[3] as nat
  {
    assert s[..3][..2] == s[..2] && s[..2][..1] == s[..1] && s[..1][..0] == [];
    assert Value(s[..1]) == s[0] as nat;
    assert Value(s[..2]) == s[0] as nat * 256 + s[1] as nat;
    assert Value(s[..3]) == Value(s[..2]) * 256 + s[2] as nat;
  }

  lemma MaskedBytes(a: byte)
    ensures And(a as nat, 0x7f) == a as nat % 128 && And(a as nat, 0xff) == a as nat
    ensures And(a as nat, 0x0f) == a as nat % 16
  {
    hide And, Pow;
    Powers();
    MaskIsRemainder(a as nat, 7);
    MaskIsRemainder(a as nat, 8);
    MaskIsRemainder(a as nat, 4);
  }

  /** The shifted and masked bytes, put together bit by bit, are the big-endian
      number of the four bytes at the offset with its top bit taken off. */
  lemma TruncationMeaning(hash: seq<byte>)
    requires |hash| == 20
    ensures Offset(hash) == hash[19] as nat % 16
    ensures Truncate(hash) == Value(hash[Offset(hash)..Offset(hash) + 4]) % 0x8000_0000
  {
    hide And, Or, Shift, Value;
    MaskedBytes(hash[19]);
    var o := Offset(hash);
    MaskedBytes(hash[o]);
    MaskedBytes(hash[o + 1]);
    MaskedBytes(hash[o + 2]);
    MaskedBytes(hash[o + 3]);
    var a, b, c, d := hash[o] as nat % 128, hash[o + 1] as nat, hash[o + 2] as nat, hash[o + 3] as nat;
    Assemble(a, b, c, d);
    ValueOfFour(hash[o..o + 4]);
  }

  // -------------------------------------------------------------- digits

  function Zeros(n: nat): string {
    if n == 0 then "" else "0" + Zeros(n - 1)
  }

  /** `%06d`. */
  function SixDigits(n: nat): string {
    Zeros(if |Decimal(n)| < 6 then 6 - |Decimal(n)| else 0) + Decimal(n)
  }

  predicate IsDigit(c: char) {
    '0' <= c <= '9'
  }

  function Digit(c: char): nat
    requires IsDigit(c)
  {
    c as int - '0' as int
  }

  function Parse(s: string): nat
    requires forall i | 0 <= i < |s| :: IsDigit(s[i])
  {
    if s == [] then 0 else Parse(s[..|s| - 1]) * 10 + Digit(s[|s| - 1])
  }

  lemma {:induction false} DecimalParses(n: nat, width: nat)
    requires n < Pow(10, width) && width > 0
    ensures 0 < |Decimal(n)| <= width
    ensures forall i | 0 <= i < |Decimal(n)| :: IsDigit(Decimal(n)[i])
    ensures Parse(Decimal(n)) == n
  {
    var s := Decimal(n);
    if n >= 10 {
      DecimalParses(n / 10, width - 1);
      assert s[..|s| - 1] == Decimal(n / 10);
    }
  }

  lemma {:induction false} LeadingZeros(zeros: nat, s: string)
    requires forall i | 0 <= i < |s| :: IsDigit(s[i])
    ensures |Zeros(zeros)| == zeros && forall i | 0 <= i < zeros :: Zeros(zeros)[i] == '0'
    ensures Parse(Zeros(zeros) + s) == Parse(s)
    decreases zeros + |s|
  {
    ZerosAreZeros(zeros);
    var all := Zeros(zeros) + s;
    if s != [] {
      assert all[..|all| - 1] == Zeros(zeros) + s[..|s| - 1];
      LeadingZeros(zeros, s[..|s| - 1]);
    } else if zeros > 0 {
      assert all[..|all| - 1] == Zeros(zeros - 1) + [] by {
        ZerosAreZeros(zeros - 1);
      }
      LeadingZeros(zeros - 1, []);
    }
  }

  lemma {:induction false} ZerosAreZeros(n: nat)
    ensures |Zeros(n)| == n && forall i | 0 <= i < n :: Zeros(n)[i] == '0'
  {
    if n > 0 {
      ZerosAreZeros(n - 1);
    }
  }

  lemma SixDigitsMeaning(n: nat)
    requires n < 1_000_000
    ensures |SixDigits(n)| == 6
    ensures forall i | 0 <= i < 6 :: IsDigit(SixDigits(n)[i])
    ensures Parse(SixDigits(n)) == n
  {
    assert Pow(10, 6) == 1_000_000 by {
      assert Pow(10, 3) == 1000;
    }
    DecimalParses(n, 6);
    LeadingZeros(6 - |Decimal(n)|, Decimal(n));
  }

  // --------------------------------------------------------------- codes

  /** Seconds since 1970, of an instant counted from year 1. */
  function Unix(now: Time): int {
    now / SECOND - 62_135_596_800
  }

  /** `Unix() / 30`, which Go rounds towards zero. */
  function Counter(now: Time): int {
    if Unix(now) >= 0 then Unix(now) / 30 else -((-Unix(now)) / 30)
  }

  /** The counter is how many whole steps of 30 seconds have passed since the
      first instant of 1970, which is 719162 days after that of year 1; before
      it, how many are to come, counted down. */
  lemma CounterMeaning(now: Time)
    ensures var since := now / SECOND - 719162 * 24 * 60 * 60;
            && (since >= 0 ==> 30 * Counter(now) <= since < 30 * Counter(now) + 30)
            && (since <= 0 ==> 30 * Counter(now) - 30 < since <= 30 * Counter(now))
  {
  }

  /** HMAC-SHA1 as far as it matters here: twenty bytes. */
  type Hmac = h: (seq<byte>, seq<byte>) -> seq<byte> | forall k, m :: |h(k, m)| == 20 witness (k, m) => seq(20, i => 0)

  /** `key` is what base32 makes of the secret, if it can. */
  function CodeFor(hmac: Hmac, key: Option<seq<byte>>, counter: int): string {
    if key.None? then "" else SixDigits(Truncate(hmac(key.value, BigEndian(counter, 8))) % 1_000_000)
  }

  method GenerateCode(hmac: Hmac, key: Option<seq<byte>>, now: Time) returns (code: string)
    ensures code == CodeFor(hmac, key, Counter(now))
  {
    if key.None? {
      return "";
    }
    var msg := WriteCounter(Counter(now));
    var hash := hmac(key.value, msg[..]);
    return SixDigits(Truncate(hash) % 1_000_000);
  }

  /** The code is what the standard asks for: the last six decimal digits of
      the 31-bit number at the offset. */
  lemma CodeMeaning(hmac: Hmac, key: seq<byte>, counter: int)
    ensures var code, hash := CodeFor(hmac, Some(key), counter), hmac(key, BigEndian(counter, 8));
            var o := hash[19] as nat % 16;
            && |code| == 6 && (forall i | 0 <= i < 6 :: IsDigit(code[i]))
            && Parse(code) == Value(hash[o..o + 4]) % 0x8000_0000 % 1_000_000
  {
    hide SixDigits, Truncate, Value, Parse, BigEndian;
    var hash := hmac(key, BigEndian(counter, 8));
    TruncationMeaning(hash);
    SixDigitsMeaning(Truncate(hash) % 1_000_000);
  }

  predicate ValidateCode(hmac: Hmac, key: Option<seq<byte>>, code: string, now: Time) {
    CodeFor(hmac, key, Counter(now)) == code
  }

  /** From 1970 on, a code is accepted throughout the 30-second step it was
      made in, and the message authenticated is another in every other step. */
  lemma StepsOfThirtySeconds(hmac: Hmac, key: Option<seq<byte>>, made: Time, now: Time)
    requires Unix(made) >= 0 && Unix(now) >= 0 && Counter(made) < 0x8000_0000_0000_0000
    requires Counter(now) < 0x8000_0000_0000_0000
    ensures Counter(made) == Counter(now) <==> Unix(made) / 30 == Unix(now) / 30
    ensures BigEndian(Counter(made), 8) == BigEndian(Counter(now), 8) <==> Unix(made) / 30 == Unix(now) / 30
    ensures Unix(made) / 30 == Unix(now) / 30 ==> ValidateCode(hmac, key, CodeFor(hmac, key, Counter(made)), now)
  {
    hide BigEndian, Value, Truncate, SixDigits, Pow;
    EightBytes(Counter(made));
    EightBytes(Counter(now));
  }

  /** The second factor of `Login`: asked for when the user has a secret. */
  predicate SecondFactor(hmac: Hmac, secret: Option<string>, decode: string -> Option<seq<byte>>, code: string,
                         now: Time) {
    secret.None? || secret.value == "" || (code != "" && ValidateCode(hmac, decode(secret.value), code, now))
  }

  /** A user with a secret passes exactly with the six digits of the moment;
      with a secret that cannot be decoded, with nothing at all. */
  lemma SecondFactorIff(hmac: Hmac, secret: string, decode: string -> Option<seq<byte>>, code: string, now: Time)
    requires secret != ""
    ensures SecondFactor(hmac, Some(secret), decode, code, now) <==>
              decode(secret).Some? && code == CodeFor(hmac, decode(secret), Counter(now))
  {
    hide SixDigits, Truncate, BigEndian;
    if decode(secret).Some? {
      CodeMeaning(hmac, decode(secret).value, Counter(now));
    }
  }
}
