/** Fixed-width base62 codes (internal/shared/id/generator.go).  Go's int is 64 bits wide. */
module Base62 {
  import opened Wrappers
  import opened JobModel

  const BASE: nat := 62
  const ALPHABET: string := "0123456789" + "ABCDEFGHIJKLMNOPQRSTUVWXYZ" + "abcdefghijklmnopqrstuvwxyz"

  function DigitChar(d: nat): (c: char)
    requires d < BASE
    ensures c == ALPHABET[d]
  {
    if d < 10 then ('0' as int + d) as char
    else if d < 36 then ('A' as int + d - 10) as char
    else ('a' as int + d - 36) as char
  }

  /** The digits, the capital letters and the small letters, in this order. */
  lemma AlphabetMeans(d: nat)
    requires d < 62
    ensures d < 10 ==> DigitChar(d) as int == '0' as int + d
    ensures 10 <= d < 36 ==> DigitChar(d) as int == 'A' as int + d - 10
    ensures 36 <= d ==> DigitChar(d) as int == 'a' as int + d - 36
    ensures |ALPHABET| == 62 && ALPHABET[d] == DigitChar(d)
  {
  }

  /** The alphabet is written in increasing character order. */
  lemma DigitsIncrease(a: nat, b: nat)
    requires a < b < BASE
    ensures DigitChar(a) < DigitChar(b)
  {
  }

  predicate InAlphabet(c: char) {
    exists d :: 0 <= d < BASE && DigitChar(d) == c
  }

  function DigitOf(c: char): (d: nat)
    requires InAlphabet(c)
    ensures d < BASE && DigitChar(d) == c
  {
    if '0' <= c <= '9' then c as int - '0' as int
    else if 'A' <= c <= 'Z' then 10 + (c as int - 'A' as int)
    else
      assert 'a' <= c <= 'z' by { var d :| 0 <= d < BASE && DigitChar(d) == c; }
      36 + (c as int - 'a' as int)
  }

  predicate IsCode(s: string) {
    forall i :: 0 <= i < |s| ==> InAlphabet(s[i])
  }

  function Pow62(k: nat): (p: nat)
    ensures p > 0
  {
    if k == 0 then 1 else BASE * Pow62(k - 1)
  }

  /** The number a code denotes, most significant digit first. */
  function ValueOf(s: string): nat
    requires IsCode(s)
  {
    if s == "" then 0 else BASE * ValueOf(s[..|s| - 1]) + DigitOf(s[|s| - 1])
  }

  /** The last `k` base62 digits of `n`, most significant first. */
  function Digits(n: nat, k: nat): (s: string)
    ensures |s| == k
  {
    if k == 0 then "" else Digits(n / BASE, k - 1) + [DigitChar(n % BASE)]
  }

  // ---- digit arithmetic ----

  lemma {:induction false} DigitsArePrefixed(n: nat, k: nat)
    ensures Digits(n, k + 1) == [DigitChar(n / Pow62(k) % BASE)] + Digits(n, k)
  {
    if k == 0 {
      assert Digits(n / BASE, 0) == "";
    } else {
      DigitsArePrefixed(n / BASE, k - 1);
      Regroup(n, BASE, Pow62(k - 1));
    }
  }

  /** Dividing by `a` and then by `b` leaves the quotient and remainder of one division by `a * b`. */
  lemma Regroup(n: nat, a: nat, b: nat)
    requires a > 0 && b > 0
    ensures a * b > 0
    ensures n / (a * b) == n / a / b && n % (a * b) == a * (n / a % b) + n % a
  {
    var q, r := n / a, n % a;
    RegroupTerms(n, a, b, q, r, q / b, q % b);
    QuotientUnique(n, a * b, q / b, a * (q % b) + r);
  }

  lemma RegroupTerms(n: int, a: int, b: int, q: int, r: int, q': int, r': int)
    requires a > 0 && b > 0 && n == a * q + r && q == b * q' + r' && 0 <= r < a && 0 <= r' < b
    ensures a * b > 0 && n == (a * b) * q' + (a * r' + r) && 0 <= a * r' + r < a * b
  {
    assert a * q == (a * b) * q' + a * r';
    assert 0 <= a * r' <= a * (b - 1) == a * b - a;
  }

  lemma QuotientUnique(n: int, m: int, q: int, r: int)
    requires m > 0 && n == m * q + r && 0 <= r < m
    ensures n / m == q && n % m == r
  {
    var d := n / m - q;
    assert m * (n / m) + n % m == n;
    assert m * d == r - n % m;
    assert d > 0 ==> m * d >= m;
    assert d < 0 ==> m * d <= -m;
  }

  /** Decoding the `k` digits of `n` gives `n` modulo 62 to the `k`. */
  lemma {:induction false} ValueOfDigits(n: nat, k: nat)
    ensures IsCode(Digits(n, k)) && ValueOf(Digits(n, k)) == n % Pow62(k)
  {
    if k > 0 {
      var s := Digits(n / BASE, k - 1);
      ValueOfDigits(n / BASE, k - 1);
      var c := DigitChar(n % BASE);
      assert InAlphabet(c);
      assert (s + [c])[..k - 1] == s;
      DigitOfChar(n % BASE);
      var p := Pow62(k - 1);
      Regroup(n, BASE, p);
    }
  }

  lemma DigitOfChar(d: nat)
    requires d < BASE
    ensures InAlphabet(DigitChar(d)) && DigitOf(DigitChar(d)) == d
  {
    var e := DigitOf(DigitChar(d));
    if e < d { DigitsIncrease(e, d); } else if d < e { DigitsIncrease(d, e); }
  }

  /** Every code is the digits of its value. */
  lemma {:induction false} DigitsOfValue(s: string)
    requires IsCode(s)
    ensures Digits(ValueOf(s), |s|) == s && ValueOf(s) < Pow62(|s|)
  {
    if s != "" {
      var init, d := s[..|s| - 1], DigitOf(s[|s| - 1]);
      DigitsOfValue(init);
      QuotientUnique(ValueOf(s), BASE, ValueOf(init), d);
      assert s == init + [s[|s| - 1]];
    }
  }

  // ---- order ----

  /** String order on codes of one width. */
  ghost predicate Before(s: string, t: string) {
    exists i :: 0 <= i < |s| && i < |t| && s[..i] == t[..i] && s[i] < t[i]
  }

  /** Fixed-width codes sort as the numbers they stand for. */
  lemma {:induction false} OrderPreserved(a: nat, b: nat, k: nat)
    requires a < Pow62(k) && b < Pow62(k)
    ensures a < b <==> Before(Digits(a, k), Digits(b, k))
  {
    if a < b {
      LessIsBefore(a, b, k);
    } else if b < a {
      LessIsBefore(b, a, k);
      BeforeIsStrict(Digits(b, k), Digits(a, k));
    } else {
      BeforeIrreflexive(Digits(a, k));
    }
  }

  lemma {:induction false} LessIsBefore(a: nat, b: nat, k: nat)
    requires a < b && b < Pow62(k)
    ensures Before(Digits(a, k), Digits(b, k))
  {
    var s, t := Digits(a, k), Digits(b, k);
    var s', t' := Digits(a / BASE, k - 1), Digits(b / BASE, k - 1);
    if a / BASE < b / BASE {
      LessIsBefore(a / BASE, b / BASE, k - 1);
      var i :| 0 <= i < |s'| && i < |t'| && s'[..i] == t'[..i] && s'[i] < t'[i];
      assert s[..i] == s'[..i] && t[..i] == t'[..i];
    } else {
      assert a / BASE == b / BASE && a % BASE < b % BASE;
      DigitsIncrease(a % BASE, b % BASE);
      assert s[..k - 1] == s' == t[..k - 1] && s[k - 1] < t[k - 1];
    }
  }

  lemma PrefixesAgree(s: string, t: string, k: nat)
    requires k <= |s| && k <= |t| && s[..k] == t[..k]
    ensures forall i :: 0 <= i < k ==> s[i] == t[i]
  {
    assert forall i :: 0 <= i < k ==> s[i] == s[..k][i] && t[i] == t[..k][i];
  }

  lemma BeforeIsStrict(s: string, t: string)
    requires Before(s, t)
    ensures !Before(t, s)
  {
    if Before(t, s) {
      var j :| 0 <= j < |s| && j < |t| && t[..j] == s[..j] && t[j] < s[j];
      PrefixesAgree(t, s, j);
      var i :| 0 <= i < |s| && i < |t| && s[..i] == t[..i] && s[i] < t[i];
      PrefixesAgree(s, t, i);
      assert false;
    }
  }

  lemma BeforeIrreflexive(s: string)
    ensures !Before(s, s)
  {
  }

  // ---- the generator ----

  method EncodeFixed(num: int, length: nat) returns (code: string)
    ensures code == if num < 0 then "" else Digits(num, length)
  {
    if num < 0 {
      return "";
    }
    var n := num;
    code := "";
    if n == 0 {
      code := [ALPHABET[0]];
      assert code == Digits(0, 1) by { assert Digits(0, 0) == ""; }
    } else {
      while n > 0
        invariant n == num / Pow62(|code|) && code == Digits(num, |code|)
        invariant n >= 0
        decreases n
      {
        DigitsArePrefixed(num, |code|);
        Regroup(num, Pow62(|code|), BASE);
        code := [ALPHABET[n % BASE]] + code;
        n := n / BASE;
      }
    }
    while |code| < length
      invariant code == Digits(num, |code|) && num / Pow62(|code|) == 0
    {
      DigitsArePrefixed(num, |code|);
      Regroup(num, Pow62(|code|), BASE);
      code := [ALPHABET[0]] + code;
    }
    if |code| > length {
      DigitsSuffix(num, |code|, length);
      code := code[|code| - length..];
    }
  }

  lemma {:induction false} DigitsSuffix(n: nat, k: nat, length: nat)
    requires length <= k
    ensures Digits(n, k)[k - length..] == Digits(n, length)
    decreases k
  {
    if length < k {
      DigitsArePrefixed(n, k - 1);
      DigitsSuffix(n, k - 1, length);
    }
  }

  /** The position of `c` in the alphabet, or -1. */
  method IndexOf(c: char) returns (index: int)
    ensures InAlphabet(c) ==> index == DigitOf(c)
    ensures !InAlphabet(c) ==> index == -1
  {
    index := -1;
    for i := 0 to BASE
      invariant index == -1
      invariant forall k :: 0 <= k < i ==> DigitChar(k) != c
    {
      if ALPHABET[i] == c {
        assert DigitChar(i) == c;
        DigitOfChar(i);
        return i;
      }
    }
  }

  /** Decoding wraps as the machine does: the result is the code's value modulo 2^64. */
  method Decode(code: string) returns (n: Option<int>)
    ensures n.Some? <==> IsCode(code)
    ensures n.Some? ==> n.value == Wrap64(ValueOf(code))
  {
    var result := 0;
    for i := 0 to |code|
      invariant IsCode(code[..i]) && result == Wrap64(ValueOf(code[..i]))
    {
      var index := IndexOf(code[i]);
      if index == -1 {
        assert !InAlphabet(code[i]);
        return None;
      }
      assert code[..i + 1][..i] == code[..i];
      WrapStep(ValueOf(code[..i]), BASE, index);
      result := Wrap64(Wrap64(result * BASE) + index);
    }
    assert code[..|code|] == code;
    n := Some(result);
  }

  lemma WrapCongruent(a: int, k: int)
    ensures Wrap64(a + TWO64 * k) == Wrap64(a)
  {
    var q, r := (a + TWO63) / TWO64, (a + TWO63) % TWO64;
    QuotientUnique(a + TWO64 * k + TWO63, TWO64, q + k, r);
  }

  lemma WrapStep(v: int, m: int, d: int)
    ensures Wrap64(Wrap64(Wrap64(v) * m) + d) == Wrap64(m * v + d)
  {
    var k := (v + TWO63) / TWO64;
    assert v == Wrap64(v) + TWO64 * k;
    var x := Wrap64(v) * m;
    var j := (x + TWO63) / TWO64;
    assert x == Wrap64(x) + TWO64 * j;
    assert m * v + d == Wrap64(x) + d + TWO64 * (j + m * k) by {
      assert m * (TWO64 * k) == TWO64 * (m * k);
      assert m * v == m * Wrap64(v) + m * (TWO64 * k);
    }
    WrapCongruent(Wrap64(x) + d, j + m * k);
  }

  method HashID(id: int, hashLength: nat) returns (hash: string)
    ensures hash == if id < 0 then "" else Digits(id, hashLength)
  {
    hash := EncodeFixed(id, hashLength);
  }

  method ParseHashID(hash: string, hashLength: nat) returns (id: Option<int>)
    ensures id == Parsed(hash, hashLength)
  {
    if |hash| != hashLength {
      return None;
    }
    id := Decode(hash);
  }

  /** What parsing a hash yields. */
  ghost function Parsed(hash: string, hashLength: nat): Option<int> {
    if |hash| == hashLength && IsCode(hash) then Some(Wrap64(ValueOf(hash))) else None
  }

  const SAFE_LENGTH: nat := 11

  lemma {:induction false} SafeLengthHoldsInt64(k: nat)
    requires k >= SAFE_LENGTH
    ensures Pow62(k) >= TWO63
  {
    if k == SAFE_LENGTH {
      assert Pow62(3) == 238328;
      assert Pow62(6) == BASE * (BASE * (BASE * Pow62(3))) == 56800235584;
      assert Pow62(9) == BASE * (BASE * (BASE * Pow62(6))) == 13537086546263552;
      assert Pow62(11) == BASE * (BASE * Pow62(9));
    } else {
      SafeLengthHoldsInt64(k - 1);
    }
  }

  /** Every non-negative int round-trips at the default width or more, and no step of the decoding
      exceeds the number itself. */
  lemma HashRoundTrip(id: nat, hashLength: nat)
    requires id < 0x8000_0000_0000_0000 && hashLength >= 11
    ensures Parsed(Digits(id, hashLength), hashLength) == Some(id)
    ensures forall i :: 0 <= i <= hashLength ==>
              IsCode(Digits(id, hashLength)[..i]) && ValueOf(Digits(id, hashLength)[..i]) <= id
  {
    var s := Digits(id, hashLength);
    ValueOfDigits(id, hashLength);
    SafeLengthHoldsInt64(hashLength);
    QuotientUnique(id, Pow62(hashLength), 0, id);
    forall i | 0 <= i <= hashLength ensures IsCode(s[..i]) && ValueOf(s[..i]) <= id {
      PrefixesAreSmaller(s, i);
    }
  }

  lemma {:induction false} PrefixesAreSmaller(s: string, i: nat)
    requires IsCode(s) && i <= |s|
    ensures IsCode(s[..i]) && ValueOf(s[..i]) <= ValueOf(s)
    decreases |s|
  {
    if i == |s| {
      assert s[..i] == s;
    } else {
      PrefixesAreSmaller(s[..|s| - 1], i);
      assert s[..|s| - 1][..i] == s[..i];
    }
  }

  /** Parsing and hashing again gives the hash back exactly when its value fits in an int: longer
      values wrap. */
  lemma ParseRoundTripIff(hash: string, hashLength: nat)
    requires |hash| == hashLength && IsCode(hash) && hashLength >= 11
    ensures
      var id := Parsed(hash, hashLength).value;
      (id >= 0 && Digits(id, hashLength) == hash) <==> ValueOf(hash) < 0x8000_0000_0000_0000
  {
    DigitsOfValue(hash);
    var id := Parsed(hash, hashLength).value;
    if id >= 0 && Digits(id, hashLength) == hash {
      HashRoundTrip(id, hashLength);
      ValueOfDigits(id, hashLength);
      SafeLengthHoldsInt64(hashLength);
      QuotientUnique(id, Pow62(hashLength), 0, id);
    }
  }
}
