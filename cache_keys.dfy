/**
 * Cache keys of the form "product:{id}", with the id written in decimal as
 * PHP's string interpolation writes a non-negative integer.
 */
module CacheKeys {
  import opened Schema

  const Prefix: string := "product:"

  function Digit(d: nat): char
    requires d < 10
  {
    "0123456789"[d]
  }

  /** The decimal digits of `n`, most significant first, without leading zeros. */
  function DecimalString(n: nat): (s: string)
    ensures |s| >= 1
    ensures n < 10 <==> |s| == 1
  {
    if n < 10 then [Digit(n)] else DecimalString(n / 10) + [Digit(n % 10)]
  }

  function CacheKey(id: ProductId): (k: string)
    ensures |k| > |Prefix| && k[..|Prefix|] == Prefix && k[|Prefix|..] == DecimalString(id)
  {
    Prefix + DecimalString(id)
  }

  lemma DigitInjective(a: nat, b: nat)
    requires a < 10 && b < 10 && Digit(a) == Digit(b)
    ensures a == b
  {
  }

  /** Different numbers have different decimal spellings. */
  lemma {:induction false} DecimalStringInjective(n: nat, m: nat)
    requires DecimalString(n) == DecimalString(m)
    ensures n == m
  {
    var s := DecimalString(n);
    if n < 10 {
      DigitInjective(n, m);
    } else {
      assert m >= 10;
      var k := |s| - 1;
      assert s[..k] == DecimalString(n / 10) && s[k] == Digit(n % 10);
      assert s[..k] == DecimalString(m / 10) && s[k] == Digit(m % 10);
      DecimalStringInjective(n / 10, m / 10);
      DigitInjective(n % 10, m % 10);
    }
  }

  /** Two products never share a cache key. */
  lemma CacheKeyInjective(a: ProductId, b: ProductId)
    ensures CacheKey(a) == CacheKey(b) <==> a == b
  {
    if CacheKey(a) == CacheKey(b) {
      DecimalStringInjective(a, b);
    }
  }
}
