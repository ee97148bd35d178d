/** The Redis key names of the shop cache: `"cache:shop:" + id` and `"lock:shop:" + id`,
    where a Java `Long` is rendered in decimal and a null one as "null". */
module ShopKeys {
  import opened Wrappers

  /** CACHE_SHOP_KEY. */
  const CacheShopKey := "cache:shop:"
  /** The prefix of the rebuild lock. */
  const LockShopKey := "lock:shop:"

  predicate IsDigit(c: char)
  {
    '0' <= c <= '9'
  }

  predicate AllDigits(s: string)
  {
    forall i | 0 <= i < |s| :: IsDigit(s[i])
  }

  function DigitChar(d: nat): (c: char)
    requires d < 10
    ensures IsDigit(c) && c as int - '0' as int == d
  {
    ('0' as int + d) as char
  }

  /** Decimal digits of a natural number, most significant first, without leading zeros. */
  function NatText(n: nat): (s: string)
    ensures |s| >= 1 && AllDigits(s)
    decreases n
  {
    if n < 10 then [DigitChar(n)] else NatText(n / 10) + [DigitChar(n % 10)]
  }

  /** Long.toString: a minus sign before the digits of a negative value. */
  function LongText(x: int): string
  {
    if x < 0 then "-" + NatText(-x) else NatText(x)
  }

  /** String concatenation of a possibly null `Long`. */
  function IdText(id: Option<int>): string
  {
    match id
    case None => "null"
    case Some(x) => LongText(x)
  }

  /** The value a string of decimal digits denotes: the reading partner of NatText. */
  function DigitsValue(s: string): nat
    requires AllDigits(s)
  {
    if s == [] then 0 else 10 * DigitsValue(s[..|s| - 1]) + (s[|s| - 1] as int - '0' as int)
  }

  lemma {:induction false} NatTextRoundTrip(n: nat)
    ensures DigitsValue(NatText(n)) == n
    decreases n
  {
    if n >= 10 {
      NatTextRoundTrip(n / 10);
      var s := NatText(n);
      assert s[..|s| - 1] == NatText(n / 10);
    }
  }

  /** Where the sign of a Long shows in its text. */
  lemma LongTextShape(x: int)
    ensures |LongText(x)| >= 1
    ensures LongText(x)[0] == '-' <==> x < 0
    ensures x < 0 ==> LongText(x)[1..] == NatText(-x)
    ensures x >= 0 ==> LongText(x) == NatText(x)
  {
  }

  /** Different naturals have different digit strings. */
  lemma NatTextInjective(m: nat, n: nat)
    ensures NatText(m) == NatText(n) ==> m == n
  {
    NatTextRoundTrip(m);
    NatTextRoundTrip(n);
  }

  /** Different ids (null included) give different key suffixes. */
  lemma IdTextInjective(a: Option<int>, b: Option<int>)
    ensures IdText(a) == IdText(b) <==> a == b
  {
    if a != b {
      match a
      case None =>
        LongTextShape(b.value);
        assert IdText(a)[0] != IdText(b)[0];
      case Some(x) =>
        LongTextShape(x);
        if b.None? {
          assert IdText(a)[0] != IdText(b)[0];
        } else {
          var y := b.value;
          LongTextShape(y);
          if x < 0 && y < 0 {
            NatTextInjective(-x, -y);
            assert IdText(a)[1..] != IdText(b)[1..];
          } else if x >= 0 && y >= 0 {
            NatTextInjective(x, y);
          } else {
            assert IdText(a)[0] != IdText(b)[0];
          }
        }
    }
  }

  function CacheKey(id: Option<int>): string
  {
    CacheShopKey + IdText(id)
  }

  function LockKey(id: Option<int>): string
  {
    LockShopKey + IdText(id)
  }

  /** Each shop has its own cache key. */
  lemma CacheKeyInjective(a: Option<int>, b: Option<int>)
    ensures CacheKey(a) == CacheKey(b) <==> a == b
  {
    if CacheKey(a) == CacheKey(b) {
      assert IdText(a) == CacheKey(a)[|CacheShopKey|..] == CacheKey(b)[|CacheShopKey|..] == IdText(b);
      IdTextInjective(a, b);
    }
  }

  /** Each shop has its own lock key. */
  lemma LockKeyInjective(a: Option<int>, b: Option<int>)
    ensures LockKey(a) == LockKey(b) <==> a == b
  {
    if LockKey(a) == LockKey(b) {
      assert IdText(a) == LockKey(a)[|LockShopKey|..] == LockKey(b)[|LockShopKey|..] == IdText(b);
      IdTextInjective(a, b);
    }
  }

  /** Cache entries and lock tokens share one keyspace without ever colliding. */
  lemma CacheKeyIsNotLockKey(a: Option<int>, b: Option<int>)
    ensures CacheKey(a) != LockKey(b)
  {
    assert CacheKey(a)[0] == 'c' && LockKey(b)[0] == 'l';
  }
}
