/** Resolving a configuration (config/config.go), what the engine then insists on
    (limiter/validate.go, registry.New), and the shard index it makes possible. */
module Configs {
  import opened Reals

  // -------------------------------------------------------------- bit arithmetic

  function Pow2(k: nat): nat {
    if k == 0 then 1 else 2 * Pow2(k - 1)
  }

  /** a & b */
  function And(a: nat, b: nat): nat
    decreases a
  {
    if a == 0 || b == 0 then 0 else 2 * And(a / 2, b / 2) + (a % 2) * (b % 2)
  }

  /** a ^ b */
  function Xor(a: nat, b: nat): nat
    decreases a + b
  {
    if a == 0 then b else if b == 0 then a else 2 * Xor(a / 2, b / 2) + (a + b) % 2
  }

  ghost predicate PowerOfTwo(n: int) {
    exists k: nat :: n == Pow2(k)
  }

  lemma {:induction false} AndSelf(a: nat)
    ensures And(a, a) == a
    decreases a
  {
    if a > 0 {
      AndSelf(a / 2);
      if a % 2 == 0 {
        assert And(a, a) == 2 * And(a / 2, a / 2);
      } else {
        assert And(a, a) == 2 * And(a / 2, a / 2) + 1;
      }
    }
  }

  /** The test `n & (n-1) == 0` is exactly "n is a power of two". */
  lemma {:induction false} PowerTest(n: nat)
    requires n > 0
    ensures And(n, n - 1) == 0 <==> PowerOfTwo(n)
    decreases n
  {
    if n == 1 {
      assert n == Pow2(0);
    } else if n % 2 == 0 {
      PowerTest(n / 2);
      assert (n - 1) / 2 == n / 2 - 1;
      if PowerOfTwo(n / 2) {
        var k: nat :| n / 2 == Pow2(k);
        assert n == Pow2(k + 1);
      }
      if PowerOfTwo(n) {
        var k: nat :| n == Pow2(k);
        assert n / 2 == Pow2(k - 1);
      }
    } else {
      AndSelf(n / 2);
      assert (n - 1) / 2 == n / 2;
      forall k: nat
        ensures n != Pow2(k)
      {
        assert k > 0 ==> Pow2(k) == 2 * Pow2(k - 1);
      }
    }
  }

  lemma OddMask(h: nat, p: nat)
    requires p > 0
    ensures And(h, 2 * p - 1) == 2 * And(h / 2, p - 1) + h % 2
  {
    assert (2 * p - 1) / 2 == p - 1 && (2 * p - 1) % 2 == 1;
  }

  /** Masking with a power of two less one is the remainder. */
  lemma {:induction false} MaskIsRemainder(h: nat, k: nat)
    ensures Pow2(k) > 0 && And(h, Pow2(k) - 1) == h % Pow2(k)
    decreases k
  {
    if k > 0 {
      var p := Pow2(k - 1);
      MaskIsRemainder(h / 2, k - 1);
      assert Pow2(k) == 2 * p;
      OddMask(h, p);
      HalvedRemainder(h, p);
    }
  }

  lemma HalvedRemainder(h: nat, p: nat)
    requires p > 0
    ensures h % (2 * p) == 2 * ((h / 2) % p) + h % 2
  {
    var q := h / 2 / p;
    assert h / 2 == q * p + (h / 2) % p;
    assert q * (2 * p) == 2 * (q * p);
    Remainder(h, 2 * p, q, 2 * ((h / 2) % p) + h % 2);
  }

  lemma Multiples(m: int, d: int)
    requires m > 0
    ensures d >= 1 ==> d * m >= m
    ensures d <= -1 ==> d * m <= -m
  {
  }

  lemma Remainder(h: int, m: int, q: int, r: int)
    requires m > 0 && h == q * m + r && 0 <= r < m
    ensures h % m == r
  {
    assert h == h / m * m + h % m;
    assert (h / m - q) * m == r - h % m;
    Multiples(m, h / m - q);
  }

  // -------------------------------------------------------------- the shard index

  type Byte = b: int | 0 <= b < 256

  const OFFSET: nat := 2166136261
  const PRIME: nat := 16777619
  const WORD: nat := 0x1_0000_0000

  /** 32-bit FNV-1a over raw bytes. */
  function Fnv(s: seq<Byte>): nat {
    if s == [] then OFFSET else Xor(Fnv(s[..|s| - 1]), s[|s| - 1]) * PRIME % WORD
  }

  lemma XorStep(a: nat, b: nat, half: nat)
    requires a > 0 && b > 0 && Xor(a / 2, b / 2) == half
    ensures Xor(a, b) == 2 * half + (a + b) % 2
  {
  }

  /** Two of the function's published test vectors. */
  lemma FnvVectors()
    ensures Fnv([]) == 0x811C9DC5 && Fnv([97]) == 0xE40C292C
  {
    assert [97][..0] == [];
    XorStep(33845879, 1, 16922939);
    XorStep(67691758, 3, 33845878);
    XorStep(135383516, 6, 67691757);
    XorStep(270767032, 12, 135383514);
    XorStep(541534065, 24, 270767028);
    XorStep(1083068130, 48, 541534057);
    XorStep(2166136261, 97, 1083068114);
    assert Xor(OFFSET, 97) == 2166136228;
  }

  function Shard(key: seq<Byte>, shards: nat): (i: nat)
    requires shards > 0
    ensures i < shards
  {
    Fnv(key) % shards
  }

  /** With the mask of a power-of-two count, shardIndex is the hash modulo that count
      and so always in range. */
  method ShardIndex(s: seq<Byte>, shards: nat) returns (i: nat)
    requires shards > 0 && PowerOfTwo(shards)
    ensures i == Shard(s, shards) < shards
  {
    var h := OFFSET;
    for n := 0 to |s|
      invariant h == Fnv(s[..n])
    {
      assert s[..n + 1][..n] == s[..n];
      h := Xor(h, s[n]);
      h := h * PRIME % WORD;
    }
    assert s[..|s|] == s;
    ghost var k: nat :| shards == Pow2(k);
    MaskIsRemainder(h, k);
    i := And(h, shards - 1);
  }

  // ----------------------------------------------------------------- the settings

  const MAX_SHARDS: int := 0x10_0000
  const DEFAULT_SHARDS: int := 256

  /** p is the least power of two at or above n. */
  ghost predicate LeastPower(p: int, n: int) {
    PowerOfTwo(p) && p >= n && forall q :: PowerOfTwo(q) && q >= n ==> p <= q
  }

  function Bounded(n: int): int {
    if n > MAX_SHARDS then MAX_SHARDS else n
  }

  lemma {:induction false} Pow2Grows(i: nat, j: nat)
    requires i < j
    ensures 2 * Pow2(i) <= Pow2(j)
    decreases j
  {
    if i < j - 1 {
      Pow2Grows(i, j - 1);
    }
  }

  lemma ShardBoundsArePowers()
    ensures Pow2(8) == DEFAULT_SHARDS && Pow2(20) == MAX_SHARDS
  {
    assert Pow2(4) == 16;
    assert Pow2(12) == 16 * Pow2(8);
    assert Pow2(16) == 16 * Pow2(12);
    assert Pow2(20) == 16 * Pow2(16);
  }

  method RoundUpPowerOfTwo(n: int) returns (p: int)
    ensures PowerOfTwo(p) && 1 <= p <= MAX_SHARDS
    ensures n <= 0 ==> p == DEFAULT_SHARDS
    ensures n > 0 ==> LeastPower(p, Bounded(n))
  {
    ShardBoundsArePowers();
    if n <= 0 {
      return DEFAULT_SHARDS;
    }
    var m := if n > MAX_SHARDS then MAX_SHARDS else n;
    p := 1;
    ghost var k: nat := 0;
    while p < m
      invariant p == Pow2(k) && k <= 20
      invariant k > 0 ==> Pow2(k - 1) < m
      decreases m - p
    {
      if k >= 20 {
        assert false;
      }
      p := p * 2;
      k := k + 1;
      if k < 20 {
        Pow2Grows(k, 20);
      }
    }
    forall q | PowerOfTwo(q) && q >= m
      ensures p <= q
    {
      var j: nat :| q == Pow2(j);
      if j < k {
        if j < k - 1 {
          Pow2Grows(j, k - 1);
        }
        assert false;
      } else if k < j {
        Pow2Grows(k, j);
      }
    }
    if k < 20 {
      Pow2Grows(k, 20);
    }
  }

  datatype Config = Config(
    baseURL: bool,       // present and well formed
    rate: Float,
    burst: int,
    shards: int,
    idleExpiry: int,
    gcInterval: int,
    storeTimeout: int,
    sharedTimeout: int,
    clock: bool,         // supplied
    logger: bool,
    transport: bool)

  datatype Verdict = Resolved(config: Config) | Rejected(field: string)

  predicate UsableRate(r: Float) {
    r.PosInf? || (r.Number? && r.value > 0.0)
  }

  /** math.MaxFloat64, which stands for no limit: (2^53 - 1) * 2^971. */
  const MAX_FLOAT: real := 179769313486231570814527423731704356798070567525844996598917476803157260780028538760589558632766878171540458953514382464234321326889464182768467546703537516986049910576551282076245490090389328944075868508455133942304583236903222948165808559332123348274797826204144723168738177180919299881250404026184124858368.0

  /** bucket.Finite */
  function Finite(r: Float): Float {
    if r.PosInf? || r.NegInf? then Number(MAX_FLOAT) else r
  }

  /** Config.validate: the first invalid field. */
  function Invalid(c: Config): string {
    if !c.baseURL then "BaseURL"
    else if !UsableRate(c.rate) then "Quota"
    else if c.shards > MAX_SHARDS then "Shards"
    else ""
  }

  /** limiter.validate does not panic. Its `Shards & (Shards-1) == 0`, which
      registry.New repeats, is PowerOfTwo by PowerTest. */
  ghost predicate EngineAccepts(c: Config) {
    && UsableRate(c.rate) && c.burst > 0
    && c.clock && c.logger
    && c.shards > 0 && PowerOfTwo(c.shards)
    && c.idleExpiry > 0 && c.gcInterval > 0 && c.storeTimeout > 0
  }

  /** c is cfg with every optional field filled in: what was given stays, an infinite rate
      becomes the largest number, and the shard count the least power of two that will do. */
  ghost predicate FilledIn(cfg: Config, c: Config) {
    && c.baseURL == cfg.baseURL && c.rate == (if cfg.rate.Number? then cfg.rate else Number(MAX_FLOAT))
    && c.burst == (if cfg.burst > 0 then cfg.burst else 1)
    && c.idleExpiry == (if cfg.idleExpiry > 0 then cfg.idleExpiry else 600_000_000_000)
    && c.gcInterval == (if cfg.gcInterval > 0 then cfg.gcInterval else 60_000_000_000)
    && c.storeTimeout == (if cfg.storeTimeout > 0 then cfg.storeTimeout else 5_000_000_000)
    && c.sharedTimeout == (if cfg.sharedTimeout > 0 then cfg.sharedTimeout else 500_000_000)
    && c.clock && c.logger && c.transport
    && if cfg.shards <= 0 then c.shards == DEFAULT_SHARDS else LeastPower(c.shards, cfg.shards)
  }

  method WithDefaults(cfg: Config) returns (c: Config)
    requires Invalid(cfg) == ""
    ensures EngineAccepts(c) && FilledIn(cfg, c)
  {
    var rate := Finite(cfg.rate);
    var burst, idleExpiry, gcInterval := cfg.burst, cfg.idleExpiry, cfg.gcInterval;
    var storeTimeout, sharedTimeout := cfg.storeTimeout, cfg.sharedTimeout;
    if burst <= 0 {
      burst := 1;
    }
    var shards := RoundUpPowerOfTwo(cfg.shards);
    if idleExpiry <= 0 {
      idleExpiry := 600 * SECOND;
    }
    if gcInterval <= 0 {
      gcInterval := 60 * SECOND;
    }
    if storeTimeout <= 0 {
      storeTimeout := 5 * SECOND;
    }
    if sharedTimeout <= 0 {
      sharedTimeout := 500_000_000;
    }
    // The clock, the logger and the transport fall back to the standard ones.
    c := Config(cfg.baseURL, rate, burst, shards, idleExpiry, gcInterval, storeTimeout, sharedTimeout,
                true, true, true);
  }

  /** Resolve never hands on a configuration the engine or the registry would refuse,
      rejects exactly the ones naming no usable rate, base URL or shard count, and
      changes nothing that was already resolved. */
  method Resolve(cfg: Config) returns (v: Verdict)
    ensures v.Resolved? <==> cfg.baseURL && UsableRate(cfg.rate) && cfg.shards <= MAX_SHARDS
    ensures v.Resolved? ==> EngineAccepts(v.config) && FilledIn(cfg, v.config)
    ensures v.Rejected? ==>
              v.field == if !cfg.baseURL then "BaseURL" else if !UsableRate(cfg.rate) then "Quota" else "Shards"
    ensures v.Resolved? && EngineAccepts(cfg) && cfg.rate.Number? && cfg.sharedTimeout > 0 && cfg.transport
            ==> v.config == cfg
  {
    var field := Invalid(cfg);
    if field != "" {
      return Rejected(field);
    }
    var c := WithDefaults(cfg);
    return Resolved(c);
  }
}
