/**
 The text by which the gateway tells whether a configuration is the one it already has an
 adapter for: what two configurations with the same text are sure to have in common.
 */
module PaymentFingerprint {
  import opened Wrappers
  import opened PaymentConfig
  import opened Text

  predicate BarFree(s: string) {
    forall i :: 0 <= i < |s| ==> s[i] != '|'
  }

  // --- the 32-bit hash ------------------------------------------------------------------

  const TWO_31 := 0x8000_0000
  const TWO_32 := 0x1_0000_0000

  /** A number as a signed 32-bit word holds it. */
  function Wrap32(n: int): int {
    (n + TWO_31) % TWO_32 - TWO_31
  }

  /** The same word without its sign. */
  function Unsigned(n: int): nat {
    n % TWO_32
  }

  function HashOf(value: string): nat {
    if value == "" then 0 else (HashOf(value[..|value| - 1]) * 31 + value[|value| - 1] as int) % TWO_32
  }

  lemma WrappingKeepsTheWord(n: int)
    ensures Unsigned(Wrap32(n)) == Unsigned(n)
  {
  }

  lemma SameWordSameStep(a: int, b: nat, c: int)
    requires Unsigned(a) == b
    ensures Unsigned(Wrap32(Wrap32(a * 31) + c)) == (b * 31 + c) % TWO_32
  {
    WrappingKeepsTheWord(Wrap32(a * 31) + c);
    WrappingKeepsTheWord(a * 31);
    var q := a / TWO_32;
    assert a == q * TWO_32 + b;
    assert a * 31 == 31 * q * TWO_32 + b * 31;
    var p := (Wrap32(a * 31) - a * 31) / TWO_32;
    Multiple(a * 31);
    assert Wrap32(a * 31) == a * 31 + p * TWO_32;
    Shifted(b * 31 + c, 31 * q + p);
  }

  lemma Multiple(n: int)
    ensures (Wrap32(n) - n) % TWO_32 == 0
  {
  }

  lemma Shifted(n: int, k: int)
    ensures (n + k * TWO_32) % TWO_32 == n % TWO_32
  {
  }

  /** The loop over signed words comes to the sum modulo 2^32. */
  method Hash(value: string) returns (s: string)
    ensures s == Base36(HashOf(value))
  {
    var h := 0;
    for i := 0 to |value|
      invariant Unsigned(h) == HashOf(value[..i])
    {
      assert value[..i + 1][..i] == value[..i];
      SameWordSameStep(h, HashOf(value[..i]), value[i] as int);
      h := Wrap32(Wrap32(h * 31) + value[i] as int);
    }
    assert value[..|value|] == value;
    return Base36(Unsigned(h));
  }

  // --- the fingerprint ------------------------------------------------------------------

  const DEPLOYMENT := "deployment"

  function CredentialMark(c: Config): string {
    OrElse(c.credentialId, DEPLOYMENT)
  }

  function SourceMark(c: Config): string {
    if c.settingsSource.FromDatabase? then "database" else "environment"
  }

  /** A key leaves its length and its hash, never itself. */
  function KeyMark(prefix: string, key: string): string {
    prefix + Decimal(|key|) + ":" + Base36(HashOf(key))
  }

  function Bar(a: string, b: string): string {
    a + "|" + b
  }

  /** All that stands before the generation. */
  function Front(c: Config): string {
    Bar(Bar(Bar(SourceMark(c), c.apiVersion), c.successUrl), c.cancelUrl)
  }

  /** Source, version and addresses; then generation and keys. */
  function Fingerprint(c: Config): string {
    Bar(Bar(Bar(Front(c), CredentialMark(c)), KeyMark("sk:", c.secretKey)), KeyMark("wh:", c.webhookSecret))
  }

  /** An identifier of a generation is no text of the fingerprint's own. */
  predicate IsCredentialId(id: string) {
    id != DEPLOYMENT && BarFree(id)
  }

  predicate GoodId(c: Config) {
    c.credentialId.Some? ==> IsCredentialId(c.credentialId.value)
  }

  /** The last bar can be found again. */
  lemma SplitAtLastBar(a: string, x: string, b: string, y: string)
    requires Bar(a, x) == Bar(b, y) && BarFree(x) && BarFree(y)
    ensures a == b && x == y
  {
    var s := Bar(a, x);
    assert s[|a|] == '|' && s[|b|] == '|';
    assert s[..|a|] == a && s[..|b|] == b;
    assert s[|a| + 1..] == x && s[|b| + 1..] == y;
  }

  lemma SplitAtLastThreeBars(a: string, x: string, y: string, z: string, b: string, u: string, v: string, t: string)
    requires Bar(Bar(Bar(a, x), y), z) == Bar(Bar(Bar(b, u), v), t)
    requires BarFree(x) && BarFree(y) && BarFree(z) && BarFree(u) && BarFree(v) && BarFree(t)
    ensures a == b && x == u && y == v && z == t
  {
    SplitAtLastBar(Bar(Bar(a, x), y), z, Bar(Bar(b, u), v), t);
    SplitAtLastBar(Bar(a, x), y, Bar(b, u), v);
    SplitAtLastBar(a, x, b, u);
  }

  lemma KeyMarkIsBarFree(prefix: string, key: string)
    requires BarFree(prefix)
    ensures BarFree(KeyMark(prefix, key))
  {
  }

  /** Whatever the addresses contain, equal fingerprints name the same generation and equally marked keys. */
  lemma FingerprintNamesTheGeneration(c: Config, d: Config)
    requires GoodId(c) && GoodId(d) && Fingerprint(c) == Fingerprint(d)
    ensures c.credentialId == d.credentialId
    ensures KeyMark("sk:", c.secretKey) == KeyMark("sk:", d.secretKey)
    ensures KeyMark("wh:", c.webhookSecret) == KeyMark("wh:", d.webhookSecret)
    ensures Front(c) == Front(d)
  {
    KeyMarkIsBarFree("wh:", c.webhookSecret);
    KeyMarkIsBarFree("wh:", d.webhookSecret);
    KeyMarkIsBarFree("sk:", c.secretKey);
    KeyMarkIsBarFree("sk:", d.secretKey);
    assert BarFree(CredentialMark(c)) && BarFree(CredentialMark(d));
    SplitAtLastThreeBars(Front(c), CredentialMark(c), KeyMark("sk:", c.secretKey), KeyMark("wh:", c.webhookSecret),
                         Front(d), CredentialMark(d), KeyMark("sk:", d.secretKey), KeyMark("wh:", d.webhookSecret));
  }

  /** Configurations of the same generation, with the same keys and no bar in their texts, are told apart. */
  lemma FingerprintSeparatesGenerations(c: Config, d: Config)
    requires GoodId(c) && GoodId(d) && Fingerprint(c) == Fingerprint(d)
    requires BarFree(c.apiVersion) && BarFree(d.apiVersion) && BarFree(c.successUrl) && BarFree(d.successUrl)
    requires BarFree(c.cancelUrl) && BarFree(d.cancelUrl)
    requires c.credentialId == d.credentialId ==>
               c.secretKey == d.secretKey && c.webhookSecret == d.webhookSecret && c.keySource == d.keySource
    ensures c == d
  {
    FingerprintNamesTheGeneration(c, d);
    SplitAtLastBar(Bar(Bar(SourceMark(c), c.apiVersion), c.successUrl), c.cancelUrl,
                   Bar(Bar(SourceMark(d), d.apiVersion), d.successUrl), d.cancelUrl);
    SplitAtLastBar(Bar(SourceMark(c), c.apiVersion), c.successUrl, Bar(SourceMark(d), d.apiVersion), d.successUrl);
    SplitAtLastBar(SourceMark(c), c.apiVersion, SourceMark(d), d.apiVersion);
  }

  /** Two configurations have one fingerprint exactly when generation, marks of keys and joined front are the same. */
  lemma SameFingerprintExactlyWhen(c: Config, d: Config)
    requires GoodId(c) && GoodId(d)
    ensures Fingerprint(c) == Fingerprint(d)
            <==> c.credentialId == d.credentialId && Front(c) == Front(d)
                 && KeyMark("sk:", c.secretKey) == KeyMark("sk:", d.secretKey)
                 && KeyMark("wh:", c.webhookSecret) == KeyMark("wh:", d.webhookSecret)
  {
    if Fingerprint(c) == Fingerprint(d) {
      FingerprintNamesTheGeneration(c, d);
    }
  }

  /** With a bar in an address they need not be: moving it across the boundary changes nothing. */
  lemma BarInAnAddressConfuses(c: Config, first: string, middle: string, last: string)
    ensures var one := c.(successUrl := Bar(first, middle), cancelUrl := last);
            var other := c.(successUrl := first, cancelUrl := Bar(middle, last));
            one != other && Fingerprint(one) == Fingerprint(other)
  {
    var front := Bar(SourceMark(c), c.apiVersion);
    assert Bar(Bar(front, Bar(first, middle)), last) == Bar(Bar(front, first), Bar(middle, last));
    assert |Bar(first, middle)| > |first|;
  }

  // --- what the marks tell --------------------------------------------------------------

  /** The characters as the digits of a number to the base 31, not cut to any width. */
  function Digits31(value: string): nat {
    if value == "" then 0 else Digits31(value[..|value| - 1]) * 31 + value[|value| - 1] as int
  }

  lemma CutOnceOrEveryTime(n: nat, c: nat)
    ensures ((n % 4_294_967_296) * 31 + c) % 4_294_967_296 == (n * 31 + c) % 4_294_967_296
  {
    var q, r := n / 4_294_967_296, n % 4_294_967_296;
    assert n * 31 + c == r * 31 + c + (31 * q) * TWO_32;
    Shifted(r * 31 + c, 31 * q);
  }

  /** Cutting to 32 bits at every character comes to cutting once at the end. */
  lemma {:induction false} HashIsTheLast32Bits(value: string)
    ensures HashOf(value) == Digits31(value) % 4_294_967_296
    decreases |value|
  {
    if value != "" {
      HashIsTheLast32Bits(value[..|value| - 1]);
      CutOnceOrEveryTime(Digits31(value[..|value| - 1]), value[|value| - 1] as int);
    }
  }

  lemma SplitAtColon(a: string, x: string, b: string, y: string)
    requires a + ":" + x == b + ":" + y && ':' !in x && ':' !in y
    ensures a == b && x == y
  {
    var s := a + ":" + x;
    assert s[|a|] == ':' && s[|b|] == ':';
    assert forall k :: |a| < k < |s| ==> s[k] == x[k - |a| - 1];
    assert forall k :: |b| < k < |s| ==> s[k] == y[k - |b| - 1];
    assert forall k :: |a| < k < |s| || |b| < k < |s| ==> s[k] != ':';
    assert s[..|a|] == a && s[..|b|] == b && s[|a| + 1..] == x && s[|b| + 1..] == y;
  }

  /** A key's mark tells its length and its hash, and nothing else. */
  lemma MarkTellsLengthAndHash(prefix: string, key: string, other: string)
    ensures KeyMark(prefix, key) == KeyMark(prefix, other) <==> |key| == |other| && HashOf(key) == HashOf(other)
  {
    if KeyMark(prefix, key) == KeyMark(prefix, other) {
      var a, b := Decimal(|key|), Decimal(|other|);
      SplitAtColon(prefix + a, Base36(HashOf(key)), prefix + b, Base36(HashOf(other)));
      assert (prefix + a)[|prefix|..] == a && (prefix + b)[|prefix|..] == b;
      DecimalsDiffer(|key|, |other|);
      Base36Differ(HashOf(key), HashOf(other));
    }
  }

  /**
   Two configurations have one fingerprint exactly when they are of the same generation, the
   secrets agree in length and hash, and source, version and addresses read the same joined up.
   */
  lemma FingerprintTellsExactly(c: Config, d: Config)
    requires GoodId(c) && GoodId(d)
    ensures Fingerprint(c) == Fingerprint(d)
            <==> c.credentialId == d.credentialId && Front(c) == Front(d)
                 && |c.secretKey| == |d.secretKey| && HashOf(c.secretKey) == HashOf(d.secretKey)
                 && |c.webhookSecret| == |d.webhookSecret| && HashOf(c.webhookSecret) == HashOf(d.webhookSecret)
  {
    SameFingerprintExactlyWhen(c, d);
    MarkTellsLengthAndHash("sk:", c.secretKey, d.secretKey);
    MarkTellsLengthAndHash("wh:", c.webhookSecret, d.webhookSecret);
  }
}
