/** The 32-bit FNV-1a hash and the shard index derived from it. */
module Fnv {
  import opened Labels

  const FNV_OFFSET32: bv32 := 2166136261
  const FNV_PRIME32: bv32 := 16777619

  function Mix(h: bv32, b: bv8): bv32 {
    (h ^ (b as bv32)) * FNV_PRIME32
  }

  function Fnv32a(s: Label): bv32 {
    if s == [] then FNV_OFFSET32
    else Mix(Fnv32a(s[..|s| - 1]), s[|s| - 1])
  }

  lemma FnvPrefix(s: Label, i: nat)
    requires i < |s|
    ensures Fnv32a(s[..i + 1]) == Mix(Fnv32a(s[..i]), s[i])
  {
    assert s[..i + 1][..i] == s[..i];
  }

  /** The hash loop of the source. */
  method Fnv32aString(s: Label) returns (h: bv32)
    ensures h == Fnv32a(s)
  {
    h := FNV_OFFSET32;
    for i := 0 to |s|
      invariant h == Fnv32a(s[..i])
    {
      FnvPrefix(s, i);
      h := Mix(h, s[i]);
    }
    assert s[..|s|] == s;
  }

  lemma HashMore(s: Label, b: bv8)
    ensures Fnv32a(s + [b]) == Mix(Fnv32a(s), b)
  {
    assert (s + [b])[..|s|] == s;
  }

  // The value before each byte of "foobar", and after the last.
  lemma FoobarFirst()
    ensures Mix(0x811C9DC5, 0x66) == 0xE30C2799
  {
  }

  lemma FoobarSecond()
    ensures Mix(0xE30C2799, 0x6F) == 0x6222E842
  {
  }

  lemma FoobarThird()
    ensures Mix(0x6222E842, 0x6F) == 0xA9F37ED7
  {
  }

  lemma FoobarFourth()
    ensures Mix(0xA9F37ED7, 0x62) == 0x3F5076EF
  {
  }

  lemma FoobarFifth()
    ensures Mix(0x3F5076EF, 0x61) == 0x39AAA18A
  {
  }

  lemma FoobarSixth()
    ensures Mix(0x39AAA18A, 0x72) == 0xBF9CF968
  {
  }

  /** The values FNV-1a is published with: of the empty string and of "foobar". */
  lemma PublishedValues()
    ensures Fnv32a([]) == 0x811C9DC5
    ensures Fnv32a([0x66, 0x6F, 0x6F, 0x62, 0x61, 0x72]) == 0xBF9CF968
  {
    var s: Label := [];
    HashMore(s, 0x66);
    FoobarFirst();
    s := s + [0x66];
    HashMore(s, 0x6F);
    FoobarSecond();
    s := s + [0x6F];
    HashMore(s, 0x6F);
    FoobarThird();
    s := s + [0x6F];
    HashMore(s, 0x62);
    FoobarFourth();
    s := s + [0x62];
    HashMore(s, 0x61);
    FoobarFifth();
    s := s + [0x61];
    HashMore(s, 0x72);
    FoobarSixth();
    assert s + [0x72] == [0x66, 0x6F, 0x6F, 0x62, 0x61, 0x72];
  }

  /** The hash a key is routed by: the exclusive or of the hashes of its parts. */
  function KeyHash(k: Key): bv32 {
    match k
    case One(a) => Fnv32a(a)
    case Two(a, b) => Fnv32a(a) ^ Fnv32a(b)
    case Three(a, b, c) => Fnv32a(a) ^ Fnv32a(b) ^ Fnv32a(c)
  }

  function ShardOf(k: Key): (i: nat)
    ensures i < SHARDS
  {
    (KeyHash(k) % 16) as nat
  }

  // ----- what the routing amounts to -----

  function Low4(b: bv8): bv4 {
    (b & 15) as bv4
  }

  /** A four-bit automaton: start at 5; on a byte, add its low half without carry, times 3. */
  function Nibble(s: Label): bv4 {
    if s == [] then 5
    else (Nibble(s[..|s| - 1]) ^ Low4(s[|s| - 1])) * 3
  }

  lemma StepLow4(h: bv32, b: bv8, n: bv4)
    requires (h % 16) as bv4 == n
    ensures (((h ^ (b as bv32)) * FNV_PRIME32) % 16) as bv4 == (n ^ Low4(b)) * 3
  {
  }

  /** The hash modulo 16 is the state of the four-bit automaton. */
  lemma {:induction false} FnvIsNibbleAutomaton(s: Label)
    ensures (Fnv32a(s) % 16) as bv4 == Nibble(s)
  {
    if s != [] {
      FnvIsNibbleAutomaton(s[..|s| - 1]);
      StepLow4(Fnv32a(s[..|s| - 1]), s[|s| - 1], Nibble(s[..|s| - 1]));
    }
  }

  function KeyNibble(k: Key): bv4 {
    match k
    case One(a) => Nibble(a)
    case Two(a, b) => Nibble(a) ^ Nibble(b)
    case Three(a, b, c) => Nibble(a) ^ Nibble(b) ^ Nibble(c)
  }

  lemma XorLow4(g: bv32, h: bv32)
    ensures ((g ^ h) % 16) as bv4 == ((g % 16) as bv4) ^ ((h % 16) as bv4)
  {
  }

  /** Every key is routed by four-bit arithmetic on its parts. */
  lemma ShardIsKeyNibble(k: Key)
    ensures ShardOf(k) == KeyNibble(k) as nat
  {
    forall i | 0 <= i < |k.Parts()| ensures (Fnv32a(k.Parts()[i]) % 16) as bv4 == Nibble(k.Parts()[i]) {
      FnvIsNibbleAutomaton(k.Parts()[i]);
    }
    match k
    case One(a) => assert k.Parts()[0] == a;
    case Two(a, b) =>
      assert k.Parts()[0] == a && k.Parts()[1] == b;
      XorLow4(Fnv32a(a), Fnv32a(b));
    case Three(a, b, c) =>
      assert k.Parts()[0] == a && k.Parts()[1] == b && k.Parts()[2] == c;
      XorLow4(Fnv32a(a), Fnv32a(b));
      XorLow4(Fnv32a(a) ^ Fnv32a(b), Fnv32a(c));
  }

  /** Only the low halves of the bytes matter to the shard ... */
  lemma {:induction false} LowHalvesDecideNibble(s: Label, t: Label)
    requires |s| == |t|
    requires forall i :: 0 <= i < |s| ==> Low4(s[i]) == Low4(t[i])
    ensures Nibble(s) == Nibble(t)
  {
    if s != [] {
      LowHalvesDecideNibble(s[..|s| - 1], t[..|t| - 1]);
    }
  }

  lemma TimesThreeInjective(m: bv4, n: bv4)
    requires m * 3 == n * 3
    ensures m == n
  {
  }

  lemma XorInjective(p: bv4, m: bv4, n: bv4)
    requires p ^ m == p ^ n
    ensures m == n
  {
  }

  /** ... and labels that differ only in their last byte share a shard exactly when the
      low halves of those bytes agree. */
  lemma LastByteSpreads(p: Label, x: bv8, y: bv8)
    ensures ShardOf(One(p + [x])) == ShardOf(One(p + [y])) <==> Low4(x) == Low4(y)
  {
    ShardIsKeyNibble(One(p + [x]));
    ShardIsKeyNibble(One(p + [y]));
    assert (p + [x])[..|p|] == p && (p + [y])[..|p|] == p;
    if Nibble(p + [x]) == Nibble(p + [y]) {
      TimesThreeInjective(Nibble(p) ^ Low4(x), Nibble(p) ^ Low4(y));
      XorInjective(Nibble(p), Low4(x), Low4(y));
    }
  }

  lemma XorLaws(p: bv4, q: bv4, r: bv4)
    ensures p ^ q == q ^ p && p ^ p == 0 && p ^ q ^ q == p
    ensures p ^ q ^ r == p ^ r ^ q && p ^ q ^ r == r ^ q ^ p && p ^ q ^ r == q ^ p ^ r
  {
  }

  /** Reordering the parts of a key never changes its shard; a repeated part cancels out,
      so all pairs (a, a) share shard 0 and (a, b, b) sits with the one-part key (a). */
  lemma RoutingIgnoresOrder(a: Label, b: Label, c: Label)
    ensures ShardOf(Two(a, b)) == ShardOf(Two(b, a))
    ensures ShardOf(Three(a, b, c)) == ShardOf(Three(a, c, b)) == ShardOf(Three(b, a, c)) == ShardOf(Three(c, b, a))
    ensures ShardOf(Two(a, a)) == 0
    ensures ShardOf(Three(a, b, b)) == ShardOf(One(a))
  {
    ShardIsKeyNibble(Two(a, b));
    ShardIsKeyNibble(Two(b, a));
    ShardIsKeyNibble(Two(a, a));
    ShardIsKeyNibble(One(a));
    ShardIsKeyNibble(Three(a, b, b));
    ShardIsKeyNibble(Three(a, b, c));
    ShardIsKeyNibble(Three(a, c, b));
    ShardIsKeyNibble(Three(b, a, c));
    ShardIsKeyNibble(Three(c, b, a));
    XorLaws(Nibble(a), Nibble(b), Nibble(c));
    XorLaws(Nibble(a), Nibble(b), Nibble(b));
  }
}
