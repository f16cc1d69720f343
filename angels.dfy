// Prestige arithmetic: how many angel investors a player's lifetime
// earnings are worth, and what it takes to earn the next one.
//
// The engine computes floor(sqrt(max(0, lifetime / 1_000_000))) in floating
// point; here that is the exact integer square root, characterised as the
// largest k >= 0 with k * k * 1_000_000 <= lifetime.

module Angels {

  /** Lifetime earnings that one squared angel costs. */
  const ANGEL_PRICE: nat := 1_000_000

  /** Integer square root, by halving: the root of n is twice the root of
      n / 4, or one more than that. */
  function IntSqrt(n: nat): (r: nat)
    ensures r * r <= n < (r + 1) * (r + 1)
    decreases n
  {
    if n < 2 then n
    else
      var s := IntSqrt(n / 4);
      var r := 2 * s;
      SqrtStep(n, s);
      if (r + 1) * (r + 1) <= n then r + 1 else r
  }

  lemma SqrtStep(n: nat, s: nat)
    requires s * s <= n / 4 < (s + 1) * (s + 1)
    ensures (2 * s) * (2 * s) <= n < (2 * s + 2) * (2 * s + 2)
  {
    assert (2 * s) * (2 * s) == 4 * (s * s);
    assert (2 * s + 2) * (2 * s + 2) == 4 * ((s + 1) * (s + 1));
    assert n < 4 * (n / 4) + 4;
  }

  lemma SquareMonotone(a: nat, b: nat)
    ensures a <= b ==> a * a <= b * b
  {
    if a <= b {
      assert a * a <= a * b;
      assert a * b <= b * b;
    }
  }

  /** Angels that lifetime earnings entitle to, counting those already held. */
  function PotentialAngels(lifetime: real): (k: nat)
    ensures (k * k * ANGEL_PRICE) as real <= (if lifetime < 0.0 then 0.0 else lifetime)
    ensures lifetime < ((k + 1) * (k + 1) * ANGEL_PRICE) as real
  {
    var x := if lifetime < 0.0 then 0.0 else lifetime / ANGEL_PRICE as real;
    var n := x.Floor;
    var k := IntSqrt(n);
    assert (k * k) as real <= x;
    assert x < ((k + 1) * (k + 1)) as real;
    k
  }

  /** No larger count of angels is affordable: the potential is the largest
      k with k * k * 1_000_000 <= lifetime. */
  lemma PotentialIsLargest(lifetime: real, k: nat)
    requires (k * k * ANGEL_PRICE) as real <= lifetime
    ensures k <= PotentialAngels(lifetime)
  {
    var p := PotentialAngels(lifetime);
    SquareMonotone(p + 1, k);
  }

  /** More lifetime earnings never mean fewer potential angels. */
  lemma PotentialMonotone(lo: real, hi: real)
    requires lo <= hi
    ensures PotentialAngels(lo) <= PotentialAngels(hi)
  {
    var p := PotentialAngels(lo);
    if lo >= 0.0 {
      PotentialIsLargest(hi, p);
    }
  }

  /** Angels that a prestige reset would add: max(0, potential - held). */
  function Claimable(lifetime: real, angels: nat): (c: nat)
    ensures c > 0 <==> PotentialAngels(lifetime) > angels
    ensures c > 0 ==> angels + c == PotentialAngels(lifetime)
  {
    var potential := PotentialAngels(lifetime);
    if potential > angels then potential - angels else 0
  }

  /** Lifetime earnings the prestige caption shows as needed for the next
      angel: (potential + 1)^2 * 1_000_000. It counts from the potential,
      not from the angels held; ClaimThreshold is the bound that actually
      makes an angel claimable. */
  function NextAngelThreshold(lifetime: real): (t: nat)
    ensures lifetime < t as real
    ensures forall k: nat :: k > PotentialAngels(lifetime) ==> t <= k * k * ANGEL_PRICE
  {
    var p := PotentialAngels(lifetime);
    var t := (p + 1) * (p + 1) * ANGEL_PRICE;
    assert forall k: nat :: k > p ==> t <= k * k * ANGEL_PRICE by {
      forall k: nat | k > p
        ensures t <= k * k * ANGEL_PRICE
      {
        SquareMonotone(p + 1, k);
      }
    }
    t
  }

  /** The angels held can exceed the potential: prestige resets lifetime
      earnings to 0 and keeps the angels. The caption's threshold then does
      not earn a claimable angel. */
  lemma CaptionThresholdCanClaimNothing(lifetime: real, angels: nat)
    requires PotentialAngels(lifetime) < angels
    ensures Claimable(NextAngelThreshold(lifetime) as real, angels) == 0
  {
    var p := PotentialAngels(lifetime);
    var t := NextAngelThreshold(lifetime);
    assert t == (p + 1) * (p + 1) * ANGEL_PRICE;
    var q := PotentialAngels(t as real);
    assert q * q * ANGEL_PRICE <= t;
    assert q * q <= (p + 1) * (p + 1);
    SquareMonotone(p + 2, q);
    assert (p + 2) * (p + 2) > (p + 1) * (p + 1);
    assert q <= p + 1;
  }

  /** Just after a prestige to 2 angels: the caption asks for 1,000,000,
      which leaves nothing to claim. */
  lemma CaptionThresholdAfterPrestige()
    ensures NextAngelThreshold(0.0) == 1_000_000
    ensures Claimable(1_000_000.0, 2) == 0
  {
    CaptionThresholdCanClaimNothing(0.0, 2);
  }

  /** Lifetime earnings at which one more angel than `angels` becomes
      claimable. */
  function ClaimThreshold(angels: nat): nat {
    (angels + 1) * (angels + 1) * ANGEL_PRICE
  }

  /** Something is claimable exactly when lifetime earnings reach the claim
      threshold of the angels held. */
  lemma ClaimableIffThreshold(lifetime: real, angels: nat)
    ensures Claimable(lifetime, angels) > 0 <==> lifetime >= ClaimThreshold(angels) as real
  {
    var p := PotentialAngels(lifetime);
    if lifetime >= ClaimThreshold(angels) as real {
      PotentialIsLargest(lifetime, angels + 1);
    }
    SquareMonotone(angels + 1, p);
  }

  /** Worked example: 4,000,000 lifetime earnings are worth 2 angels, and
      the next one needs 9,000,000. */
  lemma PrestigeExample()
    ensures PotentialAngels(4_000_000.0) == 2
    ensures Claimable(4_000_000.0, 0) == 2
    ensures NextAngelThreshold(4_000_000.0) == 9_000_000
  {
    var p := PotentialAngels(4_000_000.0);
    PotentialIsLargest(4_000_000.0, 2);
    SquareMonotone(3, p);
  }
}
