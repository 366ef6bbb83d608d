/** The few facts about products that the bounds need. */
module Arith {
  lemma MulMono(k: nat, a: nat, b: nat)
    requires a <= b
    ensures k * a <= k * b
  {
  }

  lemma MulOneMore(a: int, k: int)
    ensures (a + 1) * k == a * k + k
  {
  }

  /** `a` shares fit where the larger number `b` of shares fits, or there is none. */
  lemma SharesFit(a: int, b: int, k: nat, room: int)
    requires a <= b && room >= 0 && (b <= 0 || b * k <= room)
    ensures a * k <= room
  {
    if a > 0 {
      MulMono(k, a, b);
    } else {
      MulMono(k, 0, -a);
    }
  }

  lemma MulCancel(a: nat, b: nat, k: nat)
    requires k > 0 && a * k <= b * k
    ensures a <= b
  {
    if a > b {
      MulMono(k, b + 1, a);
      MulOneMore(b, k);
    }
  }
}
