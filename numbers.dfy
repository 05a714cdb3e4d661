/** The integer arithmetic behind `Math.round` and `Math.ceil` as the schemas and the
    analytics service use them. */
module Numbers {

  /** `Math.ceil(d / k)` for a positive divisor, for either sign of `d`: the least integer
      whose multiple of `k` reaches `d`. */
  function CeilDiv(d: int, k: int): (r: int)
    requires k > 0
    ensures k * (r - 1) < d <= k * r
  {
    -((-d) / k)
  }

  /** `Math.round(completed / total * 100)` on exact rationals: the integer nearest to
      100·completed/total, halves rounded up. */
  function RoundPercent(completed: int, total: int): (r: int)
    requires total > 0
    ensures 2 * total * r <= 200 * completed + total < 2 * total * (r + 1)
    ensures 0 <= completed <= total ==> 0 <= r <= 100
  {
    RoundHalfUp(200 * completed + total, 2 * total, completed, total);
    (200 * completed + total) / (2 * total)
  }

  /** The facts about `n / d` that `RoundPercent` needs, for `n = 200c + t` and `d = 2t`. */
  lemma RoundHalfUp(n: int, d: int, completed: int, total: int)
    requires total > 0 && n == 200 * completed + total && d == 2 * total
    ensures d * (n / d) <= n < d * (n / d + 1)
    ensures 0 <= completed <= total ==> 0 <= n / d <= 100
  {
    var r := n / d;
    assert n == d * r + n % d && 0 <= n % d < d;
    assert d * (r + 1) == d * r + d;
    if 0 <= completed <= total {
      if r < 0 {
        MulMono(d, r, -1);
      }
      if r > 100 {
        MulMono(d, 101, r);
      }
    }
  }

  /** All of the tasks complete is 100 percent. */
  lemma RoundPercentAll(completed: int, total: int)
    requires total > 0
    ensures completed == total ==> RoundPercent(completed, total) == 100
  {
    var r := RoundPercent(total, total);
    var d := 2 * total;
    if r < 100 {
      MulMono(d, r + 1, 100);
    }
    if r > 100 {
      MulMono(d, 101, r);
    }
  }

  /** `Math.ceil(d / k)` is monotone in `d`. */
  lemma CeilDivMono(x: int, y: int, k: int)
    requires k > 0 && x <= y
    ensures CeilDiv(x, k) <= CeilDiv(y, k)
  {
    var a, b := CeilDiv(x, k), CeilDiv(y, k);
    if a > b {
      MulMono(k, b, a - 1);
      assert false;
    }
  }

  lemma MulMono(a: int, b: int, c: int)
    requires a > 0 && b <= c
    ensures a * b <= a * c
  {
    assert a * c - a * b == a * (c - b);
  }
}
