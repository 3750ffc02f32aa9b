/**
 * Round-robin API keys: `cycle(keys)` hands out keys[0], keys[1], ... and
 * starts again at keys[0] after the last one. The cursor of a cycle over n
 * keys is a position in [0, n).
 */
module Rotation {

  /** The cursor after one draw from position `pos`. */
  function Advance(n: nat, pos: nat): (next: nat)
    requires pos < n
    ensures next < n
    ensures next == (pos + 1) % n
  {
    if pos + 1 == n then 0 else pos + 1
  }

  /** The cursor of a fresh cycle over n keys after `draws` draws. */
  function PositionAfter(n: nat, draws: nat): (pos: nat)
    requires 0 < n
    ensures pos < n
  {
    if draws == 0 then 0 else Advance(n, PositionAfter(n, draws - 1))
  }

  /** The keys handed out by the first `count` draws, in order. */
  function Drawn<K>(keys: seq<K>, count: nat): (out: seq<K>)
    requires |keys| > 0
    ensures |out| == count
  {
    if count == 0 then [] else Drawn(keys, count - 1) + [keys[PositionAfter(|keys|, count - 1)]]
  }

  /** After d draws the cursor sits at d mod n. */
  lemma {:induction false} PositionIsDrawsModLength(n: nat, draws: nat)
    requires 0 < n
    ensures PositionAfter(n, draws) == draws % n
  {
    if draws > 0 {
      PositionIsDrawsModLength(n, draws - 1);
      ModSucc(draws - 1, n);
    }
  }

  lemma ModSucc(d: nat, n: nat)
    requires 0 < n
    ensures (d % n + 1) % n == (d + 1) % n
  {
    var q, r := d / n, d % n;
    if r + 1 < n {
      ModUnique(d + 1, q, r + 1, n);
      ModUnique(r + 1, 0, r + 1, n);
    } else {
      ModUnique(d + 1, q + 1, 0, n);
      ModUnique(r + 1, 1, 0, n);
    }
  }

  /** A remainder is determined by any quotient-remainder split. */
  lemma ModUnique(x: int, q: int, r: int, n: int)
    requires 0 < n && 0 <= r < n && x == q * n + r
    ensures x % n == r
  {
    var q', r' := x / n, x % n;
    assert x == q' * n + r';
    assert (q - q') * n == q * n - q' * n;
    if q > q' {
      MulAtLeast(q - q', n);
    } else if q < q' {
      MulAtLeast(q' - q, n);
    }
  }

  lemma MulAtLeast(k: int, n: int)
    requires k >= 1 && n > 0
    ensures k * n >= n
  {
    assert k * n == (k - 1) * n + n;
    assert (k - 1) * n >= 0;
  }

  /** The i-th key drawn is keys[i mod |keys|]. */
  lemma {:induction false} DrawnCycles<K>(keys: seq<K>, count: nat, i: nat)
    requires |keys| > 0 && i < count
    ensures Drawn(keys, count)[i] == keys[i % |keys|]
  {
    if i == count - 1 {
      PositionIsDrawsModLength(|keys|, i);
    } else {
      DrawnCycles(keys, count - 1, i);
    }
  }

  /** Three keys and five draws give k1, k2, k3, k1, k2. */
  lemma ThreeKeysFiveDraws<K>(k1: K, k2: K, k3: K)
    ensures Drawn([k1, k2, k3], 5) == [k1, k2, k3, k1, k2]
  {
    var keys := [k1, k2, k3];
    forall i | 0 <= i < 5
      ensures Drawn(keys, 5)[i] == [k1, k2, k3, k1, k2][i]
    {
      DrawnCycles(keys, 5, i);
    }
  }
}
