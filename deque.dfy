/**
 * Bounded first-in first-out buffers, as Python's `collections.deque(maxlen=n)`
 * behaves under `append`: once the buffer holds `maxlen` entries, appending
 * one more evicts the oldest. Every rolling window of the system (the
 * hysteresis buffer of strategy targets, the per-agent false-positive and
 * false-negative windows, the detection history) is one of these.
 */
module Deques {

  /** The newest `n` entries of `s` (all of `s` when it is shorter). */
  function Newest<T>(s: seq<T>, n: nat): (r: seq<T>)
    ensures |r| == if |s| <= n then |s| else n
    ensures forall i :: 0 <= i < |r| ==> r[i] == s[|s| - |r| + i]
  {
    if |s| <= n then s else s[|s| - n..]
  }

  /** `deque.append(x)` on a deque whose `maxlen` is `maxlen`. */
  function Append<T>(q: seq<T>, x: T, maxlen: nat): (r: seq<T>)
    requires maxlen >= 1
    requires |q| <= maxlen
    ensures |r| <= maxlen
    ensures |r| == if |q| < maxlen then |q| + 1 else maxlen
    ensures r[|r| - 1] == x
  {
    if |q| < maxlen then q + [x] else q[1..] + [x]
  }

  /** Appending keeps the newest `maxlen` entries, evicting the oldest. */
  lemma AppendKeepsNewest<T>(q: seq<T>, x: T, maxlen: nat)
    requires maxlen >= 1 && |q| <= maxlen
    ensures Append(q, x, maxlen) == Newest(q + [x], maxlen)
  {
    if |q| == maxlen {
      assert q[1..] + [x] == (q + [x])[1..];
    }
  }

  /** Appending to a buffer that already holds its newest entries keeps holding the newest entries. */
  lemma {:induction false} NewestAppend<T>(s: seq<T>, x: T, n: nat)
    requires n >= 1
    ensures Append(Newest(s, n), x, n) == Newest(s + [x], n)
  {
    var q := Newest(s, n);
    var lhs := Append(q, x, n);
    var rhs := Newest(s + [x], n);
    assert |lhs| == |rhs|;
    AppendKeepsNewest(q, x, n);
    forall i | 0 <= i < |lhs| ensures lhs[i] == rhs[i] {
      assert lhs == Newest(q + [x], n);
      if i < |lhs| - 1 {
        assert lhs[i] == (q + [x])[|q| + 1 - |lhs| + i];
        assert lhs[i] == q[|q| + 1 - |lhs| + i];
      }
    }
  }

  /** `NewestAppend` for a stream made of a start `a` followed by entries `b`. */
  lemma NewestAppendAfter<T>(a: seq<T>, b: seq<T>, x: T, n: nat)
    requires n >= 1
    ensures Append(Newest(a + b, n), x, n) == Newest(a + (b + [x]), n)
  {
    NewestAppend(a + b, x, n);
    assert a + b + [x] == a + (b + [x]);
  }
}
