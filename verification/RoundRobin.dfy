/** Two-level round robin: selectRdma over the contexts, select_qpi over the queue pairs of
    the context it picks. */
module RoundRobin {
  import opened Types

  /** A context and a queue pair of it. */
  datatype Target = Target(ctx: nat, qp: nat)

  /** The two levels of counters, both of which start at -1. */
  datatype Selector = Selector(lastRdma: int, lastQp: seq<int>)

  function Fresh(k: nat): Selector {
    Selector(-1, seq(k, _ => -1))
  }

  ghost predicate Counters(k: nat, s: Selector) {
    k >= 1 && |s.lastQp| == k && -1 <= s.lastRdma < k && forall c :: 0 <= c < k ==> -1 <= s.lastQp[c] < 4
  }

  /** selectRdma, then select_qpi on the selected context. */
  function Select(k: nat, s: Selector): (Selector, Target)
    requires Counters(k, s)
  {
    var c := (s.lastRdma + 1) % k;
    var q := (s.lastQp[c] + 1) % 4;
    (Selector(c, s.lastQp[c := q]), Target(c, q))
  }

  /** The counters after n submissions through the scheduler, and where submission n goes. */
  function After(k: nat, n: nat): (s: Selector)
    requires k >= 1
    ensures Counters(k, s)
  {
    if n == 0 then Fresh(k) else Select(k, After(k, n - 1)).0
  }

  function TargetOf(k: nat, n: nat): Target
    requires k >= 1
  {
    Select(k, After(k, n)).1
  }

  // ----- Division with remainder by an unknown divisor -----

  lemma {:induction false} Multiple(d: nat, m: nat)
    requires d >= 1
    ensures d * m >= m
  {
    if d > 1 {
      Multiple(d - 1, m);
      assert d * m == (d - 1) * m + m;
    }
  }

  /** No nonzero multiple of m lies strictly between -m and m. */
  lemma NoMultiple(d: int, m: int)
    requires m > 0 && -m < d * m < m
    ensures d == 0
  {
    if d >= 1 {
      Multiple(d, m);
    }
  }

  lemma DivisionUnique(n: int, m: int, a: int, r: int)
    requires m > 0 && n == a * m + r && 0 <= r < m
    ensures n / m == a && n % m == r
  {
    var b := n / m;
    assert n == b * m + n % m;
    assert (a - b) * m == a * m - b * m;
    NoMultiple(a - b, m);
  }

  /** n and its successor. */
  lemma NextDivision(n: nat, m: nat)
    requires m > 0
    ensures n % m + 1 < m ==> (n + 1) / m == n / m && (n + 1) % m == n % m + 1
    ensures n % m + 1 == m ==> (n + 1) / m == n / m + 1 && (n + 1) % m == 0
  {
    if n % m + 1 < m {
      DivisionUnique(n + 1, m, n / m, n % m + 1);
    } else {
      assert (n / m + 1) * m == n / m * m + m;
      DivisionUnique(n + 1, m, n / m + 1, 0);
    }
  }

  // ----- Where each submission goes -----

  /** Context c has had `Turns` submissions among the first n. */
  function Turns(k: nat, n: nat, c: nat): nat
    requires k >= 1
  {
    n / k + if c < n % k then 1 else 0
  }

  /** The counter of a context that has had t submissions. */
  function Wrapped(t: nat, m: nat): int
    requires m > 0
  {
    if t == 0 then -1 else (t - 1) % m
  }

  lemma NextTurns(k: nat, n: nat, c: nat)
    requires k >= 1 && c < k
    ensures Turns(k, n + 1, c) == Turns(k, n, c) + if c == n % k then 1 else 0
  {
    NextDivision(n, k);
  }

  lemma NoTurns(k: nat, c: nat)
    requires k >= 1
    ensures Turns(k, 0, c) == 0
  {
    DivisionUnique(0, k, 0, 0);
  }

  lemma {:induction false} AfterExact(k: nat, n: nat)
    requires k >= 1
    ensures After(k, n).lastRdma == Wrapped(n, k)
    ensures forall c :: 0 <= c < k ==> After(k, n).lastQp[c] == Wrapped(Turns(k, n, c), 4)
  {
    if n > 0 {
      var before := After(k, n - 1);
      AfterExact(k, n - 1);
      NextRdma(k, n - 1);
      forall c | 0 <= c < k
        ensures After(k, n).lastQp[c] == Wrapped(Turns(k, n, c), 4)
      {
        NextTurns(k, n - 1, c);
        NextRdma(4, Turns(k, n - 1, c));
      }
    } else {
      forall c | 0 <= c < k
        ensures Turns(k, 0, c) == 0
      {
        NoTurns(k, c);
      }
    }
  }

  /** A counter that wraps at m, started at -1: one more step. */
  lemma NextRdma(k: nat, n: nat)
    requires k >= 1
    ensures (Wrapped(n, k) + 1) % k == n % k
  {
    if n == 0 {
    } else {
      NextDivision(n - 1, k);
      if (n - 1) % k + 1 == k {
        DivisionUnique(k, k, 1, 0);
      } else {
        DivisionUnique((n - 1) % k + 1, k, 0, (n - 1) % k + 1);
      }
    }
  }

  lemma SelectExact(k: nat, s: Selector, n: nat)
    requires Counters(k, s) && s.lastRdma == Wrapped(n, k) && s.lastQp[n % k] == Wrapped(n / k, 4)
    ensures Select(k, s).1 == Target(n % k, (n / k) % 4)
  {
    NextRdma(k, n);
    NextRdma(4, n / k);
  }

  /** Submission n goes to context n mod k, and there to queue pair (n div k) mod 4. */
  lemma TargetExact(k: nat, n: nat)
    requires k >= 1
    ensures TargetOf(k, n) == Target(n % k, (n / k) % 4)
  {
    AfterExact(k, n);
    assert Turns(k, n, n % k) == n / k;
    SelectExact(k, After(k, n), n);
  }

  // ----- Fairness -----

  /** The pair's place in the cycle of 4k submissions. */
  function Place(k: nat, t: Target): nat {
    t.qp * k + t.ctx
  }

  lemma PlaceBound(k: nat, t: Target)
    requires t.ctx < k && t.qp < 4
    ensures Place(k, t) < 4 * k
  {
  }

  lemma PlaceInjective(k: nat, t: Target, u: Target)
    requires t.ctx < k && u.ctx < k && Place(k, t) == Place(k, u)
    ensures t == u
  {
    DivisionUnique(Place(k, t), k, t.qp, t.ctx);
    DivisionUnique(Place(k, t), k, u.qp, u.ctx);
  }

  lemma Distribute(rounds: nat, q: nat, k: nat)
    ensures (4 * rounds + q) * k == rounds * (4 * k) + q * k
  {
  }

  lemma PlaceOfTarget(k: nat, n: nat)
    requires k >= 1
    ensures n % (4 * k) == Place(k, Target(n % k, (n / k) % 4))
  {
    var rounds, q, c := (n / k) / 4, (n / k) % 4, n % k;
    assert n == (4 * rounds + q) * k + c;
    Distribute(rounds, q, k);
    PlaceBound(k, Target(c, q));
    DivisionUnique(n, 4 * k, rounds, q * k + c);
  }

  /** A pair is selected exactly at its place in every cycle. */
  lemma SelectedAtPlace(k: nat, n: nat, t: Target)
    requires k >= 1 && t.ctx < k && t.qp < 4
    ensures TargetOf(k, n) == t <==> n % (4 * k) == Place(k, t)
  {
    TargetExact(k, n);
    PlaceOfTarget(k, n);
    if Place(k, TargetOf(k, n)) == Place(k, t) {
      PlaceInjective(k, TargetOf(k, n), t);
    }
  }

  /** How many of the first n submissions go to t. */
  function Count(k: nat, n: nat, t: Target): nat
    requires k >= 1
  {
    if n == 0 then 0 else Count(k, n - 1, t) + if TargetOf(k, n - 1) == t then 1 else 0
  }

  lemma {:induction false} CountExact(k: nat, n: nat, t: Target)
    requires k >= 1 && t.ctx < k && t.qp < 4
    ensures Count(k, n, t) == n / (4 * k) + if Place(k, t) < n % (4 * k) then 1 else 0
  {
    if n == 0 {
      DivisionUnique(0, 4 * k, 0, 0);
    } else {
      CountExact(k, n - 1, t);
      SelectedAtPlace(k, n - 1, t);
      PlaceBound(k, t);
      NextDivision(n - 1, 4 * k);
    }
  }

  /** Over any prefix the counts of two pairs differ by at most one. */
  lemma Balanced(k: nat, n: nat, t: Target, u: Target)
    requires k >= 1 && t.ctx < k && t.qp < 4 && u.ctx < k && u.qp < 4
    ensures -1 <= Count(k, n, t) - Count(k, n, u) <= 1
  {
    CountExact(k, n, t);
    CountExact(k, n, u);
  }

  lemma OneCycleOn(n: nat, m: nat)
    requires m > 0
    ensures (n + m) / m == n / m + 1 && (n + m) % m == n % m
  {
    assert (n / m + 1) * m == n / m * m + m;
    DivisionUnique(n + m, m, n / m + 1, n % m);
  }

  /** Any 4k consecutive submissions go to each pair exactly once. */
  lemma EachOnce(k: nat, n: nat, t: Target)
    requires k >= 1 && t.ctx < k && t.qp < 4
    ensures Count(k, n + 4 * k, t) == Count(k, n, t) + 1
  {
    CountExact(k, n, t);
    CountExact(k, n + 4 * k, t);
    OneCycleOn(n, 4 * k);
  }
}
