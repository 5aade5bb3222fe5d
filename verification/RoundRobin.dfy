/** pick_worker: the order in which workers are chosen. */
module RoundRobin {
  import opened Arithmetic

  // The workers chosen by the next `n` picks of `w` workers, when the last one chosen was `idx`.
  function Picks(idx: int, w: nat, n: nat): (r: seq<nat>)
    requires w > 0 && -1 <= idx < w
    ensures |r| == n
    decreases n
  {
    if n == 0 then [] else [(idx + 1) % w] + Picks((idx + 1) % w, w, n - 1)
  }

  // The index after `n` picks.
  function After(idx: int, w: nat, n: nat): (r: int)
    requires w > 0 && -1 <= idx < w
    ensures -1 <= r < w
    decreases n
  {
    if n == 0 then idx else After((idx + 1) % w, w, n - 1)
  }

  lemma {:induction false} PickAt(idx: int, w: nat, n: nat, i: nat)
    requires w > 0 && -1 <= idx < w && i < n
    ensures Picks(idx, w, n)[i] == (idx + 1 + i) % w
    decreases n
  {
    if i > 0 {
      PickAt((idx + 1) % w, w, n - 1, i - 1);
      AddMod(idx + 1, w, i);
    }
  }

  lemma AddMod(a: nat, w: nat, i: nat)
    requires w > 0 && a <= w
    ensures (a % w + i) % w == (a + i) % w
  {
    ModOf(a + i, w, a / w + (a % w + i) / w, (a % w + i) % w);
  }

  /** One pick after another gives the same as all of them at once, wherever they are made from. */
  lemma {:induction false} PicksSplit(idx: int, w: nat, n: nat, m: nat)
    requires w > 0 && -1 <= idx < w
    ensures Picks(idx, w, n + m) == Picks(idx, w, n) + Picks(After(idx, w, n), w, m)
    ensures After(idx, w, n + m) == After(After(idx, w, n), w, m)
    decreases n
  {
    if n > 0 { PicksSplit((idx + 1) % w, w, n - 1, m); }
  }

  function Count(s: seq<nat>, j: nat): nat { multiset(s)[j] }

  /** Any `w` consecutive picks choose each worker once. */
  lemma WindowIsFair(idx: int, w: nat, n: nat, from: nat, j: nat)
    requires w > 0 && -1 <= idx < w && from + w <= n && j < w
    ensures Count(Picks(idx, w, n)[from..from + w], j) == 1
  {
    var s := Picks(idx, w, n)[from..from + w];
    var a := idx + 1 + from;
    forall i | 0 <= i < w ensures s[i] == (a + i) % w { PickAt(idx, w, n, from + i); }
    var i0 := (j - a) % w;
    assert (a + i0) % w == j by { SumMod(a, i0, j, w); }
    assert s == s[..i0] + [s[i0]] + s[i0 + 1..];
    forall i | 0 <= i < w && i != i0 ensures s[i] != j { Distinct(a, i, i0, w); }
    NoCount(s[..i0], j);
    NoCount(s[i0 + 1..], j);
  }

  lemma SumMod(a: int, i: nat, j: nat, w: nat)
    requires w > 0 && j < w && i == (j - a) % w
    ensures (a + i) % w == j
  {
    var q := (j - a) / w;
    assert a + i == -q * w + j;
    ModOf(a + i, w, -q, j);
  }

  lemma Distinct(a: int, i: nat, j: nat, w: nat)
    requires w > 0 && i < w && j < w && i != j
    ensures (a + i) % w != (a + j) % w
  {
    var d := (a + i) / w - (a + j) / w;
    assert i - j == d * w + ((a + i) % w - (a + j) % w);
    Multiple(d, w);
    Multiple(-d, w);
  }

  lemma NoCount(s: seq<nat>, j: nat)
    requires forall i | 0 <= i < |s| :: s[i] != j
    ensures Count(s, j) == 0
  {
    assert j !in multiset(s);
  }

  /** From the start, after any `n` picks worker `j` has been chosen n/w times, and once more if it is
      among the first n%w. */
  lemma {:induction false} PicksAreBalanced(w: nat, n: nat, j: nat)
    requires w > 0 && j < w
    ensures Count(Picks(-1, w, n), j) == n / w + if j < n % w then 1 else 0
    decreases n
  {
    if n >= w {
      PicksAreBalanced(w, n - w, j);
      LastWindow(w, n, j);
      OneWindowLess(n, w);
    } else {
      FirstPicks(w, n, j);
      ModOf(n, w, 0, n);
    }
  }

  lemma OneWindowLess(n: nat, w: nat)
    requires 0 < w <= n
    ensures n / w == (n - w) / w + 1 && n % w == (n - w) % w
  {
    var q := (n - w) / w;
    assert q * w + (n - w) % w == n - w;
    assert (q + 1) * w == q * w + w;
    ModOf(n, w, q + 1, (n - w) % w);
  }

  lemma CountSplit(s: seq<nat>, a: seq<nat>, j: nat)
    requires a <= s
    ensures Count(s, j) == Count(a, j) + Count(s[|a|..|s|], j)
  {
    assert s == a + s[|a|..|s|];
  }

  lemma LastWindow(w: nat, n: nat, j: nat)
    requires w > 0 && j < w <= n
    ensures Count(Picks(-1, w, n), j) == Count(Picks(-1, w, n - w), j) + 1
  {
    var from := n - w;
    PicksSplit(-1, w, from, w);
    WindowIsFair(-1, w, n, from, j);
    CountSplit(Picks(-1, w, n), Picks(-1, w, from), j);
  }

  lemma FirstPicks(w: nat, n: nat, j: nat)
    requires n < w && j < w
    ensures Count(Picks(-1, w, n), j) == if j < n then 1 else 0
  {
    var s := Picks(-1, w, n);
    forall i | 0 <= i < n ensures s[i] == i {
      PickAt(-1, w, n, i);
      ModOf(i, w, 0, i);
    }
    if j < n {
      assert s == s[..j] + [s[j]] + s[j + 1..];
      NoCount(s[..j], j);
      NoCount(s[j + 1..], j);
    } else {
      NoCount(s, j);
    }
  }
}
