/** Addresses, allocators and completions, as every part of the model sees them. */
module Common {
  type Addr = nat
  const NULL: Addr := 0

  // What the kernel reports of an operation that has ended.
  datatype Completion = Completion(res: int, flags: nat)

  // An allocator returns addresses not in use; it may use one again once it has been freed.
  type Alloc = set<Addr> -> Addr
  ghost predicate GoodAlloc(alloc: Alloc) { forall used :: alloc(used) !in used && alloc(used) != NULL }

  lemma {:induction false} Unused(used: set<int>) returns (a: nat)
    ensures a > 0 && a !in used && forall b | b in used :: b < a
    decreases |used|
  {
    if b :| b in used {
      a := Unused(used - {b});
      if b >= a { a := b + 1; }
      assert forall c | c in used :: c == b || c in used - {b};
    } else {
      a := 1;
    }
  }
}

/** Two facts about products and remainders. */
module Arithmetic {
  lemma Multiple(d: int, n: nat)
    ensures d >= 1 ==> d * n >= n
    ensures d <= 0 ==> d * n <= 0
  {}

  lemma ModOf(a: int, n: nat, q: int, m: int)
    requires n > 0 && a == q * n + m && 0 <= m < n
    ensures a % n == m && a / n == q
  {
    var d := a / n - q;
    assert a == (a / n) * n + a % n;
    assert d * n == m - a % n;
    Multiple(d, n);
    Multiple(-d, n);
  }
}
