/** Choosing a name for the destination VM that overwrites nothing. */
module DestName {
  import opened Wrappers
  import opened Text

  function Numbered(base: string, n: nat): string {
    base + "-" + Decimal(n)
  }

  lemma NumberedInjective(base: string, m: nat, n: nat)
    requires Numbered(base, m) == Numbered(base, n)
    ensures m == n
  {
    assert Numbered(base, m)[|base| + 1..] == Decimal(m);
    assert Numbered(base, n)[|base| + 1..] == Decimal(n);
    DecimalInjective(m, n);
  }

  /** The first `n` numbered names, and the base name. */
  ghost function Tried(base: string, n: nat): (tried: set<string>)
    ensures |tried| == n + 1
    ensures forall s :: s in tried <==> s == base || exists k :: 1 <= k <= n && s == Numbered(base, k)
  {
    if n == 0 then
      {base}
    else
      assert Numbered(base, n) !in Tried(base, n - 1) by {
        if k :| 1 <= k <= n - 1 && Numbered(base, n) == Numbered(base, k) {
          NumberedInjective(base, n, k);
        }
      }
      Tried(base, n - 1) + {Numbered(base, n)}
  }

  /** `base` is free, or `name` is its least free number, which is at most |existing|. */
  ghost predicate IsFreshName(name: string, base: string, existing: set<string>) {
    if base !in existing then
      name == base
    else
      exists n :: 1 <= n <= |existing| && name == Numbered(base, n) && name !in existing
                  && forall k :: 1 <= k < n ==> Numbered(base, k) in existing
  }

  /** `_ensure_unique_dest_name`, once the destination's VMs are listed. */
  method UniqueName(base: string, existing: set<string>) returns (name: string)
    ensures name !in existing
    ensures IsFreshName(name, base, existing)
  {
    if base !in existing {
      return base;
    }
    var n := 1;
    SubsetIsSmaller(Tried(base, 0), existing);
    while Numbered(base, n) in existing
      invariant 1 <= n <= |existing|
      invariant forall k :: 1 <= k < n ==> Numbered(base, k) in existing
      decreases |existing| - n
    {
      SubsetIsSmaller(Tried(base, n), existing);
      n := n + 1;
    }
    name := Numbered(base, n);
  }

  /** The search has one answer, whatever the order in which names are listed. */
  lemma FreshNameIsUnique(a: string, b: string, base: string, existing: set<string>)
    requires IsFreshName(a, base, existing) && IsFreshName(b, base, existing)
    ensures a == b
  {}
}
