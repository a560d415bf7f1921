/** Small types shared by every module. */
module Common {
  datatype Option<+T> = None | Some(value: T)

  datatype Result<+T, +E> = Ok(value: T) | Err(error: E)

  /** `dict.get`: the entry under `k`, if there is one. */
  function Get<K, V>(m: map<K, V>, k: K): Option<V> {
    if k in m then Some(m[k]) else None
  }

  function Max(a: int, b: int): int {
    if a < b then b else a
  }

  function Min(a: int, b: int): int {
    if a < b then a else b
  }

  /** Python's `sorted` on integers. */
  function Sorted(xs: seq<nat>): (r: seq<nat>)
    ensures multiset(r) == multiset(xs)
  {
    if xs == [] then [] else
      assert xs == xs[..|xs| - 1] + [xs[|xs| - 1]];
      Insert(Sorted(xs[..|xs| - 1]), xs[|xs| - 1])
  }

  function Insert(xs: seq<nat>, x: nat): (r: seq<nat>)
    ensures multiset(r) == multiset(xs) + multiset{x}
  {
    if xs == [] || x <= xs[0] then [x] + xs else
      assert xs == [xs[0]] + xs[1..];
      [xs[0]] + Insert(xs[1..], x)
  }

  /** `sorted(set(xs))`. */
  function SortedUnique(xs: seq<nat>): seq<nat> {
    if xs == [] then []
    else if xs[|xs| - 1] in xs[..|xs| - 1] then SortedUnique(xs[..|xs| - 1])
    else Insert(SortedUnique(xs[..|xs| - 1]), xs[|xs| - 1])
  }
}
