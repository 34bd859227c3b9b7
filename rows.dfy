/** Row-at-a-time helpers shared by the height-field generator and the
    renderer: applying a per-element function along a row, and writing a
    finished row into a two-dimensional array. */
module Rows {

  /** The images of the first `n` elements of `xs` under `f`, in order. */
  function Collect<A, B>(f: A --> B, xs: seq<A>, n: nat): (ys: seq<B>)
    requires n <= |xs| && forall k :: 0 <= k < n ==> f.requires(xs[k])
    ensures |ys| == n
  {
    if n == 0 then [] else Collect(f, xs, n - 1) + [f(xs[n - 1])]
  }

  /** Element `k` of those images is the image of element `k`. */
  lemma {:induction false} CollectPointwise<A, B>(f: A --> B, xs: seq<A>, n: nat)
    requires n <= |xs| && forall k :: 0 <= k < n ==> f.requires(xs[k])
    ensures forall k :: 0 <= k < n ==> Collect(f, xs, n)[k] == f(xs[k])
  {
    if n > 0 {
      CollectPointwise(f, xs, n - 1);
    }
  }

  /** Write `row` into row `y` of `grid`, leaving the other rows alone. */
  method StoreRow<T>(grid: array2<T>, y: nat, row: seq<T>)
    requires y < grid.Length0 && |row| == grid.Length1
    modifies grid
    ensures forall x :: 0 <= x < grid.Length1 ==> grid[y, x] == row[x]
    ensures forall r, x :: 0 <= r < grid.Length0 && 0 <= x < grid.Length1 && r != y ==> grid[r, x] == old(grid[r, x])
  {
    var x := 0;
    while x < grid.Length1
      invariant 0 <= x <= grid.Length1
      invariant forall c :: 0 <= c < x ==> grid[y, c] == row[c]
      invariant forall r, c :: 0 <= r < grid.Length0 && 0 <= c < grid.Length1 && r != y ==> grid[r, c] == old(grid[r, c])
    {
      grid[y, x] := row[x];
      x := x + 1;
    }
  }
}
