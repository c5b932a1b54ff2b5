/** The bounded sliding list that both the frame buffer and the motion buffer keep:
    when the list holds `size` elements, the oldest is popped from the front before
    the new one is appended. */
module Window {

  function Min(a: int, b: int): int { if a <= b then a else b }

  /** Appending to a log in two steps is appending once. */
  lemma AppendAssoc<T>(a: seq<T>, b: seq<T>, c: seq<T>)
    ensures a + b + c == a + (b + c)
  {
  }

  /** The list after one add: pop index 0 when full, then append `x`. */
  function Slide<T>(window: seq<T>, size: int, x: T): (w: seq<T>)
    requires 1 <= size && |window| <= size
    ensures |w| == Min(|window| + 1, size)
    ensures |window| < size ==> w == window + [x]
    ensures |window| == size ==> w == window[1..] + [x]
  {
    if |window| == size then window[1..] + [x] else window + [x]
  }

  /** The list after adding each of `xs`, in order, to an empty list of capacity `size`. */
  function Fill<T>(size: int, xs: seq<T>): (w: seq<T>)
    requires 1 <= size
    ensures |w| <= size
  {
    if xs == [] then [] else Slide(Fill(size, xs[..|xs| - 1]), size, xs[|xs| - 1])
  }

  /** After k adds to an empty list of capacity N, it holds the last min(k, N) of
      them, oldest first. */
  lemma {:induction false} FillKeepsNewest<T>(size: int, xs: seq<T>)
    requires 1 <= size
    ensures Fill(size, xs) == xs[|xs| - Min(|xs|, size)..]
  {
    if xs != [] {
      var init := xs[..|xs| - 1];
      FillKeepsNewest(size, init);
      SlideKeepsNewest(size, xs);
    }
  }

  /** One add to the newest min(n, N) of the first n elements keeps the newest
      min(n + 1, N) of the n + 1. */
  lemma SlideKeepsNewest<T>(size: int, xs: seq<T>)
    requires 1 <= size && xs != []
    ensures var n, init := |xs|, xs[..|xs| - 1];
      Slide(init[n - 1 - Min(n - 1, size)..], size, xs[n - 1]) == xs[n - Min(n, size)..]
  {
    var n, init, x := |xs|, xs[..|xs| - 1], xs[|xs| - 1];
    if n - 1 < size {
      assert init[n - 1 - Min(n - 1, size)..] == init;
      assert init + [x] == xs;
    } else {
      assert init[n - 1 - Min(n - 1, size)..][1..] == init[n - size..];
      assert xs[n - size..] == init[n - size..] + [x];
    }
  }
}
