/**
 The bounded per-channel history: a reading is pushed at the end and, once the
 buffer holds more than 100 entries, only the last 100 are kept
 (`arr.slice(-100)`). The oldest entries are evicted first.
 */
module History {

  const Capacity: nat := 100

  function Min(a: int, b: int): int {
    if a <= b then a else b
  }

  /** `if (s.length > 100) s = s.slice(-100)`: the last `min(|s|, 100)` entries of `s`. */
  function Trim<T>(s: seq<T>): (r: seq<T>)
    ensures |r| == Min(|s|, Capacity)
    ensures r == s[|s| - |r|..]
  {
    if |s| > Capacity then s[|s| - Capacity..] else s
  }

  /** Push `x` and trim: the new buffer ends with `x`, is never longer than 100,
      and keeps the arrival order of what it retains. */
  function Append<T>(h: seq<T>, x: T): (r: seq<T>)
    ensures |r| == Min(|h| + 1, Capacity)
    ensures r == (h + [x])[|h| + 1 - |r|..]
    ensures r[|r| - 1] == x
    ensures |h| < Capacity ==> r == h + [x]
  {
    Trim(h + [x])
  }

  /** The buffer after each of `xs` has been appended in turn. */
  function AppendAll<T>(h: seq<T>, xs: seq<T>): seq<T>
    decreases |xs|
  {
    if xs == [] then h else AppendAll(Append(h, xs[0]), xs[1..])
  }

  /** Trimming early loses nothing that trimming late would keep. */
  lemma TrimThenExtend<T>(s: seq<T>, t: seq<T>)
    ensures Trim(Trim(s) + t) == Trim(s + t)
  {
    var k := |s| - |Trim(s)|;
    assert Trim(s) + t == (s + t)[k..];
  }

  lemma SplitFirst<T>(h: seq<T>, xs: seq<T>)
    requires xs != []
    ensures (h + [xs[0]]) + xs[1..] == h + xs
  {
  }

  /** Appending one reading at a time to a buffer within capacity leaves exactly
      the last 100 of all readings seen, oldest first. */
  lemma {:induction false} AppendAllKeepsNewest<T>(h: seq<T>, xs: seq<T>)
    requires |h| <= Capacity
    ensures AppendAll(h, xs) == Trim(h + xs)
    decreases |xs|
  {
    if xs == [] {
      assert h + xs == h;
    } else {
      var x, rest := xs[0], xs[1..];
      AppendAllKeepsNewest(Append(h, x), rest);
      TrimThenExtend(h + [x], rest);
      calc {
        AppendAll(h, xs);
        AppendAll(Append(h, x), rest);
        Trim(Append(h, x) + rest);
        Trim(Trim(h + [x]) + rest);
        Trim((h + [x]) + rest);
        { SplitFirst(h, xs); }
        Trim(h + xs);
      }
    }
  }
}
