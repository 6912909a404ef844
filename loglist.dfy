/** `logLongList`: a list too long for one console line is rounded to one
    decimal place and printed in slices of `max_log_size` elements. The printed
    slices are the method's result. */
module LogList {
  import opened Js
  import opened Stats

  const MAX_LOG_SIZE := 40

  /** `list.map(x => Math.round(x * 10) / 10)`. */
  function RoundAll(list: seq<real>): (r: seq<real>)
    ensures |r| == |list|
    ensures forall k :: 0 <= k < |list| ==> r[k] == RoundTenth(list[k])
  {
    seq(|list|, k requires 0 <= k < |list| => RoundTenth(list[k]))
  }

  /** The logged slices joined back together. */
  function Concat(chunks: seq<seq<real>>): seq<real>
  {
    if |chunks| == 0 then [] else Concat(chunks[..|chunks| - 1]) + chunks[|chunks| - 1]
  }

  /** `n / max_log_size` rounded up: the number of iterations of the loop
      `for (i = 0; i < n / max_log_size; i++)`, whose bound is a real quotient. */
  function ChunkCount(n: nat): nat
  {
    (n + MAX_LOG_SIZE - 1) / MAX_LOG_SIZE
  }

  method LogLongList(list: seq<real>) returns (logged: seq<seq<real>>)
    ensures |logged| == ChunkCount(|list|)
    ensures forall k :: 0 <= k < |logged| ==> 0 < |logged[k]| <= MAX_LOG_SIZE
    ensures Concat(logged) == RoundAll(list)
  {
    var n := |list|;
    var rounded := RoundAll(list);
    logged := [];
    var i := 0;
    while (i as real) < (n as real) / (MAX_LOG_SIZE as real)
      invariant 0 <= i <= ChunkCount(n)
      invariant i * MAX_LOG_SIZE <= n || i == ChunkCount(n)
      invariant |logged| == i
      invariant forall k :: 0 <= k < i ==> 0 < |logged[k]| <= MAX_LOG_SIZE
      invariant Concat(logged) == rounded[..if i * MAX_LOG_SIZE <= n then i * MAX_LOG_SIZE else n]
    {
      assert i * MAX_LOG_SIZE < n;
      var chunk := Slice(rounded, i * MAX_LOG_SIZE, i * MAX_LOG_SIZE + MAX_LOG_SIZE);
      var hi := if i * MAX_LOG_SIZE + MAX_LOG_SIZE <= n then i * MAX_LOG_SIZE + MAX_LOG_SIZE else n;
      assert chunk == rounded[i * MAX_LOG_SIZE..hi];
      assert (logged + [chunk])[..i] == logged;
      assert rounded[..hi] == rounded[..i * MAX_LOG_SIZE] + chunk;
      logged := logged + [chunk];
      i := i + 1;
    }
    assert i * MAX_LOG_SIZE >= n;
    assert rounded[..n] == rounded;
  }
}
