/** The byte-bounded scrollback ring of a PTY session (pty_session.py:1500-1510, 2014-2026). */
module Scrollback {
  import opened JsonlTail

  type Chunk = Bytes

  /** `b"".join(chunks)`. */
  function Join(chunks: seq<Chunk>): (data: Bytes) {
    if chunks == [] then [] else chunks[0] + Join(chunks[1..])
  }

  lemma {:induction false} JoinAppend(a: seq<Chunk>, b: seq<Chunk>)
    ensures Join(a + b) == Join(a) + Join(b)
    decreases |a|
  {
    if a == [] {
      assert a + b == b;
    } else {
      assert (a + b)[0] == a[0] && (a + b)[1..] == a[1..] + b;
      JoinAppend(a[1..], b);
    }
  }

  lemma JoinOne(chunk: Chunk)
    ensures Join([chunk]) == chunk
  {
  }

  /** The last `n` chunks. */
  function Suffix(stream: seq<Chunk>, n: nat): seq<Chunk>
    requires n <= |stream|
  {
    stream[|stream| - n..]
  }

  lemma SuffixLonger(stream: seq<Chunk>, n: nat)
    requires n < |stream|
    ensures Suffix(stream, n + 1) == [stream[|stream| - n - 1]] + Suffix(stream, n)
    ensures |Join(Suffix(stream, n + 1))| == |stream[|stream| - n - 1]| + |Join(Suffix(stream, n))|
  {
  }

  /**
    What the ring holds of a stream: its longest non-empty suffix within the budget, or the last
    chunk alone when even that is over it.
   */
  ghost predicate Retains(kept: seq<Chunk>, stream: seq<Chunk>, budget: int) {
    && |kept| <= |stream| && kept == Suffix(stream, |kept|)
    && (stream != [] ==> kept != [])
    && (|kept| > 1 ==> |Join(kept)| <= budget)
    && (forall n | |kept| < n <= |stream| :: |Join(Suffix(stream, n))| > budget)
  }

  /** Longer suffixes are no smaller, so one that is over the budget puts all longer ones over it. */
  lemma {:induction false} LongerIsLarger(stream: seq<Chunk>, m: nat, n: nat)
    requires m <= n <= |stream|
    ensures |Join(Suffix(stream, m))| <= |Join(Suffix(stream, n))|
    decreases n - m
  {
    if m < n {
      SuffixLonger(stream, n - 1);
      LongerIsLarger(stream, m, n - 1);
    }
  }

  lemma SuffixOfAppended(stream: seq<Chunk>, data: Chunk, n: nat)
    requires n <= |stream|
    ensures Suffix(stream + [data], n + 1) == Suffix(stream, n) + [data]
    ensures |Join(Suffix(stream + [data], n + 1))| == |Join(Suffix(stream, n))| + |data|
  {
    assert Suffix(stream + [data], n + 1) == Suffix(stream, n) + [data];
    JoinAppend(Suffix(stream, n), [data]);
    JoinOne(data);
  }

  /** The chunks evicted at the front were over the budget with everything behind them. */
  lemma AppendedRetains(kept: seq<Chunk>, stream: seq<Chunk>, data: Chunk, n: nat, budget: int)
    requires Retains(kept, stream, budget)
    requires 1 <= n <= |kept| + 1
    requires n > 1 ==> |Join(Suffix(stream + [data], n))| <= budget
    requires n <= |kept| ==> |Join(Suffix(stream + [data], n + 1))| > budget
    ensures Retains(Suffix(stream + [data], n), stream + [data], budget)
  {
    hide Join;
    var whole := stream + [data];
    JoinOne(data);
    forall m | n < m <= |whole|
      ensures |Join(Suffix(whole, m))| > budget
    {
      if n <= |kept| {
        LongerIsLarger(whole, n + 1, m);
      } else {
        assert |Join(Suffix(stream, m - 1))| > budget;
        SuffixOfAppended(stream, data, m - 1);
      }
    }
  }

  /** Dropping the oldest chunk of a suffix. */
  lemma DropOldest(stream: seq<Chunk>, kept: seq<Chunk>)
    requires 0 < |kept| <= |stream| && kept == Suffix(stream, |kept|)
    ensures kept[1..] == Suffix(stream, |kept| - 1)
    ensures |Join(kept)| == |kept[0]| + |Join(kept[1..])|
  {
  }

  /** Python's `data[-n:]`. */
  function LastBytes(data: Bytes, n: int): (tail: Bytes) {
    if n <= 0 then (if -n <= |data| then data[-n..] else [])
    else if n <= |data| then data[|data| - n..]
    else data
  }

  /** `data[-n:]` if longer than `n`, else `data`. */
  function Tail(data: Bytes, n: int): (tail: Bytes) {
    if |data| > n then LastBytes(data, n) else data
  }

  class Ring {
    const budget: int
    var chunks: seq<Chunk>
    var size: nat
    /** Every chunk ever appended. */
    ghost var stream: seq<Chunk>

    ghost predicate Valid()
      reads this
    {
      Retains(chunks, stream, budget) && size == |Join(chunks)|
    }

    constructor (budget: int)
      ensures Valid() && stream == [] && this.budget == budget
    {
      this.budget, chunks, size, stream := budget, [], 0, [];
    }

    method Append(data: Chunk)
      requires Valid()
      modifies this
      ensures Valid() && stream == old(stream) + [data]
    {
      hide Join;
      ghost var kept, whole := chunks, stream + [data];
      JoinAppend(chunks, [data]);
      JoinOne(data);
      chunks := chunks + [data];
      size := size + |data|;
      stream := whole;
      while size > budget && |chunks| > 1
        invariant 1 <= |chunks| <= |kept| + 1 <= |whole| && stream == whole
        invariant chunks == Suffix(whole, |chunks|)
        invariant size == |Join(chunks)|
        invariant |chunks| <= |kept| ==> |Join(Suffix(whole, |chunks| + 1))| > budget
        decreases |chunks|
      {
        DropOldest(whole, chunks);
        var evicted := chunks[0];
        chunks := chunks[1..];
        size := size - |evicted|;
      }
      AppendedRetains(kept, old(stream), data, |chunks|, budget);
    }

    /** `tail_text`, before decoding. */
    method TailBytes(maxBytes: int) returns (tail: Bytes)
      requires Valid()
      ensures 1 <= maxBytes ==> tail == Tail(Join(chunks), maxBytes)
      ensures maxBytes <= 0 ==> tail == (if chunks == [] then [] else Tail(chunks[|chunks| - 1], maxBytes))
    {
      hide Join;
      var picked := PickTail(chunks, maxBytes);
      tail := Join(picked);
      if |tail| > maxBytes {
        tail := LastBytes(tail, maxBytes);
      }
      PickedIsEnough(chunks, picked, maxBytes);
    }
  }

  /** In plain terms: the last `n` bytes or all; all for 0, and for a negative number what follows as many bytes. */
  lemma TailIs(data: Bytes, n: int)
    ensures Tail(data, n) == if n > 0 then (if n < |data| then data[|data| - n..] else data)
                             else if n == 0 then data
                             else if -n <= |data| then data[-n..] else []
  {
  }

  /** The picked chunks are enough to show `n` bytes: all, or a suffix of at least that many. */
  ghost predicate Enough(chunks: seq<Chunk>, picked: seq<Chunk>, n: int) {
    && |picked| <= |chunks| && picked == Suffix(chunks, |picked|)
    && (picked != chunks ==> |Join(picked)| >= n)
    && (n <= 0 && chunks != [] ==> |picked| == 1)
  }

  /** The loop of `tail_text`. */
  method PickTail(chunks: seq<Chunk>, maxBytes: int) returns (picked: seq<Chunk>)
    ensures Enough(chunks, picked, maxBytes)
  {
    hide Join;
    picked := [];
    NothingJoined();
    var total := 0;
    for i := |chunks| downto 0
      invariant picked == chunks[i..] && total == |Join(picked)|
      invariant i < |chunks| ==> total < maxBytes
    {
      assert chunks[i..] == [chunks[i]] + picked;
      JoinAppend([chunks[i]], picked);
      JoinOne(chunks[i]);
      picked := [chunks[i]] + picked;
      total := total + |chunks[i]|;
      if total >= maxBytes {
        return;
      }
    }
  }

  lemma PickedIsEnough(chunks: seq<Chunk>, picked: seq<Chunk>, n: int)
    requires Enough(chunks, picked, n)
    ensures 1 <= n ==> Tail(Join(picked), n) == Tail(Join(chunks), n)
    ensures n <= 0 && chunks == [] ==> Join(picked) == []
    ensures n <= 0 && chunks != [] ==> Join(picked) == chunks[|chunks| - 1]
  {
    if n <= 0 && chunks != [] {
      assert picked == [chunks[|chunks| - 1]];
      JoinOne(chunks[|chunks| - 1]);
    } else if picked != chunks && n >= 1 {
      var front := chunks[..|chunks| - |picked|];
      assert chunks == front + picked;
      JoinAppend(front, picked);
      TailOfSuffix(Join(front), Join(picked), n);
    }
  }

  lemma NothingJoined()
    ensures Join([]) == []
  {
  }

  /** The last `n` bytes of a text lie in any suffix that has as many. */
  lemma TailOfSuffix(front: Bytes, back: Bytes, n: int)
    requires 1 <= n <= |back|
    ensures Tail(front + back, n) == Tail(back, n)
  {
  }

  /**
    What `tail_text(n)` shows is the last min(n, total) bytes ever emitted exactly when `n` is
    within what the ring holds, or the ring holds everything.
   */
  lemma TailIsExact(kept: seq<Chunk>, stream: seq<Chunk>, budget: int, n: int)
    requires Retains(kept, stream, budget) && n >= 1
    ensures Tail(Join(kept), n) == Tail(Join(stream), n) <==> n <= |Join(kept)| || |Join(kept)| == |Join(stream)|
  {
    var cut := |stream| - |kept|;
    assert stream == stream[..cut] + kept;
    JoinAppend(stream[..cut], kept);
    assert Join(stream) == Join(stream[..cut]) + Join(kept);
    if n <= |Join(kept)| {
      TailOfSuffix(Join(stream[..cut]), Join(kept), n);
    }
  }

  /**
    With chunks of at most `c` bytes, `tail_text(n)` for 1 <= n <= budget - c is always the last
    min(n, total) bytes ever emitted.
   */
  lemma TailWithinBudget(kept: seq<Chunk>, stream: seq<Chunk>, budget: int, c: int, n: int)
    requires Retains(kept, stream, budget) && 1 <= n <= budget - c
    requires forall i | 0 <= i < |stream| :: |stream[i]| <= c
    ensures Tail(Join(kept), n) == Tail(Join(stream), n)
  {
    if |kept| < |stream| {
      SuffixLonger(stream, |kept|);
    } else {
      assert Suffix(stream, |stream|) == stream;
    }
    TailIsExact(kept, stream, budget, n);
  }
}
