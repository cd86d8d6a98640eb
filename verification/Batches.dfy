/**
 Splitting and merging message batches, and distributing a batch over publishers in
 chunks: nothing is lost, repeated or reordered.
 */
module Batches {
  import opened Arithmetic

  datatype Message = Message(id: nat, payload: seq<nat>)

  /** Consecutive pieces of `size` messages; the last may be shorter. */
  function Chunks<T>(s: seq<T>, size: nat): seq<seq<T>>
    requires size > 0
    decreases |s|
  {
    if s == [] then [] else if |s| <= size then [s] else [s[..size]] + Chunks(s[size..], size)
  }

  function Flatten<T>(pieces: seq<seq<T>>): seq<T> {
    if pieces == [] then [] else Flatten(pieces[..|pieces| - 1]) + pieces[|pieces| - 1]
  }

  function CeilDiv(n: nat, d: nat): nat
    requires d > 0
  {
    (n + d - 1) / d
  }

  lemma {:induction false} FlattenCons<T>(head: seq<T>, rest: seq<seq<T>>)
    ensures Flatten([head] + rest) == head + Flatten(rest)
  {
    var all := [head] + rest;
    if rest == [] {
      assert all[..0] == [];
    } else {
      assert all[..|all| - 1] == [head] + rest[..|rest| - 1];
      FlattenCons(head, rest[..|rest| - 1]);
    }
  }

  lemma {:induction false} ChunksFlatten<T>(s: seq<T>, size: nat)
    requires size > 0
    ensures Flatten(Chunks(s, size)) == s
    decreases |s|
  {
    if 0 < |s| <= size {
      FlattenCons(s, []);
    } else if |s| > size {
      ChunksFlatten(s[size..], size);
      FlattenCons(s[..size], Chunks(s[size..], size));
    }
  }

  lemma CeilDivStep(n: nat, d: nat)
    requires d > 0 && n >= d
    ensures CeilDiv(n, d) == 1 + CeilDiv(n - d, d)
  {
    var c, c' := CeilDiv(n, d), CeilDiv(n - d, d);
    CeilDivLeast(n, d, 0);
    CeilDivLeast(n, d, c);
    CeilDivLeast(n, d, c' + 1);
    CeilDivLeast(n - d, d, c');
    CeilDivLeast(n - d, d, c - 1);
    assert (c' + 1) * d == c' * d + d;
    assert (c - 1) * d == c * d - d;
  }

  /** There are `ceil(|s| / size)` pieces, all of `size` entries but the last, which is not empty. */
  lemma {:induction false} ChunksShape<T>(s: seq<T>, size: nat)
    requires size > 0
    ensures |Chunks(s, size)| == CeilDiv(|s|, size)
    ensures forall i | 0 <= i < |Chunks(s, size)| :: 1 <= |Chunks(s, size)[i]| <= size
    ensures forall i | 0 <= i < |Chunks(s, size)| - 1 :: |Chunks(s, size)[i]| == size
    decreases |s|
  {
    if |s| > size {
      ChunksShape(s[size..], size);
      CeilDivStep(|s|, size);
    } else if 0 < |s| {
      assert CeilDiv(|s|, size) == 1 by { SmallCeilDiv(|s|, size); }
    } else {
      assert CeilDiv(0, size) == 0;
    }
  }

  /** Piece `i` is the messages from `i * size` up to the next multiple of `size`, or to the end. */
  lemma {:induction false} ChunkAt<T>(s: seq<T>, size: nat, i: nat)
    requires size > 0 && i < |Chunks(s, size)|
    ensures i * size < |s| && Chunks(s, size)[i] == s[i * size..if (i + 1) * size < |s| then (i + 1) * size else |s|]
    decreases |s|
  {
    if i > 0 {
      var rest := s[size..];
      ChunkAt(rest, size, i - 1);
      assert (i - 1) * size + size == i * size && i * size + size == (i + 1) * size;
      assert Chunks(s, size)[i] == Chunks(rest, size)[i - 1];
    }
  }

  lemma SmallCeilDiv(n: nat, d: nat)
    requires 0 < n <= d
    ensures CeilDiv(n, d) == 1
  {
  }

  /** `ceil(n / d)` is the least `q` with `q * d >= n`. */
  lemma CeilDivLeast(n: nat, d: nat, q: nat)
    requires d > 0
    ensures CeilDiv(n, d) <= q <==> n <= q * d
  {
    var c := CeilDiv(n, d);
    CeilDivBounds(n, d);
    if c <= q {
      MulMonotone(c, q, d);
    } else {
      MulMonotone(q, c - 1, d);
    }
  }

  lemma CeilDivBounds(n: nat, d: nat)
    requires d > 0
    ensures var c := CeilDiv(n, d);
            n <= c * d && (c > 0 ==> (c - 1) * d < n)
  {
    var c := CeilDiv(n, d);
    assert c * d <= n + d - 1 < c * d + d;
    assert c > 0 ==> (c - 1) * d == c * d - d;
  }

  /** Chunks of `ceil(n / p)` messages are never more than the `p` publishers. */
  lemma EveryChunkFindsPublisher(n: nat, p: nat)
    requires n >= 1 && p >= 1
    ensures CeilDiv(n, p) >= 1 && CeilDiv(n, CeilDiv(n, p)) <= p
  {
    var size := CeilDiv(n, p);
    CeilDivLeast(n, p, size);
    CeilDivLeast(n, p, 0);
    CeilDivLeast(n, size, p);
    assert n <= p * size;
  }

  // ----- publish_batch -----

  /** The chunk publisher `publisher` is given. */
  datatype Task = Task(publisher: nat, messages: seq<Message>)

  datatype Outcome = NoPublishers | Panicked | Spawned(tasks: seq<Task>)

  ghost function Assigned(tasks: seq<Task>): seq<Message> {
    if tasks == [] then [] else Assigned(tasks[..|tasks| - 1]) + tasks[|tasks| - 1].messages
  }

  /**
   Spawn one task per chunk that finds a publisher. Every message is assigned, in order
   and once, to distinct publishers; an empty batch asks for chunks of size zero, which
   panics.
   */
  method PublishBatch(messages: seq<Message>, publishers: nat) returns (r: Outcome)
    ensures r.NoPublishers? <==> publishers == 0
    ensures r.Panicked? <==> publishers > 0 && messages == []
    ensures r.Spawned? ==>
              && Assigned(r.tasks) == messages && |r.tasks| <= publishers
              && (forall i | 0 <= i < |r.tasks| ::
                    r.tasks[i].publisher == i && 1 <= |r.tasks[i].messages| <= CeilDiv(|messages|, publishers))
              && (forall i | 0 <= i < |r.tasks| - 1 :: |r.tasks[i].messages| == CeilDiv(|messages|, publishers))
  {
    if publishers == 0 {
      return NoPublishers;
    }
    var chunkSize := (|messages| + publishers - 1) / publishers;
    assert chunkSize == CeilDiv(|messages|, publishers);
    hide CeilDiv;
    hide Chunks;
    CeilDivLeast(|messages|, publishers, 0);
    if chunkSize == 0 {
      return Panicked;
    }
    var chunks := Chunks(messages, chunkSize);
    ChunksShape(messages, chunkSize);
    EveryChunkFindsPublisher(|messages|, publishers);
    var tasks := [];
    for i := 0 to |chunks|
      invariant |tasks| == i && Assigned(tasks) == Flatten(chunks[..i])
      invariant forall j | 0 <= j < i :: tasks[j] == Task(j, chunks[j])
    {
      if i < publishers {
        var before := tasks;
        tasks := tasks + [Task(i, chunks[i])];
        assert tasks[..|tasks| - 1] == before;
      }
      assert chunks[..i + 1][..i] == chunks[..i];
    }
    assert chunks[..|chunks|] == chunks;
    ChunksFlatten(messages, chunkSize);
    r := Spawned(tasks);
  }

  // ----- split and merge -----

  function Split(messages: seq<Message>, batchSize: nat): seq<seq<Message>> {
    if batchSize == 0 then [messages] else Chunks(messages, batchSize)
  }

  /** A batch is split into pieces of the asked size, the last one excepted, and not at all for size zero. */
  lemma SplitPieces(messages: seq<Message>, batchSize: nat, i: nat)
    requires i < |Split(messages, batchSize)|
    ensures batchSize == 0 ==> Split(messages, batchSize) == [messages]
    ensures batchSize > 0 ==>
              && |Split(messages, batchSize)| == CeilDiv(|messages|, batchSize) && i * batchSize < |messages|
              && Split(messages, batchSize)[i] ==
                   messages[i * batchSize..if (i + 1) * batchSize < |messages| then (i + 1) * batchSize else |messages|]
  {
    if batchSize > 0 {
      ChunksShape(messages, batchSize);
      ChunkAt(messages, batchSize, i);
    }
  }

  method Merge(batches: seq<seq<Message>>) returns (all: seq<Message>)
    ensures all == Flatten(batches)
  {
    all := [];
    for i := 0 to |batches|
      invariant all == Flatten(batches[..i])
    {
      assert batches[..i + 1][..i] == batches[..i];
      all := all + batches[i];
    }
    assert batches[..|batches|] == batches;
  }

  /** Merging a split batch gives the batch back, whatever the size, zero included. */
  lemma MergeSplit(messages: seq<Message>, batchSize: nat)
    ensures Flatten(Split(messages, batchSize)) == messages
  {
    if batchSize == 0 {
      FlattenCons(messages, []);
    } else {
      ChunksFlatten(messages, batchSize);
    }
  }

  function PayloadSize(messages: seq<Message>): nat {
    if messages == [] then 0 else |messages[0].payload| + PayloadSize(messages[1..])
  }

  function TotalSize(batches: seq<seq<Message>>): nat {
    if batches == [] then 0 else TotalSize(batches[..|batches| - 1]) + PayloadSize(batches[|batches| - 1])
  }

  lemma {:induction false} PayloadConcat(a: seq<Message>, b: seq<Message>)
    ensures PayloadSize(a + b) == PayloadSize(a) + PayloadSize(b)
  {
    if a == [] {
      assert a + b == b;
    } else {
      assert (a + b)[1..] == a[1..] + b;
      PayloadConcat(a[1..], b);
    }
  }

  /** With the sum over two batches, this fixes the size of every batch. */
  lemma PayloadOfOne(m: Message)
    ensures PayloadSize([m]) == |m.payload| && PayloadSize([]) == 0
  {
    assert PayloadSize([m][1..]) == 0;
  }

  lemma {:induction false} FlattenPayload(batches: seq<seq<Message>>)
    ensures PayloadSize(Flatten(batches)) == TotalSize(batches)
  {
    if batches != [] {
      FlattenPayload(batches[..|batches| - 1]);
      PayloadConcat(Flatten(batches[..|batches| - 1]), batches[|batches| - 1]);
    }
  }

  /** Splitting conserves the payload size. */
  lemma SplitConservesPayload(messages: seq<Message>, batchSize: nat)
    ensures TotalSize(Split(messages, batchSize)) == PayloadSize(messages)
  {
    MergeSplit(messages, batchSize);
    FlattenPayload(Split(messages, batchSize));
  }
}
