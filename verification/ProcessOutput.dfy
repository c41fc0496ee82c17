/** What becomes of the core's output: a tail for diagnostics, whole lines, and a count of lost bytes. */
module ProcessOutput {
  import V = Volumes

  type byte = V.byte

  const LIMIT := 4096
  const NEWLINE: byte := 10

  function LastBytes(s: seq<byte>, n: nat): seq<byte> {
    if |s| <= n then s else s[|s| - n..]
  }

  lemma LastBytesAppend(s: seq<byte>, d: seq<byte>, n: nat)
    ensures LastBytes(s + d, n) == LastBytes(LastBytes(s, n) + d, n)
  {
    if |s| > n {
      assert (s + d)[|s| + |d| - n..] == (s[|s| - n..] + d)[|d|..];
    }
  }

  function Flatten(chunks: seq<seq<byte>>): seq<byte> {
    if chunks == [] then [] else chunks[0] + Flatten(chunks[1..])
  }

  lemma {:induction false} FlattenAppend(a: seq<seq<byte>>, b: seq<seq<byte>>)
    ensures Flatten(a + b) == Flatten(a) + Flatten(b)
  {
    if a == [] {
      assert a + b == b;
    } else {
      assert (a + b)[1..] == a[1..] + b;
      FlattenAppend(a[1..], b);
    }
  }

  /** A piece of the stream that ends where it must: at its only newline, or at the limit. */
  predicate IsChunk(c: seq<byte>) {
    && 0 < |c| <= LIMIT
    && (forall i :: 0 <= i < |c| - 1 ==> c[i] != NEWLINE)
    && (c[|c| - 1] == NEWLINE || |c| == LIMIT)
  }

  predicate IsOpen(c: seq<byte>) {
    |c| < LIMIT && forall i :: 0 <= i < |c| ==> c[i] != NEWLINE
  }

  ghost predicate IsSplit(chunks: seq<seq<byte>>, rest: seq<byte>, stream: seq<byte>) {
    && (forall i :: 0 <= i < |chunks| ==> IsChunk(chunks[i]))
    && IsOpen(rest)
    && Flatten(chunks) + rest == stream
  }

  /** A chunk is no proper prefix of a chunk, nor a prefix of an open piece. */
  lemma ChunkFirst(c: seq<byte>, rest: seq<byte>, d: seq<byte>, rest': seq<byte>)
    requires IsChunk(c) && c + rest == d + rest'
    ensures IsChunk(d) ==> c == d && rest == rest'
    ensures IsOpen(d) ==> rest' != []
  {
    forall i | 0 <= i < |c| && i < |d| ensures c[i] == d[i] {
      assert (c + rest)[i] == (d + rest')[i];
    }
    assert |c| + |rest| == |d| + |rest'|;
    assert rest == (c + rest)[|c|..] && rest' == (d + rest')[|d|..];
  }

  /** A stream has one split only: the greedy one. */
  lemma {:induction false} SplitUnique(a: seq<seq<byte>>, rest: seq<byte>, b: seq<seq<byte>>, rest': seq<byte>, stream: seq<byte>)
    requires IsSplit(a, rest, stream) && IsSplit(b, rest', stream)
    ensures a == b && rest == rest'
    decreases |a|
  {
    hide IsChunk, IsOpen;
    assert [] + rest == rest && [] + rest' == rest';
    if a == [] && b != [] {
      assert stream == rest + [] == b[0] + (Flatten(b[1..]) + rest');
      ChunkFirst(b[0], Flatten(b[1..]) + rest', rest, []);
    } else if a != [] && b == [] {
      assert stream == rest' + [] == a[0] + (Flatten(a[1..]) + rest);
      ChunkFirst(a[0], Flatten(a[1..]) + rest, rest', []);
    } else if a != [] {
      assert stream == a[0] + (Flatten(a[1..]) + rest) == b[0] + (Flatten(b[1..]) + rest');
      ChunkFirst(a[0], Flatten(a[1..]) + rest, b[0], Flatten(b[1..]) + rest');
      SplitUnique(a[1..], rest, b[1..], rest', Flatten(a[1..]) + rest);
      assert a == [a[0]] + a[1..] && b == [b[0]] + b[1..];
    }
  }

  lemma SplitByte(chunks: seq<seq<byte>>, rest: seq<byte>, stream: seq<byte>, b: byte)
    requires IsSplit(chunks, rest, stream)
    ensures b == NEWLINE || |rest| + 1 == LIMIT ==> IsSplit(chunks + [rest + [b]], [], stream + [b])
    ensures b != NEWLINE && |rest| + 1 < LIMIT ==> IsSplit(chunks, rest + [b], stream + [b])
  {
    FlattenAppend(chunks, [rest + [b]]);
    assert Flatten([rest + [b]]) == rest + [b];
    assert Flatten(chunks) + (rest + [b]) == stream + [b];
    if b == NEWLINE || |rest| + 1 == LIMIT {
      assert IsChunk(rest + [b]);
    }
  }

  class Output {
    var tail: seq<byte>
    var pending: seq<byte>
    var lost: nat

    ghost var stream: seq<byte>            // everything the core has written
    ghost var diagnosed: seq<seq<byte>>    // the pieces handed to the diagnostics
    ghost var accepted: nat                // bytes the log file has taken
    ghost var dropped: nat                 // bytes it has not
    ghost var settled: nat                 // of these, lost before the log last recovered

    ghost predicate Valid()
      reads this
    {
      && tail == LastBytes(stream, LIMIT)
      && IsSplit(diagnosed, pending, stream)
      && accepted + dropped == |stream|
      && settled <= dropped && lost == dropped - settled
    }

    constructor ()
      ensures Valid() && stream == []
    {
      tail, pending, lost := [], [], 0;
      stream, diagnosed, accepted, dropped, settled := [], [], 0, 0, 0;
    }

    method KeepTail(data: seq<byte>)
      requires tail == LastBytes(stream, LIMIT)
      modifies this`tail
      ensures tail == LastBytes(stream + data, LIMIT)
    {
      LastBytesAppend(stream, data, LIMIT);
      if |data| >= LIMIT {
        tail := data[|data| - LIMIT..];
      } else {
        var excess := |tail| + |data| - LIMIT;
        if excess > 0 { tail := tail[excess..]; }
        tail := tail + data;
      }
    }

    /** Whole lines and full buffers go to the diagnostics. */
    method Split(data: seq<byte>)
      requires IsSplit(diagnosed, pending, stream)
      modifies this`pending, this`diagnosed
      ensures IsSplit(diagnosed, pending, stream + data)
      ensures old(diagnosed) <= diagnosed
    {
      hide IsSplit;
      assert stream + data[..0] == stream;
      for i := 0 to |data|
        invariant IsSplit(diagnosed, pending, stream + data[..i])
        invariant old(diagnosed) <= diagnosed
      {
        var b := data[i];
        SplitByte(diagnosed, pending, stream + data[..i], b);
        assert stream + data[..i] + [b] == stream + data[..i + 1];
        assert |pending| < LIMIT by { SplitOpen(diagnosed, pending, stream + data[..i]); }
        pending := pending + [b];
        if b == NEWLINE || |pending| == LIMIT {
          diagnosed := diagnosed + [pending];
          pending := [];
        }
      }
      assert data[..|data|] == data;
    }

    /** The log file takes the first n bytes; a failure never stops the draining. */
    method Write(data: seq<byte>, n: nat, fails: bool) returns (count: nat)
      requires Valid() && n <= |data|
      modifies this
      ensures Valid() && count == |data|
      ensures stream == old(stream) + data
      ensures accepted == old(accepted) + n && dropped == old(dropped) + (|data| - n)
      ensures lost == if fails || n != |data| then old(lost) + (|data| - n) else 0
      ensures old(diagnosed) <= diagnosed
    {
      KeepTail(data);
      if fails || n != |data| {
        lost := lost + (|data| - n);
      } else if lost != 0 {
        settled := dropped;
        lost := 0;
      }
      accepted, dropped := accepted + n, dropped + (|data| - n);
      Split(data);
      stream := stream + data;
      return |data|;
    }
  }

  lemma SplitOpen(chunks: seq<seq<byte>>, rest: seq<byte>, stream: seq<byte>)
    requires IsSplit(chunks, rest, stream)
    ensures |rest| < LIMIT
  {
  }

  datatype Piece = Piece(data: seq<byte>, taken: nat, fails: bool)

  predicate ArePieces(pieces: seq<Piece>) {
    forall i :: 0 <= i < |pieces| ==> pieces[i].taken <= |pieces[i].data|
  }

  function Joined(pieces: seq<Piece>): seq<byte> {
    if pieces == [] then [] else Joined(pieces[..|pieces| - 1]) + pieces[|pieces| - 1].data
  }

  function TakenFrom(pieces: seq<Piece>): nat {
    if pieces == [] then 0 else TakenFrom(pieces[..|pieces| - 1]) + pieces[|pieces| - 1].taken
  }

  /** However the output is cut into writes and however the log file fails, the tail and the pieces
      diagnosed are those of the whole stream - compared with any other split of it they are the same -
      and every byte is either in the log file or counted as lost. */
  method Drain(pieces: seq<Piece>, ghost chunks: seq<seq<byte>>, ghost rest: seq<byte>)
    returns (tail: seq<byte>, pending: seq<byte>, ghost diagnosed: seq<seq<byte>>, ghost dropped: nat)
    requires ArePieces(pieces) && IsSplit(chunks, rest, Joined(pieces))
    ensures tail == LastBytes(Joined(pieces), LIMIT)
    ensures |tail| == (if |Joined(pieces)| <= 4096 then |Joined(pieces)| else 4096)
    ensures diagnosed == chunks && pending == rest
    ensures forall i :: 0 <= i < |diagnosed| ==> 0 < |diagnosed[i]| <= 4096 && (diagnosed[i][|diagnosed[i]| - 1] == 10 || |diagnosed[i]| == 4096)
    ensures TakenFrom(pieces) + dropped == |Joined(pieces)|
  {
    var out := new Output();
    for i := 0 to |pieces|
      invariant fresh(out) && out.Valid()
      invariant out.stream == Joined(pieces[..i]) && out.accepted == TakenFrom(pieces[..i])
    {
      assert pieces[..i + 1][..i] == pieces[..i];
      var _ := out.Write(pieces[i].data, pieces[i].taken, pieces[i].fails);
    }
    assert pieces[..|pieces|] == pieces;
    SplitUnique(out.diagnosed, out.pending, chunks, rest, out.stream);
    return out.tail, out.pending, out.diagnosed, out.dropped;
  }
}
