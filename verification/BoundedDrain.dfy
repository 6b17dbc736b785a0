/** Draining a child's output: everything is read, a bounded prefix is kept. */
module BoundedDrain {
  import opened Prelude
  import opened Lines

  datatype IoError = IoError

  const BUFFER_SIZE: nat := 8192

  // What the reads deliver until one returns nothing.
  function Delivered(chunks: seq<seq<Byte>>): seq<Byte> {
    if chunks == [] || chunks[0] == [] then []
    else chunks[0] + Delivered(chunks[1..])
  }

  // Whether some read returns nothing before the chunks run out.
  predicate Closes(chunks: seq<seq<Byte>>) {
    chunks != [] && (chunks[0] == [] || Closes(chunks[1..]))
  }

  function Weight(chunks: seq<seq<Byte>>): nat {
    if chunks == [] then 0 else |chunks[0]| + Weight(chunks[1..])
  }

  /** A pipe: the chunks still to arrive, and whether it breaks after them. */
  class Pipe {
    var chunks: seq<seq<Byte>>
    const breaks: bool

    constructor (chunks: seq<seq<Byte>>, breaks: bool)
      ensures this.chunks == chunks && this.breaks == breaks
    {
      this.chunks, this.breaks := chunks, breaks;
    }

    // One read: at most a buffer full of the next chunk.
    method Read(buffer: array<Byte>) returns (n: Result<nat, IoError>)
      requires buffer.Length > 0
      modifies this`chunks, buffer
      ensures n.Err? <==> old(chunks) == [] && breaks
      ensures n.Ok? ==> n.value <= buffer.Length
      ensures n.Ok? ==> Delivered(old(chunks)) == buffer[..n.value] + (if n.value == 0 then [] else Delivered(chunks))
      ensures n.Ok? && n.value > 0 ==>
                Closes(chunks) == Closes(old(chunks)) && Weight(chunks) < Weight(old(chunks))
      ensures n == Ok(0) ==> Closes(old(chunks)) || !breaks
    {
      if chunks == [] {
        return if breaks then Err(IoError) else Ok(0);
      }
      var k := Fill(buffer, chunks[0]);
      n := Ok(k);
      if k > 0 {
        SplitFirst(chunks, k);
        chunks := LeftAfter(chunks, k);
      }
    }
  }

  method Fill(buffer: array<Byte>, chunk: seq<Byte>) returns (k: nat)
    modifies buffer
    ensures k == Min(|chunk|, buffer.Length) && buffer[..k] == chunk[..k]
  {
    k := Min(|chunk|, buffer.Length);
    var i := 0;
    while i < k
      invariant 0 <= i <= k
      invariant buffer[..i] == chunk[..i]
    {
      buffer[i] := chunk[i];
      i := i + 1;
    }
  }

  // What is left after k bytes of the first chunk.
  function LeftAfter(chunks: seq<seq<Byte>>, k: nat): seq<seq<Byte>>
    requires chunks != [] && 0 < k <= |chunks[0]|
  {
    if k == |chunks[0]| then chunks[1..] else [chunks[0][k..]] + chunks[1..]
  }

  // The chunks without the first, and what each function makes of the first.
  lemma Unfold(first: seq<Byte>, rest: seq<seq<Byte>>)
    ensures Delivered([first] + rest) == if first == [] then [] else first + Delivered(rest)
    ensures Closes([first] + rest) == (first == [] || Closes(rest))
    ensures Weight([first] + rest) == |first| + Weight(rest)
  {
    assert ([first] + rest)[1..] == rest;
  }

  lemma SplitFirst(chunks: seq<seq<Byte>>, k: nat)
    requires chunks != [] && 0 < k <= |chunks[0]|
    ensures Delivered(chunks) == chunks[0][..k] + Delivered(LeftAfter(chunks, k))
    ensures Closes(LeftAfter(chunks, k)) == Closes(chunks)
    ensures Weight(LeftAfter(chunks, k)) < Weight(chunks)
  {
    var first, rest := chunks[0], chunks[1..];
    assert chunks == [first] + rest;
    Unfold(first, rest);
    if k < |first| {
      Unfold(first[k..], rest);
      SplitAt(first, k, Delivered(rest));
    } else {
      assert first[..k] == first;
    }
  }

  lemma SplitAt(a: seq<Byte>, k: nat, b: seq<Byte>)
    requires k <= |a|
    ensures a + b == a[..k] + (a[k..] + b)
  {}

  lemma PrefixGrows(all: seq<Byte>, kept: seq<Byte>, chunk: seq<Byte>, rest: seq<Byte>, cap: nat, taken: seq<Byte>)
    requires all == taken + (chunk + rest)
    requires kept == taken[..Min(cap, |taken|)]
    ensures all == (taken + chunk) + rest
    ensures kept + chunk[..Min(|chunk|, cap - |kept|)] == (taken + chunk)[..Min(cap, |taken + chunk|)]
  {}

  /** However the bytes arrive, the first `cap` of them are kept, and the result is marked
      truncated exactly when there were more. A broken pipe is an error. */
  method Drain(pipe: Pipe, cap: nat, decode: seq<Byte> -> string) returns (r: Result<(string, bool), IoError>)
    modifies pipe`chunks
    ensures r.Err? <==> pipe.breaks && !Closes(old(pipe.chunks))
    ensures r.Ok? ==>
              var all := Delivered(old(pipe.chunks));
              r.value == (decode(all[..Min(cap, |all|)]), |all| > cap)
  {
    ghost var all := Delivered(pipe.chunks);
    ghost var taken: seq<Byte> := [];
    var kept: seq<Byte> := [];
    var buffer := new Byte[BUFFER_SIZE];
    var truncated := false;
    assert all == taken + Delivered(pipe.chunks);
    while true
      invariant all == taken + Delivered(pipe.chunks)
      invariant kept == taken[..Min(cap, |taken|)]
      invariant truncated <==> |taken| > cap
      invariant Closes(pipe.chunks) == Closes(old(pipe.chunks))
      decreases Weight(pipe.chunks)
    {
      var n := pipe.Read(buffer);
      if n.Err? {
        return Err(n.error);
      }
      if n.value == 0 {
        break;
      }
      var remaining := cap - |kept|;
      PrefixGrows(all, kept, buffer[..n.value], Delivered(pipe.chunks), cap, taken);
      taken := taken + buffer[..n.value];
      kept := kept + buffer[..Min(n.value, remaining)];
      truncated := truncated || n.value > remaining;
    }
    assert taken == all;
    r := Ok((decode(kept), truncated));
  }
}
