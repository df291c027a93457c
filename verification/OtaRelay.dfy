// main/APP/OTA/mesh_ota.c: an image passes from node to node in chunks of any order and
// size, padded with 0xFF to a multiple of 64 KiB.
module OtaRelay {
  const ALIGNMENT := 0x10000
  const SIZE_MAX := 0xFFFF_FFFF

  type size_t = x: int | 0 <= x <= 0xFFFF_FFFF

  // aligned_file_size; the sum is never formed when it would not fit.
  function Aligned(n: size_t): (r: size_t)
    ensures r != 0 <==> 0 < n <= SIZE_MAX - (ALIGNMENT - 1)
    ensures r != 0 ==> r % ALIGNMENT == 0 && n <= r < n + ALIGNMENT
  {
    if n == 0 || n > SIZE_MAX - (ALIGNMENT - 1) then 0 else (n + ALIGNMENT - 1) - (n + ALIGNMENT - 1) % ALIGNMENT
  }

  // No smaller multiple of the alignment holds the image.
  lemma {:induction false} AlignedLeast(n: size_t, m: nat)
    requires Aligned(n) != 0 && m % ALIGNMENT == 0 && n <= m
    ensures Aligned(n) <= m
  {
    if m < Aligned(n) { MultiplesApart(m, Aligned(n)); }
  }

  lemma {:induction false} MultiplesApart(a: nat, b: nat)
    requires a < b && a % ALIGNMENT == 0 && b % ALIGNMENT == 0
    ensures b - a >= ALIGNMENT
  {
  }

  datatype Request = Request(fileSize: int, offset: size_t, size: size_t)

  predicate RangeValid(q: Request, image: size_t, partition: size_t) {
    var padded := Aligned(image);
    padded != 0 && padded <= partition && q.fileSize > 0 && q.fileSize == padded && q.offset <= padded && q.size <= padded - q.offset
  }

  // What lies at a position of the padded image.
  function Byte(image: seq<bv8>, pos: nat): bv8 { if pos < |image| then image[pos] else 0xFF }

  // NOR flash can only clear bits.
  function Program(now: bv8, byte: bv8): bv8 { now & byte }

  lemma ProgramErased(b: bv8)
    ensures Program(0xFF, b) == b && Program(b, b) == b
  {}

  // ---- A whole transfer ----

  predicate Covered(chunks: seq<Request>, pos: nat) {
    exists i :: 0 <= i < |chunks| && chunks[i].offset <= pos < chunks[i].offset + chunks[i].size
  }

  // The chunks that arrived hold exactly the image, the rest of the slot is still erased.
  predicate Holds(flash: seq<bv8>, image: seq<bv8>, chunks: seq<Request>) {
    forall pos :: 0 <= pos < |flash| ==> flash[pos] == if Covered(chunks, pos) then Byte(image, pos) else 0xFF
  }

  function Received(flash: seq<bv8>, image: seq<bv8>, q: Request): (r: seq<bv8>)
    requires q.offset + q.size <= |flash|
    ensures |r| == |flash|
    ensures forall pos :: 0 <= pos < |flash| ==>
      r[pos] == if q.offset <= pos < q.offset + q.size then Program(flash[pos], Byte(image, pos)) else flash[pos]
  {
    seq(|flash|, pos requires 0 <= pos < |flash| =>
      if q.offset <= pos < q.offset + q.size then Program(flash[pos], Byte(image, pos)) else flash[pos])
  }

  function Transfer(image: seq<bv8>, partition: nat, chunks: seq<Request>): (r: seq<bv8>)
    requires forall i :: 0 <= i < |chunks| ==> chunks[i].offset + chunks[i].size <= partition
    ensures |r| == partition
  {
    if chunks == [] then seq(partition, _ => 0xFF)
    else Received(Transfer(image, partition, chunks[..|chunks| - 1]), image, chunks[|chunks| - 1])
  }

  // Any order, size and repetition of chunks.
  lemma {:induction false} TransferHolds(image: seq<bv8>, partition: nat, chunks: seq<Request>)
    requires forall i :: 0 <= i < |chunks| ==> chunks[i].offset + chunks[i].size <= partition
    ensures Holds(Transfer(image, partition, chunks), image, chunks)
  {
    if chunks != [] {
      var before, q := chunks[..|chunks| - 1], chunks[|chunks| - 1];
      TransferHolds(image, partition, before);
      var flash, after := Transfer(image, partition, before), Transfer(image, partition, chunks);
      forall pos | 0 <= pos < partition ensures after[pos] == if Covered(chunks, pos) then Byte(image, pos) else 0xFF {
        CoveredLast(chunks, pos);
        ProgramErased(Byte(image, pos));
      }
    }
  }

  lemma {:induction false} CoveredLast(chunks: seq<Request>, pos: nat)
    requires chunks != []
    ensures var q := chunks[|chunks| - 1];
      Covered(chunks, pos) <==> Covered(chunks[..|chunks| - 1], pos) || q.offset <= pos < q.offset + q.size
  {
    var before := chunks[..|chunks| - 1];
    if i :| 0 <= i < |before| && before[i].offset <= pos < before[i].offset + before[i].size { assert chunks[i] == before[i]; }
    if i :| 0 <= i < |chunks| && chunks[i].offset <= pos < chunks[i].offset + chunks[i].size { assert i < |before| ==> before[i] == chunks[i]; }
  }

  // Once the chunks cover the image, the slot begins with it.
  lemma {:induction false} RelayCorrect(image: seq<bv8>, partition: nat, chunks: seq<Request>)
    requires forall i :: 0 <= i < |chunks| ==> chunks[i].offset + chunks[i].size <= partition
    requires |image| <= partition && forall pos :: 0 <= pos < |image| ==> Covered(chunks, pos)
    ensures Transfer(image, partition, chunks)[..|image|] == image
  {
    TransferHolds(image, partition, chunks);
  }

  // One hop after another: each node serves the next what it received itself.
  datatype Hop = Hop(partition: nat, chunks: seq<Request>)

  predicate HopOk(h: Hop, size: nat) {
    && size <= h.partition
    && (forall i :: 0 <= i < |h.chunks| ==> h.chunks[i].offset + h.chunks[i].size <= h.partition)
    && (forall pos :: 0 <= pos < size ==> Covered(h.chunks, pos))
  }

  // What the last node of a chain holds.
  function Last(image: seq<bv8>, hops: seq<Hop>): (r: seq<bv8>)
    requires forall k :: 0 <= k < |hops| ==> HopOk(hops[k], |image|)
    ensures |r| >= |image|
    decreases |hops|
  {
    if hops == [] then image
    else
      var h := hops[|hops| - 1];
      assert HopOk(h, |image|);
      Transfer(Last(image, hops[..|hops| - 1])[..|image|], h.partition, h.chunks)
  }

  lemma {:induction false} AnyNumberOfHops(image: seq<bv8>, hops: seq<Hop>)
    requires forall k :: 0 <= k < |hops| ==> HopOk(hops[k], |image|)
    ensures Last(image, hops)[..|image|] == image
    decreases |hops|
  {
    if hops != [] {
      AnyNumberOfHops(image, hops[..|hops| - 1]);
      var h := hops[|hops| - 1];
      assert HopOk(h, |image|);
      RelayCorrect(image, h.partition, h.chunks);
    }
  }

  // ---- The two callbacks ----

  // provide_file_cb: only a valid range of the file on offer is served. `readable` is what
  // the flash driver makes of a read.
  method Provide(flash: array<bv8>, size: size_t, ready: bool, named: bool, q: Request, data: array<bv8>, readable: bool)
    returns (ok: bool)
    requires flash.Length <= SIZE_MAX && size <= flash.Length && data.Length == q.size && data != flash
    modifies data
    ensures ok <==> ready && named && 0 < size <= 0xFFFF_0000 && q.fileSize == Aligned(size) <= flash.Length
                    && q.offset + q.size <= q.fileSize && (readable || q.offset >= size || q.size == 0)
    ensures ok ==> forall i :: 0 <= i < q.size ==> data[i] == Byte(flash[..size], q.offset + i)
    ensures !(ready && named && RangeValid(q, size, flash.Length)) ==> data[..] == old(data[..])
  {
    if !ready || !named || !RangeValid(q, size, flash.Length) { return false; }
    var read := 0;
    if q.offset < size {
      read := size - q.offset;
      if read > q.size { read := q.size; }
    }
    if read != 0 && !readable { return false; }
    forall i | 0 <= i < read { data[i] := flash[q.offset + i]; }
    forall i | read <= i < q.size { data[i] := 0xFF; }
    return true;
  }

  class Receiver {
    const flash: array<bv8>
    var open: bool
    var accepting: bool
    var failed: bool
    var begun: bool  // the slot has been erased
    ghost var chunks: seq<Request>

    // Before the first chunk the slot holds whatever it held.
    ghost predicate Valid(image: seq<bv8>)
      reads this, flash
    {
      && flash.Length <= SIZE_MAX
      && (forall i :: 0 <= i < |chunks| ==> chunks[i].offset + chunks[i].size <= flash.Length)
      && (!begun ==> chunks == [])
      && (begun ==> Holds(flash[..], image, chunks))
    }

    constructor (size: size_t)
      ensures flash.Length == size && open && accepting && !failed && !begun && chunks == [] && fresh(flash)
    {
      flash := new bv8[size];
      open, accepting, failed, begun := true, true, false, false;
      chunks := [];
    }

    // get_file_cb. A chunk is taken only from a provider of this very file. `linked` and
    // `still` are the two looks at the parent link, `erase` and `write` what the flash
    // driver reports.
    method GetFile(image: seq<bv8>, size: size_t, q: Request, data: seq<bv8>, sameFile: bool,
                   linked: bool, erase: bool, still: bool, write: bool) returns (ok: bool)
      requires Valid(image) && |image| == size && |data| == q.size
      requires sameFile ==> forall i :: 0 <= i < q.size ==> data[i] == Byte(image, q.offset + i)
      modifies this, flash
      ensures failed || Valid(image)
      ensures ok <==> old(open && accepting && !failed) && linked && sameFile
                      && 0 < size <= 0xFFFF_0000 && q.fileSize == Aligned(size) <= flash.Length && q.offset + q.size <= q.fileSize
                      && (q.size == 0 || ((old(begun) || erase) && still && write))
      ensures chunks == old(chunks) + (if ok && q.size > 0 then [q] else [])
      ensures failed == (old(failed) || (old(open && accepting) && linked && !ok)) && (failed && !old(failed) ==> !accepting)
    {
      if !open || !accepting || failed || !linked { return false; }
      if !sameFile || !RangeValid(q, size, flash.Length) || (q.size > 0 && !begun && !erase) {
        failed, accepting := true, false;
        return false;
      }
      if q.size == 0 { return true; }
      if !begun {
        forall i | 0 <= i < flash.Length { flash[i] := 0xFF; }
        begun := true;
        assert Holds(flash[..], image, []);
      }
      if !still || !write {
        failed, accepting := true, false;
        return false;
      }
      WriteChunk(image, q, data);
      return true;
    }

    method WriteChunk(image: seq<bv8>, q: Request, data: seq<bv8>)
      requires Valid(image) && begun && q.offset + q.size <= flash.Length && |data| == q.size
      requires forall i :: 0 <= i < q.size ==> data[i] == Byte(image, q.offset + i)
      modifies `chunks, flash
      ensures Valid(image) && chunks == old(chunks) + [q]
    {
      ghost var before := flash[..];
      for i := 0 to q.size
        invariant chunks == old(chunks)
        invariant forall pos :: 0 <= pos < flash.Length ==>
          flash[pos] == if q.offset <= pos < q.offset + i then Program(before[pos], Byte(image, pos)) else before[pos]
      {
        flash[q.offset + i] := Program(flash[q.offset + i], data[i]);
      }
      chunks := chunks + [q];
      forall pos | 0 <= pos < flash.Length ensures flash[pos] == if Covered(chunks, pos) then Byte(image, pos) else 0xFF {
        assert chunks[..|chunks| - 1] == old(chunks);
        CoveredLast(chunks, pos);
        ProgramErased(Byte(image, pos));
      }
    }
  }
}
