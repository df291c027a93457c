// main/APP/OTA/ota_cache.c: the supply record as it is kept, checked and read back.
module OtaRecord {
  import opened Options
  import opened Folds

  const MAGIC := 0x4f544143
  const FORMAT_VERSION := 1
  const RECORD_BYTES := 256
  const ALIGNMENT := 0x10000
  const UINT32_MAX := 0xFFFF_FFFF
  const HASH_BUFFER_BYTES := 2048

  datatype Origin = DOWNLOAD | BOOTSTRAP | CURRENT | Unknown

  datatype Subtype = OTA_0 | OTA_1 | OtherSubtype

  // A partition as the partition table describes it.
  datatype Partition = Partition(subtype: Subtype, name: string, address: nat, size: nat)

  datatype Record = Record(magic: nat, formatVersion: nat, recordBytes: nat, origin: Origin, subtype: Subtype,
                           address: nat, partitionSize: nat, imageSize: nat, partition: string, file: string, version: string,
                           deviceId: string, agingNumber: string, completedSeq: int, sha: string)

  // The record as a blob, with its checksum.
  datatype Blob = Blob(record: Record, crc: int)

  datatype Status = OK | NOT_FOUND | INVALID_RESPONSE | INVALID_ARG | FAIL

  function Padded(n: nat): nat { (n + ALIGNMENT - 1) / ALIGNMENT * ALIGNMENT }

  predicate Hex(c: char) { '0' <= c <= '9' || 'a' <= c <= 'f' }

  predicate EndsWith(s: string, t: string) { |t| <= |s| && s[|s| - |t|..] == t }

  predicate HasDots(s: string) { exists i :: 0 <= i < |s| - 1 && s[i] == '.' && s[i + 1] == '.' }

  predicate NameSafe(s: string) {
    (forall i :: 0 <= i < |s| ==> s[i] !in "/\\?&#:") && !HasDots(s)
  }

  // record_valid; `comparable` is the version comparison's opinion of a version.
  predicate RecordValid(r: Record, comparable: string -> bool) {
    && r.magic == MAGIC && r.formatVersion == FORMAT_VERSION && r.recordBytes == RECORD_BYTES
    && r.origin != Unknown && r.subtype != OtherSubtype
    && 0 < r.imageSize <= r.partitionSize && r.imageSize <= UINT32_MAX - (ALIGNMENT - 1) && Padded(r.imageSize) <= r.partitionSize
    && r.partition != "" && r.file != "" && |r.sha| == 64
    && (r.origin != BOOTSTRAP ==> r.completedSeq >= 0 && r.deviceId != "" && r.agingNumber != "")
    && (r.origin == BOOTSTRAP ==> r.completedSeq == 0)
    && (forall i :: 0 <= i < 64 ==> Hex(r.sha[i]))
    && comparable(r.version) && NameSafe(r.file) && EndsWith(r.file, "_v" + r.version + ".bin")
  }

  // The image of a valid record, padded for transfer, fits its partition in 32 bits.
  lemma {:induction false} ValidFits(r: Record, comparable: string -> bool)
    requires RecordValid(r, comparable)
    ensures r.imageSize <= Padded(r.imageSize) <= r.partitionSize && Padded(r.imageSize) % ALIGNMENT == 0
    ensures r.imageSize + ALIGNMENT - 1 <= UINT32_MAX && Padded(r.imageSize) <= UINT32_MAX
  {
  }

  // ---- The record in NVS ----

  // What a load would return.
  function Content(blob: Option<Blob>, crc: Record -> int, comparable: string -> bool): (c: Option<Record>)
    ensures c.Some? ==> RecordValid(c.value, comparable)
  {
    if blob.Some? && RecordValid(blob.value.record, comparable) && blob.value.crc == crc(blob.value.record)
    then Some(blob.value.record) else None
  }

  // The record is about this partition.
  predicate About(r: Record, p: Partition) { r.address == p.address || r.partition == p.name }

  // NVS after a store; the commit happens or it does not.
  function AfterStore(blob: Option<Blob>, r: Record, crc: Record -> int, comparable: string -> bool, done: bool): Option<Blob> {
    if RecordValid(r, comparable) && done then Some(Blob(r, crc(r))) else blob
  }

  // NVS after ota_cache_before_write: a record about the partition goes, and so does one
  // that cannot be trusted.
  function AfterBeforeWrite(blob: Option<Blob>, p: Partition, crc: Record -> int, comparable: string -> bool,
                            readable: bool, done: bool): Option<Blob> {
    var c := Content(blob, crc, comparable);
    if readable && done && (c == None || About(c.value, p)) then None else blob
  }

  predicate BeforeWriteOk(blob: Option<Blob>, p: Partition, crc: Record -> int, comparable: string -> bool, readable: bool, ok: bool) {
    var c := Content(blob, crc, comparable);
    readable && (blob == None || ok || (c.Some? && !About(c.value, p)))
  }

  // Success means that no record is about the partition, whatever was there before; a
  // record about another partition stays.
  lemma {:induction false} ClearedBeforeWrite(blob: Option<Blob>, p: Partition, crc: Record -> int, comparable: string -> bool,
                                              readable: bool, ok: bool, done: bool)
    requires ok ==> done
    ensures var before, after := Content(blob, crc, comparable), Content(AfterBeforeWrite(blob, p, crc, comparable, readable, done), crc, comparable);
      && (BeforeWriteOk(blob, p, crc, comparable, readable, ok) && after.Some? ==> !About(after.value, p))
      && (after == before || after == None)
      && (before.Some? && !About(before.value, p) ==> after == before)
  {
  }

  lemma {:induction false} StoredReadsBack(blob: Option<Blob>, r: Record, crc: Record -> int, comparable: string -> bool, done: bool)
    ensures Content(AfterStore(blob, r, crc, comparable, done), crc, comparable)
            == if RecordValid(r, comparable) && done then Some(r) else Content(blob, crc, comparable)
  {
  }

  class Cache {
    var blob: Option<Blob>
    const crc: Record -> int
    const comparable: string -> bool

    constructor (crc: Record -> int, comparable: string -> bool)
      ensures blob == None && this.crc == crc && this.comparable == comparable
    {
      blob := None;
      this.crc, this.comparable := crc, comparable;
    }

    // One NVS commit: it happens or it does not, whatever is reported.
    method Store(r: Record, ok: bool, done: bool) returns (status: Status)
      requires ok ==> done
      modifies this
      ensures status == (if !RecordValid(r, comparable) then INVALID_ARG else if ok then OK else FAIL)
      ensures blob == AfterStore(old(blob), r, crc, comparable, done)
    {
      if !RecordValid(r, comparable) { return INVALID_ARG; }
      if done { blob := Some(Blob(r, crc(r))); }
      status := if ok then OK else FAIL;
    }

    method Load(ok: bool) returns (status: Status, r: Option<Record>)
      ensures r == if ok then Content(blob, crc, comparable) else None
      ensures status == if !ok then FAIL else if blob == None then NOT_FOUND else if r.Some? then OK else INVALID_RESPONSE
    {
      if !ok { return FAIL, None; }
      if blob == None { return NOT_FOUND, None; }
      if !RecordValid(blob.value.record, comparable) || blob.value.crc != crc(blob.value.record) { return INVALID_RESPONSE, None; }
      return OK, Some(blob.value.record);
    }

    method Invalidate(ok: bool, done: bool) returns (status: Status)
      requires ok ==> done
      modifies this
      ensures status == if old(blob) == None || ok then OK else FAIL
      ensures blob == if done then None else old(blob)
    {
      if blob == None { return OK; }
      if done { blob := None; }
      status := if ok then OK else FAIL;
    }

    // Before a partition is erased, a record that is about it must be gone.
    method BeforeWrite(p: Partition, readable: bool, ok: bool, done: bool) returns (status: Status)
      requires ok ==> done
      modifies this
      ensures status == OK <==> BeforeWriteOk(old(blob), p, crc, comparable, readable, ok)
      ensures blob == AfterBeforeWrite(old(blob), p, crc, comparable, readable, done)
    {
      var found, r := Load(readable);
      if found == NOT_FOUND { return OK; }
      if found == INVALID_RESPONSE {
        status := Invalidate(ok, done);
        return;
      }
      if found != OK { return found; }
      if r.value.address == p.address || r.value.partition == p.name {
        status := Invalidate(ok, done);
        return;
      }
      return OK;
    }
  }

  // Reading a partition 2048 bytes at a time gives the digest of all of it.
  method HashFile<S>(update: (S, int) -> S, start: S, flash: seq<int>, size: nat) returns (digest: S)
    requires size <= |flash|
    ensures digest == Fold(update, start, flash[..size])
  {
    digest := start;
    var offset := 0;
    while offset < size
      invariant offset <= size && digest == Fold(update, start, flash[..offset])
    {
      var count := size - offset;
      if count > HASH_BUFFER_BYTES { count := HASH_BUFFER_BYTES; }
      var buffer := flash[offset..offset + count];
      FoldAppend(update, start, flash[..offset], buffer);
      assert flash[..offset] + buffer == flash[..offset + count];
      digest := Update(update, digest, buffer);
      offset := offset + count;
    }
  }

  method Update<S>(update: (S, int) -> S, start: S, buffer: seq<int>) returns (state: S)
    ensures state == Fold(update, start, buffer)
  {
    state := start;
    for i := 0 to |buffer|
      invariant state == Fold(update, start, buffer[..i])
    {
      FoldNext(update, start, buffer, i, update(state, buffer[i]));
      state := update(state, buffer[i]);
    }
    assert buffer[..|buffer|] == buffer;
  }

  // The first partition of this subtype and name, or |table|.
  function FindFirst(table: seq<Partition>, subtype: Subtype, name: string): (k: nat)
    ensures k <= |table|
    ensures k < |table| ==> table[k].subtype == subtype && table[k].name == name
    ensures forall j :: 0 <= j < k ==> !(table[j].subtype == subtype && table[j].name == name)
  {
    if table == [] || (table[0].subtype == subtype && table[0].name == name) then 0 else 1 + FindFirst(table[1..], subtype, name)
  }

  // ota_cache_verify: the partition table has the partition recorded where it is recorded,
  // and it holds what was recorded. For each partition, `flash` is what it holds and
  // `images` the length of the image with the recorded version found there, if any.
  method Verify<S>(r: Record, comparable: string -> bool, table: seq<Partition>, flash: seq<seq<int>>, images: seq<Option<nat>>,
                   update: (S, int) -> S, start: S, hex: S -> string) returns (status: Status, k: nat)
    requires |flash| == |images| == |table| && forall i :: 0 <= i < |table| ==> |flash[i]| == table[i].size
    ensures k == FindFirst(table, r.subtype, r.partition)
    ensures status == OK <==>
      && RecordValid(r, comparable) && k < |table| && table[k].address == r.address && table[k].size == r.partitionSize
      && images[k].Some? && images[k].value <= r.imageSize && hex(Fold(update, start, flash[k][..r.imageSize])) == r.sha
  {
    k := FindFirst(table, r.subtype, r.partition);
    if !RecordValid(r, comparable) { return INVALID_ARG, k; }
    if k == |table| || table[k].address != r.address || table[k].size != r.partitionSize { return NOT_FOUND, k; }
    if images[k] == None || images[k].value > r.imageSize { return FAIL, k; }
    var digest := HashFile(update, start, flash[k], r.imageSize);
    return if hex(digest) == r.sha then OK else INVALID_RESPONSE, k;
  }
}
