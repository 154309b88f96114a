/** worker/internal/output/manager.go: inspecting and collecting the files a job produced. */
module Collect {
  import opened Domain
  import opened Sorting
  import opened Decimal

  type Bytes = string

  /** What lies outside this code: the extension table, content sniffing and SHA-256 in hex. */
  datatype Env = Env(mime: string -> string, detect: Bytes -> string, sha: Bytes -> string)

  // ----- reading one file -----

  datatype ReadError = NoError | Eof | IoError

  datatype Chunk = Chunk(data: Bytes, err: ReadError)

  const BufferSize: nat := 64 * 1024
  const HeaderSize: nat := 512

  /** One possible sequence of Read results: short and empty reads are allowed, and the last one ends the file. */
  predicate IsReading(chunks: seq<Chunk>) {
    && chunks != [] && chunks[|chunks| - 1].err != NoError
    && (forall i :: 0 <= i < |chunks| - 1 ==> chunks[i].err == NoError)
    && (forall i :: 0 <= i < |chunks| ==> |chunks[i].data| <= BufferSize)
  }

  function Content(chunks: seq<Chunk>): Bytes {
    if chunks == [] then "" else Content(chunks[..|chunks| - 1]) + chunks[|chunks| - 1].data
  }

  predicate ReadsWell(chunks: seq<Chunk>) {
    chunks != [] && chunks[|chunks| - 1].err == Eof
  }

  function Header(content: Bytes): Bytes {
    if |content| <= HeaderSize then content else content[..HeaderSize]
  }

  function ContentType(env: Env, path: string, content: Bytes): string {
    if env.mime(path) != "" then env.mime(path)
    else if env.detect(Header(content)) != "" then env.detect(Header(content))
    else "application/octet-stream"
  }

  datatype Inspection = Inspection(sha: string, size: nat, contentType: string)

  function Inspected(env: Env, path: string, content: Bytes): Inspection {
    Inspection(env.sha(content), |content|, ContentType(env, path, content))
  }

  class File {
    const chunks: seq<Chunk>
    var position: nat

    constructor (chunks: seq<Chunk>)
      ensures this.chunks == chunks && position == 0
    {
      this.chunks := chunks;
      position := 0;
    }

    method Read(buffer: array<char>) returns (n: nat, err: ReadError)
      requires position < |chunks| && |chunks[position].data| <= buffer.Length
      modifies this, buffer
      ensures position == old(position) + 1
      ensures n == |chunks[old(position)].data| && err == chunks[old(position)].err
      ensures n <= buffer.Length && buffer[..n] == chunks[old(position)].data
    {
      var data := chunks[position].data;
      forall i | 0 <= i < |data| {
        buffer[i] := data[i];
      }
      position := position + 1;
      return |data|, chunks[position - 1].err;
    }
  }

  function Min(a: nat, b: nat): nat {
    if a < b then a else b
  }

  /** The copy step: `copyLen` bytes of the buffer go behind the header read so far. */
  method CopyInto(header: array<char>, at: nat, buffer: array<char>, copyLen: nat)
    requires header != buffer && at + copyLen <= header.Length && copyLen <= buffer.Length
    modifies header
    ensures header[..at + copyLen] == old(header[..at]) + buffer[..copyLen]
  {
    forall i | 0 <= i < copyLen {
      header[at + i] := buffer[i];
    }
  }

  lemma HeaderGrows(before: Bytes, data: Bytes)
    ensures |before| < HeaderSize ==>
      Header(before + data) == Header(before) + data[..Min(HeaderSize - |Header(before)|, |data|)]
    ensures |before| >= HeaderSize ==> Header(before + data) == Header(before)
  {
  }

  /** The buffer holds the header of `content`. */
  ghost predicate HeldIn(header: array<char>, headerLen: nat, content: Bytes)
    reads header
  {
    headerLen <= header.Length && headerLen == |Header(content)| && header[..headerLen] == Header(content)
  }

  /** The header buffer after `n` more bytes. */
  method ExtendHeader(header: array<char>, headerLen: nat, buffer: array<char>, n: nat, ghost before: Bytes)
    returns (newLen: nat)
    requires header != buffer && header.Length == HeaderSize && n <= buffer.Length
    requires HeldIn(header, headerLen, before)
    modifies header
    ensures HeldIn(header, newLen, before + buffer[..n])
  {
    HeaderGrows(before, buffer[..n]);
    newLen := headerLen;
    if headerLen < header.Length {
      var copyLen := Min(header.Length - headerLen, n);
      CopyInto(header, headerLen, buffer, copyLen);
      assert buffer[..copyLen] == buffer[..n][..copyLen];
      newLen := headerLen + copyLen;
    }
  }

  /** One Read and what is done with the bytes it returns, except hashing them. */
  method ReadChunk(file: File, header: array<char>, headerLen: nat, buffer: array<char>, ghost before: Bytes)
    returns (newLen: nat, data: Bytes, err: ReadError)
    requires IsReading(file.chunks) && file.position < |file.chunks|
    requires header != buffer && header.Length == HeaderSize && buffer.Length == BufferSize
    requires HeldIn(header, headerLen, before)
    modifies file, header, buffer
    ensures file.position == old(file.position) + 1
    ensures data == file.chunks[old(file.position)].data && err == file.chunks[old(file.position)].err
    ensures HeldIn(header, newLen, before + data)
  {
    var n;
    n, err := file.Read(buffer);
    data, newLen := buffer[..n], headerLen;
    if n > 0 {
      newLen := ExtendHeader(header, headerLen, buffer, n, before);
    } else {
      assert before + data == before;
    }
  }

  method DetectType(env: Env, path: string, header: array<char>, headerLen: nat, ghost content: Bytes)
    returns (contentType: string)
    requires HeldIn(header, headerLen, content)
    ensures contentType == ContentType(env, path, content)
  {
    contentType := env.mime(path);
    if contentType == "" {
      contentType := env.detect(header[..headerLen]);
    }
    if contentType == "" {
      contentType := "application/octet-stream";
    }
  }

  lemma ContentSnoc(chunks: seq<Chunk>, at: nat)
    requires at < |chunks|
    ensures Content(chunks[..at + 1]) == Content(chunks[..at]) + chunks[at].data
  {
    assert chunks[..at + 1][..at] == chunks[..at];
  }

  /** However the reads split the file, the size, hash and sniffed header are those of the whole content. */
  method InspectFile(env: Env, path: string, file: File) returns (r: Option<Inspection>)
    requires IsReading(file.chunks) && file.position == 0
    modifies file
    ensures r == if ReadsWell(file.chunks) then Some(Inspected(env, path, Content(file.chunks))) else None
  {
    var hashed := "";
    var header := new char[HeaderSize];
    var headerLen := 0;
    var size := 0;
    var buffer := new char[BufferSize];
    while true
      invariant file.position < |file.chunks|
      invariant hashed == Content(file.chunks[..file.position]) && size == |hashed|
      invariant HeldIn(header, headerLen, hashed)
      decreases |file.chunks| - file.position
    {
      ghost var at := file.position;
      ContentSnoc(file.chunks, at);
      var data, err;
      headerLen, data, err := ReadChunk(file, header, headerLen, buffer, hashed);
      hashed := hashed + data;
      size := size + |data|;
      if err == Eof {
        assert at == |file.chunks| - 1;
        break;
      }
      if err != NoError {
        assert at == |file.chunks| - 1;
        return None;
      }
    }
    assert file.chunks[..file.position] == file.chunks;
    var contentType := DetectType(env, path, header, headerLen, hashed);
    return Some(Inspection(env.sha(hashed), size, contentType));
  }

  // ----- walking the output directory -----

  datatype Kind = Root | Directory | Symlink | Special | Regular

  /** One callback of WalkDir; `chunks` is how reading the file would go. */
  datatype Entry = Entry(kind: Kind, path: string, relativePath: string, chunks: seq<Chunk>)

  datatype CollectedFile = CollectedFile(
    path: string, relativePath: string, sha: string, sizeBytes: nat, contentType: string)

  predicate BadPath(relativePath: string) {
    "../" <= relativePath || relativePath == "."
  }

  function Regulars(entries: seq<Entry>): (r: seq<Entry>)
    ensures forall e :: e in r <==> e in entries && e.kind == Regular
  {
    if entries == [] then []
    else
      var init := Regulars(entries[..|entries| - 1]);
      if entries[|entries| - 1].kind == Regular then init + [entries[|entries| - 1]] else init
  }

  function Size(e: Entry): nat {
    |Content(e.chunks)|
  }

  function TotalSize(entries: seq<Entry>): nat {
    if entries == [] then 0 else TotalSize(entries[..|entries| - 1]) + Size(entries[|entries| - 1])
  }

  function Collected(env: Env, e: Entry): CollectedFile {
    var i := Inspected(env, e.path, Content(e.chunks));
    CollectedFile(e.path, e.relativePath, i.sha, i.size, i.contentType)
  }

  predicate ByPath(a: CollectedFile, b: CollectedFile) {
    LexLe(a.relativePath, b.relativePath)
  }

  function AllCollected(env: Env, entries: seq<Entry>): (r: seq<CollectedFile>)
    ensures |r| == |entries| && forall i :: 0 <= i < |entries| ==> r[i] == Collected(env, entries[i])
  {
    if entries == [] then []
    else AllCollected(env, entries[..|entries| - 1]) + [Collected(env, entries[|entries| - 1])]
  }

  /** The limits, stated about the directory as a whole. */
  ghost predicate WithinLimits(entries: seq<Entry>, maxFiles: int, maxBytes: int) {
    FilesWithin(Regulars(entries), maxFiles, maxBytes)
  }

  ghost predicate FilesWithin(files: seq<Entry>, maxFiles: int, maxBytes: int) {
    && (files != [] ==> |files| <= maxFiles && TotalSize(files) <= maxBytes)
    && AllGood(files)
  }

  /** How far a number is outside the int64 range. */
  function Excess(n: int): nat {
    if n > MaxInt64 then n - MaxInt64 else if n < -MaxInt64 - 1 then -MaxInt64 - 1 - n else 0
  }

  const TwoTo64 := 0x1_0000_0000_0000_0000

  /** Two's-complement wrap-around of an int64 sum: the number in the int64 range that differs by a multiple of 2^64. */
  function Wrap64(n: int): (r: int)
    ensures -MaxInt64 - 1 <= r <= MaxInt64
    decreases Excess(n)
  {
    if n > MaxInt64 then Wrap64(n - TwoTo64) else if n < -MaxInt64 - 1 then Wrap64(n + TwoTo64) else n
  }

  lemma {:induction false} RegularsSnoc(entries: seq<Entry>, i: nat)
    requires i < |entries|
    ensures Regulars(entries[..i + 1]) ==
      if entries[i].kind == Regular then Regulars(entries[..i]) + [entries[i]] else Regulars(entries[..i])
  {
    assert entries[..i + 1][..i] == entries[..i];
  }

  /** The files of a prefix of the walk are a prefix of the files. */
  lemma {:induction false} RegularsPrefix(entries: seq<Entry>, i: nat)
    requires i <= |entries|
    ensures Regulars(entries[..i]) <= Regulars(entries)
    decreases |entries| - i
  {
    if i == |entries| {
      assert entries[..i] == entries;
    } else {
      RegularsSnoc(entries, i);
      RegularsPrefix(entries, i + 1);
    }
  }

  lemma {:induction false} TotalPrefix(a: seq<Entry>, b: seq<Entry>)
    requires a <= b
    ensures TotalSize(a) <= TotalSize(b)
    decreases |b|
  {
    if |a| < |b| {
      TotalPrefix(a, b[..|b| - 1]);
    } else {
      assert a == b;
    }
  }

  /** What collectFiles tests: the limits, with running totals that wrap around. */
  ghost predicate Accepted(entries: seq<Entry>, maxFiles: int, maxBytes: int) {
    FilesAccepted(Regulars(entries), maxFiles, maxBytes)
  }

  /** The running total after `k` files passes the test. */
  predicate SumPasses(files: seq<Entry>, k: nat, maxBytes: int)
    requires k <= |files|
  {
    Passes(TotalSize(files[..k]), maxBytes)
  }

  predicate Passes(sum: nat, maxBytes: int) {
    Wrap64(sum) <= maxBytes
  }

  ghost predicate FilesAccepted(files: seq<Entry>, maxFiles: int, maxBytes: int) {
    (files != [] ==> |files| <= maxFiles) && SumsPass(files, maxBytes) && AllGood(files)
  }

  ghost predicate SumsPass(files: seq<Entry>, maxBytes: int) {
    forall k :: 0 < k <= |files| ==> SumPasses(files, k, maxBytes)
  }

  predicate Good(e: Entry) {
    !BadPath(e.relativePath) && ReadsWell(e.chunks)
  }

  ghost predicate AllGood(files: seq<Entry>) {
    forall e :: e in files ==> Good(e)
  }

  /** A prefix of the walk that is not accepted decides the whole. */
  lemma AcceptedMonotone(entries: seq<Entry>, i: nat, maxFiles: int, maxBytes: int)
    requires i <= |entries|
    ensures Accepted(entries, maxFiles, maxBytes) ==> Accepted(entries[..i], maxFiles, maxBytes)
  {
    RegularsPrefix(entries, i);
    var a, b := Regulars(entries[..i]), Regulars(entries);
    forall k | 0 < k <= |a| && SumPasses(b, k, maxBytes) ensures SumPasses(a, k, maxBytes) {
      assert a[..k] == b[..k];
    }
  }

  lemma LastSumPasses(all: seq<Entry>, before: seq<Entry>, e: Entry, maxBytes: int)
    requires all == before + [e]
    ensures SumPasses(all, |all|, maxBytes) <==> Passes(TotalSize(before) + Size(e), maxBytes)
  {
    TotalSnoc(before, e);
    WholeSum(all, maxBytes);
  }

  lemma SumsPassByLast(all: seq<Entry>, maxBytes: int)
    requires all != [] && forall k :: 0 < k < |all| ==> SumPasses(all, k, maxBytes)
    ensures SumsPass(all, maxBytes) <==> SumPasses(all, |all|, maxBytes)
  {
  }

  lemma SumsPassStep(before: seq<Entry>, e: Entry, maxBytes: int)
    requires SumsPass(before, maxBytes)
    ensures SumsPass(before + [e], maxBytes) <==> Passes(TotalSize(before) + Size(e), maxBytes)
  {
    var all := before + [e];
    LastSumPasses(all, before, e, maxBytes);
    EarlierSumsPass(before, e, maxBytes);
    SumsPassByLast(all, maxBytes);
  }

  lemma EarlierSumsPass(before: seq<Entry>, e: Entry, maxBytes: int)
    requires SumsPass(before, maxBytes)
    ensures forall k :: 0 < k < |before + [e]| ==> SumPasses(before + [e], k, maxBytes)
  {
    forall k | 0 < k < |before + [e]| ensures SumPasses(before + [e], k, maxBytes) {
      assert SumPasses(before, k, maxBytes);
      SameSums(before, e, k, maxBytes);
    }
  }

  lemma AllGoodStep(before: seq<Entry>, e: Entry)
    requires AllGood(before)
    ensures AllGood(before + [e]) <==> Good(e)
  {
    assert e in before + [e];
  }

  /** The early exits test exactly what the next file adds. */
  lemma AcceptedStep(before: seq<Entry>, e: Entry, maxFiles: int, maxBytes: int)
    requires FilesAccepted(before, maxFiles, maxBytes)
    ensures FilesAccepted(before + [e], maxFiles, maxBytes) <==>
      |before| < maxFiles && Good(e) && Passes(TotalSize(before) + Size(e), maxBytes)
  {
    SumsPassStep(before, e, maxBytes);
    AllGoodStep(before, e);
  }

  lemma WholeSum(files: seq<Entry>, maxBytes: int)
    ensures SumPasses(files, |files|, maxBytes) <==> Passes(TotalSize(files), maxBytes)
  {
    assert files[..|files|] == files;
  }

  lemma SameSums(before: seq<Entry>, e: Entry, k: nat, maxBytes: int)
    requires k <= |before|
    ensures SumPasses(before + [e], k, maxBytes) <==> SumPasses(before, k, maxBytes)
  {
    assert (before + [e])[..k] == before[..k];
  }

  lemma TotalSnoc(before: seq<Entry>, e: Entry)
    ensures TotalSize(before + [e]) == TotalSize(before) + Size(e)
  {
    assert (before + [e])[..|before|] == before;
  }

  lemma CollectedSnoc(env: Env, before: seq<Entry>, e: Entry)
    ensures AllCollected(env, before + [e]) == AllCollected(env, before) + [Collected(env, e)]
  {
    assert (before + [e])[..|before|] == before;
  }

  lemma NoWrap(n: nat)
    requires n <= MaxInt64
    ensures Wrap64(n) == n
  {
  }

  predicate Admits(e: Entry, files: nat, total: int, maxFiles: int, maxBytes: int) {
    e.kind == Regular ==>
      files < maxFiles && Good(e) && Wrap64(total + Size(e)) <= maxBytes
  }

  function Visited(env: Env, e: Entry, files: seq<CollectedFile>, total: int): (seq<CollectedFile>, int) {
    if e.kind == Regular then (files + [Collected(env, e)], Wrap64(total + Size(e))) else (files, total)
  }

  lemma {:induction false} WrapIsCongruent(n: int)
    ensures (n - Wrap64(n)) % TwoTo64 == 0
    decreases Excess(n)
  {
    if n > MaxInt64 {
      WrapIsCongruent(n - TwoTo64);
    } else if n < -MaxInt64 - 1 {
      WrapIsCongruent(n + TwoTo64);
    }
  }

  lemma WrapShift(n: int)
    ensures Wrap64(n - TwoTo64) == Wrap64(n)
  {
  }

  lemma {:induction false} WrapAdd(a: int, b: int)
    ensures Wrap64(Wrap64(a) + b) == Wrap64(a + b)
    decreases Excess(a)
  {
    if a > MaxInt64 {
      WrapAdd(a - TwoTo64, b);
      WrapShift(a + b);
    } else if a < -MaxInt64 - 1 {
      WrapAdd(a + TwoTo64, b);
      WrapShift(a + TwoTo64 + b);
    }
  }

  /** The walk has passed `i` entries and no test has failed. */
  ghost predicate SoFar(
    env: Env, entries: seq<Entry>, i: nat, files: seq<CollectedFile>, total: int, maxFiles: int, maxBytes: int)
    requires i <= |entries|
  {
    && files == AllCollected(env, Regulars(entries[..i]))
    && total == Wrap64(TotalSize(Regulars(entries[..i])))
    && Accepted(entries[..i], maxFiles, maxBytes)
  }

  lemma FilesAdd(env: Env, before: seq<Entry>, e: Entry, maxFiles: int, maxBytes: int)
    requires e.kind == Regular && FilesAccepted(before, maxFiles, maxBytes)
    ensures var total := Wrap64(TotalSize(before));
      && Visited(env, e, AllCollected(env, before), total) ==
         (AllCollected(env, before + [e]), Wrap64(TotalSize(before + [e])))
      && (Admits(e, |before|, total, maxFiles, maxBytes) <==> FilesAccepted(before + [e], maxFiles, maxBytes))
  {
    AcceptedStep(before, e, maxFiles, maxBytes);
    TotalSnoc(before, e);
    CollectedSnoc(env, before, e);
    WrapAdd(TotalSize(before), Size(e));
  }

  lemma SoFarStep(
    env: Env, entries: seq<Entry>, i: nat, files: seq<CollectedFile>, total: int, maxFiles: int, maxBytes: int)
    requires i < |entries| && SoFar(env, entries, i, files, total, maxFiles, maxBytes)
    ensures var next := Visited(env, entries[i], files, total);
      if Admits(entries[i], |files|, total, maxFiles, maxBytes)
      then SoFar(env, entries, i + 1, next.0, next.1, maxFiles, maxBytes)
      else !Accepted(entries, maxFiles, maxBytes)
  {
    RegularsSnoc(entries, i);
    if entries[i].kind == Regular {
      FilesAdd(env, Regulars(entries[..i]), entries[i], maxFiles, maxBytes);
      AcceptedMonotone(entries, i + 1, maxFiles, maxBytes);
    }
  }

  lemma SoFarDone(env: Env, entries: seq<Entry>, files: seq<CollectedFile>, total: int, maxFiles: int, maxBytes: int)
    requires SoFar(env, entries, |entries|, files, total, maxFiles, maxBytes)
    ensures Accepted(entries, maxFiles, maxBytes)
    ensures files == AllCollected(env, Regulars(entries)) && total == Wrap64(TotalSize(Regulars(entries)))
  {
    assert entries[..|entries|] == entries;
  }

  /** The callback passed to WalkDir. */
  method Visit(env: Env, entry: Entry, files: seq<CollectedFile>, total: int, maxFiles: int, maxBytes: int)
    returns (ok: bool, files': seq<CollectedFile>, total': int)
    requires entry.kind == Regular ==> IsReading(entry.chunks)
    ensures ok == Admits(entry, |files|, total, maxFiles, maxBytes)
    ensures ok ==> (files', total') == Visited(env, entry, files, total)
  {
    files', total' := files, total;
    if entry.kind == Root {
      return true, files', total';
    }
    if entry.kind == Symlink {
      return true, files', total';
    }
    if entry.kind == Directory {
      return true, files', total';
    }
    if entry.kind != Regular {
      return true, files', total';
    }
    if |files| >= maxFiles {
      return false, files', total';
    }
    if BadPath(entry.relativePath) {
      return false, files', total';
    }
    var file := new File(entry.chunks);
    var inspected := InspectFile(env, entry.path, file);
    if inspected.None? {
      return false, files', total';
    }
    total' := Wrap64(total + inspected.value.size);
    if total' > maxBytes {
      return false, files', total';
    }
    files' := files + [CollectedFile(entry.path, entry.relativePath, inspected.value.sha, inspected.value.size,
                                     inspected.value.contentType)];
    return true, files', total';
  }

  /** collectFiles over any walk order. */
  method CollectFiles(env: Env, entries: seq<Entry>, maxFiles: int, maxBytes: int)
    returns (r: Option<(seq<CollectedFile>, int)>)
    requires forall i :: 0 <= i < |entries| && entries[i].kind == Regular ==> IsReading(entries[i].chunks)
    ensures r.Some? <==> Accepted(entries, maxFiles, maxBytes)
    ensures r.Some? ==>
      r.value == (Sort(ByPath, AllCollected(env, Regulars(entries))), Wrap64(TotalSize(Regulars(entries))))
  {
    var files: seq<CollectedFile> := [];
    var totalSize: int := 0;
    for i := 0 to |entries|
      invariant SoFar(env, entries, i, files, totalSize, maxFiles, maxBytes)
    {
      SoFarStep(env, entries, i, files, totalSize, maxFiles, maxBytes);
      var ok: bool;
      ok, files, totalSize := Visit(env, entries[i], files, totalSize, maxFiles, maxBytes);
      if !ok {
        return None;
      }
    }
    SoFarDone(env, entries, files, totalSize, maxFiles, maxBytes);
    return Some((Sort(ByPath, files), totalSize));
  }

  /** No tree within the limits is rejected, and a tree that is accepted is within the limits if and only if the sum
      of its file sizes fits in an int64; in particular the test is exact for every tree whose sum fits. */
  lemma AcceptedIffWithin(entries: seq<Entry>, maxFiles: int, maxBytes: int)
    requires maxBytes <= MaxInt64
    ensures WithinLimits(entries, maxFiles, maxBytes) ==> Accepted(entries, maxFiles, maxBytes)
    ensures Accepted(entries, maxFiles, maxBytes) ==>
      (WithinLimits(entries, maxFiles, maxBytes) <==> TotalSize(Regulars(entries)) <= MaxInt64)
  {
    var files := Regulars(entries);
    assert files[..|files|] == files;
    if TotalSize(files) <= MaxInt64 {
      forall k | 0 < k <= |files| ensures SumPasses(files, k, maxBytes) <==> TotalSize(files[..k]) <= maxBytes {
        TotalPrefix(files[..k], files);
        NoWrap(TotalSize(files[..k]));
      }
      forall k | 0 < k <= |files| ensures TotalSize(files[..k]) <= TotalSize(files) { TotalPrefix(files[..k], files); }
      assert files != [] ==> (SumPasses(files, |files|, maxBytes) <==> TotalSize(files) <= maxBytes);
    }
  }

  /** Every file that is accepted lies inside the output directory and was read to its end. */
  lemma AcceptedIsInside(entries: seq<Entry>, maxFiles: int, maxBytes: int, e: Entry)
    requires Accepted(entries, maxFiles, maxBytes) && e in entries && e.kind == Regular
    ensures e.relativePath != "." && e.relativePath != "../" && !(|e.relativePath| >= 3 && e.relativePath[..3] == "../")
    ensures e.chunks != [] && e.chunks[|e.chunks| - 1].err == Eof
  {
    assert e in Regulars(entries) && Good(e);
  }

  /** The type of a file goes by its extension, if that is known, and otherwise by at most its first 512 bytes. */
  lemma TypeGoesBy(env: Env, path: string, content: Bytes)
    ensures env.mime(path) != "" ==> ContentType(env, path, content) == env.mime(path)
    ensures var sniffed := env.detect(if |content| <= 512 then content else content[..512]);
      env.mime(path) == "" ==>
        ContentType(env, path, content) == if sniffed != "" then sniffed else "application/octet-stream"
  {
  }

  // ----- independence of the walk order -----

  lemma {:induction false} RegularsWithout(entries: seq<Entry>, e: Entry)
    ensures multiset(Regulars(entries))[e] == if e.kind == Regular then multiset(entries)[e] else 0
    decreases |entries|
  {
    if entries != [] {
      var init, last := entries[..|entries| - 1], entries[|entries| - 1];
      assert entries == init + [last];
      RegularsWithout(init, e);
    }
  }

  lemma RegularsPermute(a: seq<Entry>, b: seq<Entry>)
    requires multiset(a) == multiset(b)
    ensures multiset(Regulars(a)) == multiset(Regulars(b))
  {
    forall e ensures multiset(Regulars(a))[e] == multiset(Regulars(b))[e] {
      RegularsWithout(a, e);
      RegularsWithout(b, e);
    }
  }

  lemma {:induction false} TotalConcat(a: seq<Entry>, b: seq<Entry>)
    ensures TotalSize(a + b) == TotalSize(a) + TotalSize(b)
    decreases |b|
  {
    if b == [] {
      assert a + b == a;
    } else {
      assert (a + b)[..|a + b| - 1] == a + b[..|b| - 1];
      TotalConcat(a, b[..|b| - 1]);
    }
  }

  lemma TotalOne(e: Entry)
    ensures TotalSize([e]) == Size(e)
  {
    assert [e][..0] == [];
  }

  lemma TotalMiddle(l: seq<Entry>, e: Entry, r: seq<Entry>)
    ensures TotalSize(l + [e] + r) == Size(e) + TotalSize(l + r)
  {
    TotalOne(e);
    TotalConcat(l, [e]);
    TotalConcat(l + [e], r);
    TotalConcat(l, r);
  }

  lemma TotalHead(a: seq<Entry>)
    requires a != []
    ensures TotalSize(a) == Size(a[0]) + TotalSize(a[1..])
  {
    TotalMiddle([], a[0], a[1..]);
    assert [] + [a[0]] + a[1..] == a && [] + a[1..] == a[1..];
  }

  lemma SplitAt(s: seq<Entry>, e: Entry) returns (l: seq<Entry>, r: seq<Entry>)
    requires e in s
    ensures s == l + [e] + r && multiset(s) == multiset{e} + multiset(l + r)
  {
    var k :| 0 <= k < |s| && s[k] == e;
    l, r := s[..k], s[k + 1..];
    assert s == l + [e] + r;
  }

  lemma {:induction false} TotalPermutes(a: seq<Entry>, b: seq<Entry>)
    requires multiset(a) == multiset(b)
    ensures TotalSize(a) == TotalSize(b)
    decreases |a|
  {
    if a == [] {
      EmptyPermutation(b);
    } else {
      var e := a[0];
      MultisetMember(a, b, e);
      var l, r := SplitAt(b, e);
      TailMultiset(a);
      MultisetCancel(multiset(a[1..]), multiset(l + r), e);
      TotalPermutes(a[1..], l + r);
      TotalMiddle(l, e, r);
      TotalHead(a);
    }
  }

  /** Whether collection succeeds, and the total it reports, do not depend on the order of the walk. */
  lemma LimitsForgetOrder(a: seq<Entry>, b: seq<Entry>, maxFiles: int, maxBytes: int)
    requires multiset(a) == multiset(b)
    ensures WithinLimits(a, maxFiles, maxBytes) <==> WithinLimits(b, maxFiles, maxBytes)
    ensures TotalSize(Regulars(a)) == TotalSize(Regulars(b))
  {
    RegularsPermute(a, b);
    TotalPermutes(Regulars(a), Regulars(b));
    assert |multiset(Regulars(a))| == |Regulars(a)| && |multiset(Regulars(b))| == |Regulars(b)|;
    forall e ensures e in Regulars(a) <==> e in Regulars(b) {
      assert e in multiset(Regulars(a)) <==> e in multiset(Regulars(b));
    }
  }

  /** No two files of a directory tree have the same relative path. */
  ghost predicate DistinctPaths(entries: seq<Entry>) {
    forall e, f ::
      (e in entries && f in entries && e.kind == Regular && f.kind == Regular && e.relativePath == f.relativePath)
      ==> e == f
  }

  lemma ByPathIsOrder()
    ensures TotalPreorder(ByPath)
  {
    forall a, b ensures ByPath(a, b) || ByPath(b, a) { LexTotal(a.relativePath, b.relativePath); }
    forall a, b, c | ByPath(a, b) && ByPath(b, c) ensures ByPath(a, c) {
      LexTransitive(a.relativePath, b.relativePath, c.relativePath);
    }
  }

  lemma {:induction false} CollectedPermutes(env: Env, a: seq<Entry>, b: seq<Entry>)
    requires multiset(a) == multiset(b)
    ensures multiset(AllCollected(env, a)) == multiset(AllCollected(env, b))
  {
    var f := e => Collected(env, e);
    MapPermutes(f, a, b);
    assert AllCollected(env, a) == Map(f, a) && AllCollected(env, b) == Map(f, b);
  }

  lemma SamePathSameFile(env: Env, entries: seq<Entry>, x: CollectedFile, y: CollectedFile)
    requires DistinctPaths(entries)
    requires x in AllCollected(env, Regulars(entries)) && y in AllCollected(env, Regulars(entries))
    requires ByPath(x, y) && ByPath(y, x)
    ensures x == y
  {
    LexAntisymmetric(x.relativePath, y.relativePath);
    var files := Regulars(entries);
    var i :| 0 <= i < |files| && Collected(env, files[i]) == x;
    var j :| 0 <= j < |files| && Collected(env, files[j]) == y;
    assert files[i] in files && files[j] in files;
  }

  /** The listing is in path order and is the same for every walk of the same tree. */
  lemma ListingForgetsOrder(env: Env, a: seq<Entry>, b: seq<Entry>)
    requires multiset(a) == multiset(b) && DistinctPaths(a)
    ensures var listing := Sort(ByPath, AllCollected(env, Regulars(a)));
      && Ordered(ByPath, listing) && multiset(listing) == multiset(AllCollected(env, Regulars(a)))
      && listing == Sort(ByPath, AllCollected(env, Regulars(b)))
  {
    RegularsPermute(a, b);
    CollectedPermutes(env, Regulars(a), Regulars(b));
    ByPathIsOrder();
    var all := AllCollected(env, Regulars(a));
    SortOrders(ByPath, all);
    forall x, y | x in all && y in all && ByPath(x, y) && ByPath(y, x) ensures x == y {
      SamePathSameFile(env, a, x, y);
    }
    SortForgetsOrder(ByPath, all, AllCollected(env, Regulars(b)));
  }
}
