/** worker/internal/output/manager.go: uploading collected files as content-addressed blobs. */
module Upload {
  import opened Domain
  import opened Store
  import opened Sorting
  import opened Decimal
  import opened Collect
  import opened ObjectNames

  /** The file still has the content that was hashed; it may also have changed or gone since. */
  predicate Intact(env: Env, disk: map<string, Bytes>, f: CollectedFile) {
    f.path in disk && env.sha(disk[f.path]) == f.sha
  }

  predicate CleanDigest(env: Env, content: Bytes) {
    TrimSpace(env.sha(content)) == env.sha(content)
  }

  /** Hex digests contain no white space. */
  ghost predicate HexDigests(env: Env) {
    forall content :: CleanDigest(env, content)
  }

  predicate CleanDigests(files: seq<CollectedFile>) {
    forall i :: 0 <= i < |files| ==> TrimSpace(files[i].sha) == files[i].sha
  }

  // ----- the bucket -----

  /** How a request ends: answered; executed but its answer lost; or never executed. */
  datatype Net = Answered | AnswerLost | Refused

  class Bucket {
    var objects: map<string, Bytes>
    var requests: nat
    const net: nat -> Net
    ghost var heads: seq<string>
    ghost var puts: seq<string>

    constructor (net: nat -> Net)
      ensures objects == map[] && requests == 0 && heads == [] && puts == [] && this.net == net
    {
      objects, requests, heads, puts := map[], 0, [], [];
      this.net := net;
    }

    /** Every request is answered. */
    ghost predicate Reliable() {
      forall n: nat :: net(n) == Answered
    }

    /** A HEAD request; None is a transport error or an unexpected status. */
    method Head(key: string) returns (found: Option<bool>)
      modifies this`requests, this`heads
      ensures heads == old(heads) + [key]
      ensures found == None || found == Some(key in objects)
      ensures Reliable() ==> found.Some?
    {
      heads := heads + [key];
      requests := requests + 1;
      if net(requests - 1) != Answered {
        return None;
      }
      return Some(key in objects);
    }

    /** A PUT request signed for a payload with hash `sha`: the server refuses a body with another hash. */
    method Put(env: Env, key: string, content: Bytes, sha: string) returns (ok: bool)
      modifies this`objects, this`requests, this`puts
      ensures puts == old(puts) + [key]
      ensures objects == old(objects)[key := content] || (!ok && objects == old(objects))
      ensures env.sha(content) != sha ==> !ok && objects == old(objects)
      ensures Reliable() ==> (ok <==> env.sha(content) == sha)
    {
      puts := puts + [key];
      requests := requests + 1;
      if net(requests - 1) == Refused || env.sha(content) != sha {
        return false;
      }
      objects := objects[key := content];
      return net(requests - 1) == Answered;
    }
  }

  /** Every blob key names the hash of the bytes under it. */
  ghost predicate ContentAddressed(env: Env, objects: map<string, Bytes>) {
    forall key :: key in objects && IsBlobKey(key) ==> env.sha(objects[key]) == HashOfKey(key)
  }

  /** All that one job may do to the bucket: add correctly named blobs and write its own manifest. */
  ghost predicate JobEffect(env: Env, before: map<string, Bytes>, after: map<string, Bytes>, manifest: string) {
    && (forall key :: key in before ==> key in after && (key != manifest ==> after[key] == before[key]))
    && (forall key :: key in after && key !in before && key != manifest ==>
          IsBlobKey(key) && env.sha(after[key]) == HashOfKey(key))
  }

  lemma EffectKeepsAddressing(env: Env, before: map<string, Bytes>, after: map<string, Bytes>, manifest: string)
    requires ContentAddressed(env, before) && JobEffect(env, before, after, manifest) && !IsBlobKey(manifest)
    ensures ContentAddressed(env, after)
    ensures forall key :: key in before && IsBlobKey(key) ==> key in after && after[key] == before[key]
  {
    forall key | key in after && IsBlobKey(key) ensures env.sha(after[key]) == HashOfKey(key) {
      if key in before { assert after[key] == before[key]; }
    }
  }

  /** One job's work on the bucket: whose it was, and the manifest it stored if it went through. */
  datatype Deed = Deed(job: Id, manifest: Option<Bytes>)

  /** The manifest that the job stored, if any, is still in the bucket. */
  predicate ManifestHeld(d: Deed, objects: map<string, Bytes>) {
    d.manifest.Some? ==> ManifestKey(d.job) in objects && objects[ManifestKey(d.job)] == d.manifest.value
  }

  /** What happened to a bucket, job by job: `buckets[i]` is what job `i` met, `buckets[i + 1]` what it left. */
  ghost predicate IsHistory(env: Env, buckets: seq<map<string, Bytes>>, deeds: seq<Deed>) {
    && |buckets| == |deeds| + 1
    && forall i :: 0 <= i < |deeds| ==>
         JobEffect(env, buckets[i], buckets[i + 1], ManifestKey(deeds[i].job)) && ManifestHeld(deeds[i], buckets[i + 1])
  }

  ghost predicate NoneFor(deeds: seq<Deed>, component: string) {
    forall i :: 0 <= i < |deeds| ==> Sanitize(deeds[i].job) != component
  }

  lemma HistoryTail(env: Env, buckets: seq<map<string, Bytes>>, deeds: seq<Deed>, k: nat)
    requires IsHistory(env, buckets, deeds) && k <= |deeds|
    ensures IsHistory(env, buckets[k..], deeds[k..])
  {
    forall i | 0 <= i < |deeds| - k
      ensures JobEffect(env, buckets[k..][i], buckets[k..][i + 1], ManifestKey(deeds[k..][i].job))
      ensures ManifestHeld(deeds[k..][i], buckets[k..][i + 1])
    {
      assert JobEffect(env, buckets[k + i], buckets[k + i + 1], ManifestKey(deeds[k + i].job));
    }
  }

  /** An object stays as it is while no job has it as its manifest. */
  lemma {:induction false} ObjectKept(env: Env, buckets: seq<map<string, Bytes>>, deeds: seq<Deed>, key: string)
    requires IsHistory(env, buckets, deeds) && key in buckets[0]
    requires forall i :: 0 <= i < |deeds| ==> ManifestKey(deeds[i].job) != key
    ensures key in buckets[|deeds|] && buckets[|deeds|][key] == buckets[0][key]
    decreases |deeds|
  {
    if |deeds| > 0 {
      assert JobEffect(env, buckets[0], buckets[0 + 1], ManifestKey(deeds[0].job));
      HistoryTail(env, buckets, deeds, 1);
      ObjectKept(env, buckets[1..], deeds[1..], key);
    }
  }

  lemma {:induction false} StaysAddressed(env: Env, buckets: seq<map<string, Bytes>>, deeds: seq<Deed>)
    requires IsHistory(env, buckets, deeds) && ContentAddressed(env, buckets[0])
    ensures ContentAddressed(env, buckets[|deeds|])
    decreases |deeds|
  {
    if |deeds| > 0 {
      assert JobEffect(env, buckets[0], buckets[0 + 1], ManifestKey(deeds[0].job));
      ManifestIsNoBlob(deeds[0].job);
      EffectKeepsAddressing(env, buckets[0], buckets[1], ManifestKey(deeds[0].job));
      HistoryTail(env, buckets, deeds, 1);
      StaysAddressed(env, buckets[1..], deeds[1..]);
    }
  }

  lemma ManifestKept(env: Env, buckets: seq<map<string, Bytes>>, deeds: seq<Deed>, k: nat)
    requires IsHistory(env, buckets, deeds) && k < |deeds| && NoneFor(deeds[k + 1..], Sanitize(deeds[k].job))
    ensures ManifestHeld(deeds[k], buckets[|deeds|])
  {
    assert ManifestHeld(deeds[k], buckets[k + 1]);
    HistoryTail(env, buckets, deeds, k + 1);
    var later := deeds[k + 1..];
    forall i | 0 <= i < |later| ensures ManifestKey(later[i].job) != ManifestKey(deeds[k].job) {
      ManifestsDiffer("", "", later[i].job, deeds[k].job);
    }
    if deeds[k].manifest.Some? { ObjectKept(env, buckets[k + 1..], later, ManifestKey(deeds[k].job)); }
  }

  lemma BlobsKept(env: Env, buckets: seq<map<string, Bytes>>, deeds: seq<Deed>, key: string)
    requires IsHistory(env, buckets, deeds) && key in buckets[0] && IsBlobKey(key)
    ensures key in buckets[|deeds|] && buckets[|deeds|][key] == buckets[0][key]
  {
    forall i | 0 <= i < |deeds| ensures ManifestKey(deeds[i].job) != key { ManifestIsNoBlob(deeds[i].job); }
    ObjectKept(env, buckets, deeds, key);
  }

  /** Over any sequence of jobs, successful or not, the bucket stays content-addressed, no blob ever changes, and each
      successful job's manifest is still there at the end unless a later job's id is sanitized to the same component. */
  lemma BucketHistory(env: Env, buckets: seq<map<string, Bytes>>, deeds: seq<Deed>)
    requires IsHistory(env, buckets, deeds) && ContentAddressed(env, buckets[0])
    ensures ContentAddressed(env, buckets[|deeds|])
    ensures forall key :: key in buckets[0] && IsBlobKey(key) ==>
      key in buckets[|deeds|] && buckets[|deeds|][key] == buckets[0][key]
    ensures forall k :: 0 <= k < |deeds| && NoneFor(deeds[k + 1..], Sanitize(deeds[k].job)) ==>
      ManifestHeld(deeds[k], buckets[|deeds|])
  {
    StaysAddressed(env, buckets, deeds);
    forall key | key in buckets[0] && IsBlobKey(key)
      ensures key in buckets[|deeds|] && buckets[|deeds|][key] == buckets[0][key]
    {
      BlobsKept(env, buckets, deeds, key);
    }
    forall k | 0 <= k < |deeds| && NoneFor(deeds[k + 1..], Sanitize(deeds[k].job))
      ensures ManifestHeld(deeds[k], buckets[|deeds|])
    {
      ManifestKept(env, buckets, deeds, k);
    }
  }

  // ----- deduplication -----

  /** The different elements of a list, in order of first appearance. */
  function Firsts(s: seq<string>): (r: seq<string>)
    ensures NoDup(r) && forall x :: x in r <==> x in s
  {
    if s == [] then []
    else
      var init, last := Firsts(s[..|s| - 1]), s[|s| - 1];
      assert s == s[..|s| - 1] + [last];
      if last in s[..|s| - 1] then init else init + [last]
  }

  lemma FirstsSnoc(s: seq<string>, x: string)
    ensures Firsts(s + [x]) == if x in s then Firsts(s) else Firsts(s) + [x]
  {
    assert (s + [x])[..|s|] == s;
  }

  /** The keys that a bucket does not hold yet. */
  function Missing(keys: seq<string>, objects: map<string, Bytes>): seq<string> {
    if keys == [] then []
    else
      var init, last := Missing(keys[..|keys| - 1], objects), keys[|keys| - 1];
      if last in objects then init else init + [last]
  }

  lemma KeysSnoc(hashes: seq<string>, x: string, objects: map<string, Bytes>)
    ensures Keys(hashes + [x]) == Keys(hashes) + [BlobKey(x)]
    ensures Missing(Keys(hashes + [x]), objects) ==
      Missing(Keys(hashes), objects) + if BlobKey(x) in objects then [] else [BlobKey(x)]
  {
    assert (hashes + [x])[..|hashes|] == hashes;
    assert (Keys(hashes) + [BlobKey(x)])[..|hashes|] == Keys(hashes);
  }

  function Keys(hashes: seq<string>): (r: seq<string>)
    ensures |r| == |hashes| && forall i :: 0 <= i < |r| ==> r[i] == BlobKey(hashes[i])
  {
    if hashes == [] then [] else Keys(hashes[..|hashes| - 1]) + [BlobKey(hashes[|hashes| - 1])]
  }

  function Hashed(files: seq<CollectedFile>): (r: seq<string>)
    ensures |r| == |files| && forall i :: 0 <= i < |r| ==> r[i] == files[i].sha
  {
    if files == [] then [] else Hashed(files[..|files| - 1]) + [files[|files| - 1].sha]
  }

  lemma HashedSnoc(files: seq<CollectedFile>, f: CollectedFile)
    ensures Hashed(files + [f]) == Hashed(files) + [f.sha]
  {
    assert (files + [f])[..|files|] == files;
  }

  datatype Config = Config(
    bucketName: string, apiUrl: string, publicUrl: string, enabled: bool, maxFiles: int, maxBytes: int)

  function Blob(cfg: Config, f: CollectedFile): OutputArtifact {
    var key := BlobKey(f.sha);
    OutputArtifact("", key, ObjectUri(cfg.bucketName, key), JoinBucketApiUrl(cfg.apiUrl, key),
                   JoinBucketApiUrl(cfg.publicUrl, key), f.sha, f.sizeBytes, f.contentType)
  }

  /** The artifact that describes a collected file. */
  function ArtifactOf(cfg: Config, f: CollectedFile): OutputArtifact {
    Blob(cfg, f).(relativePath := f.relativePath)
  }

  ghost predicate Stored(env: Env, objects: map<string, Bytes>, sha: string) {
    BlobKey(sha) in objects && env.sha(objects[BlobKey(sha)]) == sha
  }

  datatype UploadResult = UploadResult(
    manifestUri: string, manifestApiUrl: string, manifestPublicUrl: string, totalSizeBytes: int,
    artifacts: seq<OutputArtifact>)

  const NoUpload := UploadResult("", "", "", 0, [])

  /** JSON marshalling of the manifest: job id, time of making, total size and artifacts. */
  type Marshal = (string, int, int, seq<OutputArtifact>) -> Bytes

  function Artifacts(cfg: Config, files: seq<CollectedFile>): (r: seq<OutputArtifact>)
    ensures |r| == |files| && forall i :: 0 <= i < |r| ==> r[i] == ArtifactOf(cfg, files[i])
  {
    if files == [] then [] else Artifacts(cfg, files[..|files| - 1]) + [ArtifactOf(cfg, files[|files| - 1])]
  }

  /** The names a blob of hash `h` goes by. */
  predicate NamesBlob(cfg: Config, a: OutputArtifact, h: string) {
    var key := BlobKey(h);
    && a.objectKey == key && a.uri == ObjectUri(cfg.bucketName, key)
    && a.apiUrl == JoinBucketApiUrl(cfg.apiUrl, key) && a.publicUrl == JoinBucketApiUrl(cfg.publicUrl, key)
  }

  /** The bucket once the blobs with these (different) hashes have been ensured. */
  ghost predicate BlobsIn(
    env: Env, hashes: seq<string>, manifest: string, before: map<string, Bytes>, objects: map<string, Bytes>)
  {
    && JobEffect(env, before, objects, manifest) && ContentAddressed(env, objects)
    && objects.Keys == before.Keys + (set key | key in Keys(hashes))
    && (forall h :: h in hashes ==> Stored(env, objects, h))
  }

  /** The requests made for them: one HEAD each, and one PUT for each blob that the bucket did not hold before. */
  ghost predicate Requested(hashes: seq<string>, before: map<string, Bytes>, heads: seq<string>, puts: seq<string>) {
    heads == Keys(hashes) && puts == Missing(Keys(hashes), before)
  }

  lemma SameKeySameHash(h: string, hashes: seq<string>)
    requires TrimSpace(h) == h && forall x :: x in hashes ==> TrimSpace(x) == x
    ensures BlobKey(h) in Keys(hashes) <==> h in hashes
  {
    BlobKeyOf(h);
    forall i | 0 <= i < |hashes| ensures BlobKey(hashes[i]) == BlobKey(h) ==> hashes[i] == h {
      assert hashes[i] in hashes;
      BlobKeyOf(hashes[i]);
    }
    if h in hashes {
      var i :| 0 <= i < |hashes| && hashes[i] == h;
      assert Keys(hashes)[i] == BlobKey(h);
    }
  }

  lemma EffectCompose(env: Env, a: map<string, Bytes>, b: map<string, Bytes>, c: map<string, Bytes>, manifest: string)
    requires JobEffect(env, a, b, manifest) && JobEffect(env, b, c, manifest)
    ensures JobEffect(env, a, c, manifest)
  {
  }

  lemma StoredStays(env: Env, a: map<string, Bytes>, b: map<string, Bytes>, manifest: string, h: string)
    requires JobEffect(env, a, b, manifest) && !IsBlobKey(manifest) && Stored(env, a, h)
    ensures Stored(env, b, h)
  {
    assert IsBlobKey(BlobKey(h));
  }

  lemma KeySetSnoc(hashes: seq<string>, h: string)
    ensures (set key | key in Keys(hashes + [h])) == (set key | key in Keys(hashes)) + {BlobKey(h)}
  {
    assert (hashes + [h])[..|hashes|] == hashes;
  }

  lemma AllStored(
    env: Env, hashes: seq<string>, h: string, a: map<string, Bytes>, b: map<string, Bytes>, manifest: string)
    requires JobEffect(env, a, b, manifest) && !IsBlobKey(manifest) && Stored(env, b, h)
    requires forall x :: x in hashes ==> Stored(env, a, x)
    ensures forall x :: x in hashes + [h] ==> Stored(env, b, x)
  {
    forall x | x in hashes + [h] ensures Stored(env, b, x) {
      if x != h { StoredStays(env, a, b, manifest, x); }
    }
  }

  function Plus(hashes: seq<string>, h: string): seq<string> {
    if h in hashes then hashes else hashes + [h]
  }

  function HeadsFor(h: string, hashes: seq<string>): seq<string> {
    if h in hashes then [] else [BlobKey(h)]
  }

  function PutsFor(h: string, hashes: seq<string>, before: map<string, Bytes>): seq<string> {
    if h in hashes || BlobKey(h) in before then [] else [BlobKey(h)]
  }

  /** The map from hash to uploaded blob has an entry, with the right names, for each of the hashes. */
  ghost predicate AllNamed(cfg: Config, blobs: map<string, OutputArtifact>, hashes: seq<string>) {
    && (forall h :: h in blobs <==> h in hashes)
    && (forall h :: h in blobs ==> NamesBlob(cfg, blobs[h], h))
  }

  lemma NoRequest(h: string, hashes: seq<string>, before: map<string, Bytes>, heads: seq<string>, puts: seq<string>)
    requires h in hashes
    ensures heads == heads + HeadsFor(h, hashes) && puts == puts + PutsFor(h, hashes, before)
  {
  }

  lemma NamedSnoc(cfg: Config, blobs: map<string, OutputArtifact>, hashes: seq<string>, h: string, a: OutputArtifact)
    requires AllNamed(cfg, blobs, hashes) && NamesBlob(cfg, a, h)
    ensures AllNamed(cfg, blobs[h := a], Plus(hashes, h))
  {
  }

  lemma RequestedSnoc(hashes: seq<string>, h: string, before: map<string, Bytes>, heads: seq<string>, puts: seq<string>)
    requires Requested(hashes, before, heads, puts)
    ensures Requested(Plus(hashes, h), before, heads + HeadsFor(h, hashes), puts + PutsFor(h, hashes, before))
  {
    KeysSnoc(hashes, h, before);
    assert heads + [] == heads && puts + [] == puts;
  }

  lemma NewKeyIsNew(
    env: Env, hashes: seq<string>, h: string, manifest: string, before: map<string, Bytes>, objects: map<string, Bytes>)
    requires BlobsIn(env, hashes, manifest, before, objects) && h !in hashes
    requires TrimSpace(h) == h && forall x :: x in hashes ==> TrimSpace(x) == x
    ensures BlobKey(h) in objects <==> BlobKey(h) in before
  {
    SameKeySameHash(h, hashes);
    assert BlobKey(h) in objects.Keys <==> BlobKey(h) in before.Keys;
  }

  lemma BlobsInSnoc(
    env: Env, hashes: seq<string>, h: string, manifest: string,
    before: map<string, Bytes>, objects: map<string, Bytes>, objects': map<string, Bytes>)
    requires BlobsIn(env, hashes, manifest, before, objects)
    requires JobEffect(env, objects, objects', manifest) && ContentAddressed(env, objects') && !IsBlobKey(manifest)
    requires Stored(env, objects', h) && objects'.Keys == objects.Keys + {BlobKey(h)}
    ensures BlobsIn(env, hashes + [h], manifest, before, objects')
  {
    EffectCompose(env, before, objects, objects', manifest);
    AllStored(env, hashes, h, objects, objects', manifest);
    KeySetSnoc(hashes, h);
  }

  /** The state of the upload loop once the files `done` have been handled. */
  ghost predicate Uploaded(
    env: Env, cfg: Config, done: seq<CollectedFile>, manifest: string, before: map<string, Bytes>,
    objects: map<string, Bytes>, result: seq<OutputArtifact>, blobs: map<string, OutputArtifact>,
    heads: seq<string>, puts: seq<string>)
  {
    var hashes := Firsts(Hashed(done));
    && result == Artifacts(cfg, done) && AllNamed(cfg, blobs, hashes)
    && BlobsIn(env, hashes, manifest, before, objects) && Requested(hashes, before, heads, puts)
  }

  lemma UploadedStep(
    env: Env, cfg: Config, files: seq<CollectedFile>, i: nat, manifest: string,
    before: map<string, Bytes>, objects: map<string, Bytes>, result: seq<OutputArtifact>,
    blobs: map<string, OutputArtifact>, heads: seq<string>, puts: seq<string>)
    requires i < |files| && CleanDigests(files) && result == Artifacts(cfg, files[..i])
    requires Requested(Firsts(Hashed(files[..i])), before, heads, puts)
    requires AllNamed(cfg, blobs, Plus(Firsts(Hashed(files[..i])), files[i].sha))
    requires BlobsIn(env, Plus(Firsts(Hashed(files[..i])), files[i].sha), manifest, before, objects)
    ensures files[i].sha in blobs
    ensures var hashes, f, blob := Firsts(Hashed(files[..i])), files[i], blobs[files[i].sha];
      && Uploaded(env, cfg, files[..i + 1], manifest, before, objects,
                  result + [OutputArtifact(f.relativePath, blob.objectKey, blob.uri, blob.apiUrl, blob.publicUrl,
                                           f.sha, f.sizeBytes, f.contentType)],
                  blobs, heads + HeadsFor(f.sha, hashes), puts + PutsFor(f.sha, hashes, before))
  {
    RoundOf(files, i);
    ArtifactsSnoc(cfg, files, i);
    RequestedSnoc(Firsts(Hashed(files[..i])), files[i].sha, before, heads, puts);
    assert files[i].sha in Plus(Firsts(Hashed(files[..i])), files[i].sha);
  }

  class Manager {
    const cfg: Config
    const bucket: Bucket

    constructor (cfg: Config, bucket: Bucket)
      ensures this.cfg == cfg && this.bucket == bucket
    {
      this.cfg := cfg;
      this.bucket := bucket;
    }

    method EnsureBlob(env: Env, file: CollectedFile, disk: map<string, Bytes>, ghost manifest: string)
      returns (blob: Option<OutputArtifact>)
      requires TrimSpace(file.sha) == file.sha && ContentAddressed(env, bucket.objects)
      modifies bucket
      ensures JobEffect(env, old(bucket.objects), bucket.objects, manifest)
      ensures ContentAddressed(env, bucket.objects)
      ensures bucket.heads == old(bucket.heads) + [BlobKey(file.sha)]
      ensures blob.Some? ==> blob.value == Blob(cfg, file) && Stored(env, bucket.objects, file.sha)
      ensures blob.Some? ==> bucket.objects.Keys == old(bucket.objects.Keys) + {BlobKey(file.sha)}
      ensures blob.Some? ==>
        bucket.puts == old(bucket.puts) + if BlobKey(file.sha) in old(bucket.objects) then [] else [BlobKey(file.sha)]
      ensures BlobKey(file.sha) in old(bucket.objects) ==> bucket.puts == old(bucket.puts)
      ensures bucket.Reliable() ==>
        (blob.Some? <==> BlobKey(file.sha) in old(bucket.objects) || Intact(env, disk, file))
    {
      BlobKeyOf(file.sha);
      var objectKey := BlobKey(file.sha);
      var found := bucket.Head(objectKey);
      if found.None? {
        return None;
      }
      if !found.value {
        if file.path !in disk {
          return None;
        }
        var ok := bucket.Put(env, objectKey, disk[file.path], file.sha);
        if !ok {
          return None;
        }
      }
      return Some(OutputArtifact("", objectKey, ObjectUri(cfg.bucketName, objectKey),
        JoinBucketApiUrl(cfg.apiUrl, objectKey), JoinBucketApiUrl(cfg.publicUrl, objectKey),
        file.sha, file.sizeBytes, file.contentType));
    }

    /** ensureBlob for a hash that this job has not seen before. */
    method EnsureNew(env: Env, file: CollectedFile, disk: map<string, Bytes>, ghost manifest: string,
                     ghost hashes: seq<string>, ghost before: map<string, Bytes>)
      returns (blob: Option<OutputArtifact>)
      requires TrimSpace(file.sha) == file.sha && !IsBlobKey(manifest) && file.sha !in hashes
      requires BlobsIn(env, hashes, manifest, before, bucket.objects)
      requires forall h :: h in hashes ==> TrimSpace(h) == h
      modifies bucket
      ensures JobEffect(env, before, bucket.objects, manifest) && ContentAddressed(env, bucket.objects)
      ensures bucket.Reliable() && Intact(env, disk, file) ==> blob.Some?
      ensures blob.Some? ==>
        && NamesBlob(cfg, blob.value, file.sha)
        && BlobsIn(env, Plus(hashes, file.sha), manifest, before, bucket.objects)
        && bucket.heads == old(bucket.heads) + HeadsFor(file.sha, hashes)
        && bucket.puts == old(bucket.puts) + PutsFor(file.sha, hashes, before)
    {
      ghost var objects := bucket.objects;
      NewKeyIsNew(env, hashes, file.sha, manifest, before, objects);
      blob := EnsureBlob(env, file, disk, manifest);
      EffectCompose(env, before, objects, bucket.objects, manifest);
      if blob.Some? {
        BlobsInSnoc(env, hashes, file.sha, manifest, before, objects, bucket.objects);
      }
    }

    /** One round of the upload loop: a hash that was seen before costs no request. */
    method UploadOne(env: Env, file: CollectedFile, disk: map<string, Bytes>,
                     uploadedByHash: map<string, OutputArtifact>, ghost manifest: string,
                     ghost hashes: seq<string>, ghost before: map<string, Bytes>)
      returns (blobs: Option<map<string, OutputArtifact>>)
      requires TrimSpace(file.sha) == file.sha && !IsBlobKey(manifest)
      requires BlobsIn(env, hashes, manifest, before, bucket.objects)
      requires forall h :: h in hashes ==> TrimSpace(h) == h
      requires AllNamed(cfg, uploadedByHash, hashes)
      modifies bucket
      ensures JobEffect(env, before, bucket.objects, manifest) && ContentAddressed(env, bucket.objects)
      ensures bucket.Reliable() && Intact(env, disk, file) ==> blobs.Some?
      ensures blobs.Some? ==>
        && AllNamed(cfg, blobs.value, Plus(hashes, file.sha))
        && BlobsIn(env, Plus(hashes, file.sha), manifest, before, bucket.objects)
        && bucket.heads == old(bucket.heads) + HeadsFor(file.sha, hashes)
        && bucket.puts == old(bucket.puts) + PutsFor(file.sha, hashes, before)
    {
      if file.sha in uploadedByHash {
        NoRequest(file.sha, hashes, before, bucket.heads, bucket.puts);
        return Some(uploadedByHash);
      }
      var blob := EnsureNew(env, file, disk, manifest, hashes, before);
      if blob.None? {
        return None;
      }
      NamedSnoc(cfg, uploadedByHash, hashes, file.sha, blob.value);
      return Some(uploadedByHash[file.sha := blob.value]);
    }

    /** The upload loop of CollectAndUpload. `heads` and `puts` are the requests it made. */
    method UploadFiles(env: Env, files: seq<CollectedFile>, disk: map<string, Bytes>, ghost manifest: string)
      returns (artifacts: Option<seq<OutputArtifact>>, ghost heads: seq<string>, ghost puts: seq<string>)
      requires CleanDigests(files) && ContentAddressed(env, bucket.objects) && !IsBlobKey(manifest)
      modifies bucket
      ensures JobEffect(env, old(bucket.objects), bucket.objects, manifest) && ContentAddressed(env, bucket.objects)
      ensures bucket.Reliable() && (forall f :: f in files ==> Intact(env, disk, f)) ==> artifacts.Some?
      ensures artifacts.Some? ==>
        && artifacts.value == Artifacts(cfg, files)
        && bucket.heads == old(bucket.heads) + heads && bucket.puts == old(bucket.puts) + puts
        && BlobsIn(env, Firsts(Hashed(files)), manifest, old(bucket.objects), bucket.objects)
        && Requested(Firsts(Hashed(files)), old(bucket.objects), heads, puts)
    {
      ghost var before := bucket.objects;
      heads, puts := [], [];
      var result := [];
      var uploadedByHash: map<string, OutputArtifact> := map[];
      for i := 0 to |files|
        invariant Uploaded(env, cfg, files[..i], manifest, before, bucket.objects, result, uploadedByHash, heads, puts)
        invariant bucket.heads == old(bucket.heads) + heads && bucket.puts == old(bucket.puts) + puts
      {
        var file := files[i];
        ghost var hashes := Firsts(Hashed(files[..i]));
        RoundOf(files, i);
        ghost var moreHeads, morePuts := HeadsFor(file.sha, hashes), PutsFor(file.sha, hashes, before);
        var blobs := UploadOne(env, file, disk, uploadedByHash, manifest, hashes, before);
        if blobs.None? {
          return None, heads, puts;
        }
        UploadedStep(env, cfg, files, i, manifest, before, bucket.objects, result, blobs.value, heads, puts);
        Assoc(old(bucket.heads), heads, moreHeads);
        Assoc(old(bucket.puts), puts, morePuts);
        uploadedByHash := blobs.value;
        var blob := uploadedByHash[file.sha];
        result := result + [OutputArtifact(file.relativePath, blob.objectKey, blob.uri, blob.apiUrl, blob.publicUrl,
                                           file.sha, file.sizeBytes, file.contentType)];
        heads, puts := heads + moreHeads, puts + morePuts;
      }
      assert files[..|files|] == files;
      artifacts := Some(result);
    }

    /** The final part of CollectAndUpload, once the files are known. */
    method UploadAll(env: Env, marshal: Marshal, jobId: string, files: seq<CollectedFile>, totalSize: int,
                     disk: map<string, Bytes>, now: int)
      returns (r: Option<UploadResult>, ghost heads: seq<string>, ghost puts: seq<string>)
      requires CleanDigests(files) && ContentAddressed(env, bucket.objects)
      modifies bucket
      ensures ContentAddressed(env, bucket.objects)
      ensures JobEffect(env, old(bucket.objects), bucket.objects, ManifestKey(jobId))
      ensures bucket.Reliable() && (forall f :: f in files ==> Intact(env, disk, f)) ==> r.Some?
      ensures r.Some? ==>
        var key := ManifestKey(jobId);
        && r.value == UploadResult(ObjectUri(cfg.bucketName, key), JoinBucketApiUrl(cfg.apiUrl, key),
                                   JoinBucketApiUrl(cfg.publicUrl, key), totalSize, Artifacts(cfg, files))
        && Delivered(env, files, key, marshal(TrimSpace(jobId), now, totalSize, Artifacts(cfg, files)),
                     old(bucket.objects), bucket.objects, heads, puts)
        && bucket.heads == old(bucket.heads) + heads && bucket.puts == old(bucket.puts) + puts
    {
      var manifestKey := ManifestObjectKey(jobId);
      ManifestIsNoBlob(jobId);
      ghost var before := bucket.objects;
      var artifacts;
      artifacts, heads, puts := UploadFiles(env, files, disk, manifestKey);
      if artifacts.None? {
        return None, heads, puts;
      }
      ghost var objects := bucket.objects;
      var content := marshal(TrimSpace(jobId), now, totalSize, artifacts.value);
      ManifestEffect(env, before, objects, manifestKey, content);
      ManifestPut(env, files, manifestKey, content, before, objects, objects[manifestKey := content], heads, puts);
      Assoc(old(bucket.puts), puts, [manifestKey]);
      var ok := bucket.Put(env, manifestKey, content, env.sha(content));
      puts := puts + [manifestKey];
      if !ok {
        return None, heads, puts;
      }
      r := Some(UploadResult(ObjectUri(cfg.bucketName, manifestKey), JoinBucketApiUrl(cfg.apiUrl, manifestKey),
                             JoinBucketApiUrl(cfg.publicUrl, manifestKey), totalSize, artifacts.value));
    }

    /** CollectAndUpload. `entries` is what walking the output directory meets, `disk` what the files hold when they are
        opened again for the upload. */
    method CollectAndUpload(env: Env, marshal: Marshal, jobId: string, outputDir: string, entries: seq<Entry>,
                            disk: map<string, Bytes>, now: int)
      returns (r: Option<UploadResult>, ghost heads: seq<string>, ghost puts: seq<string>)
      requires forall i :: 0 <= i < |entries| && entries[i].kind == Regular ==> IsReading(entries[i].chunks)
      requires HexDigests(env)
      requires ContentAddressed(env, bucket.objects)
      modifies bucket
      ensures ContentAddressed(env, bucket.objects)
      ensures JobEffect(env, old(bucket.objects), bucket.objects, ManifestKey(jobId))
      ensures TrimSpace(outputDir) == "" ==> r == Some(NoUpload) && bucket.puts == old(bucket.puts)
      ensures TrimSpace(outputDir) != "" && !Accepted(entries, cfg.maxFiles, cfg.maxBytes) ==>
        r == None && bucket.heads == old(bucket.heads) && bucket.puts == old(bucket.puts)
      ensures TrimSpace(outputDir) != "" && Accepted(entries, cfg.maxFiles, cfg.maxBytes) ==>
        var files := Listing(env, entries);
        var key := ManifestKey(jobId);
        if files == [] then r == Some(NoUpload) && bucket.puts == old(bucket.puts)
        else if !cfg.enabled then r == None && bucket.puts == old(bucket.puts)
        else (bucket.Reliable() && (forall f :: f in files ==> Intact(env, disk, f)) ==> r.Some?) && (r.Some? ==>
          && r.value.artifacts == Artifacts(cfg, files)
          && r.value.totalSizeBytes == Wrap64(TotalSize(Regulars(entries)))
          && r.value.manifestUri == ObjectUri(cfg.bucketName, key)
          && r.value.manifestApiUrl == JoinBucketApiUrl(cfg.apiUrl, key)
          && r.value.manifestPublicUrl == JoinBucketApiUrl(cfg.publicUrl, key)
          && bucket.heads == old(bucket.heads) + heads && bucket.puts == old(bucket.puts) + puts
          && Delivered(env, files, key, marshal(TrimSpace(jobId), now, r.value.totalSizeBytes, r.value.artifacts),
                       old(bucket.objects), bucket.objects, heads, puts))
    {
      heads, puts := [], [];
      if TrimSpace(outputDir) == "" {
        return Some(NoUpload), [], [];
      }
      var collected := CollectFiles(env, entries, cfg.maxFiles, cfg.maxBytes);
      if collected.None? {
        return None, [], [];
      }
      var (files, totalSize) := collected.value;
      if |files| == 0 {
        return Some(NoUpload), [], [];
      }
      if !cfg.enabled {
        return None, [], [];
      }
      ListingIsClean(env, entries);
      r, heads, puts := UploadAll(env, marshal, jobId, files, totalSize, disk, now);
    }
  }

  // ----- the whole job -----

  function Listing(env: Env, entries: seq<Entry>): (r: seq<CollectedFile>)
    ensures |r| == |Regulars(entries)|
  {
    Sort(ByPath, AllCollected(env, Regulars(entries)))
  }

  lemma ListingIsClean(env: Env, entries: seq<Entry>)
    requires HexDigests(env)
    ensures CleanDigests(Listing(env, entries))
  {
    var all, listing := AllCollected(env, Regulars(entries)), Listing(env, entries);
    forall i | 0 <= i < |listing| ensures TrimSpace(listing[i].sha) == listing[i].sha {
      MultisetMember(listing, all, listing[i]);
      var k :| 0 <= k < |all| && all[k] == listing[i];
      assert CleanDigest(env, Content(Regulars(entries)[k].chunks));
    }
  }

  // ----- what the list of artifacts says -----

  /** What a client learns about a file: its path, size, hash and type. */
  datatype FileLine = FileLine(path: string, size: int, sha: string, contentType: string)

  function LineOf(a: OutputArtifact): FileLine {
    FileLine(a.relativePath, a.sizeBytes, a.sha, a.contentType)
  }

  function LineOfEntry(env: Env, e: Entry): FileLine {
    FileLine(e.relativePath, |Content(e.chunks)|, env.sha(Content(e.chunks)),
             ContentType(env, e.path, Content(e.chunks)))
  }

  /** The artifact's names all mean the blob stored under its hash. */
  predicate NamesItsBlob(cfg: Config, a: OutputArtifact) {
    && a.objectKey == "computehive/job-output-blobs/sha256/" + a.sha && a.uri == ObjectUri(cfg.bucketName, a.objectKey)
    && a.apiUrl == JoinBucketApiUrl(cfg.apiUrl, a.objectKey)
    && a.publicUrl == JoinBucketApiUrl(cfg.publicUrl, a.objectKey)
  }

  /** One artifact for each regular file that the walk met, saying what the file held, no others, in path order. */
  ghost predicate Lists(env: Env, cfg: Config, entries: seq<Entry>, artifacts: seq<OutputArtifact>) {
    && multiset(Map(LineOf, artifacts)) == multiset(Map(e => LineOfEntry(env, e), Regulars(entries)))
    && (forall a :: a in artifacts ==> NamesItsBlob(cfg, a))
    && (forall i, j :: 0 <= i < j < |artifacts| ==>
          artifacts[i].relativePath == artifacts[j].relativePath ||
          Below(artifacts[i].relativePath, artifacts[j].relativePath))
  }

  function LineOfFile(f: CollectedFile): FileLine {
    FileLine(f.relativePath, f.sizeBytes, f.sha, f.contentType)
  }

  lemma LinesOfArtifacts(cfg: Config, files: seq<CollectedFile>)
    ensures Map(LineOf, Artifacts(cfg, files)) == Map(LineOfFile, files)
  {
    forall i | 0 <= i < |files| ensures LineOf(ArtifactOf(cfg, files[i])) == LineOfFile(files[i]) {}
  }

  lemma LinesOfEntries(env: Env, entries: seq<Entry>)
    ensures Map(LineOfFile, AllCollected(env, entries)) == Map(e => LineOfEntry(env, e), entries)
  {
    forall i | 0 <= i < |entries| ensures LineOfFile(Collected(env, entries[i])) == LineOfEntry(env, entries[i]) {}
  }

  lemma LinesOfListing(env: Env, cfg: Config, entries: seq<Entry>)
    ensures multiset(Map(LineOf, Artifacts(cfg, Listing(env, entries)))) ==
            multiset(Map(e => LineOfEntry(env, e), Regulars(entries)))
  {
    var files, all := Listing(env, entries), AllCollected(env, Regulars(entries));
    LinesOfArtifacts(cfg, files);
    MapPermutes(LineOfFile, files, all);
    LinesOfEntries(env, Regulars(entries));
  }

  lemma ListingIsListed(env: Env, cfg: Config, entries: seq<Entry>)
    requires HexDigests(env)
    ensures Lists(env, cfg, entries, Artifacts(cfg, Listing(env, entries)))
  {
    var files := Listing(env, entries);
    LinesOfListing(env, cfg, entries);
    ListingIsClean(env, entries);
    ByPathIsOrder();
    SortOrders(ByPath, AllCollected(env, Regulars(entries)));
    forall i, j | 0 <= i < j < |files|
      ensures files[i].relativePath == files[j].relativePath || Below(files[i].relativePath, files[j].relativePath)
    {
      assert ByPath(files[i], files[j]);
      LexLeIff(files[i].relativePath, files[j].relativePath);
    }
  }

  /** Where the manifest of a job is, and that it is there, with this size and these artifacts in it. */
  ghost predicate PointsToManifest(
    cfg: Config, marshal: Marshal, now: int, jobId: string, objects: map<string, Bytes>,
    uri: string, apiUrl: string, publicUrl: string, size: int, artifacts: seq<OutputArtifact>)
  {
    var key := ManifestKey(jobId);
    && uri == ObjectUri(cfg.bucketName, key) && apiUrl == JoinBucketApiUrl(cfg.apiUrl, key)
    && publicUrl == JoinBucketApiUrl(cfg.publicUrl, key)
    && ManifestHeld(Deed(jobId, Some(marshal(TrimSpace(jobId), now, size, artifacts))), objects)
  }

  /** After a job: every file's blob is stored under its hash, and the manifest under its own name. */
  ghost predicate Delivered(
    env: Env, files: seq<CollectedFile>, manifest: string, content: Bytes, before: map<string, Bytes>,
    after: map<string, Bytes>, heads: seq<string>, puts: seq<string>)
  {
    && (forall i :: 0 <= i < |files| ==> Stored(env, after, files[i].sha))
    && manifest in after && after[manifest] == content
    && heads == Keys(Firsts(Hashed(files)))
    && puts == Missing(Keys(Firsts(Hashed(files))), before) + [manifest]
  }

  lemma StoredBeside(env: Env, objects: map<string, Bytes>, manifest: string, content: Bytes, h: string)
    requires !IsBlobKey(manifest) && Stored(env, objects, h)
    ensures Stored(env, objects[manifest := content], h)
  {
    BlobKeyIsBlob(h);
  }

  lemma ManifestPut(
    env: Env, files: seq<CollectedFile>, manifest: string, content: Bytes, before: map<string, Bytes>,
    objects: map<string, Bytes>, after: map<string, Bytes>, heads: seq<string>, puts: seq<string>)
    requires !IsBlobKey(manifest)
    requires BlobsIn(env, Firsts(Hashed(files)), manifest, before, objects)
    requires Requested(Firsts(Hashed(files)), before, heads, puts)
    requires after == objects[manifest := content]
    ensures Delivered(env, files, manifest, content, before, after, heads, puts + [manifest])
  {
    forall i | 0 <= i < |files| ensures Stored(env, after, files[i].sha) {
      assert Hashed(files)[i] in Hashed(files);
      StoredBeside(env, objects, manifest, content, files[i].sha);
    }
  }

  lemma ManifestEffect(
    env: Env, before: map<string, Bytes>, objects: map<string, Bytes>, manifest: string, content: Bytes)
    requires !IsBlobKey(manifest) && JobEffect(env, before, objects, manifest) && ContentAddressed(env, objects)
    ensures JobEffect(env, before, objects[manifest := content], manifest)
    ensures ContentAddressed(env, objects[manifest := content])
  {
  }

  lemma {:induction false} MissingCount(keys: seq<string>, objects: map<string, Bytes>, key: string)
    ensures multiset(Missing(keys, objects))[key] == if key in objects then 0 else multiset(keys)[key]
  {
    if keys != [] {
      assert keys == keys[..|keys| - 1] + [keys[|keys| - 1]];
      MissingCount(keys[..|keys| - 1], objects, key);
    }
  }

  /** Each different hash gets exactly one HEAD, however many files share it, and one PUT if its blob is missing. */
  lemma OneHeadPerHash(hashes: seq<string>, before: map<string, Bytes>, h: string)
    requires h in hashes && forall x :: x in hashes ==> TrimSpace(x) == x
    ensures multiset(Keys(Firsts(hashes)))[BlobKey(h)] == 1
    ensures multiset(Missing(Keys(Firsts(hashes)), before))[BlobKey(h)] == if BlobKey(h) in before then 0 else 1
  {
    MissingCount(Keys(Firsts(hashes)), before, BlobKey(h));
    var firsts, keys := Firsts(hashes), Keys(Firsts(hashes));
    var k :| 0 <= k < |firsts| && firsts[k] == h;
    forall i | 0 <= i < |keys| && i != k ensures keys[i] != BlobKey(h) {
      assert firsts[i] in firsts && firsts[i] in hashes;
      BlobKeyOf(firsts[i]);
      BlobKeyOf(h);
    }
    CountOne(keys, k);
  }

  lemma CountOne(s: seq<string>, k: nat)
    requires k < |s| && forall i :: 0 <= i < |s| && i != k ==> s[i] != s[k]
    ensures multiset(s)[s[k]] == 1
  {
    assert s == s[..k] + ([s[k]] + s[k + 1..]);
    assert s[k] !in s[..k] && s[k] !in s[k + 1..];
  }

  lemma Assoc(a: seq<string>, b: seq<string>, c: seq<string>)
    ensures a + b + c == a + (b + c)
  {
  }

  lemma ArtifactsSnoc(cfg: Config, files: seq<CollectedFile>, i: nat)
    requires i < |files|
    ensures Artifacts(cfg, files[..i + 1]) == Artifacts(cfg, files[..i]) + [ArtifactOf(cfg, files[i])]
  {
    assert files[..i + 1][..i] == files[..i];
  }

  lemma RoundOf(files: seq<CollectedFile>, i: nat)
    requires i < |files| && CleanDigests(files)
    ensures var done, h := Firsts(Hashed(files[..i])), files[i].sha;
      && Firsts(Hashed(files[..i + 1])) == Plus(done, h)
      && (forall x :: x in done ==> TrimSpace(x) == x)
  {
    var done := files[..i];
    assert files[..i + 1] == done + [files[i]];
    HashedSnoc(done, files[i]);
    FirstsSnoc(Hashed(done), files[i].sha);
    forall h | h in Hashed(done) ensures TrimSpace(h) == h {
      var k :| 0 <= k < |done| && Hashed(done)[k] == h;
      assert done[k] == files[k];
    }
  }
}
