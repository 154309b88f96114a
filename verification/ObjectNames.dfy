/** worker/internal/output/manager.go: the names under which blobs and manifests are stored and addressed. */
module ObjectNames {
  import opened Domain

  // ----- trimming -----

  /** Drops the characters satisfying `drop` from both ends. */
  function Trim(drop: char -> bool, s: string): string {
    if s == [] then s
    else if drop(s[0]) then Trim(drop, s[1..])
    else if drop(s[|s| - 1]) then Trim(drop, s[..|s| - 1])
    else s
  }

  predicate IsSpace(c: char) {
    c == ' ' || c == '\t' || c == '\n' || c == '\r'
  }

  predicate IsDash(c: char) {
    c == '-'
  }

  function TrimSpace(s: string): string {
    Trim(IsSpace, s)
  }

  function TrimLeftSlash(s: string): string {
    if s != [] && s[0] == '/' then TrimLeftSlash(s[1..]) else s
  }

  function TrimRightSlash(s: string): string {
    if s != [] && s[|s| - 1] == '/' then TrimRightSlash(s[..|s| - 1]) else s
  }

  ghost predicate All(p: char -> bool, s: string) {
    forall i :: 0 <= i < |s| ==> p(s[i])
  }

  /** Neither end of `s` satisfies `drop`. */
  predicate Bare(drop: char -> bool, s: string) {
    s != [] ==> !drop(s[0]) && !drop(s[|s| - 1])
  }

  /** `middle` stands in `s` between characters to be dropped. */
  ghost predicate Surrounds(drop: char -> bool, s: string, l: string, middle: string, r: string) {
    s == l + middle + r && All(drop, l) && All(drop, r)
  }

  lemma OneMoreInFront(drop: char -> bool, s: string, l: string, middle: string, r: string)
    requires s != [] && drop(s[0]) && Surrounds(drop, s[1..], l, middle, r)
    ensures Surrounds(drop, s, [s[0]] + l, middle, r)
  {
    assert s == [s[0]] + s[1..];
  }

  lemma OneMoreBehind(drop: char -> bool, s: string, l: string, middle: string, r: string)
    requires s != [] && drop(s[|s| - 1]) && Surrounds(drop, s[..|s| - 1], l, middle, r)
    ensures Surrounds(drop, s, l, middle, r + [s[|s| - 1]])
  {
    assert s == s[..|s| - 1] + [s[|s| - 1]];
  }

  /** What is dropped are characters to be dropped, in front and behind, and as many as possible. */
  lemma {:induction false} TrimIs(drop: char -> bool, s: string) returns (l: string, r: string)
    ensures Surrounds(drop, s, l, Trim(drop, s), r) && Bare(drop, Trim(drop, s))
    decreases |s|
  {
    l, r := "", "";
    if s != [] && drop(s[0]) {
      l, r := TrimIs(drop, s[1..]);
      OneMoreInFront(drop, s, l, Trim(drop, s[1..]), r);
      l := [s[0]] + l;
    } else if s != [] && drop(s[|s| - 1]) {
      l, r := TrimIs(drop, s[..|s| - 1]);
      OneMoreBehind(drop, s, l, Trim(drop, s[..|s| - 1]), r);
      r := r + [s[|s| - 1]];
    }
  }

  lemma {:induction false} TrimTwice(drop: char -> bool, s: string)
    ensures Trim(drop, Trim(drop, s)) == Trim(drop, s)
  {
    var l, r := TrimIs(drop, s);
  }

  // ----- addresses -----

  function JoinBucketApiUrl(base: string, key: string): string {
    TrimRightSlash(base) + "/" + TrimLeftSlash(key)
  }

  function ObjectUri(bucket: string, key: string): string {
    "s3://" + TrimSpace(bucket) + "/" + TrimLeftSlash(key)
  }

  /** An object key as this code makes them. */
  predicate IsKey(key: string) {
    key != "" && key[0] != '/'
  }

  lemma PrefixCancels(p: string, a: string, b: string)
    requires p + a == p + b
    ensures a == b
  {
    assert (p + a)[|p|..] == a && (p + b)[|p|..] == b;
  }

  /** Within one bucket, addresses name the object: different keys have different addresses. */
  lemma AddressesNameKeys(base: string, bucket: string, a: string, b: string)
    requires IsKey(a) && IsKey(b)
    ensures JoinBucketApiUrl(base, a) == JoinBucketApiUrl(base, b) <==> a == b
    ensures ObjectUri(bucket, a) == ObjectUri(bucket, b) <==> a == b
  {
    if ObjectUri(bucket, a) == ObjectUri(bucket, b) { PrefixCancels("s3://" + TrimSpace(bucket) + "/", a, b); }
    if JoinBucketApiUrl(base, a) == JoinBucketApiUrl(base, b) { PrefixCancels(TrimRightSlash(base) + "/", a, b); }
  }

  // ----- blobs -----

  const BlobPrefix := "computehive/job-output-blobs/sha256/"

  function BlobKey(sha: string): string {
    BlobPrefix + TrimSpace(sha)
  }

  predicate IsBlobKey(key: string) {
    BlobPrefix <= key
  }

  function HashOfKey(key: string): string
    requires IsBlobKey(key)
  {
    key[|BlobPrefix|..]
  }

  lemma BlobKeyOf(h: string)
    requires TrimSpace(h) == h
    ensures IsBlobKey(BlobKey(h)) && HashOfKey(BlobKey(h)) == h
  {
  }

  lemma BlobKeyIsBlob(h: string)
    ensures IsBlobKey(BlobKey(h)) && IsKey(BlobKey(h))
  {
  }

  // ----- manifests -----

  /** The characters that may stand in one component of an object key. */
  predicate Safe(c: char) {
    ('a' <= c <= 'z') || ('A' <= c <= 'Z') || ('0' <= c <= '9') || c == '-' || c == '_' || c == '.'
  }

  function Replaced(s: string): (r: string)
    ensures |r| == |s| && forall i :: 0 <= i < |s| ==> r[i] == if Safe(s[i]) then s[i] else '-'
  {
    if s == [] then []
    else Replaced(s[..|s| - 1]) + [if Safe(s[|s| - 1]) then s[|s| - 1] else '-']
  }

  function Sanitize(value: string): string {
    var clean := Trim(IsDash, Replaced(TrimSpace(value)));
    if clean == "" then "job" else clean
  }

  method SanitizePathComponent(value: string) returns (clean: string)
    ensures clean == Sanitize(value)
  {
    var trimmed := TrimSpace(value);
    if trimmed == "" {
      return "job";
    }
    var builder := "";
    for i := 0 to |trimmed|
      invariant |builder| == i
      invariant forall k :: 0 <= k < i ==> builder[k] == if Safe(trimmed[k]) then trimmed[k] else '-'
    {
      var c := trimmed[i];
      if 'a' <= c <= 'z' || 'A' <= c <= 'Z' || '0' <= c <= '9' {
        builder := builder + [c];
      } else if c == '-' || c == '_' || c == '.' {
        builder := builder + [c];
      } else {
        builder := builder + "-";
      }
    }
    assert builder == Replaced(trimmed);
    clean := Trim(IsDash, builder);
    if clean == "" {
      return "job";
    }
  }

  /** A component of a key: non-empty, of safe characters, so without a slash, and with no dash at either end. */
  predicate IsComponent(s: string) {
    s != "" && Bare(IsDash, s) && forall i :: 0 <= i < |s| ==> Safe(s[i])
  }

  /** Every id is turned into a component, and exactly the components are left as they are: job ids, which are UUIDs,
      keep their names, and different ones stay different. */
  lemma SanitizeIff(id: string)
    ensures IsComponent(Sanitize(id))
    ensures Sanitize(id) == id <==> IsComponent(id)
  {
    var trimmed := TrimSpace(id);
    var clean := Trim(IsDash, Replaced(trimmed));
    var l, r := TrimIs(IsDash, Replaced(trimmed));
    forall i | 0 <= i < |clean| ensures Safe(clean[i]) { assert clean[i] == Replaced(trimmed)[|l| + i]; }
    if IsComponent(id) {
      NothingToTrim(id);
      assert Replaced(id) == id;
    }
  }

  lemma NothingToTrim(id: string)
    requires IsComponent(id)
    ensures TrimSpace(id) == id && Trim(IsDash, id) == id
  {
    assert Safe(id[0]) && Safe(id[|id| - 1]);
  }

  /** The manifest of a job. */
  function ManifestKey(jobId: string): string {
    "computehive/job-results/" + Sanitize(jobId) + "/manifest.json"
  }

  method ManifestObjectKey(jobId: string) returns (key: string)
    ensures key == ManifestKey(jobId)
  {
    var component := SanitizePathComponent(jobId);
    key := "computehive/job-results/" + component + "/manifest.json";
  }

  lemma ManifestIsNoBlob(jobId: string)
    ensures !IsBlobKey(ManifestKey(jobId)) && IsKey(ManifestKey(jobId))
  {
    assert ManifestKey(jobId)[16] == 'r' && BlobPrefix[16] == 'o';
  }

  lemma MiddleCancels(p: string, a: string, b: string, s: string)
    requires p + a + s == p + b + s
    ensures a == b
  {
    assert |a| == |b|;
    assert (p + a + s)[|p|..|p| + |a|] == a && (p + b + s)[|p|..|p| + |b|] == b;
  }

  /** Two jobs share a manifest object, or an address of it, exactly if their ids are sanitized alike. */
  lemma ManifestsDiffer(base: string, bucket: string, a: string, b: string)
    ensures ManifestKey(a) == ManifestKey(b) <==> Sanitize(a) == Sanitize(b)
    ensures ObjectUri(bucket, ManifestKey(a)) == ObjectUri(bucket, ManifestKey(b)) <==> Sanitize(a) == Sanitize(b)
    ensures JoinBucketApiUrl(base, ManifestKey(a)) == JoinBucketApiUrl(base, ManifestKey(b)) <==>
            Sanitize(a) == Sanitize(b)
  {
    if ManifestKey(a) == ManifestKey(b) {
      MiddleCancels("computehive/job-results/", Sanitize(a), Sanitize(b), "/manifest.json");
    }
    ManifestIsNoBlob(a);
    ManifestIsNoBlob(b);
    AddressesNameKeys(base, bucket, ManifestKey(a), ManifestKey(b));
  }
}
