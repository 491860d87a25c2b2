/** The bundle store (internal/bundler.go): application bundles uploaded to
    a bucket under "bundles/", one pointer object per fleet naming the
    bundle that fleet runs, the listing of the stored bundles, and the
    retention rule that keeps at most `MaxKeepBundles` of them.

    The bucket is the in-memory one of the end-to-end fake, so the model
    inherits its behaviour: a listing matches the prefix anywhere in a key,
    a read returns the first object whose key contains the one asked for,
    and a deletion keeps only the objects whose key contains the deleted
    key. */
module Bundling {
  import opened Wrappers
  import opened Aws
  import opened MockAws
  import GoStrings
  import Config
  import Deployment

  const BundlePrefix := "bundles/"
  const ActiveBundleKeyPrefix := "active_bundle_"
  const MaxKeepBundles := 100

  /** The error `os.Open` gives for the bundle file when it cannot be opened. */
  const BundleFileMissing := "open: no such file or directory"

  /** The object a bundle is uploaded to. */
  function BundleKey(bundleName: string): string
  {
    BundlePrefix + bundleName
  }

  /** The pointer object naming the bundle a fleet runs. */
  function ActiveKey(targetType: Deployment.TargetType): string
  {
    ActiveBundleKeyPrefix + targetType
  }

  // ---------------------------------------------------------------------
  // listBundles: the bundles, newest first.

  predicate NewestFirst(objects: seq<S3Object>)
  {
    forall i, j :: 0 <= i < j < |objects| ==> objects[i].lastModified >= objects[j].lastModified
  }

  function ObjectKeys(objects: seq<S3Object>): (r: seq<string>)
    ensures |r| == |objects| && forall i :: 0 <= i < |r| ==> r[i] == objects[i].key
  {
    seq(|objects|, i requires 0 <= i < |objects| => objects[i].key)
  }

  /** `o` placed into a newest-first sequence ahead of every object that is
      not newer. */
  function InsertNewestFirst(o: S3Object, sorted: seq<S3Object>): (r: seq<S3Object>)
    requires NewestFirst(sorted)
    ensures NewestFirst(r)
    ensures multiset(r) == multiset(sorted) + multiset{o}
  {
    if sorted == [] || o.lastModified >= sorted[0].lastModified then
      NewestFirstCons(o, sorted);
      [o] + sorted
    else
      var rest := InsertNewestFirst(o, sorted[1..]);
      assert sorted == [sorted[0]] + sorted[1..];
      LeadsInsertion(sorted, o, rest);
      [sorted[0]] + rest
  }

  /** The newest object still leads once an older one is inserted behind it. */
  lemma LeadsInsertion(sorted: seq<S3Object>, o: S3Object, rest: seq<S3Object>)
    requires sorted != [] && NewestFirst(sorted) && o.lastModified < sorted[0].lastModified
    requires NewestFirst(rest) && multiset(rest) == multiset(sorted[1..]) + multiset{o}
    ensures NewestFirst([sorted[0]] + rest)
  {
    assert sorted == [sorted[0]] + sorted[1..];
    forall x | x in rest
      ensures x.lastModified <= sorted[0].lastModified
    {
      assert x in multiset(rest);
    }
    NewestFirstCons(sorted[0], rest);
  }

  /** An object no older than any of a newest-first sequence can lead it. */
  lemma NewestFirstCons(h: S3Object, rest: seq<S3Object>)
    requires NewestFirst(rest)
    requires forall x | x in rest :: x.lastModified <= h.lastModified
    ensures NewestFirst([h] + rest)
  {
    forall i, j | 0 <= i < j < |[h] + rest|
      ensures ([h] + rest)[i].lastModified >= ([h] + rest)[j].lastModified
    {
      assert ([h] + rest)[j] == rest[j - 1];
      if i > 0 {
        assert ([h] + rest)[i] == rest[i - 1];
      } else {
        assert rest[j - 1] in rest;
      }
    }
  }

  /** Rearranging objects rearranges their keys. */
  lemma {:induction false} KeysOfPermutation(a: seq<S3Object>, b: seq<S3Object>)
    requires multiset(a) == multiset(b)
    ensures multiset(ObjectKeys(a)) == multiset(ObjectKeys(b))
    decreases |a|
  {
    if a == [] {
      assert |b| == |multiset(b)| == 0;
    } else {
      var i := MatchHead(a, b);
      KeysOfPermutation(a[1..], b[..i] + b[i + 1..]);
      KeysOfMatchedHead(a, b, i);
    }
  }

  /** Where the head of `a` sits in its rearrangement `b`; the rest of `a`
      rearranges `b` without it. */
  lemma MatchHead(a: seq<S3Object>, b: seq<S3Object>) returns (i: nat)
    requires a != [] && multiset(a) == multiset(b)
    ensures i < |b| && b[i] == a[0]
    ensures multiset(a[1..]) == multiset(b[..i] + b[i + 1..])
  {
    assert a[0] in multiset(b);
    i :| 0 <= i < |b| && b[i] == a[0];
    SplitAt(b, i);
    assert a == [a[0]] + a[1..];
  }

  /** The keys of `a` and `b` agree once they agree without the matched head. */
  lemma KeysOfMatchedHead(a: seq<S3Object>, b: seq<S3Object>, i: nat)
    requires a != [] && i < |b| && b[i] == a[0]
    requires multiset(ObjectKeys(a[1..])) == multiset(ObjectKeys(b[..i] + b[i + 1..]))
    ensures multiset(ObjectKeys(a)) == multiset(ObjectKeys(b))
  {
    assert a == [a[0]] + a[1..];
    KeysCons(a[0], a[1..]);
    SplitKeysAt(b, i);
    var kb := multiset(ObjectKeys(b));
    assert ObjectKeys(b)[i] == a[0].key;
    assert a[0].key in kb;
    assert kb == multiset{a[0].key} + (kb - multiset{a[0].key});
  }

  /** The keys of a one-object prefix and the rest. */
  lemma KeysCons(x: S3Object, tail: seq<S3Object>)
    ensures multiset(ObjectKeys([x] + tail)) == multiset{x.key} + multiset(ObjectKeys(tail))
  {
    KeysAppend([x], tail);
    assert ObjectKeys([x]) == [x.key];
  }

  lemma KeysAppend(a: seq<S3Object>, b: seq<S3Object>)
    ensures ObjectKeys(a + b) == ObjectKeys(a) + ObjectKeys(b)
  {
  }

  /** Taking out the object at `i`. */
  lemma SplitAt(b: seq<S3Object>, i: nat)
    requires i < |b|
    ensures multiset(b[..i] + b[i + 1..]) == multiset(b) - multiset{b[i]}
  {
    assert b == b[..i] + [b[i]] + b[i + 1..];
  }

  /** Taking out the object at `i`, seen on the keys. */
  lemma SplitKeysAt(b: seq<S3Object>, i: nat)
    requires i < |b|
    ensures multiset(ObjectKeys(b[..i] + b[i + 1..])) == multiset(ObjectKeys(b)) - multiset{b[i].key}
  {
    var before, after := b[..i], b[i + 1..];
    assert b == before + [b[i]] + after;
    KeysAppend(before, after);
    KeysAppend(before + [b[i]], after);
    KeysAppend(before, [b[i]]);
    assert ObjectKeys([b[i]]) == [b[i].key];
    assert ObjectKeys(b) == ObjectKeys(before) + [b[i].key] + ObjectKeys(after);
  }

  /** `sort.Slice` with the order "`LastModified` after": the objects
      rearranged so that none is newer than one before it. The library's
      sort is not stable; equal times come out in one of the orders it may
      produce. */
  function SortNewestFirst(objects: seq<S3Object>): (r: seq<S3Object>)
    ensures NewestFirst(r)
    ensures multiset(r) == multiset(objects)
    ensures |r| == |objects|
  {
    if objects == [] then []
    else
      assert objects == [objects[0]] + objects[1..];
      var r := InsertNewestFirst(objects[0], SortNewestFirst(objects[1..]));
      assert |multiset(r)| == |multiset(objects)|;
      r
  }

  /** `listBundles` (internal/bundler.go:83-95): the listing under the bundle
      prefix, newest first. */
  function ListBundleObjectsOf(s: TestingState, c: Config.Config): (r: Result<seq<S3Object>>)
    ensures r.Err? <==> ListS3BucketObjects(s, c.bundleBucket, BundlePrefix).Err?
    ensures r.Ok? ==>
      && NewestFirst(r.value)
      && multiset(r.value) == multiset(ListS3BucketObjects(s, c.bundleBucket, BundlePrefix).value)
    ensures r.Ok? && r.value != [] ==> s.bucket.Some? && s.bucket.value.name == c.bundleBucket
    ensures r.Ok? ==> forall o :: o in r.value ==> GoStrings.Contains(o.key, BundlePrefix)
  {
    match ListS3BucketObjects(s, c.bundleBucket, BundlePrefix)
    case Err(e) => Err(e)
    case Ok(objects) =>
      var sorted := SortNewestFirst(objects);
      assert forall o :: o in sorted ==> o in multiset(objects);
      Ok(sorted)
  }

  // ---------------------------------------------------------------------
  // Register.

  /** The bucket probe answered "NotFound". Any other error of the probe is
      ignored and the bucket taken to exist. */
  predicate BucketMissing(s: TestingState, c: Config.Config)
  {
    var head := HeadS3Bucket(s, c.bundleBucket);
    head.Some? && ApiCode(head.value) == Some("NotFound")
  }

  /** `createBucketIfNotExsists` (internal/bundler.go:162-183): when the
      bucket is missing, create it and then turn on versioning, the private
      ACL and the public access block, in that order, stopping at the first
      failure, so the settings that are on always form a prefix of that
      order. */
  function BootstrapStep(s: TestingState, c: Config.Config): (r: Step)
    ensures !BucketMissing(s, c) ==> r == Step(s, None)
    ensures BucketMissing(s, c) && r.err.None? ==>
      r.state == s.(bucket := Some(Bucket(c.bundleBucket, true, true, true, [])))
    ensures BucketMissing(s, c) && r.err.Some? && r.state != s ==>
      && r.state == s.(bucket := r.state.bucket)
      && r.state.bucket.Some?
      && r.state.bucket.value.name == c.bundleBucket
      && r.state.bucket.value.objects == []
      && !r.state.bucket.value.publicAccessDisabled
      && (r.state.bucket.value.aclPrivate ==> r.state.bucket.value.versioningEnabled)
    ensures s.failures == map[] ==> r.err.None?
    ensures s.failures == map[] && s.bucket.None? ==>
      r.state.bucket == Some(Bucket(c.bundleBucket, true, true, true, []))
  {
    if !BucketMissing(s, c) then Step(s, None)
    else
      var created := CreateS3BucketStep(s, c.bundleBucket);
      if created.err.Some? then created
      else
        var versioned := SetBucketFlagStep(created.state, c.bundleBucket, Versioning);
        if versioned.err.Some? then versioned
        else
          var aclSet := SetBucketFlagStep(versioned.state, c.bundleBucket, PrivateAcl);
          if aclSet.err.Some? then aclSet
          else SetBucketFlagStep(aclSet.state, c.bundleBucket, PublicAccessBlock)
  }

  /** The deletions of `removeOldBundlesIfNeed` (internal/bundler.go:190-196)
      from position `i` of the newest-first listing on: every object at
      position `MaxKeepBundles - 1` or later is deleted by key, in order,
      and the first error ends the loop. */
  function DeleteFrom(s: TestingState, c: Config.Config, objects: seq<S3Object>, i: nat): (r: Step)
    requires i < |objects| ==> s.bucket.Some?
    ensures s.bucket.Some? ==> r.state.bucket.Some? && r.state.bucket.value.name == s.bucket.value.name
    ensures r.state == s.(bucket := r.state.bucket)
    ensures i >= |objects| || |objects| < MaxKeepBundles ==> r == Step(s, None)
    decreases |objects| - i
  {
    if i >= |objects| then Step(s, None)
    else if i < MaxKeepBundles - 1 then DeleteFrom(s, c, objects, i + 1)
    else
      var d := DeleteS3BucketObjectStep(s, c.bundleBucket, objects[i].key);
      if d.err.Some? then d else DeleteFrom(d.state, c, objects, i + 1)
  }

  /** The newest bundles are passed over: the loop goes on unchanged. */
  lemma DeleteFromSkips(s: TestingState, c: Config.Config, objects: seq<S3Object>, i: nat)
    requires i < |objects| && i < MaxKeepBundles - 1
    requires s.bucket.Some?
    ensures DeleteFrom(s, c, objects, i) == DeleteFrom(s, c, objects, i + 1)
  {
  }

  /** An older bundle is deleted, and the loop goes on from the state the
      deletion leaves unless it failed. */
  lemma DeleteFromDeletes(s: TestingState, c: Config.Config, objects: seq<S3Object>, i: nat, d: Step)
    requires MaxKeepBundles - 1 <= i < |objects|
    requires s.bucket.Some?
    requires d == DeleteS3BucketObjectStep(s, c.bundleBucket, objects[i].key)
    ensures d.err.Some? ==> DeleteFrom(s, c, objects, i) == d
    ensures d.err.None? ==> DeleteFrom(s, c, objects, i) == DeleteFrom(d.state, c, objects, i + 1)
  {
  }

  /** `removeOldBundlesIfNeed` (internal/bundler.go:185-199). */
  function RemoveOldStep(s: TestingState, c: Config.Config): (r: Step)
    ensures ListBundleObjectsOf(s, c).Err? ==> r == Step(s, Some(ListBundleObjectsOf(s, c).error))
    ensures ListBundleObjectsOf(s, c).Ok? && |ListBundleObjectsOf(s, c).value| < MaxKeepBundles ==> r == Step(s, None)
    ensures r.state == s.(bucket := r.state.bucket)
    ensures s.bucket.Some? ==> r.state.bucket.Some? && r.state.bucket.value.name == s.bucket.value.name
  {
    match ListBundleObjectsOf(s, c)
    case Err(e) => Step(s, Some(e))
    case Ok(objects) => DeleteFrom(s, c, objects, 0)
  }

  /** `Register` (internal/bundler.go:161-219). `upload` is the content of
      the file to upload, `None` when it cannot be opened; `now` is the
      fake's clock. */
  function RegisterStep(s: TestingState, c: Config.Config, upload: Option<string>, bundleName: string, now: int): (r: Step)
    ensures r.state.loadBalancer == s.loadBalancer && r.state.groups == s.groups && r.state.failures == s.failures
    ensures r.err.None? ==> upload.Some?
    ensures r.err.None? && r.state.bucket.Some? ==>
      var objects := r.state.bucket.value.objects;
      objects != [] && objects[|objects| - 1] == BucketObject(now, BundleKey(bundleName), upload.value, None)
  {
    var bootstrapped := BootstrapStep(s, c);
    if bootstrapped.err.Some? then bootstrapped
    else
      var trimmed := RemoveOldStep(bootstrapped.state, c);
      if trimmed.err.Some? then trimmed
      else if upload.None? then Step(trimmed.state, Some(Failure(BundleFileMissing)))
      else PutS3BucketObjectStep(trimmed.state, BundleKey(bundleName), upload.value, None, now)
  }

  // ---------------------------------------------------------------------
  // Pointers, activation and download.

  /** `getActiveBundle` (internal/bundler.go:221-237): the content of the
      fleet's pointer object: the first object whose key contains the
      pointer key; a bucket of the configured name without one is an error. */
  function ActiveBundleOf(s: TestingState, c: Config.Config, targetType: Deployment.TargetType): (r: Result<string>)
    ensures r.Ok? ==>
      s.bucket.Some? &&
      exists k :: 0 <= k < |s.bucket.value.objects| &&
        GoStrings.Contains(s.bucket.value.objects[k].key, ActiveKey(targetType)) &&
        s.bucket.value.objects[k].value == r.value &&
        forall j :: 0 <= j < k ==> !GoStrings.Contains(s.bucket.value.objects[j].key, ActiveKey(targetType))
    ensures Fault(s, GetObject(ActiveKey(targetType))).None? && s.bucket.Some? && s.bucket.value.name == c.bundleBucket ==>
      (r.Ok? <==> exists o :: o in s.bucket.value.objects && GoStrings.Contains(o.key, ActiveKey(targetType)))
  {
    GetS3BucketObject(s, c.bundleBucket, ActiveKey(targetType))
  }

  /** `Activate` (internal/bundler.go:239-247): the bundle name stored as a
      text object under the fleet's pointer key. */
  function ActivateStep(s: TestingState, c: Config.Config, targetType: Deployment.TargetType, bundleValue: string, now: int): (r: Step)
    ensures r.err.None? && s.bucket.Some? ==>
      r.state.bucket == Some(s.bucket.value.(objects := s.bucket.value.objects + [BucketObject(now, ActiveKey(targetType), bundleValue, Some("text/plain"))]))
    ensures r.state == s.(bucket := r.state.bucket)
  {
    PutS3BucketObjectStep(s, ActiveKey(targetType), bundleValue, Some("text/plain"), now)
  }

  /** What `Download` writes: a file named after the bundle. */
  datatype DownloadedFile = DownloadedFile(fileName: string, content: string)

  /** `Download` (internal/bundler.go:249-272) up to the file write: the
      bundle the fleet's pointer names, read from under the bundle prefix. */
  function DownloadOf(s: TestingState, c: Config.Config, targetType: Deployment.TargetType): (r: Result<DownloadedFile>)
    ensures ActiveBundleOf(s, c, targetType).Err? ==> r == Err(ActiveBundleOf(s, c, targetType).error)
    ensures r.Ok? ==>
      && ActiveBundleOf(s, c, targetType) == Ok(r.value.fileName)
      && GetS3BucketObject(s, c.bundleBucket, BundleKey(r.value.fileName)) == Ok(r.value.content)
  {
    match ActiveBundleOf(s, c, targetType)
    case Err(e) => Err(e)
    case Ok(name) =>
      match GetS3BucketObject(s, c.bundleBucket, BundleKey(name))
      case Err(e) => Err(e)
      case Ok(content) => Ok(DownloadedFile(name, content))
  }

  // ---------------------------------------------------------------------
  // ListBundles.

  /** `getActiveBundleOrNil` (internal/bundler.go:98-108): a missing pointer
      ("NoSuchKey") is no pointer; every other error is an error. */
  function ActivePointer(s: TestingState, c: Config.Config, targetType: Deployment.TargetType): (r: Result<Option<string>>)
    ensures ActiveBundleOf(s, c, targetType).Ok? ==> r == Ok(Some(ActiveBundleOf(s, c, targetType).value))
    ensures r == Ok(None) <==>
      ActiveBundleOf(s, c, targetType).Err? && ApiCode(ActiveBundleOf(s, c, targetType).error) == Some("NoSuchKey")
    ensures r.Err? <==>
      ActiveBundleOf(s, c, targetType).Err? && ApiCode(ActiveBundleOf(s, c, targetType).error) != Some("NoSuchKey")
  {
    match ActiveBundleOf(s, c, targetType)
    case Ok(value) => Ok(Some(value))
    case Err(e) => if ApiCode(e) == Some("NoSuchKey") then Ok(None) else Err(e)
  }

  /** `strings.Join`. */
  function Join(parts: seq<string>, sep: string): string
  {
    if |parts| == 0 then ""
    else if |parts| == 1 then parts[0]
    else parts[0] + sep + Join(parts[1..], sep)
  }

  predicate Runs(key: string, pointer: Option<string>)
  {
    pointer.Some? && GoStrings.Contains(key, pointer.value)
  }

  /** The status column (internal/bundler.go:127-137): which fleets' pointer
      values occur in the key, blue before green. */
  function BundleStatus(key: string, blue: Option<string>, green: Option<string>): (r: string)
    ensures Runs(key, blue) && Runs(key, green) ==> r == "active:[blue, green]"
    ensures Runs(key, blue) && !Runs(key, green) ==> r == "active:[blue]"
    ensures !Runs(key, blue) && Runs(key, green) ==> r == "active:[green]"
    ensures !Runs(key, blue) && !Runs(key, green) ==> r == ""
  {
    var targets := (if Runs(key, blue) then ["blue"] else []) + (if Runs(key, green) then ["green"] else []);
    assert |targets| == 2 ==> targets == ["blue", "green"] && Join(targets[1..], ", ") == "green";
    if |targets| > 0 then "active:[" + Join(targets, ", ") + "]" else ""
  }

  /** `BundleListItem`, with the time and the zone it is shown in instead
      of the formatted text. */
  datatype BundleListItem = BundleListItem(
    number: nat,
    lastModified: int,
    location: Config.Location,
    bundleName: string,
    status: string)

  function Row(i: nat, o: S3Object, location: Config.Location, blue: Option<string>, green: Option<string>): BundleListItem
  {
    BundleListItem(i + 1, o.lastModified, location, GoStrings.ReplaceFirst(o.key, BundlePrefix, ""), BundleStatus(o.key, blue, green))
  }

  /** The name a listing row shows for an uploaded bundle is the name it
      was registered under. */
  lemma BundleNameOfKey(bundleName: string)
    ensures GoStrings.ReplaceFirst(BundleKey(bundleName), BundlePrefix, "") == bundleName
  {
    assert GoStrings.HasPrefix(BundleKey(bundleName), BundlePrefix);
    assert BundleKey(bundleName)[|BundlePrefix|..] == bundleName;
  }

  /** The rows of a listing, numbered from 1. */
  function RowsOf(objects: seq<S3Object>, location: Config.Location, blue: Option<string>, green: Option<string>): (r: seq<BundleListItem>)
    ensures |r| == |objects|
    ensures forall i :: 0 <= i < |r| ==> r[i] == Row(i, objects[i], location, blue, green)
  {
    if objects == [] then []
    else
      var n := |objects| - 1;
      assert objects[..n] + [objects[n]] == objects;
      RowsOf(objects[..n], location, blue, green) + [Row(n, objects[n], location, blue, green)]
  }

  /** One more object adds its row at the end. */
  lemma RowsOfSnoc(objects: seq<S3Object>, i: nat, location: Config.Location, blue: Option<string>, green: Option<string>)
    requires i < |objects|
    ensures RowsOf(objects[..i + 1], location, blue, green) ==
      RowsOf(objects[..i], location, blue, green) + [Row(i, objects[i], location, blue, green)]
  {
    assert objects[..i + 1][..i] == objects[..i];
  }

  /** `ListBundles` (internal/bundler.go:97-159) up to the rendering: the
      blue pointer, the green pointer and the newest-first listing are read
      in that order, the first error ending it, and each bundle becomes a
      row numbered from 1 in the zone `location`. */
  function ListingOf(s: TestingState, c: Config.Config, location: Config.Location): (r: Result<seq<BundleListItem>>)
    ensures r.Ok? <==>
      ActivePointer(s, c, Deployment.BlueTargetType).Ok? && ActivePointer(s, c, Deployment.GreenTargetType).Ok? &&
      ListBundleObjectsOf(s, c).Ok?
    ensures r.Ok? ==>
      var objects := ListBundleObjectsOf(s, c).value;
      && |r.value| == |objects|
      && forall i :: 0 <= i < |r.value| ==>
        && r.value[i].number == i + 1
        && r.value[i].lastModified == objects[i].lastModified
        && r.value[i].location == location
        && (GoStrings.HasPrefix(objects[i].key, BundlePrefix) ==> r.value[i].bundleName == objects[i].key[|BundlePrefix|..])
        && GoStrings.Contains(objects[i].key, BundlePrefix)
        && r.value[i].bundleName == GoStrings.ReplaceFirst(objects[i].key, BundlePrefix, "")
        && r.value[i].status == BundleStatus(objects[i].key,
             ActivePointer(s, c, Deployment.BlueTargetType).value, ActivePointer(s, c, Deployment.GreenTargetType).value)
    ensures r.Ok? ==> forall i, j :: 0 <= i < j < |r.value| ==> r.value[i].lastModified >= r.value[j].lastModified
  {
    match ActivePointer(s, c, Deployment.BlueTargetType)
    case Err(e) => Err(e)
    case Ok(blue) =>
      match ActivePointer(s, c, Deployment.GreenTargetType)
      case Err(e) => Err(e)
      case Ok(green) =>
        match ListBundleObjectsOf(s, c)
        case Err(e) => Err(e)
        case Ok(objects) =>
          Ok(RowsOf(objects, location, blue, green))
  }

  /** The zone `CurrentLocation` hands out: the cached one, or the
      configured one when nothing is cached yet. */
  function RowLocation(cached: Option<Config.Location>, tz: Config.TimeZone): Config.Location
  {
    if cached.Some? then cached.value else Config.FixedZone(tz.location, tz.offset)
  }

  // ---------------------------------------------------------------------
  // The bundler.

  class Bundler {
    const config: Config.Config
    const gw: MockAwsClient

    /** `NewBundler`. */
    constructor (config: Config.Config, gw: MockAwsClient)
      ensures this.config == config && this.gw == gw
    {
      this.config := config;
      this.gw := gw;
    }

    /** `listBundles`. */
    method ListBundleObjects() returns (r: Result<seq<S3Object>>)
      ensures r == ListBundleObjectsOf(gw.State(), config)
    {
      var listed := ListS3BucketObjects(gw.State(), config.bundleBucket, BundlePrefix);
      if listed.Err? {
        return Err(listed.error);
      }
      return Ok(SortNewestFirst(listed.value));
    }

    /** `createBucketIfNotExsists`. */
    method CreateBucketIfNotExists() returns (err: Option<Error>)
      modifies gw
      ensures Step(gw.State(), err) == BootstrapStep(old(gw.State()), config)
    {
      var head := HeadS3Bucket(gw.State(), config.bundleBucket);
      if head.Some? && ApiCode(head.value) == Some("NotFound") {
        err := gw.CreateS3Bucket(config.bundleBucket, Region);
        if err.Some? {
          return;
        }
        err := gw.EnableS3BucketVersioning(config.bundleBucket);
        if err.Some? {
          return;
        }
        err := gw.MakeS3BucketAclPrivate(config.bundleBucket);
        if err.Some? {
          return;
        }
        err := gw.DisableS3BucketPublicAccess(config.bundleBucket);
        if err.Some? {
          return;
        }
      }
      return None;
    }

    /** One turn of the deletion loop of `removeOldBundlesIfNeed`: the
        object at position `i` is deleted when it is past the newest
        `MaxKeepBundles - 1`. */
    method DeleteIfOld(objects: seq<S3Object>, i: nat) returns (err: Option<Error>)
      requires i < |objects| && gw.bucket.Some?
      modifies gw
      ensures err.Some? ==> Step(gw.State(), err) == DeleteFrom(old(gw.State()), config, objects, i)
      ensures err.None? ==> gw.bucket.Some?
      ensures err.None? ==> DeleteFrom(gw.State(), config, objects, i + 1) == DeleteFrom(old(gw.State()), config, objects, i)
    {
      ghost var before := gw.State();
      if i >= MaxKeepBundles - 1 {
        err := gw.DeleteS3BucketObject(config.bundleBucket, objects[i].key);
        DeleteFromDeletes(before, config, objects, i, Step(gw.State(), err));
      } else {
        DeleteFromSkips(before, config, objects, i);
        err := None;
      }
    }

    /** `removeOldBundlesIfNeed`. */
    method RemoveOldBundlesIfNeed() returns (err: Option<Error>)
      modifies gw
      ensures Step(gw.State(), err) == RemoveOldStep(old(gw.State()), config)
    {
      var listed := ListBundleObjects();
      if listed.Err? {
        return Some(listed.error);
      }
      var objects := listed.value;
      ghost var goal := DeleteFrom(gw.State(), config, objects, 0);
      assert goal == RemoveOldStep(old(gw.State()), config);
      for i := 0 to |objects|
        invariant i < |objects| ==> gw.bucket.Some?
        invariant DeleteFrom(gw.State(), config, objects, i) == goal
      {
        err := DeleteIfOld(objects, i);
        if err.Some? {
          return;
        }
      }
      return None;
    }

    method Register(upload: Option<string>, bundleName: string, now: int) returns (err: Option<Error>)
      modifies gw
      ensures Step(gw.State(), err) == RegisterStep(old(gw.State()), config, upload, bundleName, now)
    {
      err := CreateBucketIfNotExists();
      if err.Some? {
        return;
      }
      err := RemoveOldBundlesIfNeed();
      if err.Some? {
        return;
      }
      if upload.None? {
        return Some(Failure(BundleFileMissing));
      }
      err := gw.PutS3BucketObject(BundleKey(bundleName), upload.value, None, now);
    }

    method GetActiveBundle(targetType: Deployment.TargetType) returns (r: Result<string>)
      ensures r == ActiveBundleOf(gw.State(), config, targetType)
    {
      r := GetS3BucketObject(gw.State(), config.bundleBucket, ActiveKey(targetType));
    }

    method Activate(targetType: Deployment.TargetType, bundleValue: string, now: int) returns (err: Option<Error>)
      modifies gw
      ensures Step(gw.State(), err) == ActivateStep(old(gw.State()), config, targetType, bundleValue, now)
    {
      err := gw.PutS3BucketObject(ActiveKey(targetType), bundleValue, Some("text/plain"), now);
    }

    method Download(targetType: Deployment.TargetType) returns (r: Result<DownloadedFile>)
      ensures r == DownloadOf(gw.State(), config, targetType)
    {
      var bundle := GetActiveBundle(targetType);
      if bundle.Err? {
        return Err(bundle.error);
      }
      var output := GetS3BucketObject(gw.State(), config.bundleBucket, BundleKey(bundle.value));
      if output.Err? {
        return Err(output.error);
      }
      return Ok(DownloadedFile(bundle.value, output.value));
    }

    /** `getActiveBundleOrNil`. */
    method ActiveBundleOrNone(targetType: Deployment.TargetType) returns (r: Result<Option<string>>)
      ensures r == ActivePointer(gw.State(), config, targetType)
    {
      var bundle := GetActiveBundle(targetType);
      if bundle.Err? {
        if ApiCode(bundle.error) == Some("NoSuchKey") {
          return Ok(None);
        }
        return Err(bundle.error);
      }
      return Ok(Some(bundle.value));
    }

    /** The row loop of `ListBundles` (internal/bundler.go:125-148); every
        row asks `cache` for the zone. */
    method Rows(cache: Config.LocationCache, objects: seq<S3Object>, blue: Option<string>, green: Option<string>)
      returns (bundles: seq<BundleListItem>)
      requires Config.Valid(config)
      modifies cache
      ensures bundles == RowsOf(objects, RowLocation(old(cache.location), config.timeZone.value), blue, green)
      ensures objects != [] ==> cache.location == Some(RowLocation(old(cache.location), config.timeZone.value))
      ensures objects == [] ==> cache.location == old(cache.location)
    {
      ghost var location := RowLocation(cache.location, config.timeZone.value);
      bundles := [];
      for i := 0 to |objects|
        invariant bundles == RowsOf(objects[..i], location, blue, green)
        invariant i == 0 ==> cache.location == old(cache.location)
        invariant i > 0 ==> cache.location == Some(location)
      {
        var rowLocation := cache.CurrentLocation(config.timeZone.value);
        assert rowLocation == location;
        var status := BundleStatus(objects[i].key, blue, green);
        var bundleName := GoStrings.ReplaceFirst(objects[i].key, BundlePrefix, "");
        var item := BundleListItem(i + 1, objects[i].lastModified, rowLocation, bundleName, status);
        RowsOfSnoc(objects, i, location, blue, green);
        bundles := bundles + [item];
      }
      assert objects[..|objects|] == objects;
    }

    /** `ListBundles`. */
    method ListBundles(cache: Config.LocationCache) returns (r: Result<seq<BundleListItem>>)
      requires Config.Valid(config)
      modifies cache
      ensures r == ListingOf(gw.State(), config, RowLocation(old(cache.location), config.timeZone.value))
      ensures r.Ok? && r.value != [] ==> cache.location == Some(RowLocation(old(cache.location), config.timeZone.value))
    {
      var blue := ActiveBundleOrNone(Deployment.BlueTargetType);
      if blue.Err? {
        return Err(blue.error);
      }
      var green := ActiveBundleOrNone(Deployment.GreenTargetType);
      if green.Err? {
        return Err(green.error);
      }
      var listed := ListBundleObjects();
      if listed.Err? {
        return Err(listed.error);
      }
      var bundles := Rows(cache, listed.value, blue.value, green.value);
      return Ok(bundles);
    }
  }
}
