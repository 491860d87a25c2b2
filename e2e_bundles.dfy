/** The bundle scenarios of the end-to-end tests (test/e2e_test.go:25-64)
    against the in-memory fake: a first registration sets the bucket up, a
    hundred and one registrations of the same bundle leave exactly
    `MaxKeepBundles` objects, and a registered and activated bundle is
    listed as active on both fleets and downloaded back.

    The fake's clock is a parameter: every registration is given the time
    it stamps on its object. */
module BundleScenarios {
  import opened Wrappers
  import opened Aws
  import opened MockAws
  import GoStrings
  import Config
  import Deployment
  import opened Bundling

  /** `NewTestingState`: no bucket, no groups and a provider that refuses
      nothing; the load balancer plays no part in the bundle tests. */
  function FreshState(lb: LoadBalancer): TestingState
  {
    TestingState(None, lb, [], map[])
  }

  /** The bundle name the tests register. */
  const TestBundle := "bundle.zip"

  /** The configured bucket, set up by the bootstrap, holding `q` objects
      all stored under `key`, with a provider that refuses nothing. */
  predicate Stocked(t: TestingState, c: Config.Config, key: string, q: nat)
  {
    && t.failures == map[]
    && t.bucket.Some?
    && t.bucket.value.(objects := []) == Bucket(c.bundleBucket, true, true, true, [])
    && |t.bucket.value.objects| == q
    && AllStoredUnder(t.bucket.value.objects, key)
  }

  predicate AllStoredUnder(objects: seq<BucketObject>, key: string)
  {
    forall o :: o in objects ==> o.key == key
  }

  predicate AllListedUnder(objects: seq<S3Object>, key: string)
  {
    forall o :: o in objects ==> o.key == key
  }

  // ---------------------------------------------------------------------
  // Keys that do not contain one another.

  /** A key shorter than `sub`, or as long and different, does not contain it. */
  lemma TooShortToContain(s: string, sub: string)
    requires |s| < |sub| || (|s| == |sub| && s != sub)
    ensures !GoStrings.Contains(s, sub)
  {
  }

  /** A key lacking one of the characters of `sub` does not contain it. */
  lemma MissingCharacter(s: string, sub: string, k: nat)
    requires k < |sub| && sub[k] !in s
    ensures !GoStrings.Contains(s, sub)
  {
  }

  // ---------------------------------------------------------------------
  // One registration of a bundle the bucket already holds copies of.

  /** `Filter` keeps a sequence whose every element passes. */
  lemma {:induction false} FilterKeepsAll<T>(items: seq<T>, cond: T -> bool)
    requires forall i :: 0 <= i < |items| ==> cond(items[i])
    ensures Filter(items, cond) == items
  {
    if |items| > 0 {
      var n := |items| - 1;
      FilterKeepsAll(items[..n], cond);
      assert items[..n] + [items[n]] == items;
    }
  }

  /** The listing of a stocked bucket: `q` objects, all under `key`. */
  lemma ListingOfStock(t: TestingState, c: Config.Config, key: string, q: nat)
    requires Stocked(t, c, key, q)
    requires GoStrings.Contains(key, BundlePrefix)
    ensures ListBundleObjectsOf(t, c).Ok?
    ensures |ListBundleObjectsOf(t, c).value| == q
    ensures forall o :: o in ListBundleObjectsOf(t, c).value ==> o.key == key
  {
    var objects := t.bucket.value.objects;
    FilterKeepsAll(objects, KeyContains(BundlePrefix));
    var listed := Listing(objects);
    var sorted := ListBundleObjectsOf(t, c).value;
    assert multiset(sorted) == multiset(listed);
    assert |sorted| == |multiset(listed)| == q;
    forall o | o in sorted
      ensures o.key == key
    {
      assert o in multiset(listed);
      var i :| 0 <= i < |listed| && listed[i] == o;
      assert objects[i] in objects;
    }
  }

  /** Deleting `key` from a stocked bucket drops exactly one object: the
      fake keeps the objects whose key contains `key`, which are all of
      them, and takes out the first one. */
  lemma DeleteFromStock(t: TestingState, c: Config.Config, key: string, q: nat)
    requires Stocked(t, c, key, q) && q > 0
    ensures DeleteS3BucketObjectStep(t, c.bundleBucket, key).err.None?
    ensures Stocked(DeleteS3BucketObjectStep(t, c.bundleBucket, key).state, c, key, q - 1)
  {
    var objects := t.bucket.value.objects;
    GoStrings.ContainsSlice(key, 0, |key|);
    assert key[0..|key|] == key;
    FilterKeepsAll(objects, KeyContains(key));
    assert objects[0] in objects;
    assert FirstIndex(objects, KeyIs(key)) == Some(0);
    var left := FastDelete(objects, KeyIs(key));
    forall o | o in left
      ensures o.key == key
    {
      assert o in multiset(left);
    }
  }

  /** The deletions from position `i` of a listing of `|objects|` copies of
      `key` leave `MaxKeepBundles - 1` of them, or all when there are fewer. */
  lemma {:induction false} DeleteFromTrims(t: TestingState, c: Config.Config, key: string, objects: seq<S3Object>, i: nat)
    requires i <= |objects|
    requires AllListedUnder(objects, key)
    requires Stocked(t, c, key, Remaining(|objects|, i))
    ensures TrimmedTo(DeleteFrom(t, c, objects, i), c, key, Remaining(|objects|, |objects|))
    decreases |objects| - i
  {
    if i == |objects| {
      TrimDone(t, c, key, objects);
    } else {
      var next := NextOfStock(t, c, key, objects, i);
      DeleteFromTrims(next, c, key, objects, i + 1);
    }
  }

  /** At the end of the listing nothing is left to delete. */
  lemma TrimDone(t: TestingState, c: Config.Config, key: string, objects: seq<S3Object>)
    requires Stocked(t, c, key, Remaining(|objects|, |objects|))
    ensures TrimmedTo(DeleteFrom(t, c, objects, |objects|), c, key, Remaining(|objects|, |objects|))
  {
  }

  /** One turn of the loop: a newer copy is passed over, an older one
      deleted; the loop goes on from the state that turn leaves. */
  lemma NextOfStock(t: TestingState, c: Config.Config, key: string, objects: seq<S3Object>, i: nat) returns (next: TestingState)
    requires i < |objects|
    requires AllListedUnder(objects, key)
    requires Stocked(t, c, key, Remaining(|objects|, i))
    ensures Stocked(next, c, key, Remaining(|objects|, i + 1))
    ensures DeleteFrom(t, c, objects, i) == DeleteFrom(next, c, objects, i + 1)
  {
    if i < MaxKeepBundles - 1 {
      DeleteFromSkips(t, c, objects, i);
      next := t;
    } else {
      next := DeleteOneOfStock(t, c, key, objects, i);
    }
  }

  /** The loop succeeded and left `q` copies of `key`. */
  predicate TrimmedTo(r: Step, c: Config.Config, key: string, q: nat)
  {
    r.err.None? && Stocked(r.state, c, key, q)
  }

  /** One deletion of the loop: one copy fewer, and the loop goes on from
      the state it leaves. */
  lemma DeleteOneOfStock(t: TestingState, c: Config.Config, key: string, objects: seq<S3Object>, i: nat) returns (next: TestingState)
    requires MaxKeepBundles - 1 <= i < |objects|
    requires AllListedUnder(objects, key)
    requires Stocked(t, c, key, Remaining(|objects|, i))
    ensures Stocked(next, c, key, Remaining(|objects|, i + 1))
    ensures DeleteFrom(t, c, objects, i) == DeleteFrom(next, c, objects, i + 1)
  {
    assert objects[i] in objects;
    var d := DeleteS3BucketObjectStep(t, c.bundleBucket, key);
    DeleteFromStock(t, c, key, Remaining(|objects|, i));
    DeleteFromDeletes(t, c, objects, i, d);
    next := d.state;
  }

  /** How many of `n` listed copies are left once the deletion loop has
      reached position `i`. */
  function Remaining(n: nat, i: nat): nat
    requires i <= n
  {
    if i <= MaxKeepBundles - 1 then n else n - (i - (MaxKeepBundles - 1))
  }

  /** `removeOldBundlesIfNeed` on a stocked bucket leaves `MaxKeepBundles - 1`
      copies, or all when there are fewer. */
  lemma TrimStock(t: TestingState, c: Config.Config, key: string, q: nat)
    requires Stocked(t, c, key, q)
    requires GoStrings.Contains(key, BundlePrefix)
    ensures TrimmedTo(RemoveOldStep(t, c), c, key, if q < MaxKeepBundles - 1 then q else MaxKeepBundles - 1)
  {
    ListingOfStock(t, c, key, q);
    var objects := ListBundleObjectsOf(t, c).value;
    DeleteFromTrims(t, c, key, objects, 0);
  }

  /** One `Register` of `bundleName` on a bucket holding `q` copies of it,
      or on no bucket at all (`q` then being 0): it succeeds and leaves
      `q + 1` copies, capped at `MaxKeepBundles`. */
  lemma RegisterOnStock(t: TestingState, c: Config.Config, content: string, bundleName: string, now: int, q: nat)
    requires Stocked(t, c, BundleKey(bundleName), q) || (t.bucket.None? && t.failures == map[] && q == 0)
    ensures RegisterStep(t, c, Some(content), bundleName, now).err.None?
    ensures Stocked(RegisterStep(t, c, Some(content), bundleName, now).state, c, BundleKey(bundleName),
      if q < MaxKeepBundles then q + 1 else MaxKeepBundles)
  {
    var key := BundleKey(bundleName);
    var b := BootstrapStep(t, c);
    assert b.err.None?;
    if t.bucket.None? {
      assert BucketMissing(t, c);
    }
    assert Stocked(b.state, c, key, q);
    GoStrings.ContainsPrefix(BundlePrefix, bundleName);
    TrimStock(b.state, c, key, q);
  }

  // ---------------------------------------------------------------------
  // BundleRegister#IfNoBucket (test/e2e_test.go:25-34).

  /** The first registration creates the bucket with versioning, a private
      ACL and the public access block, and stores the bundle in it. */
  lemma RegisterIfNoBucket(lb: LoadBalancer, c: Config.Config, content: string, bundleName: string, now: int)
    ensures var r := RegisterStep(FreshState(lb), c, Some(content), bundleName, now);
      && r.err.None?
      && r.state.bucket.Some?
      && r.state.bucket.value.name == c.bundleBucket
      && r.state.bucket.value.publicAccessDisabled
      && r.state.bucket.value.versioningEnabled
      && r.state.bucket.value.aclPrivate
      && r.state.bucket.value.objects == [BucketObject(now, BundleKey(bundleName), content, None)]
  {
    RegisterOnStock(FreshState(lb), c, content, bundleName, now, 0);
  }

  // ---------------------------------------------------------------------
  // BundleRegister#101Cycle (test/e2e_test.go:36-43).

  /** `Register` called once for each of `times`, each call stamping its
      object with its own time, up to the first failure. */
  function RegisterEach(s: TestingState, c: Config.Config, content: string, bundleName: string, times: seq<int>): (r: Step)
    ensures times == [] ==> r == Step(s, None)
    decreases |times|
  {
    if times == [] then Step(s, None)
    else
      var first := RegisterStep(s, c, Some(content), bundleName, times[0]);
      if first.err.Some? then first else RegisterEach(first.state, c, content, bundleName, times[1..])
  }

  /** Every registration succeeds, and the copies grow by one per
      registration until `MaxKeepBundles` and stay there. */
  lemma {:induction false} RegisterEachCaps(t: TestingState, c: Config.Config, content: string, bundleName: string, times: seq<int>, q: nat)
    requires q <= MaxKeepBundles
    requires Stocked(t, c, BundleKey(bundleName), q) || (t.bucket.None? && t.failures == map[] && q == 0 && times != [])
    ensures RegisterEach(t, c, content, bundleName, times).err.None?
    ensures Stocked(RegisterEach(t, c, content, bundleName, times).state, c, BundleKey(bundleName),
      if q + |times| < MaxKeepBundles then q + |times| else MaxKeepBundles)
    decreases |times|
  {
    if times != [] {
      RegisterOnStock(t, c, content, bundleName, times[0], q);
      var first := RegisterStep(t, c, Some(content), bundleName, times[0]);
      RegisterEachCaps(first.state, c, content, bundleName, times[1..], if q < MaxKeepBundles then q + 1 else MaxKeepBundles);
    }
  }

  /** A hundred and one registrations of the same bundle on a fresh state
      all succeed and leave exactly `MaxKeepBundles` objects. */
  lemma Register101Cycle(lb: LoadBalancer, c: Config.Config, content: string, times: seq<int>)
    requires |times| == 101
    ensures var r := RegisterEach(FreshState(lb), c, content, TestBundle, times);
      && r.err.None?
      && r.state.bucket.Some?
      && |r.state.bucket.value.objects| == MaxKeepBundles
  {
    RegisterEachCaps(FreshState(lb), c, content, TestBundle, times, 0);
  }

  // ---------------------------------------------------------------------
  // BundleRegister#ActivationAndDownload (test/e2e_test.go:45-64).

  /** The bucket after the bundle `bundleName` was registered and activated
      on blue and then on green. */
  function ActivatedBucket(c: Config.Config, content: string, bundleName: string, registered: int, blueAt: int, greenAt: int): Bucket
  {
    Bucket(c.bundleBucket, true, true, true, [
      BucketObject(registered, BundleKey(bundleName), content, None),
      BucketObject(blueAt, ActiveKey(Deployment.BlueTargetType), bundleName, Some("text/plain")),
      BucketObject(greenAt, ActiveKey(Deployment.GreenTargetType), bundleName, Some("text/plain"))])
  }

  /** Registering on a fresh state and activating the bundle on both fleets
      succeeds and leaves the bundle and one pointer per fleet. */
  lemma ActivateBoth(lb: LoadBalancer, c: Config.Config, content: string, bundleName: string, registered: int, blueAt: int, greenAt: int)
    ensures var r := RegisterStep(FreshState(lb), c, Some(content), bundleName, registered);
      var blue := ActivateStep(r.state, c, Deployment.BlueTargetType, bundleName, blueAt);
      var green := ActivateStep(blue.state, c, Deployment.GreenTargetType, bundleName, greenAt);
      && r.err.None? && blue.err.None? && green.err.None?
      && green.state == FreshState(lb).(bucket := Some(ActivatedBucket(c, content, bundleName, registered, blueAt, greenAt)))
  {
    var r := RegisterStep(FreshState(lb), c, Some(content), bundleName, registered);
    RegisterIfNoBucket(lb, c, content, bundleName, registered);
    var bundle := BucketObject(registered, BundleKey(bundleName), content, None);
    var blueObject := BucketObject(blueAt, ActiveKey(Deployment.BlueTargetType), bundleName, Some("text/plain"));
    var greenObject := BucketObject(greenAt, ActiveKey(Deployment.GreenTargetType), bundleName, Some("text/plain"));
    var s1 := FreshState(lb).(bucket := Some(Bucket(c.bundleBucket, true, true, true, [bundle])));
    assert r.state == s1;
    ActivateOn(s1, c, Deployment.BlueTargetType, bundleName, blueAt);
    var s2 := FreshState(lb).(bucket := Some(Bucket(c.bundleBucket, true, true, true, [bundle, blueObject])));
    assert [bundle] + [blueObject] == [bundle, blueObject];
    ActivateOn(s2, c, Deployment.GreenTargetType, bundleName, greenAt);
    assert [bundle, blueObject] + [greenObject] == [bundle, blueObject, greenObject];
  }

  /** `Activate` on a bucket, with a provider that refuses nothing, appends
      the pointer. */
  lemma ActivateOn(s: TestingState, c: Config.Config, targetType: Deployment.TargetType, bundleName: string, now: int)
    requires s.failures == map[] && s.bucket.Some?
    ensures ActivateStep(s, c, targetType, bundleName, now) == Step(s.(bucket := Some(s.bucket.value.(objects :=
      s.bucket.value.objects + [BucketObject(now, ActiveKey(targetType), bundleName, Some("text/plain"))]))), None)
  {
  }

  /** The first object whose key contains `key` is the one at `k`. */
  lemma ReadAt(s: TestingState, bucket: string, key: string, k: nat)
    requires s.failures == map[]
    requires s.bucket.Some? && s.bucket.value.name == bucket
    requires k < |s.bucket.value.objects| && s.bucket.value.objects[k].key == key
    requires forall j :: 0 <= j < k ==> !GoStrings.Contains(s.bucket.value.objects[j].key, key)
    ensures GetS3BucketObject(s, bucket, key) == Ok(s.bucket.value.objects[k].value)
  {
    var objects := s.bucket.value.objects;
    FirstContainingAt(objects, key, k);
    assert Fault(s, GetObject(key)).None?;
  }

  /** The first object whose key contains `key`, by position. */
  lemma FirstContainingAt(objects: seq<BucketObject>, key: string, k: nat)
    requires k < |objects| && objects[k].key == key
    requires forall j :: 0 <= j < k ==> !GoStrings.Contains(objects[j].key, key)
    ensures FirstIndex(objects, KeyContains(key)) == Some(k)
  {
    GoStrings.ContainsSlice(key, 0, |key|);
    assert key[0..|key|] == key;
    forall j | 0 <= j < k
      ensures !KeyContains(key)(objects[j])
    {
    }
    FirstIndexAt(objects, KeyContains(key), k);
  }

  /** The bundle's key contains neither fleet's pointer key, so a read of a
      pointer does not stop at the bundle. */
  predicate PointersApart(bundleName: string)
  {
    && !GoStrings.Contains(BundleKey(bundleName), ActiveKey(Deployment.BlueTargetType))
    && !GoStrings.Contains(BundleKey(bundleName), ActiveKey(Deployment.GreenTargetType))
  }

  /** The bundle the tests register is such a bundle. */
  lemma TestBundleApart()
    ensures PointersApart(TestBundle)
  {
    assert BundleKey(TestBundle)[0] != ActiveKey(Deployment.BlueTargetType)[0];
    TooShortToContain(BundleKey(TestBundle), ActiveKey(Deployment.BlueTargetType));
    TooShortToContain(BundleKey(TestBundle), ActiveKey(Deployment.GreenTargetType));
  }

  /** Each pointer, and the bundle, is read back from where it was stored. */
  lemma ActivatedReads(s: TestingState, c: Config.Config, content: string, bundleName: string, registered: int, blueAt: int, greenAt: int)
    requires PointersApart(bundleName)
    requires s.failures == map[]
    requires s.bucket == Some(ActivatedBucket(c, content, bundleName, registered, blueAt, greenAt))
    ensures ActiveBundleOf(s, c, Deployment.BlueTargetType) == Ok(bundleName)
    ensures ActiveBundleOf(s, c, Deployment.GreenTargetType) == Ok(bundleName)
    ensures GetS3BucketObject(s, c.bundleBucket, BundleKey(bundleName)) == Ok(content)
  {
    ReadBundle(s, c, content, bundleName, registered, blueAt, greenAt);
    ReadBluePointer(s, c, content, bundleName, registered, blueAt, greenAt);
    ReadGreenPointer(s, c, content, bundleName, registered, blueAt, greenAt);
  }

  lemma ReadBundle(s: TestingState, c: Config.Config, content: string, bundleName: string, registered: int, blueAt: int, greenAt: int)
    requires s.failures == map[]
    requires s.bucket == Some(ActivatedBucket(c, content, bundleName, registered, blueAt, greenAt))
    ensures GetS3BucketObject(s, c.bundleBucket, BundleKey(bundleName)) == Ok(content)
  {
    ReadAt(s, c.bundleBucket, BundleKey(bundleName), 0);
  }

  lemma ReadBluePointer(s: TestingState, c: Config.Config, content: string, bundleName: string, registered: int, blueAt: int, greenAt: int)
    requires PointersApart(bundleName)
    requires s.failures == map[]
    requires s.bucket == Some(ActivatedBucket(c, content, bundleName, registered, blueAt, greenAt))
    ensures ActiveBundleOf(s, c, Deployment.BlueTargetType) == Ok(bundleName)
  {
    ReadAt(s, c.bundleBucket, ActiveKey(Deployment.BlueTargetType), 1);
  }

  lemma ReadGreenPointer(s: TestingState, c: Config.Config, content: string, bundleName: string, registered: int, blueAt: int, greenAt: int)
    requires PointersApart(bundleName)
    requires s.failures == map[]
    requires s.bucket == Some(ActivatedBucket(c, content, bundleName, registered, blueAt, greenAt))
    ensures ActiveBundleOf(s, c, Deployment.GreenTargetType) == Ok(bundleName)
  {
    PointersFarApart();
    ReadAt(s, c.bundleBucket, ActiveKey(Deployment.GreenTargetType), 2);
  }

  /** The blue pointer's key is shorter than the green one's. */
  lemma PointersFarApart()
    ensures !GoStrings.Contains(ActiveKey(Deployment.BlueTargetType), ActiveKey(Deployment.GreenTargetType))
  {
    TooShortToContain(ActiveKey(Deployment.BlueTargetType), ActiveKey(Deployment.GreenTargetType));
  }

  /** A listing that only the first object passes. */
  lemma {:induction false} FilterOnlyFirst<T>(items: seq<T>, cond: T -> bool)
    requires |items| > 0 && cond(items[0])
    requires forall j :: 1 <= j < |items| ==> !cond(items[j])
    ensures Filter(items, cond) == [items[0]]
  {
    var n := |items| - 1;
    if n > 0 {
      FilterOnlyFirst(items[..n], cond);
    } else {
      assert items[..n] == [];
    }
  }

  /** A pointer key has no '/', so it is not under the bundle prefix. */
  lemma PointerNotListed(targetType: Deployment.TargetType)
    requires Deployment.IsFleet(targetType)
    ensures !GoStrings.Contains(ActiveKey(targetType), BundlePrefix)
  {
    assert BundlePrefix[7] == '/';
    MissingCharacter(ActiveKey(targetType), BundlePrefix, 7);
  }

  /** Only the bundle is listed. */
  lemma ActivatedListing(s: TestingState, c: Config.Config, content: string, bundleName: string, registered: int, blueAt: int, greenAt: int)
    requires s.failures == map[]
    requires s.bucket == Some(ActivatedBucket(c, content, bundleName, registered, blueAt, greenAt))
    ensures ListBundleObjectsOf(s, c) == Ok([S3Object(BundleKey(bundleName), registered)])
  {
    var objects := s.bucket.value.objects;
    PointerNotListed(Deployment.BlueTargetType);
    PointerNotListed(Deployment.GreenTargetType);
    GoStrings.ContainsPrefix(BundlePrefix, bundleName);
    assert !KeyContains(BundlePrefix)(objects[1]) && !KeyContains(BundlePrefix)(objects[2]);
    FilterOnlyFirst(objects, KeyContains(BundlePrefix));
    var listed := [S3Object(BundleKey(bundleName), registered)];
    assert Listing([objects[0]]) == listed;
    assert Fault(s, ListObjects(BundlePrefix)).None?;
    assert ListS3BucketObjects(s, c.bundleBucket, BundlePrefix) == Ok(listed);
    var sorted := ListBundleObjectsOf(s, c).value;
    assert multiset(sorted) == multiset(listed);
    assert |sorted| == 1 && sorted[0] in multiset(sorted);
    assert sorted == listed;
  }

  /** The listing of the activated bucket: the bundle, numbered 1 and shown
      as active on both fleets. */
  lemma ActivatedRows(s: TestingState, c: Config.Config, location: Config.Location, content: string, bundleName: string, registered: int, blueAt: int, greenAt: int)
    requires PointersApart(bundleName)
    requires s.failures == map[]
    requires s.bucket == Some(ActivatedBucket(c, content, bundleName, registered, blueAt, greenAt))
    ensures ListingOf(s, c, location) == Ok([BundleListItem(1, registered, location, bundleName, "active:[blue, green]")])
  {
    ActivatedReads(s, c, content, bundleName, registered, blueAt, greenAt);
    ActivatedListing(s, c, content, bundleName, registered, blueAt, greenAt);
    var listed := [S3Object(BundleKey(bundleName), registered)];
    assert ActivePointer(s, c, Deployment.BlueTargetType) == Ok(Some(bundleName));
    assert ActivePointer(s, c, Deployment.GreenTargetType) == Ok(Some(bundleName));
    assert ListingOf(s, c, location) == Ok(RowsOf(listed, location, Some(bundleName), Some(bundleName)));
    BundleRow(bundleName, registered, location);
  }

  /** The row of a bundle both fleets run. */
  lemma BundleRow(bundleName: string, registered: int, location: Config.Location)
    ensures RowsOf([S3Object(BundleKey(bundleName), registered)], location, Some(bundleName), Some(bundleName))
      == [BundleListItem(1, registered, location, bundleName, "active:[blue, green]")]
  {
    var key := BundleKey(bundleName);
    GoStrings.ContainsSlice(key, |BundlePrefix|, |key|);
    assert key[|BundlePrefix|..|key|] == bundleName;
    assert Runs(key, Some(bundleName));
    assert GoStrings.HasPrefix(key, BundlePrefix);
    assert GoStrings.ReplaceFirst(key, BundlePrefix, "") == bundleName;
  }

  /** After registering and activating the bundle on both fleets, the
      listing succeeds with one row, the bundle, numbered 1 and shown as
      active on both fleets, and the blue fleet's download is that bundle. */
  lemma ActivationAndDownload(lb: LoadBalancer, c: Config.Config, location: Config.Location, content: string, registered: int, blueAt: int, greenAt: int)
    ensures var r := RegisterStep(FreshState(lb), c, Some(content), TestBundle, registered);
      var blue := ActivateStep(r.state, c, Deployment.BlueTargetType, TestBundle, blueAt);
      var green := ActivateStep(blue.state, c, Deployment.GreenTargetType, TestBundle, greenAt);
      && ListingOf(green.state, c, location) == Ok([BundleListItem(1, registered, location, TestBundle, "active:[blue, green]")])
      && DownloadOf(green.state, c, Deployment.BlueTargetType) == Ok(DownloadedFile(TestBundle, content))
  {
    TestBundleApart();
    ActivateBoth(lb, c, content, TestBundle, registered, blueAt, greenAt);
    var s := FreshState(lb).(bucket := Some(ActivatedBucket(c, content, TestBundle, registered, blueAt, greenAt)));
    ActivatedRows(s, c, location, content, TestBundle, registered, blueAt, greenAt);
    ActivatedReads(s, c, content, TestBundle, registered, blueAt, greenAt);
  }
}
