/** The retention rule of `Register` (internal/bundler.go:185-199, with
    `MaxKeepBundles` at internal/bundler.go:23): before an upload every
    bundle from position `MaxKeepBundles - 1` of the newest-first listing on
    is deleted, so at most `MaxKeepBundles` bundles are left after it.

    A "bundle" is an object the bundle listing sees, one whose key contains
    "bundles/". The bound is proved against the fake's deletion, which also
    drops every object whose key does not contain the deleted key: the
    argument counts keys, not objects, with the potential
    |bundles| <= (MaxKeepBundles - 1) + |bundles * pending|,
    `pending` being the keys still to be deleted. */
module BundleRetention {
  import opened Wrappers
  import opened Aws
  import opened MockAws
  import GoStrings
  import Config
  import opened Bundling

  /** The keys of stored objects: the keys of their listing. */
  function StoredKeys(objects: seq<BucketObject>): (r: seq<string>)
    ensures |r| == |objects| && forall i :: 0 <= i < |r| ==> r[i] == objects[i].key
  {
    ObjectKeys(Listing(objects))
  }

  function StrContains(sub: string): string -> bool
  {
    (k: string) => GoStrings.Contains(k, sub)
  }

  function StrIs(key: string): string -> bool
  {
    (k: string) => k == key
  }

  /** The keys of the bundles among `objects`, with their multiplicity. */
  function BundleKeys(objects: seq<BucketObject>): multiset<string>
  {
    multiset(Filter(StoredKeys(objects), StrContains(BundlePrefix)))
  }

  function BucketBundles(s: TestingState): multiset<string>
  {
    if s.bucket.Some? then BundleKeys(s.bucket.value.objects) else multiset{}
  }

  // ---------------------------------------------------------------------
  // Keys commute with the fake's list helpers.

  lemma StoredKeysAppend(a: seq<BucketObject>, b: seq<BucketObject>)
    ensures StoredKeys(a + b) == StoredKeys(a) + StoredKeys(b)
  {
  }

  lemma FilterSnoc<T(!new)>(items: seq<T>, cond: T -> bool)
    requires |items| > 0
    ensures var n := |items| - 1;
      Filter(items, cond) == Filter(items[..n], cond) + if cond(items[n]) then [items[n]] else []
  {
  }

  /** Keys commute with `Filter` for a condition that only looks at the key. */
  lemma {:induction false} StoredKeysOfFilterBy(objects: seq<BucketObject>, objectCond: BucketObject -> bool, keyCond: string -> bool)
    requires forall o :: objectCond(o) == keyCond(o.key)
    ensures StoredKeys(Filter(objects, objectCond)) == Filter(StoredKeys(objects), keyCond)
  {
    if |objects| > 0 {
      var n := |objects| - 1;
      var keys := StoredKeys(objects);
      var front := Filter(objects[..n], objectCond);
      var tail := if objectCond(objects[n]) then [objects[n]] else [];
      var keyTail := if keyCond(keys[n]) then [keys[n]] else [];
      assert StoredKeys(front) == Filter(keys[..n], keyCond) by {
        StoredKeysOfFilterBy(objects[..n], objectCond, keyCond);
        assert keys[..n] == StoredKeys(objects[..n]);
      }
      assert StoredKeys(tail) == keyTail by {
        assert keys[n] == objects[n].key;
        assert objectCond(objects[n]) == keyCond(keys[n]);
      }
      assert Filter(objects, objectCond) == front + tail by {
        FilterSnoc(objects, objectCond);
      }
      assert Filter(keys, keyCond) == Filter(keys[..n], keyCond) + keyTail by {
        FilterSnoc(keys, keyCond);
      }
      calc {
        StoredKeys(Filter(objects, objectCond));
        StoredKeys(front + tail);
        { StoredKeysAppend(front, tail); }
        StoredKeys(front) + StoredKeys(tail);
        Filter(keys, keyCond);
      }
    }
  }

  lemma StoredKeysOfFilter(objects: seq<BucketObject>, sub: string)
    ensures StoredKeys(Filter(objects, KeyContains(sub))) == Filter(StoredKeys(objects), StrContains(sub))
  {
    StoredKeysOfFilterBy(objects, KeyContains(sub), StrContains(sub));
  }

  lemma {:induction false} FirstStoredKey(objects: seq<BucketObject>, key: string)
    ensures FirstIndex(objects, KeyIs(key)) == FirstIndex(StoredKeys(objects), StrIs(key))
  {
    if |objects| > 0 {
      FirstStoredKey(objects[1..], key);
      assert StoredKeys(objects)[1..] == StoredKeys(objects[1..]);
    }
  }

  lemma StoredKeysOfFastDelete(objects: seq<BucketObject>, key: string)
    ensures StoredKeys(FastDelete(objects, KeyIs(key))) == FastDelete(StoredKeys(objects), StrIs(key))
  {
    FirstStoredKey(objects, key);
    match FirstIndex(objects, KeyIs(key))
    case None =>
    case Some(k) =>
      FastDeleteAt(objects, KeyIs(key), k);
      FastDeleteAt(StoredKeys(objects), StrIs(key), k);
      StoredKeysOfMoveLast(objects, k);
  }

  /** What `FastDelete` leaves once the first match is known. */
  lemma FastDeleteAt<T>(items: seq<T>, cond: T -> bool, k: nat)
    requires FirstIndex(items, cond) == Some(k)
    ensures FastDelete(items, cond) == items[k := items[|items| - 1]][..|items| - 1]
  {
  }

  lemma StoredKeysOfMoveLast(objects: seq<BucketObject>, k: nat)
    requires k < |objects|
    ensures var n := |objects| - 1;
      StoredKeys(objects[k := objects[n]][..n]) == StoredKeys(objects)[k := StoredKeys(objects)[n]][..n]
  {
  }

  /** The keys the bundle listing reports are the bundle keys. */
  lemma ListedKeys(objects: seq<BucketObject>)
    ensures multiset(ObjectKeys(Listing(Filter(objects, KeyContains(BundlePrefix))))) == BundleKeys(objects)
  {
    var kept := Filter(objects, KeyContains(BundlePrefix));
    StoredKeysOfFilter(objects, BundlePrefix);
    assert ObjectKeys(Listing(kept)) == StoredKeys(kept);
  }

  /** An upload under the bundle prefix adds its key to the bundle keys. */
  lemma AppendBundle(objects: seq<BucketObject>, o: BucketObject)
    requires GoStrings.Contains(o.key, BundlePrefix)
    ensures BundleKeys(objects + [o]) == BundleKeys(objects) + multiset{o.key}
  {
    StoredKeysAppend(objects, [o]);
    var keys := StoredKeys(objects + [o]);
    assert keys[..|objects|] == StoredKeys(objects);
  }

  // ---------------------------------------------------------------------
  // One deletion.

  /** A stronger condition keeps a part of what a weaker one keeps. */
  lemma FilterStronger<T(!new)>(items: seq<T>, strong: T -> bool, weak: T -> bool)
    requires forall x :: strong(x) ==> weak(x)
    ensures multiset(Filter(items, strong)) <= multiset(Filter(items, weak))
  {
    FilterCounts(items, strong);
    FilterCounts(items, weak);
  }

  /** A condition every element satisfies keeps everything. */
  lemma FilterAll<T(!new)>(items: seq<T>, cond: T -> bool)
    requires forall i :: 0 <= i < |items| ==> cond(items[i])
    ensures multiset(Filter(items, cond)) == multiset(items)
  {
    FilterCounts(items, cond);
  }

  /** Deleting a key removes one occurrence of it, if there is one. */
  lemma FastDeleteKey(keys: seq<string>, key: string)
    ensures multiset(FastDelete(keys, StrIs(key))) == multiset(keys) - multiset{key}
  {
    match FirstIndex(keys, StrIs(key))
    case None =>
      assert key !in keys by {
        forall j | 0 <= j < |keys|
          ensures keys[j] != key
        {
          assert !StrIs(key)(keys[j]);
        }
      }
    case Some(k) =>
      assert keys[k] == key;
  }

  /** Every key containing a bundle key is a bundle key. */
  lemma ContainsBundleKey(key: string)
    requires GoStrings.Contains(key, BundlePrefix)
    ensures forall x :: StrContains(key)(x) ==> StrContains(BundlePrefix)(x)
  {
    forall x | StrContains(key)(x)
      ensures StrContains(BundlePrefix)(x)
    {
      GoStrings.ContainsTransitive(x, key, BundlePrefix);
    }
  }

  /** The fake deleting `key`, seen on the bundle keys: what is left is a
      part of the bundle keys (those containing `key`), less one `key`. */
  lemma DeleteOnBundleKeys(objects: seq<BucketObject>, key: string)
    requires GoStrings.Contains(key, BundlePrefix)
    ensures var left := FastDelete(Filter(objects, KeyContains(key)), KeyIs(key));
      var kept := multiset(Filter(StoredKeys(objects), StrContains(key)));
      && kept <= BundleKeys(objects)
      && BundleKeys(left) == kept - multiset{key}
  {
    var filtered := Filter(objects, KeyContains(key));
    var left := FastDelete(filtered, KeyIs(key));
    var kf := Filter(StoredKeys(objects), StrContains(key));
    ContainsBundleKey(key);
    FilterStronger(StoredKeys(objects), StrContains(key), StrContains(BundlePrefix));
    assert StoredKeys(left) == FastDelete(kf, StrIs(key)) by {
      StoredKeysOfFilter(objects, key);
      StoredKeysOfFastDelete(filtered, key);
    }
    var lk := FastDelete(kf, StrIs(key));
    FastDeleteKey(kf, key);
    forall i | 0 <= i < |lk|
      ensures StrContains(BundlePrefix)(lk[i])
    {
      assert lk[i] in multiset(kf);
      var j :| 0 <= j < |kf| && kf[j] == lk[i];
    }
    FilterAll(lk, StrContains(BundlePrefix));
  }

  lemma SubsetCard(a: multiset<string>, b: multiset<string>)
    requires a <= b
    ensures |a| <= |b|
  {
    assert b == a + (b - a);
  }

  /** Dropping part of the bundles drops at most as much from their
      pending part. */
  lemma PendingAfterDrop(bundles: multiset<string>, kept: multiset<string>, pending: multiset<string>)
    requires kept <= bundles
    ensures |bundles| == |kept| + |bundles - kept|
    ensures |bundles * pending| <= |kept * pending| + |bundles - kept|
  {
    var dropped := bundles - kept;
    assert bundles == kept + dropped;
    assert bundles * pending <= (kept * pending) + dropped;
    SubsetCard(bundles * pending, (kept * pending) + dropped);
  }

  lemma DeleteKeptPending(kept: multiset<string>, pending: multiset<string>, key: string)
    requires key in kept && key in pending
    ensures |kept| == |kept - multiset{key}| + 1
    ensures |kept * pending| == |(kept - multiset{key}) * (pending - multiset{key})| + 1
  {
    assert kept == (kept - multiset{key}) + multiset{key};
    assert kept * pending == ((kept - multiset{key}) * (pending - multiset{key})) + multiset{key};
  }

  lemma DeleteUnkept(kept: multiset<string>, pending: multiset<string>, key: string)
    requires key !in kept
    ensures kept - multiset{key} == kept
    ensures kept * (pending - multiset{key}) == kept * pending
  {
  }

  /** The potential survives one deletion of a pending key: whatever the
      deletion drops from the bundle keys, it drops at least as much from
      the left-hand side as from the right. */
  lemma DeletionKeepsBound(bundles: multiset<string>, kept: multiset<string>, pending: multiset<string>, key: string)
    requires kept <= bundles
    requires key in pending
    requires |bundles| <= (MaxKeepBundles - 1) + |bundles * pending|
    ensures |kept - multiset{key}| <= (MaxKeepBundles - 1) + |(kept - multiset{key}) * (pending - multiset{key})|
  {
    PendingAfterDrop(bundles, kept, pending);
    if key in kept {
      DeleteKeptPending(kept, pending, key);
    } else {
      DeleteUnkept(kept, pending, key);
    }
  }

  // ---------------------------------------------------------------------
  // The deletion loop.

  /** The keys the loop has yet to delete once it is at position `i`. */
  function Pending(objects: seq<S3Object>, i: nat): multiset<string>
  {
    var from := if i < MaxKeepBundles - 1 then MaxKeepBundles - 1 else i;
    if from >= |objects| then multiset{} else multiset(ObjectKeys(objects[from..]))
  }

  /** Every listed object is a bundle. */
  predicate AllBundleKeys(objects: seq<S3Object>)
  {
    forall k :: 0 <= k < |objects| ==> GoStrings.Contains(objects[k].key, BundlePrefix)
  }

  /** The bucket's objects once the deletions at positions `i..` of the
      listing `objects` have all gone through: each keeps the objects whose
      key contains the deleted key, less the first with exactly that key. */
  function Pruned(stored: seq<BucketObject>, objects: seq<S3Object>, i: nat): seq<BucketObject>
    decreases |objects| - i
  {
    if i >= |objects| then stored
    else if i < MaxKeepBundles - 1 then Pruned(stored, objects, i + 1)
    else
      var key := objects[i].key;
      Pruned(FastDelete(Filter(stored, KeyContains(key)), KeyIs(key)), objects, i + 1)
  }

  /** The state the deletion loop leaves when it runs cleanly from `i` on. */
  function PrunedState(s: TestingState, objects: seq<S3Object>, i: nat): TestingState
    requires s.bucket.Some?
  {
    s.(bucket := Some(s.bucket.value.(objects := Pruned(s.bucket.value.objects, objects, i))))
  }

  /** Against a provider that refuses nothing, the deletion loop succeeds
      and changes only the bucket's objects, to their pruned form. */
  lemma {:induction false} DeleteFromPrunes(s: TestingState, c: Config.Config, objects: seq<S3Object>, i: nat)
    requires s.failures == map[]
    requires s.bucket.Some? && s.bucket.value.name == c.bundleBucket
    ensures DeleteFrom(s, c, objects, i) == Step(PrunedState(s, objects, i), None)
    decreases |objects| - i
  {
    if i >= |objects| {
      PruneEnd(s, c, objects, i);
    } else {
      var t := PruneAdvance(s, c, objects, i);
      DeleteFromPrunes(t, c, objects, i + 1);
    }
  }

  lemma PruneEnd(s: TestingState, c: Config.Config, objects: seq<S3Object>, i: nat)
    requires i >= |objects| && s.bucket.Some?
    ensures DeleteFrom(s, c, objects, i) == Step(PrunedState(s, objects, i), None)
  {
    var b := s.bucket.value;
    assert Pruned(b.objects, objects, i) == b.objects;
    assert b.(objects := b.objects) == b;
  }

  /** One turn of the loop, run cleanly, and the state it leaves. */
  lemma PruneAdvance(s: TestingState, c: Config.Config, objects: seq<S3Object>, i: nat) returns (t: TestingState)
    requires i < |objects|
    requires s.failures == map[]
    requires s.bucket.Some? && s.bucket.value.name == c.bundleBucket
    ensures t.failures == map[]
    ensures t.bucket.Some? && t.bucket.value.name == c.bundleBucket
    ensures DeleteFrom(s, c, objects, i) == DeleteFrom(t, c, objects, i + 1)
    ensures PrunedState(s, objects, i) == PrunedState(t, objects, i + 1)
  {
    var b := s.bucket.value;
    if i < MaxKeepBundles - 1 {
      DeleteFromSkips(s, c, objects, i);
      assert Pruned(b.objects, objects, i) == Pruned(b.objects, objects, i + 1);
      t := s;
    } else {
      var key := objects[i].key;
      var left := FastDelete(Filter(b.objects, KeyContains(key)), KeyIs(key));
      var d := DeleteS3BucketObjectStep(s, c.bundleBucket, key);
      t := s.(bucket := Some(b.(objects := left)));
      assert d == Step(t, None);
      DeleteFromDeletes(s, c, objects, i, d);
      assert Pruned(b.objects, objects, i) == Pruned(left, objects, i + 1);
    }
  }

  /** The potential at position `i`: the bundles beyond `MaxKeepBundles - 1`
      are all among the keys still to be deleted. */
  predicate Potential(stored: seq<BucketObject>, objects: seq<S3Object>, i: nat)
  {
    |BundleKeys(stored)| <= (MaxKeepBundles - 1) + |BundleKeys(stored) * Pending(objects, i)|
  }

  /** Pruning from position `i` on leaves at most `MaxKeepBundles - 1`
      bundles when the potential holds at `i`. */
  lemma {:induction false} PrunedKeepsBound(stored: seq<BucketObject>, objects: seq<S3Object>, i: nat)
    requires AllBundleKeys(objects)
    requires Potential(stored, objects, i)
    ensures |BundleKeys(Pruned(stored, objects, i))| <= MaxKeepBundles - 1
    decreases |objects| - i, 1
  {
    if i >= |objects| {
      PrunedAtEnd(stored, objects, i);
    } else {
      PruneOnceThenKeepBound(stored, objects, i);
    }
  }

  /** The step of `PrunedKeepsBound`: one turn of pruning, then the rest. */
  lemma {:induction false} PruneOnceThenKeepBound(stored: seq<BucketObject>, objects: seq<S3Object>, i: nat)
    requires i < |objects|
    requires AllBundleKeys(objects)
    requires Potential(stored, objects, i)
    ensures |BundleKeys(Pruned(stored, objects, i))| <= MaxKeepBundles - 1
    decreases |objects| - i, 0
  {
    var left := PruneKeepsPotential(stored, objects, i);
    PrunedKeepsBound(left, objects, i + 1);
  }

  /** Past the end of the listing nothing is pruned and nothing is
      pending, so the potential is the bound. */
  lemma PrunedAtEnd(stored: seq<BucketObject>, objects: seq<S3Object>, i: nat)
    requires i >= |objects|
    requires Potential(stored, objects, i)
    ensures |BundleKeys(Pruned(stored, objects, i))| <= MaxKeepBundles - 1
  {
    assert Pruned(stored, objects, i) == stored;
    assert Pending(objects, i) == multiset{};
    assert BundleKeys(stored) * multiset{} == multiset{};
  }

  /** One turn of pruning keeps the potential, and the rest of the pruning
      runs from the objects it leaves. */
  lemma PruneKeepsPotential(stored: seq<BucketObject>, objects: seq<S3Object>, i: nat) returns (left: seq<BucketObject>)
    requires i < |objects|
    requires AllBundleKeys(objects)
    requires Potential(stored, objects, i)
    ensures Potential(left, objects, i + 1)
    ensures Pruned(stored, objects, i) == Pruned(left, objects, i + 1)
  {
    left := PruneStep(stored, objects, i);
    PotentialStep(stored, objects, i, left);
  }

  /** One turn of pruning: the objects it leaves, and the rest of the
      pruning runs from them. */
  lemma PruneStep(stored: seq<BucketObject>, objects: seq<S3Object>, i: nat) returns (left: seq<BucketObject>)
    requires i < |objects|
    ensures left == if i < MaxKeepBundles - 1 then stored
      else FastDelete(Filter(stored, KeyContains(objects[i].key)), KeyIs(objects[i].key))
    ensures Pruned(stored, objects, i) == Pruned(left, objects, i + 1)
  {
    if i < MaxKeepBundles - 1 {
      left := stored;
    } else {
      left := FastDelete(Filter(stored, KeyContains(objects[i].key)), KeyIs(objects[i].key));
    }
  }

  /** One turn of pruning keeps the potential. */
  lemma PotentialStep(stored: seq<BucketObject>, objects: seq<S3Object>, i: nat, left: seq<BucketObject>)
    requires i < |objects|
    requires AllBundleKeys(objects)
    requires Potential(stored, objects, i)
    requires left == if i < MaxKeepBundles - 1 then stored
      else FastDelete(Filter(stored, KeyContains(objects[i].key)), KeyIs(objects[i].key))
    ensures Potential(left, objects, i + 1)
  {
    if i < MaxKeepBundles - 1 {
      assert Pending(objects, i) == Pending(objects, i + 1);
    } else {
      var key := objects[i].key;
      PendingStep(objects, i);
      DeleteOnBundleKeys(stored, key);
      var kept := multiset(Filter(StoredKeys(stored), StrContains(key)));
      DeletionKeepsBound(BundleKeys(stored), kept, Pending(objects, i), key);
    }
  }

  lemma PendingStep(objects: seq<S3Object>, i: nat)
    requires MaxKeepBundles - 1 <= i < |objects|
    ensures objects[i].key in Pending(objects, i)
    ensures Pending(objects, i) - multiset{objects[i].key} == Pending(objects, i + 1)
  {
    assert objects[i..] == [objects[i]] + objects[i + 1..];
    KeysAppend([objects[i]], objects[i + 1..]);
    assert ObjectKeys([objects[i]]) == [objects[i].key];
  }

  /** At the start of the loop the potential holds: the listing is the
      bundle keys, and the pending keys are a part of it. */
  lemma PotentialAtStart(s: TestingState, c: Config.Config)
    requires s.failures == map[]
    requires s.bucket.Some? && s.bucket.value.name == c.bundleBucket
    ensures ListBundleObjectsOf(s, c).Ok?
    ensures AllBundleKeys(ListBundleObjectsOf(s, c).value)
    ensures Potential(s.bucket.value.objects, ListBundleObjectsOf(s, c).value, 0)
  {
    var objects := ListingIsTheBundles(s, c);
    PendingWithinListing(objects);
  }

  /** The bundle listing holds bundles only, and its keys are the bundle
      keys of the bucket. */
  lemma ListingIsTheBundles(s: TestingState, c: Config.Config) returns (objects: seq<S3Object>)
    requires s.failures == map[]
    requires s.bucket.Some? && s.bucket.value.name == c.bundleBucket
    ensures ListBundleObjectsOf(s, c) == Ok(objects)
    ensures AllBundleKeys(objects)
    ensures multiset(ObjectKeys(objects)) == BundleKeys(s.bucket.value.objects)
  {
    var stored := s.bucket.value.objects;
    var listed := Listing(Filter(stored, KeyContains(BundlePrefix)));
    assert ListS3BucketObjects(s, c.bundleBucket, BundlePrefix) == Ok(listed);
    objects := ListBundleObjectsOf(s, c).value;
    assert multiset(objects) == multiset(listed);
    forall k | 0 <= k < |objects|
      ensures GoStrings.Contains(objects[k].key, BundlePrefix)
    {
      assert objects[k] in multiset(listed);
    }
    KeysOfPermutation(objects, listed);
    ListedKeys(stored);
  }

  /** The keys pending at the start are a part of the listing's keys, and
      all but `MaxKeepBundles - 1` of them. */
  lemma PendingWithinListing(objects: seq<S3Object>)
    ensures var all := multiset(ObjectKeys(objects));
      |all| <= (MaxKeepBundles - 1) + |all * Pending(objects, 0)|
  {
    var all := multiset(ObjectKeys(objects));
    if |objects| > MaxKeepBundles - 1 {
      var head := objects[..MaxKeepBundles - 1];
      var pending := objects[MaxKeepBundles - 1..];
      assert objects == head + pending;
      KeysAppend(head, pending);
      assert all == multiset(ObjectKeys(head)) + Pending(objects, 0);
      assert all * Pending(objects, 0) == Pending(objects, 0);
    } else {
      assert Pending(objects, 0) == multiset{};
      assert |all| == |objects|;
    }
  }

  /** With a provider that refuses nothing and the configured bucket (or
      none yet), `Register` succeeds and leaves at most `MaxKeepBundles`
      bundles in the bucket. */
  lemma RegisterKeepsAtMostMax(s: TestingState, c: Config.Config, content: string, bundleName: string, now: int)
    requires s.failures == map[]
    requires s.bucket.Some? ==> s.bucket.value.name == c.bundleBucket
    ensures var r := RegisterStep(s, c, Some(content), bundleName, now);
      && r.err.None?
      && r.state.bucket.Some? && r.state.bucket.value.name == c.bundleBucket
      && |BucketBundles(r.state)| <= MaxKeepBundles
  {
    var bootstrapped := BootstrapStep(s, c);
    var t := bootstrapped.state;
    assert t.bucket.Some? && t.bucket.value.name == c.bundleBucket && t.failures == map[];
    PotentialAtStart(t, c);
    var objects := ListBundleObjectsOf(t, c).value;
    DeleteFromPrunes(t, c, objects, 0);
    PrunedKeepsBound(t.bucket.value.objects, objects, 0);
    var trimmed := RemoveOldStep(t, c);
    assert trimmed == DeleteFrom(t, c, objects, 0);
    var b := trimmed.state.bucket.value;
    GoStrings.ContainsPrefix(BundlePrefix, bundleName);
    AppendBundle(b.objects, BucketObject(now, BundleKey(bundleName), content, None));
  }
}
