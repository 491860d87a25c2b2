/** The in-memory gateway the end-to-end tests run against
    (test/e2e_awsclient.go over the state of test/e2e_model.go).

    `TestingState` is the whole cloud as the fake sees it. The reads are
    functions of it; every write is a method of `MockAwsClient`, which holds
    that state in its fields and changes it in place, proved equal to the
    write's `...Step` function.

    `failures` lists the calls the provider refuses, each with the API error
    code it answers. The fake itself never refuses a call that way: with
    `failures` empty the model is exactly the fake. It is there so that the
    callers' error paths, which exist for the real provider, are reachable. */
module MockAws {
  import opened Wrappers
  import opened Aws
  import GoStrings
  import Util

  datatype BucketObject = BucketObject(lastModified: int, key: string, value: string, contentType: Option<string>)

  datatype Bucket = Bucket(
    name: string,
    versioningEnabled: bool,
    aclPrivate: bool,
    publicAccessDisabled: bool,
    objects: seq<BucketObject>)

  datatype TargetGroup = TargetGroup(tuple: TargetGroupTuple, name: string, healthStates: seq<HealthState>)

  datatype LoadBalancer = LoadBalancer(
    listenerRuleArn: string,
    targetGroups: seq<TargetGroup>,
    stickiness: Stickiness)

  datatype TestingGroup = TestingGroup(group: AutoScalingGroup, scheduledActions: seq<ScheduledAction>)

  datatype TestingState = TestingState(
    bucket: Option<Bucket>,
    loadBalancer: LoadBalancer,
    groups: seq<TestingGroup>,
    failures: map<Call, string>)

  /** The state after a write, and the error the write returned. */
  datatype Step = Step(state: TestingState, err: Option<Error>)

  /** The fake's error messages, as it formats them. */
  const ObjectNotFound := "Bucket object not found. bucket:"
  const KeySeparator := ", key:"
  const RuleNotFound := "ListenerRule not found. listenerRuleArn:"
  const HealthNotFound := "TargetHealth not found. targetGruopArn:"
  const GroupNotFound := "TargetGroup not found. listenerRuleArn:"
  const AsgNotFound := "AutoScalingGroup not found. name:"
  const BucketExists := "Bucket already exists. bucket:"
  const BucketNotFound := "Bucket not found. bucket:"

  // ---------------------------------------------------------------------
  // List helpers the fake calls (`FirstOrNil`, `Filter`, `FastDelete`).

  /** The position of the first element satisfying `cond`. */
  function FirstIndex<T>(items: seq<T>, cond: T -> bool): (r: Option<nat>)
    ensures r.Some? ==> r.value < |items| && cond(items[r.value])
    ensures r.Some? ==> forall j :: 0 <= j < r.value ==> !cond(items[j])
    ensures r.None? <==> forall j :: 0 <= j < |items| ==> !cond(items[j])
  {
    if |items| == 0 then None
    else if cond(items[0]) then Some(0)
    else
      match FirstIndex(items[1..], cond)
      case None => None
      case Some(k) => Some(k + 1)
  }

  /** `FirstOrNil`: the first element satisfying `cond`. */
  function FirstOrNil<T>(items: seq<T>, cond: T -> bool): Option<T>
  {
    match FirstIndex(items, cond)
    case None => None
    case Some(k) => Some(items[k])
  }

  /** An index where `cond` holds, with no earlier one, is the first index. */
  lemma FirstIndexAt<T>(items: seq<T>, cond: T -> bool, k: nat)
    requires k < |items| && cond(items[k])
    requires forall j :: 0 <= j < k ==> !cond(items[j])
    ensures FirstIndex(items, cond) == Some(k)
  {
  }

  /** `Filter`: the elements satisfying `cond`, in order. */
  function Filter<T>(items: seq<T>, cond: T -> bool): (r: seq<T>)
    ensures forall i :: 0 <= i < |r| ==> cond(r[i])
    ensures |r| <= |items|
  {
    if |items| == 0 then []
    else
      var n := |items| - 1;
      Filter(items[..n], cond) + if cond(items[n]) then [items[n]] else []
  }

  /** `Filter` keeps every element satisfying `cond` as often as it occurs,
      and nothing else. */
  lemma {:induction false} FilterCounts<T(!new)>(items: seq<T>, cond: T -> bool)
    ensures forall x :: multiset(Filter(items, cond))[x] == if cond(x) then multiset(items)[x] else 0
  {
    if |items| > 0 {
      var n := |items| - 1;
      assert items == items[..n] + [items[n]];
      FilterCounts(items[..n], cond);
    }
  }

  /** `FastDelete`: the first element satisfying `cond` is removed by moving
      the last element into its place; the order is not kept. */
  function FastDelete<T(==)>(items: seq<T>, cond: T -> bool): (r: seq<T>)
    ensures FirstIndex(items, cond).None? ==> r == items
    ensures FirstIndex(items, cond).Some? ==>
      |r| == |items| - 1 &&
      multiset(r) == multiset(items) - multiset{items[FirstIndex(items, cond).value]}
  {
    match FirstIndex(items, cond)
    case None => items
    case Some(k) =>
      var n := |items| - 1;
      var r := items[k := items[n]][..n];
      assert items == items[..n] + [items[n]];
      if k == n then r
      else
        assert items[..n] == items[..k] + [items[k]] + items[k + 1..n];
        assert r == items[..k] + [items[n]] + items[k + 1..n];
        r
  }

  // ---------------------------------------------------------------------
  // Predicates the fake's lookups use.

  function KeyContains(sub: string): BucketObject -> bool
  {
    (o: BucketObject) => GoStrings.Contains(o.key, sub)
  }

  function KeyIs(key: string): BucketObject -> bool
  {
    (o: BucketObject) => o.key == key
  }

  function ArnIs(arn: string): TargetGroup -> bool
  {
    (tg: TargetGroup) => tg.tuple.targetGroupArn == arn
  }

  function GroupNamed(name: string): TestingGroup -> bool
  {
    (g: TestingGroup) => g.group.name == name
  }

  function ActionNamed(name: string): ScheduledAction -> bool
  {
    (a: ScheduledAction) => a.name == name
  }

  /** The error the provider answers `call` with, if it refuses it. */
  function Fault(s: TestingState, call: Call): Option<Error>
  {
    if call in s.failures then Some(ApiError(s.failures[call])) else None
  }

  // ---------------------------------------------------------------------
  // Reads.

  function Listing(objects: seq<BucketObject>): (r: seq<S3Object>)
    ensures |r| == |objects|
    ensures forall i :: 0 <= i < |r| ==> r[i] == S3Object(objects[i].key, objects[i].lastModified)
  {
    seq(|objects|, i requires 0 <= i < |objects| => S3Object(objects[i].key, objects[i].lastModified))
  }

  /** `ListS3BucketObjects` (test/e2e_awsclient.go:32-45): the objects whose
      key contains `prefix` anywhere, when the bucket exists under that name;
      an empty listing otherwise. */
  function ListS3BucketObjects(s: TestingState, bucket: string, prefix: string): (r: Result<seq<S3Object>>)
    ensures r.Err? <==> Fault(s, ListObjects(prefix)).Some?
    ensures r.Ok? && (s.bucket.None? || s.bucket.value.name != bucket) ==> r.value == []
    ensures r.Ok? ==> forall o :: o in r.value ==> GoStrings.Contains(o.key, prefix)
    ensures r.Ok? && s.bucket.Some? && s.bucket.value.name == bucket ==>
      r.value == Listing(Filter(s.bucket.value.objects, KeyContains(prefix)))
  {
    if Fault(s, ListObjects(prefix)).Some? then Err(Fault(s, ListObjects(prefix)).value)
    else if s.bucket.Some? && s.bucket.value.name == bucket then
      var kept := Filter(s.bucket.value.objects, KeyContains(prefix));
      Ok(Listing(kept))
    else Ok([])
  }

  /** Nothing is missing from a listing: every stored object whose key
      contains the prefix is listed, and the listing is no longer than the
      bucket. */
  lemma ListingComplete(s: TestingState, bucket: string, prefix: string)
    requires Fault(s, ListObjects(prefix)).None?
    requires s.bucket.Some? && s.bucket.value.name == bucket
    ensures ListS3BucketObjects(s, bucket, prefix).Ok?
    ensures |ListS3BucketObjects(s, bucket, prefix).value| <= |s.bucket.value.objects|
    ensures forall i :: 0 <= i < |s.bucket.value.objects| && GoStrings.Contains(s.bucket.value.objects[i].key, prefix) ==>
      S3Object(s.bucket.value.objects[i].key, s.bucket.value.objects[i].lastModified) in ListS3BucketObjects(s, bucket, prefix).value
  {
    var objects := s.bucket.value.objects;
    var kept := Filter(objects, KeyContains(prefix));
    var listed := ListS3BucketObjects(s, bucket, prefix).value;
    assert listed == Listing(kept);
    FilterCounts(objects, KeyContains(prefix));
    forall i | 0 <= i < |objects| && GoStrings.Contains(objects[i].key, prefix)
      ensures S3Object(objects[i].key, objects[i].lastModified) in listed
    {
      assert multiset(objects)[objects[i]] > 0;
      assert objects[i] in multiset(kept);
      var k :| 0 <= k < |kept| && kept[k] == objects[i];
      assert listed[k] == S3Object(objects[i].key, objects[i].lastModified);
    }
  }

  /** `HeadS3Bucket` (test/e2e_awsclient.go:47-52): "NotFound" when there is
      no bucket, whatever name is asked for. */
  function HeadS3Bucket(s: TestingState, bucket: string): (r: Option<Error>)
    ensures Fault(s, HeadBucket).None? ==> (r == Some(ApiError("NotFound")) <==> s.bucket.None?)
    ensures Fault(s, HeadBucket).None? ==> (r.None? <==> s.bucket.Some?)
  {
    if Fault(s, HeadBucket).Some? then Fault(s, HeadBucket)
    else if s.bucket.None? then Some(ApiError("NotFound"))
    else None
  }

  /** `GetS3BucketObject` (test/e2e_awsclient.go:135-149): the content of the
      first object whose key contains `key`. */
  function GetS3BucketObject(s: TestingState, bucket: string, key: string): (r: Result<string>)
    ensures r.Ok? ==> s.bucket.Some?
    ensures r.Ok? ==>
      exists k :: 0 <= k < |s.bucket.value.objects| &&
        GoStrings.Contains(s.bucket.value.objects[k].key, key) && s.bucket.value.objects[k].value == r.value &&
        forall j :: 0 <= j < k ==> !GoStrings.Contains(s.bucket.value.objects[j].key, key)
    ensures Fault(s, GetObject(key)).None? && s.bucket.Some? && s.bucket.value.name == bucket ==>
      (r.Ok? <==> exists o :: o in s.bucket.value.objects && GoStrings.Contains(o.key, key))
  {
    if Fault(s, GetObject(key)).Some? then Err(Fault(s, GetObject(key)).value)
    else if s.bucket.Some? && s.bucket.value.name == bucket then
      match FirstIndex(s.bucket.value.objects, KeyContains(key))
      case Some(k) => Ok(s.bucket.value.objects[k].value)
      case None =>
        assert forall o :: o in s.bucket.value.objects ==> !KeyContains(key)(o);
        Err(Failure(ObjectNotFound + bucket + KeySeparator + key))
    else Err(Failure(ObjectNotFound + bucket + KeySeparator + key))
  }

  function Tuples(tgs: seq<TargetGroup>): (r: seq<TargetGroupTuple>)
    ensures |r| == |tgs| && forall i :: 0 <= i < |r| ==> r[i] == tgs[i].tuple
  {
    seq(|tgs|, i requires 0 <= i < |tgs| => tgs[i].tuple)
  }

  /** `GetALBListenerRule` (test/e2e_awsclient.go:151-174): one forward action
      carrying the stored tuples, in the stored order, and the stored
      stickiness; an error for any other rule. */
  function GetALBListenerRule(s: TestingState, listenerRuleArn: string): (r: Result<Rule>)
    ensures r.Ok? <==> Fault(s, GetRule).None? && listenerRuleArn == s.loadBalancer.listenerRuleArn
    ensures r.Ok? ==> |r.value.actions| == 1 && r.value.actions[0].Forward?
    ensures r.Ok? ==> r.value.actions[0].config.stickiness == s.loadBalancer.stickiness
    ensures r.Ok? ==>
      var tuples := r.value.actions[0].config.targetGroups;
      |tuples| == |s.loadBalancer.targetGroups| &&
      forall i :: 0 <= i < |tuples| ==> tuples[i] == s.loadBalancer.targetGroups[i].tuple
  {
    if Fault(s, GetRule).Some? then Err(Fault(s, GetRule).value)
    else if s.loadBalancer.listenerRuleArn != listenerRuleArn then
      Err(Failure(RuleNotFound + listenerRuleArn))
    else
      Ok(Rule([Forward(ForwardConfig(Tuples(s.loadBalancer.targetGroups), s.loadBalancer.stickiness))]))
  }

  /** `DescribeALBTargetHealth` (test/e2e_awsclient.go:176-190): one
      description per stored health state of the first group with that ARN. */
  function DescribeALBTargetHealth(s: TestingState, targetGroupArn: string): (r: Result<seq<HealthState>>)
    ensures Fault(s, DescribeHealth(targetGroupArn)).None? ==>
      (r.Err? <==> forall i :: 0 <= i < |s.loadBalancer.targetGroups| ==> s.loadBalancer.targetGroups[i].tuple.targetGroupArn != targetGroupArn)
    ensures r.Ok? ==>
      exists i :: 0 <= i < |s.loadBalancer.targetGroups| &&
        s.loadBalancer.targetGroups[i].tuple.targetGroupArn == targetGroupArn &&
        s.loadBalancer.targetGroups[i].healthStates == r.value &&
        forall j :: 0 <= j < i ==> s.loadBalancer.targetGroups[j].tuple.targetGroupArn != targetGroupArn
  {
    if Fault(s, DescribeHealth(targetGroupArn)).Some? then Err(Fault(s, DescribeHealth(targetGroupArn)).value)
    else
      match FirstIndex(s.loadBalancer.targetGroups, ArnIs(targetGroupArn))
      case None => Err(Failure(HealthNotFound + targetGroupArn))
      case Some(k) => Ok(s.loadBalancer.targetGroups[k].healthStates)
  }

  /** `DescribeALBTargetGroup` (test/e2e_awsclient.go:202-212): the name of
      the first group with that ARN. */
  function DescribeALBTargetGroup(s: TestingState, targetGroupArn: string): (r: Result<string>)
    ensures Fault(s, DescribeTargetGroup(targetGroupArn)).None? ==>
      (r.Err? <==> forall i :: 0 <= i < |s.loadBalancer.targetGroups| ==> s.loadBalancer.targetGroups[i].tuple.targetGroupArn != targetGroupArn)
    ensures r.Ok? ==>
      exists i :: 0 <= i < |s.loadBalancer.targetGroups| &&
        s.loadBalancer.targetGroups[i].tuple.targetGroupArn == targetGroupArn &&
        s.loadBalancer.targetGroups[i].name == r.value &&
        forall j :: 0 <= j < i ==> s.loadBalancer.targetGroups[j].tuple.targetGroupArn != targetGroupArn
  {
    if Fault(s, DescribeTargetGroup(targetGroupArn)).Some? then Err(Fault(s, DescribeTargetGroup(targetGroupArn)).value)
    else
      match FirstIndex(s.loadBalancer.targetGroups, ArnIs(targetGroupArn))
      case None => Err(Failure(GroupNotFound + targetGroupArn))
      case Some(k) => Ok(s.loadBalancer.targetGroups[k].name)
  }

  /** `DescribeAutoScalingGroup` (test/e2e_awsclient.go:192-200). */
  function DescribeAutoScalingGroup(s: TestingState, name: string): (r: Result<AutoScalingGroup>)
    ensures Fault(s, DescribeGroup(name)).None? ==>
      (r.Err? <==> forall i :: 0 <= i < |s.groups| ==> s.groups[i].group.name != name)
    ensures r.Ok? ==> r.value.name == name
    ensures r.Ok? ==>
      exists i :: 0 <= i < |s.groups| && s.groups[i].group == r.value &&
        forall j :: 0 <= j < i ==> s.groups[j].group.name != name
  {
    if Fault(s, DescribeGroup(name)).Some? then Err(Fault(s, DescribeGroup(name)).value)
    else
      match FirstIndex(s.groups, GroupNamed(name))
      case None => Err(Failure(AsgNotFound + name))
      case Some(k) => Ok(s.groups[k].group)
  }

  /** `DescribeScheduledActions` (test/e2e_awsclient.go:256-264). */
  function DescribeScheduledActions(s: TestingState, name: string): (r: Result<seq<ScheduledAction>>)
    ensures Fault(s, DescribeActions(name)).None? ==>
      (r.Err? <==> forall i :: 0 <= i < |s.groups| ==> s.groups[i].group.name != name)
    ensures r.Ok? ==>
      exists i :: 0 <= i < |s.groups| && s.groups[i].group.name == name && s.groups[i].scheduledActions == r.value &&
        forall j :: 0 <= j < i ==> s.groups[j].group.name != name
  {
    if Fault(s, DescribeActions(name)).Some? then Err(Fault(s, DescribeActions(name)).value)
    else
      match FirstIndex(s.groups, GroupNamed(name))
      case None => Err(Failure(AsgNotFound + name))
      case Some(k) => Ok(s.groups[k].scheduledActions)
  }

  // ---------------------------------------------------------------------
  // Writes, as functions of the state before.

  /** `CreateS3Bucket` (test/e2e_awsclient.go:54-66). */
  function CreateS3BucketStep(s: TestingState, bucket: string): (r: Step)
    ensures Fault(s, CreateBucket).None? && s.bucket.Some? ==> r.err.Some? && r.state == s
    ensures r.err.None? <==> Fault(s, CreateBucket).None? && s.bucket.None?
    ensures r.err.None? ==> r.state == s.(bucket := Some(Bucket(bucket, false, false, false, [])))
    ensures r.err.Some? ==> r.state == s
  {
    if Fault(s, CreateBucket).Some? then Step(s, Fault(s, CreateBucket))
    else if s.bucket.Some? then Step(s, Some(Failure(BucketExists + bucket)))
    else Step(s.(bucket := Some(Bucket(bucket, false, false, false, []))), None)
  }

  /** Which of the three bucket settings a setter turns on. */
  datatype BucketFlag = Versioning | PrivateAcl | PublicAccessBlock

  function FlagCall(flag: BucketFlag): Call
  {
    match flag
    case Versioning => EnableVersioning
    case PrivateAcl => MakeAclPrivate
    case PublicAccessBlock => DisablePublicAccess
  }

  function WithFlag(b: Bucket, flag: BucketFlag): Bucket
  {
    match flag
    case Versioning => b.(versioningEnabled := true)
    case PrivateAcl => b.(aclPrivate := true)
    case PublicAccessBlock => b.(publicAccessDisabled := true)
  }

  /** `EnableS3BucketVersioning`, `MakeS3BucketAclPrivate` and
      `DisableS3BucketPublicAccess` (test/e2e_awsclient.go:68-90): each fails
      without a bucket and otherwise turns its own setting on, leaving the
      other two and the objects alone. */
  function SetBucketFlagStep(s: TestingState, bucket: string, flag: BucketFlag): (r: Step)
    ensures r.err.None? <==> Fault(s, FlagCall(flag)).None? && s.bucket.Some?
    ensures r.err.Some? ==> r.state == s
    ensures r.state == s.(bucket := r.state.bucket)
    ensures r.err.None? ==> r.state.bucket.Some? && r.state.bucket.value.objects == s.bucket.value.objects
    ensures r.err.None? ==> r.state.bucket.value.name == s.bucket.value.name
    ensures r.err.None? ==>
      && r.state.bucket.value.versioningEnabled == (s.bucket.value.versioningEnabled || flag == Versioning)
      && r.state.bucket.value.aclPrivate == (s.bucket.value.aclPrivate || flag == PrivateAcl)
      && r.state.bucket.value.publicAccessDisabled == (s.bucket.value.publicAccessDisabled || flag == PublicAccessBlock)
  {
    if Fault(s, FlagCall(flag)).Some? then Step(s, Fault(s, FlagCall(flag)))
    else if s.bucket.None? then Step(s, Some(Failure(BucketNotFound + bucket)))
    else Step(s.(bucket := Some(WithFlag(s.bucket.value, flag))), None)
  }

  /** `DeleteS3BucketObject` (test/e2e_awsclient.go:92-103): the bucket keeps
      only the objects whose key contains `key` (none at all when the bucket
      has another name), less the first whose key is exactly `key`. The fake
      dereferences the bucket, so it must exist. */
  function DeleteS3BucketObjectStep(s: TestingState, bucket: string, key: string): (r: Step)
    requires s.bucket.Some?
    ensures r.err.None? <==> Fault(s, DeleteObject(key)).None?
    ensures r.err.Some? ==> r.state == s
    ensures r.state == s.(bucket := r.state.bucket)
    ensures r.state.bucket.Some? && |r.state.bucket.value.objects| <= |s.bucket.value.objects|
    ensures r.state.bucket.value.name == s.bucket.value.name
    ensures r.err.None? ==>
      forall o :: o in r.state.bucket.value.objects ==> o in s.bucket.value.objects && GoStrings.Contains(o.key, key)
  {
    if Fault(s, DeleteObject(key)).Some? then Step(s, Fault(s, DeleteObject(key)))
    else
      var b := s.bucket.value;
      var kept := if b.name == bucket then Filter(b.objects, KeyContains(key)) else [];
      var left := FastDelete(kept, KeyIs(key));
      FilterCounts(b.objects, KeyContains(key));
      assert forall o :: o in left ==> multiset(left)[o] > 0;
      Step(s.(bucket := Some(b.(objects := left))), None)
  }

  /** `PutS3BucketObjectAsBinaryFile` and `PutS3BucketObjectAsTextFile`
      (test/e2e_awsclient.go:105-133): when there is a bucket, whatever its
      name, the object is appended with the current time; never an error. */
  function PutS3BucketObjectStep(s: TestingState, key: string, value: string, contentType: Option<string>, now: int): (r: Step)
    ensures r.err.None? <==> Fault(s, PutObject(key)).None?
    ensures r.err.None? && s.bucket.Some? ==>
      r.state == s.(bucket := Some(s.bucket.value.(objects := s.bucket.value.objects + [BucketObject(now, key, value, contentType)])))
    ensures r.err.Some? || s.bucket.None? ==> r.state == s
  {
    if Fault(s, PutObject(key)).Some? then Step(s, Fault(s, PutObject(key)))
    else if s.bucket.Some? then
      var b := s.bucket.value;
      Step(s.(bucket := Some(b.(objects := b.objects + [BucketObject(now, key, value, contentType)]))), None)
    else Step(s, None)
  }

  /** The stored groups after one incoming tuple overwrote those with its ARN. */
  function OverwriteOne(stored: seq<TargetGroup>, t: TargetGroupTuple): (r: seq<TargetGroup>)
    ensures |r| == |stored|
  {
    seq(|stored|, i requires 0 <= i < |stored| =>
      if stored[i].tuple.targetGroupArn == t.targetGroupArn then stored[i].(tuple := t) else stored[i])
  }

  /** The stored groups after each incoming tuple, in order, overwrote those
      with its ARN. */
  function Overwrite(stored: seq<TargetGroup>, incoming: seq<TargetGroupTuple>): seq<TargetGroup>
  {
    if |incoming| == 0 then stored
    else OverwriteOne(Overwrite(stored, incoming[..|incoming| - 1]), incoming[|incoming| - 1])
  }

  /** The last incoming tuple with the given ARN. */
  function LastWithArn(incoming: seq<TargetGroupTuple>, arn: string): (r: Option<TargetGroupTuple>)
    ensures r.Some? ==> r.value in incoming && r.value.targetGroupArn == arn
    ensures r.None? <==> forall i :: 0 <= i < |incoming| ==> incoming[i].targetGroupArn != arn
  {
    if |incoming| == 0 then None
    else if incoming[|incoming| - 1].targetGroupArn == arn then Some(incoming[|incoming| - 1])
    else LastWithArn(incoming[..|incoming| - 1], arn)
  }

  /** A stored group whose ARN some incoming tuple carries takes the last such
      tuple; every other stored group is left as it was. */
  lemma {:induction false} OverwriteLastWins(stored: seq<TargetGroup>, incoming: seq<TargetGroupTuple>)
    ensures |Overwrite(stored, incoming)| == |stored|
    ensures forall i :: 0 <= i < |stored| ==>
      Overwrite(stored, incoming)[i] ==
        match LastWithArn(incoming, stored[i].tuple.targetGroupArn)
        case None => stored[i]
        case Some(t) => stored[i].(tuple := t)
  {
    if |incoming| > 0 {
      OverwriteLastWins(stored, incoming[..|incoming| - 1]);
    }
  }

  /** `ModifyALBListenerRule` (test/e2e_awsclient.go:214-228): an error for
      another rule; otherwise each stored group takes the last incoming tuple
      with its ARN, and everything else, the stickiness included, is kept. */
  function ModifyALBListenerRuleStep(s: TestingState, listenerRuleArn: string, forward: ForwardConfig): (r: Step)
    ensures r.err.None? <==> Fault(s, ModifyRule).None? && listenerRuleArn == s.loadBalancer.listenerRuleArn
    ensures r.err.Some? ==> r.state == s
    ensures r.state.bucket == s.bucket && r.state.groups == s.groups
    ensures r.state.loadBalancer.listenerRuleArn == s.loadBalancer.listenerRuleArn
    ensures r.state.loadBalancer.stickiness == s.loadBalancer.stickiness
    ensures r.state == s.(loadBalancer := s.loadBalancer.(targetGroups := r.state.loadBalancer.targetGroups))
    ensures r.err.None? ==>
      var stored := s.loadBalancer.targetGroups;
      |r.state.loadBalancer.targetGroups| == |stored| &&
      forall i :: 0 <= i < |stored| ==>
        r.state.loadBalancer.targetGroups[i] ==
          match LastWithArn(forward.targetGroups, stored[i].tuple.targetGroupArn)
          case None => stored[i]
          case Some(t) => stored[i].(tuple := t)
  {
    if Fault(s, ModifyRule).Some? then Step(s, Fault(s, ModifyRule))
    else if s.loadBalancer.listenerRuleArn != listenerRuleArn then
      Step(s, Some(Failure(RuleNotFound + listenerRuleArn)))
    else
      OverwriteLastWins(s.loadBalancer.targetGroups, forward.targetGroups);
      Step(s.(loadBalancer := s.loadBalancer.(targetGroups := Overwrite(s.loadBalancer.targetGroups, forward.targetGroups))), None)
  }

  /** The instances the fake adds for a minimum size of `n`: "ins0", "ins1", ...,
      all in service. */
  function NewInstances(n: nat): (r: seq<Instance>)
    ensures |r| == n
    ensures forall k :: 0 <= k < n ==> r[k] == Instance("ins" + GoStrings.NatToString(k), InService)
  {
    seq(n, k requires 0 <= k < n => Instance("ins" + GoStrings.NatToString(k), InService))
  }

  /** One group after an update: each given field is set, and a positive
      minimum size also appends that many instances, named from "ins0" up
      whatever names the group already holds. */
  function UpdatedGroup(g: AutoScalingGroup, desiredCapacity: Option<int>, minSize: Option<int>, maxSize: Option<int>): (r: AutoScalingGroup)
    ensures r.name == g.name
    ensures r.desiredCapacity == if desiredCapacity.Some? then desiredCapacity.value else g.desiredCapacity
    ensures r.minSize == if minSize.Some? then minSize.value else g.minSize
    ensures r.maxSize == if maxSize.Some? then maxSize.value else g.maxSize
    ensures minSize.Some? && minSize.value > 0 ==> r.instances == g.instances + NewInstances(minSize.value)
    ensures minSize.None? || minSize.value <= 0 ==> r.instances == g.instances
  {
    var g1 := if desiredCapacity.Some? then g.(desiredCapacity := desiredCapacity.value) else g;
    var g2 :=
      if minSize.None? then g1
      else if minSize.value > 0 then g1.(minSize := minSize.value, instances := g1.instances + NewInstances(minSize.value))
      else g1.(minSize := minSize.value);
    if maxSize.Some? then g2.(maxSize := maxSize.value) else g2
  }

  function UpdatedEntry(e: TestingGroup, name: string, desiredCapacity: Option<int>, minSize: Option<int>, maxSize: Option<int>): TestingGroup
  {
    if e.group.name == name then e.(group := UpdatedGroup(e.group, desiredCapacity, minSize, maxSize)) else e
  }

  /** `UpdateAutoScalingGroup` (test/e2e_awsclient.go:230-254): every group
      with that name gets its given fields; nothing else changes, an unknown
      name changes nothing, and the answer is always nil. */
  function UpdateAutoScalingGroupStep(s: TestingState, name: string, desiredCapacity: Option<int>, minSize: Option<int>, maxSize: Option<int>): (r: Step)
    ensures r.err == Fault(s, UpdateGroup(name))
    ensures r.state.bucket == s.bucket && r.state.loadBalancer == s.loadBalancer && r.state.failures == s.failures
    ensures |r.state.groups| == |s.groups|
    ensures forall i :: 0 <= i < |s.groups| ==>
      r.state.groups[i] == if r.err.None? then UpdatedEntry(s.groups[i], name, desiredCapacity, minSize, maxSize) else s.groups[i]
  {
    if Fault(s, UpdateGroup(name)).Some? then Step(s, Fault(s, UpdateGroup(name)))
    else
      Step(s.(groups := seq(|s.groups|, i requires 0 <= i < |s.groups| =>
        UpdatedEntry(s.groups[i], name, desiredCapacity, minSize, maxSize))), None)
  }

  /** The body of the fake's update loop for a group with the given name:
      each given field is set, and a positive minimum size appends that many
      instances named "ins0", "ins1", ... */
  method UpdateGroupFields(group: AutoScalingGroup, desiredCapacity: Option<int>, minSize: Option<int>, maxSize: Option<int>)
    returns (g: AutoScalingGroup)
    ensures g == UpdatedGroup(group, desiredCapacity, minSize, maxSize)
  {
    g := group;
    if desiredCapacity.Some? {
      g := g.(desiredCapacity := desiredCapacity.value);
    }
    if minSize.Some? {
      g := g.(minSize := minSize.value);
      if minSize.value > 0 {
        var instances := g.instances;
        for k := 0 to minSize.value
          invariant instances == g.instances + NewInstances(k)
        {
          instances := instances + [Instance("ins" + GoStrings.NatToString(k), InService)];
        }
        g := g.(instances := instances);
      }
    }
    if maxSize.Some? {
      g := g.(maxSize := maxSize.value);
    }
  }

  /** An update naming no group leaves the state as it was. */
  lemma UpdateUnknownGroup(s: TestingState, name: string, desiredCapacity: Option<int>, minSize: Option<int>, maxSize: Option<int>)
    requires forall i :: 0 <= i < |s.groups| ==> s.groups[i].group.name != name
    ensures UpdateAutoScalingGroupStep(s, name, desiredCapacity, minSize, maxSize).state == s
  {
    var r := UpdateAutoScalingGroupStep(s, name, desiredCapacity, minSize, maxSize);
    assert r.state.groups == s.groups;
  }

  /** `PutScheduledUpdateGroupAction` (test/e2e_awsclient.go:266-274): the
      action is appended to every group with that name. */
  function PutScheduledUpdateGroupActionStep(s: TestingState, name: string, action: ScheduledAction): (r: Step)
    ensures r.err == Fault(s, PutAction(name, action.name))
    ensures r.state.bucket == s.bucket && r.state.loadBalancer == s.loadBalancer && r.state.failures == s.failures
    ensures |r.state.groups| == |s.groups|
    ensures forall i :: 0 <= i < |s.groups| ==> r.state.groups[i].group == s.groups[i].group
    ensures forall i :: 0 <= i < |s.groups| ==>
      r.state.groups[i].scheduledActions ==
        if r.err.None? && s.groups[i].group.name == name then s.groups[i].scheduledActions + [action]
        else s.groups[i].scheduledActions
  {
    if Fault(s, PutAction(name, action.name)).Some? then Step(s, Fault(s, PutAction(name, action.name)))
    else
      Step(s.(groups := seq(|s.groups|, i requires 0 <= i < |s.groups| =>
        if s.groups[i].group.name == name then s.groups[i].(scheduledActions := s.groups[i].scheduledActions + [action])
        else s.groups[i])), None)
  }

  /** `DeleteScheduledAction` (test/e2e_awsclient.go:276-286): in every group
      with that name, the first action with that name is removed (the order
      of the rest is not kept); other groups are untouched. */
  function DeleteScheduledActionStep(s: TestingState, groupName: string, actionName: string): (r: Step)
    ensures r.err == Fault(s, DeleteAction(groupName, actionName))
    ensures r.state.bucket == s.bucket && r.state.loadBalancer == s.loadBalancer && r.state.failures == s.failures
    ensures |r.state.groups| == |s.groups|
    ensures forall i :: 0 <= i < |s.groups| ==> r.state.groups[i].group == s.groups[i].group
    ensures forall i :: 0 <= i < |s.groups| ==>
      r.state.groups[i].scheduledActions ==
        if r.err.None? && s.groups[i].group.name == groupName then FastDelete(s.groups[i].scheduledActions, ActionNamed(actionName))
        else s.groups[i].scheduledActions
  {
    if Fault(s, DeleteAction(groupName, actionName)).Some? then Step(s, Fault(s, DeleteAction(groupName, actionName)))
    else
      Step(s.(groups := seq(|s.groups|, i requires 0 <= i < |s.groups| =>
        if s.groups[i].group.name == groupName
        then s.groups[i].(scheduledActions := FastDelete(s.groups[i].scheduledActions, ActionNamed(actionName)))
        else s.groups[i])), None)
  }

  /** Deleting removes one action with that name from each named group, when
      it has one, and nothing else. */
  lemma DeleteActionRemovesOne(s: TestingState, groupName: string, actionName: string, i: nat)
    requires Fault(s, DeleteAction(groupName, actionName)).None?
    requires i < |s.groups| && s.groups[i].group.name == groupName
    ensures var before := s.groups[i].scheduledActions;
      var after := DeleteScheduledActionStep(s, groupName, actionName).state.groups[i].scheduledActions;
      && ((exists a :: a in before && a.name == actionName) ==>
            |after| == |before| - 1 &&
            exists a :: a in before && a.name == actionName && multiset(after) == multiset(before) - multiset{a})
      && ((forall a :: a in before ==> a.name != actionName) ==> after == before)
  {
    var before := s.groups[i].scheduledActions;
    match FirstIndex(before, ActionNamed(actionName))
    case Some(k) =>
      assert before[k] in before && before[k].name == actionName;
    case None =>
      assert forall a :: a in before ==> !ActionNamed(actionName)(a);
  }

  // ---------------------------------------------------------------------
  // Instances are never removed.

  /** Every write the fake offers. */
  datatype Write =
    | CreateBucketWrite(bucket: string)
    | SetFlagWrite(bucket: string, flag: BucketFlag)
    | DeleteObjectWrite(bucket: string, key: string)
    | PutObjectWrite(key: string, value: string, contentType: Option<string>, now: int)
    | ModifyRuleWrite(listenerRuleArn: string, forward: ForwardConfig)
    | UpdateGroupWrite(name: string, desiredCapacity: Option<int>, minSize: Option<int>, maxSize: Option<int>)
    | PutActionWrite(name: string, action: ScheduledAction)
    | DeleteActionWrite(groupName: string, actionName: string)

  predicate Applicable(s: TestingState, w: Write)
  {
    w.DeleteObjectWrite? ==> s.bucket.Some?
  }

  function Apply(s: TestingState, w: Write): Step
    requires Applicable(s, w)
  {
    match w
    case CreateBucketWrite(bucket) => CreateS3BucketStep(s, bucket)
    case SetFlagWrite(bucket, flag) => SetBucketFlagStep(s, bucket, flag)
    case DeleteObjectWrite(bucket, key) => DeleteS3BucketObjectStep(s, bucket, key)
    case PutObjectWrite(key, value, contentType, now) => PutS3BucketObjectStep(s, key, value, contentType, now)
    case ModifyRuleWrite(arn, forward) => ModifyALBListenerRuleStep(s, arn, forward)
    case UpdateGroupWrite(name, d, mn, mx) => UpdateAutoScalingGroupStep(s, name, d, mn, mx)
    case PutActionWrite(name, action) => PutScheduledUpdateGroupActionStep(s, name, action)
    case DeleteActionWrite(groupName, actionName) => DeleteScheduledActionStep(s, groupName, actionName)
  }

  /** No write of the fake removes an instance: each group keeps its
      instances as a prefix of its new ones, and no group appears or goes. */
  lemma NoWriteRemovesInstances(s: TestingState, w: Write)
    requires Applicable(s, w)
    ensures var t := Apply(s, w).state;
      |t.groups| == |s.groups| &&
      forall i :: 0 <= i < |s.groups| ==>
        t.groups[i].group.name == s.groups[i].group.name &&
        s.groups[i].group.instances <= t.groups[i].group.instances
  {
    match w
    case UpdateGroupWrite(name, d, mn, mx) =>
      var t := Apply(s, w).state;
      forall i | 0 <= i < |s.groups|
        ensures s.groups[i].group.instances <= t.groups[i].group.instances
      {
        var g := s.groups[i].group;
        if Fault(s, UpdateGroup(name)).None? && g.name == name && mn.Some? && mn.value > 0 {
          assert t.groups[i].group.instances == g.instances + NewInstances(mn.value);
        }
      }
    case _ =>
  }

  // ---------------------------------------------------------------------
  // The fake, holding the state and changing it in place.

  /** `GetRegion`: the fake's fixed region. */
  const Region := "us-east-1"

  class MockAwsClient {
    var bucket: Option<Bucket>
    var loadBalancer: LoadBalancer
    var groups: seq<TestingGroup>
    const failures: map<Call, string>

    function State(): TestingState
      reads this
    {
      TestingState(bucket, loadBalancer, groups, failures)
    }

    /** `NewMockAwsClient`. */
    constructor (s: TestingState)
      ensures State() == s
    {
      bucket := s.bucket;
      loadBalancer := s.loadBalancer;
      groups := s.groups;
      failures := s.failures;
    }

    method CreateS3Bucket(name: string, region: string) returns (err: Option<Error>)
      modifies this
      ensures Step(State(), err) == CreateS3BucketStep(old(State()), name)
    {
      if CreateBucket in failures {
        return Some(ApiError(failures[CreateBucket]));
      }
      if bucket.Some? {
        return Some(Failure(BucketExists + name));
      }
      bucket := Some(Bucket(name, false, false, false, []));
      return None;
    }

    method EnableS3BucketVersioning(name: string) returns (err: Option<Error>)
      modifies this
      ensures Step(State(), err) == SetBucketFlagStep(old(State()), name, Versioning)
    {
      if EnableVersioning in failures {
        return Some(ApiError(failures[EnableVersioning]));
      }
      if bucket.None? {
        return Some(Failure(BucketNotFound + name));
      }
      bucket := Some(bucket.value.(versioningEnabled := true));
      return None;
    }

    method MakeS3BucketAclPrivate(name: string) returns (err: Option<Error>)
      modifies this
      ensures Step(State(), err) == SetBucketFlagStep(old(State()), name, PrivateAcl)
    {
      if MakeAclPrivate in failures {
        return Some(ApiError(failures[MakeAclPrivate]));
      }
      if bucket.None? {
        return Some(Failure(BucketNotFound + name));
      }
      bucket := Some(bucket.value.(aclPrivate := true));
      return None;
    }

    method DisableS3BucketPublicAccess(name: string) returns (err: Option<Error>)
      modifies this
      ensures Step(State(), err) == SetBucketFlagStep(old(State()), name, PublicAccessBlock)
    {
      if DisablePublicAccess in failures {
        return Some(ApiError(failures[DisablePublicAccess]));
      }
      if bucket.None? {
        return Some(Failure(BucketNotFound + name));
      }
      bucket := Some(bucket.value.(publicAccessDisabled := true));
      return None;
    }

    method DeleteS3BucketObject(name: string, key: string) returns (err: Option<Error>)
      requires bucket.Some?
      modifies this
      ensures Step(State(), err) == DeleteS3BucketObjectStep(old(State()), name, key)
    {
      if DeleteObject(key) in failures {
        return Some(ApiError(failures[DeleteObject(key)]));
      }
      var objects: seq<BucketObject> := [];
      if bucket.value.name == name {
        objects := Filter(bucket.value.objects, KeyContains(key));
      }
      bucket := Some(bucket.value.(objects := FastDelete(objects, KeyIs(key))));
      return None;
    }

    /** Both uploads: the binary one with no content type, the text one
        with "text/plain". */
    method PutS3BucketObject(key: string, value: string, contentType: Option<string>, now: int) returns (err: Option<Error>)
      modifies this
      ensures Step(State(), err) == PutS3BucketObjectStep(old(State()), key, value, contentType, now)
    {
      if PutObject(key) in failures {
        return Some(ApiError(failures[PutObject(key)]));
      }
      if bucket.Some? {
        bucket := Some(bucket.value.(objects := bucket.value.objects + [BucketObject(now, key, value, contentType)]));
      }
      return None;
    }

    method ModifyALBListenerRule(listenerRuleArn: string, forward: ForwardConfig) returns (err: Option<Error>)
      modifies this
      ensures Step(State(), err) == ModifyALBListenerRuleStep(old(State()), listenerRuleArn, forward)
    {
      if ModifyRule in failures {
        return Some(ApiError(failures[ModifyRule]));
      }
      if loadBalancer.listenerRuleArn != listenerRuleArn {
        return Some(Failure(RuleNotFound + listenerRuleArn));
      }
      var incoming := forward.targetGroups;
      for x := 0 to |incoming|
        invariant loadBalancer == old(loadBalancer).(targetGroups := Overwrite(old(loadBalancer).targetGroups, incoming[..x]))
        invariant bucket == old(bucket) && groups == old(groups)
      {
        var from := incoming[x];
        var stored := loadBalancer.targetGroups;
        for y := 0 to |stored|
          invariant |loadBalancer.targetGroups| == |stored|
          invariant forall k :: 0 <= k < y ==> loadBalancer.targetGroups[k] == OverwriteOne(stored, from)[k]
          invariant forall k :: y <= k < |stored| ==> loadBalancer.targetGroups[k] == stored[k]
          invariant loadBalancer.listenerRuleArn == old(loadBalancer).listenerRuleArn
          invariant loadBalancer.stickiness == old(loadBalancer).stickiness
          invariant bucket == old(bucket) && groups == old(groups)
        {
          var to := loadBalancer.targetGroups[y];
          if from.targetGroupArn == to.tuple.targetGroupArn {
            loadBalancer := loadBalancer.(targetGroups := loadBalancer.targetGroups[y := to.(tuple := from)]);
          }
        }
        assert loadBalancer.targetGroups == OverwriteOne(stored, from);
        assert incoming[..x + 1][..x] == incoming[..x];
      }
      assert incoming[..|incoming|] == incoming;
      return None;
    }

    method UpdateAutoScalingGroup(name: string, desiredCapacity: Option<int>, minSize: Option<int>, maxSize: Option<int>)
      returns (err: Option<Error>)
      modifies this
      ensures Step(State(), err) == UpdateAutoScalingGroupStep(old(State()), name, desiredCapacity, minSize, maxSize)
    {
      if UpdateGroup(name) in failures {
        return Some(ApiError(failures[UpdateGroup(name)]));
      }
      for i := 0 to |groups|
        invariant |groups| == |old(groups)|
        invariant forall k :: 0 <= k < i ==> groups[k] == UpdatedEntry(old(groups)[k], name, desiredCapacity, minSize, maxSize)
        invariant forall k :: i <= k < |groups| ==> groups[k] == old(groups)[k]
        invariant bucket == old(bucket) && loadBalancer == old(loadBalancer)
      {
        var entry := groups[i];
        if entry.group.name == name {
          var g := UpdateGroupFields(entry.group, desiredCapacity, minSize, maxSize);
          groups := groups[i := entry.(group := g)];
        }
      }
      return None;
    }

    method PutScheduledUpdateGroupAction(name: string, action: ScheduledAction) returns (err: Option<Error>)
      modifies this
      ensures Step(State(), err) == PutScheduledUpdateGroupActionStep(old(State()), name, action)
    {
      if PutAction(name, action.name) in failures {
        return Some(ApiError(failures[PutAction(name, action.name)]));
      }
      for i := 0 to |groups|
        invariant |groups| == |old(groups)|
        invariant forall k :: 0 <= k < i ==>
          groups[k] == if old(groups)[k].group.name == name
            then old(groups)[k].(scheduledActions := old(groups)[k].scheduledActions + [action])
            else old(groups)[k]
        invariant forall k :: i <= k < |groups| ==> groups[k] == old(groups)[k]
        invariant bucket == old(bucket) && loadBalancer == old(loadBalancer)
      {
        if groups[i].group.name == name {
          groups := groups[i := groups[i].(scheduledActions := groups[i].scheduledActions + [action])];
        }
      }
      return None;
    }

    method DeleteScheduledAction(groupName: string, actionName: string) returns (err: Option<Error>)
      modifies this
      ensures Step(State(), err) == DeleteScheduledActionStep(old(State()), groupName, actionName)
    {
      if DeleteAction(groupName, actionName) in failures {
        return Some(ApiError(failures[DeleteAction(groupName, actionName)]));
      }
      for x := 0 to |groups|
        invariant |groups| == |old(groups)|
        invariant forall k :: 0 <= k < x ==>
          groups[k] == if old(groups)[k].group.name == groupName
            then old(groups)[k].(scheduledActions := FastDelete(old(groups)[k].scheduledActions, ActionNamed(actionName)))
            else old(groups)[k]
        invariant forall k :: x <= k < |groups| ==> groups[k] == old(groups)[k]
        invariant bucket == old(bucket) && loadBalancer == old(loadBalancer)
      {
        if groups[x].group.name == groupName {
          groups := groups[x := groups[x].(scheduledActions := FastDelete(groups[x].scheduledActions, ActionNamed(actionName)))];
        }
      }
      return None;
    }
  }
}
