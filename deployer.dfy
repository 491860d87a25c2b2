/** The Blue/Green deployment controller of internal/deployer.go.

    The controller reads and writes the cloud through a gateway shaped like
    the `AwsClient` interface; here that gateway is `MockAwsClient`, so a
    deployment is a sequence of the fake's reads and writes. Every step is
    first a function of the gateway's state (`...Of` for reads, `...Step`
    for writes), and each method of `Deployer` is proved to do exactly what
    its function says. Polls run against a gateway that nothing else
    changes while they wait, so each poll sees the state the poll loop
    started from. */
module Deployment {
  import opened Wrappers
  import opened Aws
  import opened MockAws
  import Util
  import Retryer
  import Config

  type TargetType = string

  /** The error messages of the deployer. */
  const NoSuchTargetType := "' does not exist."
  const NoSuchTargetTypeInInfo := "' does not exist in DeployInfo"
  const BlueNotFound := "Blue Target is not found"
  const GreenNotFound := "Green Target is not found"
  const NotIdentified := "Failed to identify idling and running target groups. Either two weighted TargetGroup must be 0"
  const TargetTypePrefix := "TargetType:'"

  const BlueTargetType: TargetType := "blue"
  const GreenTargetType: TargetType := "green"
  const UnknownTargetType: TargetType := "unknown"

  datatype ProcessResult = ProcessSkipped | ProcessCompleted

  /** A fleet as the rule and its autoscaling group show it. */
  datatype DeployTarget = DeployTarget(targetType: TargetType, targetGroup: TargetGroupTuple, group: AutoScalingGroup)

  datatype DeployInfo = DeployInfo(idling: DeployTarget, running: DeployTarget)

  datatype HealthInfo = HealthInfo(
    targetGroupArn: string,
    totalCount: nat,
    healthyCount: nat,
    unhealthyCount: nat,
    unusedCount: nat,
    initialCount: nat,
    drainingCount: nat)

  predicate IsFleet(t: TargetType)
  {
    t == BlueTargetType || t == GreenTargetType
  }

  /** The configured fleet of a target type. */
  function TargetOf(c: Config.Config, t: TargetType): Config.Target
    requires Config.Valid(c) && IsFleet(t)
  {
    if t == BlueTargetType then c.target.value.blue.value else c.target.value.green.value
  }

  // ---------------------------------------------------------------------
  // Resolving the fleets (internal/deployer.go:140-191, 287-317).

  function TupleArnIs(arn: string): TargetGroupTuple -> bool
  {
    (t: TargetGroupTuple) => t.targetGroupArn == arn
  }

  /** Some forward action of the rule carries a tuple with that ARN. */
  predicate Forwards(actions: seq<Action>, arn: string)
  {
    exists i, j :: 0 <= i < |actions| && actions[i].Forward? &&
      0 <= j < |actions[i].config.targetGroups| && actions[i].config.targetGroups[j].targetGroupArn == arn
  }

  /** The tuple `GetDeployTarget` settles on: within a forward action the
      first one with the ARN, and across actions the last action that has one. */
  function FindTuple(actions: seq<Action>, arn: string): (r: Option<TargetGroupTuple>)
    ensures r.Some? ==> r.value.targetGroupArn == arn
    ensures r.None? <==> !Forwards(actions, arn)
  {
    if |actions| == 0 then None
    else
      var n := |actions| - 1;
      var here := if actions[n].Forward? then FirstOrNil(actions[n].config.targetGroups, TupleArnIs(arn)) else None;
      var earlier := FindTuple(actions[..n], arn);
      assert forall i :: 0 <= i < n ==> actions[..n][i] == actions[i];
      if here.Some? then here
      else
        assert actions[n].Forward? ==> forall j :: 0 <= j < |actions[n].config.targetGroups| ==>
          actions[n].config.targetGroups[j].targetGroupArn != arn;
        earlier
  }

  /** `GetDeployTarget`: the fleet of type `t`, with the rule's tuple for its
      ARN, or an "unknown" fleet with a placeholder tuple when the rule does
      not forward to that ARN. The rule is read before the group, and either
      read's error is returned. */
  function DeployTargetOf(s: TestingState, c: Config.Config, t: TargetType): (r: Result<DeployTarget>)
    requires Config.Valid(c)
    ensures !IsFleet(t) ==> r == Err(Failure(TargetTypePrefix + t + NoSuchTargetType))
    ensures IsFleet(t) ==>
      (r.Err? <==> GetALBListenerRule(s, c.listenerRuleArn).Err? || DescribeAutoScalingGroup(s, TargetOf(c, t).autoScalingGroupName).Err?)
    ensures r.Ok? ==> IsFleet(t)
    ensures r.Ok? && IsFleet(t) ==>
      var arn := TargetOf(c, t).targetGroupArn;
      var rule := GetALBListenerRule(s, c.listenerRuleArn);
      && rule.Ok?
      && DescribeAutoScalingGroup(s, TargetOf(c, t).autoScalingGroupName) == Ok(r.value.group)
      && (r.value.targetType == UnknownTargetType <==> !Forwards(rule.value.actions, arn))
      && (r.value.targetType == UnknownTargetType ==> r.value.targetGroup == TargetGroupTuple("missing", 0))
      && (r.value.targetType != UnknownTargetType ==> r.value.targetType == t && r.value.targetGroup.targetGroupArn == arn)
    ensures r.Err? ==> !r.error.RetryTimeout? && !r.error.RetryFailure?
  {
    if !IsFleet(t) then Err(Failure(TargetTypePrefix + t + NoSuchTargetType))
    else
      var target := TargetOf(c, t);
      match GetALBListenerRule(s, c.listenerRuleArn)
      case Err(e) => Err(e)
      case Ok(rule) =>
        var tuple := FindTuple(rule.actions, target.targetGroupArn);
        match DescribeAutoScalingGroup(s, target.autoScalingGroupName)
        case Err(e) => Err(e)
        case Ok(group) =>
          if tuple.None? then Ok(DeployTarget(UnknownTargetType, TargetGroupTuple("missing", 0), group))
          else Ok(DeployTarget(t, tuple.value, group))
  }

  /** `GetDeployInfo`: the fleet with a positive weight runs and the one with
      weight zero or less idles. Either fleet missing from the rule, or the
      two weights not split that way, is an error. */
  function DeployInfoOf(s: TestingState, c: Config.Config): (r: Result<DeployInfo>)
    requires Config.Valid(c)
    ensures r.Ok? ==>
      && r.value.idling.targetGroup.weight <= 0 < r.value.running.targetGroup.weight
      && {r.value.idling.targetType, r.value.running.targetType} == {BlueTargetType, GreenTargetType}
      && DeployTargetOf(s, c, r.value.idling.targetType) == Ok(r.value.idling)
      && DeployTargetOf(s, c, r.value.running.targetType) == Ok(r.value.running)
    ensures r.Err? ==> !r.error.RetryTimeout? && !r.error.RetryFailure?
  {
    match DeployTargetOf(s, c, BlueTargetType)
    case Err(e) => Err(e)
    case Ok(blue) =>
      if blue.targetType == UnknownTargetType then Err(Failure(BlueNotFound))
      else
        match DeployTargetOf(s, c, GreenTargetType)
        case Err(e) => Err(e)
        case Ok(green) =>
          if green.targetType == UnknownTargetType then Err(Failure(GreenNotFound))
          else if blue.targetGroup.weight > 0 && green.targetGroup.weight <= 0 then Ok(DeployInfo(green, blue))
          else if green.targetGroup.weight > 0 && blue.targetGroup.weight <= 0 then Ok(DeployInfo(blue, green))
          else Err(Failure(NotIdentified))
  }

  /** How `GetDeployInfo` classifies, once both fleets could be read: it fails
      when the rule does not forward to either configured ARN, and otherwise
      succeeds exactly when one weight is positive and the other is not,
      naming the fleet with the positive weight the running one. */
  lemma DeployInfoClassification(s: TestingState, c: Config.Config)
    requires Config.Valid(c)
    requires DeployTargetOf(s, c, BlueTargetType).Ok? && DeployTargetOf(s, c, GreenTargetType).Ok?
    ensures var rule := GetALBListenerRule(s, c.listenerRuleArn).value.actions;
      !Forwards(rule, TargetOf(c, BlueTargetType).targetGroupArn) || !Forwards(rule, TargetOf(c, GreenTargetType).targetGroupArn) ==>
        DeployInfoOf(s, c).Err?
    ensures var blue := DeployTargetOf(s, c, BlueTargetType).value;
      var green := DeployTargetOf(s, c, GreenTargetType).value;
      var bw := blue.targetGroup.weight;
      var gw := green.targetGroup.weight;
      var r := DeployInfoOf(s, c);
      blue.targetType != UnknownTargetType && green.targetType != UnknownTargetType ==>
        && (r.Ok? <==> (bw > 0 && gw <= 0) || (gw > 0 && bw <= 0))
        && (bw > 0 && gw <= 0 ==> r == Ok(DeployInfo(green, blue)))
        && (gw > 0 && bw <= 0 ==> r == Ok(DeployInfo(blue, green)))
  {
    var blue := DeployTargetOf(s, c, BlueTargetType).value;
    var green := DeployTargetOf(s, c, GreenTargetType).value;
    assert blue.targetType != UnknownTargetType ==> blue.targetType == BlueTargetType;
    assert green.targetType != UnknownTargetType ==> green.targetType == GreenTargetType;
  }

  // ---------------------------------------------------------------------
  // Health (internal/deployer.go:95-118, 418-444).

  function IsState(h: HealthState): HealthState -> bool
  {
    (x: HealthState) => x == h
  }

  /** The two states `getHealthInfo` does not tally. */
  function Untallied(): HealthState -> bool
  {
    (x: HealthState) => x == Unavailable || x == UnhealthyDraining
  }

  function Tally(arn: string, d: seq<HealthState>): HealthInfo
  {
    HealthInfo(arn, |d|,
      Util.CountOf(d, IsState(Healthy)), Util.CountOf(d, IsState(Unhealthy)), Util.CountOf(d, IsState(Unused)),
      Util.CountOf(d, IsState(Initial)), Util.CountOf(d, IsState(Draining)))
  }

  /** `getHealthInfo`: the tally of the target group's health descriptions. */
  function HealthInfoOf(s: TestingState, arn: string): (r: Result<HealthInfo>)
    ensures r.Ok? <==> DescribeALBTargetHealth(s, arn).Ok?
    ensures r.Ok? ==> r.value == Tally(arn, DescribeALBTargetHealth(s, arn).value)
    ensures r.Err? ==> !r.error.RetryTimeout? && !r.error.RetryFailure?
  {
    match DescribeALBTargetHealth(s, arn)
    case Err(e) => Err(e)
    case Ok(d) => Ok(Tally(arn, d))
  }

  /** Every description is in exactly one tallied state or in a state the
      tally leaves out, so the five counts add up to at most the total. */
  lemma {:induction false} TallyPartition(arn: string, d: seq<HealthState>)
    ensures var h := Tally(arn, d);
      h.healthyCount + h.unhealthyCount + h.unusedCount + h.initialCount + h.drainingCount + Util.CountOf(d, Untallied())
        == h.totalCount
    ensures var h := Tally(arn, d);
      h.healthyCount + h.unhealthyCount + h.unusedCount + h.initialCount + h.drainingCount <= h.totalCount
  {
    if |d| > 0 {
      TallyPartition(arn, d[..|d| - 1]);
    }
  }

  /** One round of the health gate. */
  function HealthPoll(s: TestingState, arn: string, desired: int): Retryer.Poll
  {
    match HealthInfoOf(s, arn)
    case Err(e) => Retryer.Poll(Retryer.FinishRetry, Some(e))
    case Ok(h) => if h.healthyCount >= desired then Retryer.Poll(Retryer.FinishRetry, None) else Retryer.Continue
  }

  /** The health gate's handler when round `i` sees the state `snapshots(i)`. */
  function HealthHandler(snapshots: nat -> TestingState, arn: string, desired: int): nat -> Retryer.Poll
  {
    (i: nat) => HealthPoll(snapshots(i), arn, desired)
  }

  /** A gateway that nothing changes between polls. */
  function Frozen(s: TestingState): nat -> TestingState
  {
    i => s
  }

  /** `HealthCheck` against a state that does not change while it polls: it
      passes when the first poll already sees enough healthy targets, fails
      with the read error, and otherwise times out. */
  function HealthCheckResult(s: TestingState, c: Config.Config, arn: string, desired: int): (r: Option<Error>)
    requires Config.Valid(c)
    ensures var h := HealthInfoOf(s, arn);
      var maxLimit := c.retryPolicy.value.maxLimit;
      && (r.None? <==> maxLimit > 0 && h.Ok? && h.value.healthyCount >= desired)
      && (r == Some(RetryTimeout) <==> maxLimit <= 0 || (h.Ok? && h.value.healthyCount < desired))
      && (maxLimit > 0 && h.Err? ==> r == Some(RetryFailure(h.error)))
  {
    Retryer.ConstantRun(c.retryPolicy.value.maxLimit, HealthPoll(s, arn, desired)).err
  }

  /** The health gate over any succession of states: every poll but the last
      read the group and saw too few healthy targets, it passes exactly when
      the last poll saw enough, and it fails with a read error exactly when
      the last poll could not read the group. */
  lemma HealthGateOverTime(snapshots: nat -> TestingState, arn: string, desired: int, maxLimit: int)
    ensures var o := Retryer.Run(maxLimit, HealthHandler(snapshots, arn, desired));
      && o.calls <= Retryer.Budget(maxLimit)
      && (forall j :: 0 <= j < o.calls - 1 ==>
            HealthInfoOf(snapshots(j), arn).Ok? && HealthInfoOf(snapshots(j), arn).value.healthyCount < desired)
      && (o.err.None? <==>
            o.calls > 0 && HealthInfoOf(snapshots(o.calls - 1), arn).Ok? &&
            HealthInfoOf(snapshots(o.calls - 1), arn).value.healthyCount >= desired)
      && (o.err.Some? && o.err.value.RetryFailure? <==> o.calls > 0 && HealthInfoOf(snapshots(o.calls - 1), arn).Err?)
  {
    var handler := HealthHandler(snapshots, arn, desired);
    Retryer.RunShape(maxLimit, handler);
    var o := Retryer.Run(maxLimit, handler);
    forall j | 0 <= j < o.calls - 1
      ensures HealthInfoOf(snapshots(j), arn).Ok? && HealthInfoOf(snapshots(j), arn).value.healthyCount < desired
    {
      assert handler(j) == Retryer.Continue;
    }
  }

  // ---------------------------------------------------------------------
  // Traffic (internal/deployer.go:446-499).

  const StickinessSeconds := 10

  /** The forward action `UpdateTraffic` sends: the blue tuple, then the green
      one, and a fixed ten-second stickiness. */
  function TrafficRequest(c: Config.Config, blueWeight: int, greenWeight: int): ForwardConfig
    requires Config.Valid(c)
  {
    ForwardConfig(
      [TargetGroupTuple(TargetOf(c, BlueTargetType).targetGroupArn, blueWeight),
       TargetGroupTuple(TargetOf(c, GreenTargetType).targetGroupArn, greenWeight)],
      Stickiness(StickinessSeconds, true))
  }

  function UpdateTrafficStep(s: TestingState, c: Config.Config, blueWeight: int, greenWeight: int): Step
    requires Config.Valid(c)
  {
    ModifyALBListenerRuleStep(s, c.listenerRuleArn, TrafficRequest(c, blueWeight, greenWeight))
  }

  /** What `UpdateTraffic` does to the stored groups: with distinct fleet
      ARNs, each stored group of the blue ARN gets the blue weight, each of
      the green ARN the green weight, and every other group is untouched; the
      stored stickiness stays whatever it was. */
  lemma UpdateTrafficEffect(s: TestingState, c: Config.Config, blueWeight: int, greenWeight: int)
    requires Config.Valid(c)
    requires TargetOf(c, BlueTargetType).targetGroupArn != TargetOf(c, GreenTargetType).targetGroupArn
    ensures var r := UpdateTrafficStep(s, c, blueWeight, greenWeight);
      var before := s.loadBalancer.targetGroups;
      var after := r.state.loadBalancer.targetGroups;
      && r.state.loadBalancer.stickiness == s.loadBalancer.stickiness
      && |after| == |before|
      && forall i :: 0 <= i < |before| ==>
        after[i] ==
          if r.err.Some? then before[i]
          else if before[i].tuple.targetGroupArn == TargetOf(c, BlueTargetType).targetGroupArn then
            before[i].(tuple := TargetGroupTuple(before[i].tuple.targetGroupArn, blueWeight))
          else if before[i].tuple.targetGroupArn == TargetOf(c, GreenTargetType).targetGroupArn then
            before[i].(tuple := TargetGroupTuple(before[i].tuple.targetGroupArn, greenWeight))
          else before[i]
  {
    var request := TrafficRequest(c, blueWeight, greenWeight).targetGroups;
    OverwriteLastWins(s.loadBalancer.targetGroups, request);
    assert request[..1] == [request[0]];
  }

  /** `SwapTraffic`: with a positive hold, first 50/50; then the weights are
      read back and written exchanged. */
  function SwapTrafficStep(s: TestingState, c: Config.Config, hold: int): Step
    requires Config.Valid(c)
  {
    var first := if hold > 0 then UpdateTrafficStep(s, c, 50, 50) else Step(s, None);
    if first.err.Some? then first
    else
      var s1 := first.state;
      match DeployTargetOf(s1, c, BlueTargetType)
      case Err(e) => Step(s1, Some(e))
      case Ok(blue) =>
        match DeployTargetOf(s1, c, GreenTargetType)
        case Err(e) => Step(s1, Some(e))
        case Ok(green) => UpdateTrafficStep(s1, c, green.targetGroup.weight, blue.targetGroup.weight)
  }

  /** The first stored group with an ARN is the one the fake's rule shows. */
  lemma {:induction false} TupleOrder(tgs: seq<TargetGroup>, arn: string)
    ensures FirstIndex(Tuples(tgs), TupleArnIs(arn)) == FirstIndex(tgs, ArnIs(arn))
  {
    if |tgs| > 0 {
      TupleOrder(tgs[1..], arn);
      assert Tuples(tgs)[1..] == Tuples(tgs[1..]);
    }
  }

  /** The weight `GetDeployTarget` reads from the fake for a fleet whose ARN
      is stored: the weight of the first stored group with that ARN. */
  lemma ReadWeight(s: TestingState, c: Config.Config, t: TargetType, k: nat)
    requires Config.Valid(c) && IsFleet(t)
    requires DeployTargetOf(s, c, t).Ok?
    requires k < |s.loadBalancer.targetGroups| && s.loadBalancer.targetGroups[k].tuple.targetGroupArn == TargetOf(c, t).targetGroupArn
    requires forall j :: 0 <= j < k ==> s.loadBalancer.targetGroups[j].tuple.targetGroupArn != TargetOf(c, t).targetGroupArn
    ensures DeployTargetOf(s, c, t).value.targetType == t
    ensures DeployTargetOf(s, c, t).value.targetGroup == s.loadBalancer.targetGroups[k].tuple
  {
    var arn := TargetOf(c, t).targetGroupArn;
    var tgs := s.loadBalancer.targetGroups;
    var rule := GetALBListenerRule(s, c.listenerRuleArn);
    assert rule == Ok(Rule([Forward(ForwardConfig(Tuples(tgs), s.loadBalancer.stickiness))]));
    ForwardFindsFirst(tgs, s.loadBalancer.stickiness, arn, k);
  }

  /** The single forward action the fake reports yields the tuple of the
      first stored group with the ARN. */
  lemma ForwardFindsFirst(tgs: seq<TargetGroup>, stickiness: Stickiness, arn: string, k: nat)
    requires k < |tgs| && tgs[k].tuple.targetGroupArn == arn
    requires forall j :: 0 <= j < k ==> tgs[j].tuple.targetGroupArn != arn
    ensures FindTuple([Forward(ForwardConfig(Tuples(tgs), stickiness))], arn) == Some(tgs[k].tuple)
  {
    TupleOrder(tgs, arn);
    FirstIndexAt(tgs, ArnIs(arn), k);
    var actions := [Forward(ForwardConfig(Tuples(tgs), stickiness))];
    assert actions[..0] == [];
  }

  /** Every stored group of the blue ARN has weight `blueWeight`, and every
      one of the green ARN has weight `greenWeight`. */
  predicate FleetWeights(tgs: seq<TargetGroup>, blueArn: string, greenArn: string, blueWeight: int, greenWeight: int)
  {
    forall i :: 0 <= i < |tgs| ==>
      && (tgs[i].tuple.targetGroupArn == blueArn ==> tgs[i].tuple.weight == blueWeight)
      && (tgs[i].tuple.targetGroupArn == greenArn ==> tgs[i].tuple.weight == greenWeight)
  }

  /** A traffic update the rule accepts leaves the fleets at the requested
      weights and keeps every stored ARN, the groups and the rule. */
  lemma UpdateTrafficSetsWeights(s: TestingState, c: Config.Config, blueWeight: int, greenWeight: int)
    requires Config.Valid(c)
    requires TargetOf(c, BlueTargetType).targetGroupArn != TargetOf(c, GreenTargetType).targetGroupArn
    requires Fault(s, ModifyRule).None? && s.loadBalancer.listenerRuleArn == c.listenerRuleArn
    ensures var r := UpdateTrafficStep(s, c, blueWeight, greenWeight);
      var after := r.state.loadBalancer.targetGroups;
      && r.err.None?
      && FleetWeights(after, TargetOf(c, BlueTargetType).targetGroupArn, TargetOf(c, GreenTargetType).targetGroupArn, blueWeight, greenWeight)
      && r.state.groups == s.groups && r.state.failures == s.failures
      && r.state.loadBalancer.listenerRuleArn == s.loadBalancer.listenerRuleArn
      && |after| == |s.loadBalancer.targetGroups|
      && forall i :: 0 <= i < |after| ==> after[i].tuple.targetGroupArn == s.loadBalancer.targetGroups[i].tuple.targetGroupArn
  {
    UpdateTrafficEffect(s, c, blueWeight, greenWeight);
  }

  /** When every stored group of a fleet's ARN has the same weight, that is
      the weight `GetDeployTarget` reads for the fleet. */
  lemma ReadUniformWeight(s: TestingState, c: Config.Config, t: TargetType, k: nat, w: int)
    requires Config.Valid(c) && IsFleet(t)
    requires DeployTargetOf(s, c, t).Ok?
    requires k < |s.loadBalancer.targetGroups| && s.loadBalancer.targetGroups[k].tuple.targetGroupArn == TargetOf(c, t).targetGroupArn
    requires forall i :: 0 <= i < |s.loadBalancer.targetGroups| && s.loadBalancer.targetGroups[i].tuple.targetGroupArn == TargetOf(c, t).targetGroupArn ==>
      s.loadBalancer.targetGroups[i].tuple.weight == w
    ensures DeployTargetOf(s, c, t).value.targetGroup.weight == w
  {
    var f := FirstIndex(s.loadBalancer.targetGroups, ArnIs(TargetOf(c, t).targetGroupArn)).value;
    ReadWeight(s, c, t, f);
  }

  /** With a positive hold the swap writes 50/50, reads 50/50 back and writes
      it again: when both fleets are stored and readable, traffic ends split
      evenly rather than moved to the idle fleet. */
  lemma SwapWithHoldEndsEven(s: TestingState, c: Config.Config, hold: int, kb: nat, kg: nat)
    requires Config.Valid(c) && hold > 0
    requires TargetOf(c, BlueTargetType).targetGroupArn != TargetOf(c, GreenTargetType).targetGroupArn
    requires Fault(s, ModifyRule).None?
    requires DeployTargetOf(s, c, BlueTargetType).Ok? && DeployTargetOf(s, c, GreenTargetType).Ok?
    requires kb < |s.loadBalancer.targetGroups| && s.loadBalancer.targetGroups[kb].tuple.targetGroupArn == TargetOf(c, BlueTargetType).targetGroupArn
    requires kg < |s.loadBalancer.targetGroups| && s.loadBalancer.targetGroups[kg].tuple.targetGroupArn == TargetOf(c, GreenTargetType).targetGroupArn
    ensures var r := SwapTrafficStep(s, c, hold);
      && r.err.None?
      && FleetWeights(r.state.loadBalancer.targetGroups, TargetOf(c, BlueTargetType).targetGroupArn, TargetOf(c, GreenTargetType).targetGroupArn, 50, 50)
  {
    var first := UpdateTrafficStep(s, c, 50, 50);
    UpdateTrafficSetsWeights(s, c, 50, 50);
    var s1 := first.state;
    assert DeployTargetOf(s1, c, BlueTargetType).Ok?;
    assert DeployTargetOf(s1, c, GreenTargetType).Ok?;
    ReadUniformWeight(s1, c, BlueTargetType, kb, 50);
    ReadUniformWeight(s1, c, GreenTargetType, kg, 50);
    UpdateTrafficSetsWeights(s1, c, 50, 50);
  }

  /** With no hold the swap exchanges the two fleets' weights. */
  lemma SwapWithoutHoldExchanges(s: TestingState, c: Config.Config, hold: int, kb: nat, kg: nat)
    requires Config.Valid(c) && hold <= 0
    requires TargetOf(c, BlueTargetType).targetGroupArn != TargetOf(c, GreenTargetType).targetGroupArn
    requires Fault(s, ModifyRule).None?
    requires DeployTargetOf(s, c, BlueTargetType).Ok? && DeployTargetOf(s, c, GreenTargetType).Ok?
    requires kb < |s.loadBalancer.targetGroups| && s.loadBalancer.targetGroups[kb].tuple.targetGroupArn == TargetOf(c, BlueTargetType).targetGroupArn
    requires kg < |s.loadBalancer.targetGroups| && s.loadBalancer.targetGroups[kg].tuple.targetGroupArn == TargetOf(c, GreenTargetType).targetGroupArn
    requires forall j :: 0 <= j < kb ==> s.loadBalancer.targetGroups[j].tuple.targetGroupArn != TargetOf(c, BlueTargetType).targetGroupArn
    requires forall j :: 0 <= j < kg ==> s.loadBalancer.targetGroups[j].tuple.targetGroupArn != TargetOf(c, GreenTargetType).targetGroupArn
    ensures var r := SwapTrafficStep(s, c, hold);
      var after := r.state.loadBalancer.targetGroups;
      && r.err.None?
      && |after| == |s.loadBalancer.targetGroups|
      && after[kb].tuple.weight == s.loadBalancer.targetGroups[kg].tuple.weight
      && after[kg].tuple.weight == s.loadBalancer.targetGroups[kb].tuple.weight
  {
    ReadWeight(s, c, BlueTargetType, kb);
    ReadWeight(s, c, GreenTargetType, kg);
    UpdateTrafficEffect(s, c, s.loadBalancer.targetGroups[kg].tuple.weight, s.loadBalancer.targetGroups[kb].tuple.weight);
  }

  // ---------------------------------------------------------------------
  // Capacity (internal/deployer.go:501-520).

  /** The field `UpdateAutoScalingGroup` sends for a capacity argument: only a
      given, non-negative value. */
  function SentField(v: Option<int>): (r: Option<int>)
    ensures r.Some? <==> v.Some? && v.value >= 0
    ensures r.Some? ==> r == v
  {
    if v.Some? && v.value >= 0 then v else None
  }

  function UpdateCapacityStep(s: TestingState, name: string, desiredCapacity: Option<int>, minSize: Option<int>, maxSize: Option<int>): Step
  {
    UpdateAutoScalingGroupStep(s, name, SentField(desiredCapacity), SentField(minSize), SentField(maxSize))
  }

  /** A capacity update sets each given, non-negative field of every group
      with that name; a missing or negative argument leaves its field as it
      was, and no other group, the load balancer or the bucket changes. */
  lemma CapacityUpdateEffect(s: TestingState, name: string, desiredCapacity: Option<int>, minSize: Option<int>, maxSize: Option<int>, i: nat)
    requires Fault(s, UpdateGroup(name)).None?
    requires i < |s.groups|
    ensures var t := UpdateCapacityStep(s, name, desiredCapacity, minSize, maxSize).state;
      var g := s.groups[i].group;
      var h := t.groups[i].group;
      && t.bucket == s.bucket && t.loadBalancer == s.loadBalancer
      && t.groups[i].scheduledActions == s.groups[i].scheduledActions
      && (g.name != name ==> h == g)
      && (g.name == name ==>
            && h.desiredCapacity == (if desiredCapacity.Some? && desiredCapacity.value >= 0 then desiredCapacity.value else g.desiredCapacity)
            && h.minSize == (if minSize.Some? && minSize.value >= 0 then minSize.value else g.minSize)
            && h.maxSize == (if maxSize.Some? && maxSize.value >= 0 then maxSize.value else g.maxSize))
  {
    var r := UpdateCapacityStep(s, name, desiredCapacity, minSize, maxSize);
    assert r.state.groups[i] == UpdatedEntry(s.groups[i], name, SentField(desiredCapacity), SentField(minSize), SentField(maxSize));
  }

  // ---------------------------------------------------------------------
  // Cleanup (internal/deployer.go:522-564).

  /** One round of the drain wait. */
  function DrainPoll(s: TestingState, name: string): Retryer.Poll
  {
    match DescribeAutoScalingGroup(s, name)
    case Err(e) => Retryer.Poll(Retryer.FinishRetry, Some(e))
    case Ok(g) => if |g.instances| <= 0 then Retryer.Poll(Retryer.FinishRetry, None) else Retryer.Continue
  }

  function DrainHandler(snapshots: nat -> TestingState, name: string): nat -> Retryer.Poll
  {
    (i: nat) => DrainPoll(snapshots(i), name)
  }

  /** The state after a cleanup, its result and its error. */
  datatype Cleanup = Cleanup(state: TestingState, result: ProcessResult, err: Option<Error>)

  /** `CleanupAutoScalingGroup`: a group with no instances is skipped;
      otherwise desired and minimum go to 0, the maximum is left, and the
      drain wait's error is returned beside `ProcessCompleted`. */
  function CleanupStep(s: TestingState, c: Config.Config, group: AutoScalingGroup): (r: Cleanup)
    requires Config.Valid(c)
    ensures |group.instances| == 0 ==> r == Cleanup(s, ProcessSkipped, None)
    ensures r.result == ProcessSkipped && |group.instances| > 0 ==> r.err.Some? && r.state == s
    ensures r.result == ProcessCompleted ==>
      && |group.instances| > 0
      && r.state == UpdateAutoScalingGroupStep(s, group.name, Some(0), Some(0), None).state
      && r.err == Retryer.ConstantRun(c.retryPolicy.value.maxLimit, DrainPoll(r.state, group.name)).err
    ensures r.state.loadBalancer == s.loadBalancer && r.state.bucket == s.bucket
  {
    if |group.instances| <= 0 then Cleanup(s, ProcessSkipped, None)
    else
      var u := UpdateCapacityStep(s, group.name, Some(0), Some(0), None);
      if u.err.Some? then Cleanup(u.state, ProcessSkipped, u.err)
      else
        Cleanup(u.state, ProcessCompleted,
          Retryer.ConstantRun(c.retryPolicy.value.maxLimit, DrainPoll(u.state, group.name)).err)
  }

  /** The fake never removes instances, so cleaning up a group that still has
      instances at the gateway reports `ProcessCompleted` together with a
      `RetryTimeout` (or the drain's read error when the budget allows a
      poll and the group cannot be read, which cannot happen here). */
  lemma CleanupNeverDrains(s: TestingState, c: Config.Config, group: AutoScalingGroup)
    requires Config.Valid(c)
    requires |group.instances| > 0
    requires Fault(s, UpdateGroup(group.name)).None? && Fault(s, DescribeGroup(group.name)).None?
    requires DescribeAutoScalingGroup(s, group.name).Ok? && |DescribeAutoScalingGroup(s, group.name).value.instances| > 0
    ensures CleanupStep(s, c, group).result == ProcessCompleted
    ensures CleanupStep(s, c, group).err == Some(RetryTimeout)
  {
    var u := UpdateCapacityStep(s, group.name, Some(0), Some(0), None);
    assert u.err.None?;
    ScaledDownKeepsInstances(s, group.name);
    var maxLimit := c.retryPolicy.value.maxLimit;
    assert Retryer.ConstantRun(maxLimit, Retryer.Continue).err == Some(RetryTimeout);
    assert CleanupStep(s, c, group) == Cleanup(u.state, ProcessCompleted, Retryer.ConstantRun(maxLimit, Retryer.Continue).err);
  }

  /** After the scale-down the drain poll still finds instances. */
  lemma ScaledDownKeepsInstances(s: TestingState, name: string)
    requires Fault(s, UpdateGroup(name)).None? && Fault(s, DescribeGroup(name)).None?
    requires DescribeAutoScalingGroup(s, name).Ok? && |DescribeAutoScalingGroup(s, name).value.instances| > 0
    ensures DrainPoll(UpdateCapacityStep(s, name, Some(0), Some(0), None).state, name) == Retryer.Continue
  {
    var k := FirstIndex(s.groups, GroupNamed(name)).value;
    UpdateKeepsInstances(s, name, k);
  }

  /** Scaling to zero finds the same first group and leaves its instances. */
  lemma UpdateKeepsInstances(s: TestingState, name: string, k: nat)
    requires Fault(s, UpdateGroup(name)).None?
    requires FirstIndex(s.groups, GroupNamed(name)) == Some(k)
    ensures var t := UpdateCapacityStep(s, name, Some(0), Some(0), None).state;
      && t.failures == s.failures
      && FirstIndex(t.groups, GroupNamed(name)) == Some(k)
      && t.groups[k].group.instances == s.groups[k].group.instances
  {
    var u := UpdateCapacityStep(s, name, Some(0), Some(0), None);
    assert u.state.groups[k] == UpdatedEntry(s.groups[k], name, Some(0), Some(0), None);
    forall j | 0 <= j < k
      ensures u.state.groups[j].group.name != name
    {
      assert u.state.groups[j] == UpdatedEntry(s.groups[j], name, Some(0), Some(0), None);
    }
  }

  // ---------------------------------------------------------------------
  // Scheduled actions (internal/deployer.go:566-608).

  /** The schedule of an action: every field the move copies. */
  predicate SameSchedule(a: ScheduledAction, b: ScheduledAction)
  {
    && a.name == b.name
    && a.desiredCapacity == b.desiredCapacity && a.minSize == b.minSize && a.maxSize == b.maxSize
    && a.recurrence == b.recurrence && a.startTime == b.startTime && a.endTime == b.endTime
    && a.time == b.time && a.timeZone == b.timeZone
  }

  /** The action the move puts on the target group: the same schedule under
      the target group's name, with no ARN of its own yet. */
  function CopyOf(a: ScheduledAction, to: string): (r: ScheduledAction)
    ensures SameSchedule(r, a) && r.groupName == to && r.arn.None?
  {
    ScheduledAction(to, a.name, None, a.desiredCapacity, a.minSize, a.maxSize, a.recurrence,
      a.startTime, a.endTime, a.time, a.timeZone)
  }

  /** Moving one action: put the copy; only when that worked, delete the
      original from the group the action names. A failed delete is only
      logged. */
  function MoveOne(s: TestingState, to: string, a: ScheduledAction): TestingState
  {
    var put := PutScheduledUpdateGroupActionStep(s, to, CopyOf(a, to));
    if put.err.Some? then put.state
    else DeleteScheduledActionStep(put.state, a.groupName, a.name).state
  }

  function MoveAll(s: TestingState, to: string, actions: seq<ScheduledAction>): TestingState
  {
    if |actions| == 0 then s
    else MoveOne(MoveAll(s, to, actions[..|actions| - 1]), to, actions[|actions| - 1])
  }

  /** `MoveScheduledActions`: once the source group's actions are read, the
      move never reports an error. */
  function MoveStep(s: TestingState, from: string, to: string): (r: Step)
    ensures r.err.None? <==> DescribeScheduledActions(s, from).Ok?
    ensures r.err.Some? ==> r.state == s
  {
    match DescribeScheduledActions(s, from)
    case Err(e) => Step(s, Some(e))
    case Ok(actions) => Step(MoveAll(s, to, actions), None)
  }

  /** One move, group by group: a refused copy changes nothing; otherwise a
      group named `to` gains the copy, which keeps the action's schedule, and
      a group named as the action says loses one action of that name unless
      the delete is refused; group settings never change. */
  lemma MoveOneEffect(s: TestingState, to: string, a: ScheduledAction, i: nat)
    requires i < |s.groups|
    requires a.groupName != to
    ensures var t := MoveOne(s, to, a);
      && (Fault(s, PutAction(to, a.name)).Some? ==> t == s)
      && |t.groups| == |s.groups|
      && t.groups[i].group == s.groups[i].group
      && (Fault(s, PutAction(to, a.name)).None? && s.groups[i].group.name == to ==>
            t.groups[i].scheduledActions == s.groups[i].scheduledActions + [CopyOf(a, to)] &&
            SameSchedule(CopyOf(a, to), a))
      && (Fault(s, PutAction(to, a.name)).None? && s.groups[i].group.name == a.groupName ==>
            t.groups[i].scheduledActions ==
              if Fault(s, DeleteAction(a.groupName, a.name)).Some? then s.groups[i].scheduledActions
              else FastDelete(s.groups[i].scheduledActions, ActionNamed(a.name)))
      && (s.groups[i].group.name != to && s.groups[i].group.name != a.groupName ==> t.groups[i] == s.groups[i])
  {
    var put := PutScheduledUpdateGroupActionStep(s, to, CopyOf(a, to));
    if put.err.None? {
      assert put.state.failures == s.failures;
      var del := DeleteScheduledActionStep(put.state, a.groupName, a.name);
      assert del.state.groups[i].group == put.state.groups[i].group;
    }
  }

  // ---------------------------------------------------------------------
  // Status (internal/deployer.go:193-285). The table is not modelled; its
  // reads are, since any of them failing fails the caller.

  /** `decideDeployTarget`: a fleet taken from `info` when given, else read. */
  function DecideTarget(s: TestingState, c: Config.Config, info: Option<DeployInfo>, t: TargetType): Result<DeployTarget>
    requires Config.Valid(c)
  {
    if info.Some? then
      if info.value.idling.targetType == t then Ok(info.value.idling)
      else if info.value.running.targetType == t then Ok(info.value.running)
      else Err(Failure(TargetTypePrefix + t + NoSuchTargetTypeInInfo))
    else DeployTargetOf(s, c, t)
  }

  /** The error `ShowStatus` returns: the first failing read among both
      fleets, both target-group names and both health tallies. */
  function StatusError(s: TestingState, c: Config.Config, info: Option<DeployInfo>): (r: Option<Error>)
    requires Config.Valid(c)
    ensures r.None? ==>
      && DecideTarget(s, c, info, BlueTargetType).Ok? && DecideTarget(s, c, info, GreenTargetType).Ok?
      && HealthInfoOf(s, TargetOf(c, BlueTargetType).targetGroupArn).Ok?
      && HealthInfoOf(s, TargetOf(c, GreenTargetType).targetGroupArn).Ok?
    ensures r.Some? ==> !r.value.RetryTimeout? && !r.value.RetryFailure?
  {
    var blueArn := TargetOf(c, BlueTargetType).targetGroupArn;
    var greenArn := TargetOf(c, GreenTargetType).targetGroupArn;
    var blue := DecideTarget(s, c, info, BlueTargetType);
    if blue.Err? then Some(blue.error)
    else
      var green := DecideTarget(s, c, info, GreenTargetType);
      if green.Err? then Some(green.error)
      else
        var blueName := DescribeALBTargetGroup(s, blueArn);
        if blueName.Err? then Some(blueName.error)
        else
          var greenName := DescribeALBTargetGroup(s, greenArn);
          if greenName.Err? then Some(greenName.error)
          else
            var blueHealth := HealthInfoOf(s, blueArn);
            if blueHealth.Err? then Some(blueHealth.error)
            else
              var greenHealth := HealthInfoOf(s, greenArn);
              if greenHealth.Err? then Some(greenHealth.error)
              else None
  }

  // ---------------------------------------------------------------------
  // Deploy (internal/deployer.go:319-416).

  /** The optional cleanup of the idle fleet before the rollout, followed by
      a status read when it completed. */
  function CleanupBeforeStep(s: TestingState, c: Config.Config, info: DeployInfo): (r: Step)
    requires Config.Valid(c)
    ensures r.state.loadBalancer == s.loadBalancer
  {
    var cl := CleanupStep(s, c, info.idling.group);
    if cl.err.Some? then Step(cl.state, cl.err)
    else if cl.result == ProcessCompleted then Step(cl.state, StatusError(cl.state, c, None))
    else Step(cl.state, None)
  }

  /** The swap and the status read after it. */
  function SwapAndShowStep(s: TestingState, c: Config.Config, hold: int): (r: Step)
    requires Config.Valid(c)
    ensures r.err.Some? ==> !r.err.value.RetryTimeout?
  {
    var w := SwapTrafficStep(s, c, hold);
    if w.err.Some? then w else Step(w.state, StatusError(w.state, c, None))
  }

  /** After the swap: re-resolve the fleets and set only the new idle
      group's minimum size to 0, then read the status. */
  function ScaleInStep(s: TestingState, c: Config.Config): (r: Step)
    requires Config.Valid(c)
    ensures r.err.Some? ==> !r.err.value.RetryTimeout?
    ensures r.state.loadBalancer == s.loadBalancer
  {
    match DeployInfoOf(s, c)
    case Err(e) => Step(s, Some(e))
    case Ok(info) =>
      var u := UpdateCapacityStep(s, info.idling.group.name, None, Some(0), None);
      if u.err.Some? then u else Step(u.state, StatusError(u.state, c, None))
  }

  /** What follows a passed health gate: the optional swap, then the
      optional scale-in. */
  function FinishStep(s: TestingState, c: Config.Config, swap: bool, cleanupAfterDeploy: bool, hold: int): (r: Step)
    requires Config.Valid(c)
  {
    var w := if swap then SwapAndShowStep(s, c, hold) else Step(s, None);
    if w.err.Some? then w
    else if cleanupAfterDeploy then ScaleInStep(w.state, c)
    else Step(w.state, None)
  }

  /** The health gate on the idle target group `arn`, the status read, and
      what follows them. */
  function GatedStep(s: TestingState, c: Config.Config, arn: string, desired: int, swap: bool, cleanupAfterDeploy: bool, hold: int): (r: Step)
    requires Config.Valid(c)
  {
    var h := HealthCheckResult(s, c, arn, desired);
    if h.Some? then Step(s, h)
    else
      var e := StatusError(s, c, None);
      if e.Some? then Step(s, e)
      else FinishStep(s, c, swap, cleanupAfterDeploy, hold)
  }

  /** The capacity copy, the health gate and what follows it. */
  function RolloutStep(s: TestingState, c: Config.Config, info: DeployInfo, swap: bool, cleanupAfterDeploy: bool, hold: int): (r: Step)
    requires Config.Valid(c)
  {
    var running := info.running.group;
    var u := UpdateCapacityStep(s, info.idling.group.name,
      Some(running.desiredCapacity), Some(running.minSize), Some(running.maxSize));
    if u.err.Some? then u
    else GatedStep(u.state, c, info.idling.targetGroup.targetGroupArn, running.desiredCapacity, swap, cleanupAfterDeploy, hold)
  }

  /** The rollout passes the health gate only when, after the idle group
      took the running group's capacity, the idle target group reports at
      least the running group's desired count as healthy. Only the swap
      touches the rule, and a `RetryTimeout` comes before any swap. */
  lemma RolloutFacts(s: TestingState, c: Config.Config, info: DeployInfo, swap: bool, cleanupAfterDeploy: bool, hold: int)
    requires Config.Valid(c)
    ensures var running := info.running.group;
      var u := UpdateCapacityStep(s, info.idling.group.name,
        Some(running.desiredCapacity), Some(running.minSize), Some(running.maxSize));
      var health := HealthInfoOf(u.state, info.idling.targetGroup.targetGroupArn);
      RolloutStep(s, c, info, swap, cleanupAfterDeploy, hold).err.None? ==>
        && u.err.None?
        && health.Ok? && health.value.healthyCount >= running.desiredCapacity
    ensures var r := RolloutStep(s, c, info, swap, cleanupAfterDeploy, hold);
      r.err == Some(RetryTimeout) ==> r.state.loadBalancer == s.loadBalancer
    ensures !swap ==> RolloutStep(s, c, info, swap, cleanupAfterDeploy, hold).state.loadBalancer == s.loadBalancer
  {
    var running := info.running.group;
    var u := UpdateCapacityStep(s, info.idling.group.name,
      Some(running.desiredCapacity), Some(running.minSize), Some(running.maxSize));
    if u.err.Some? {
      return;
    }
    var h := HealthCheckResult(u.state, c, info.idling.targetGroup.targetGroupArn, running.desiredCapacity);
    if h.Some? {
      return;
    }
    var e := StatusError(u.state, c, None);
    if e.Some? {
      return;
    }
    var w := if swap then SwapAndShowStep(u.state, c, hold) else Step(u.state, None);
    if w.err.Some? {
      return;
    }
    if cleanupAfterDeploy {
      var z := ScaleInStep(w.state, c);
      assert RolloutStep(s, c, info, swap, cleanupAfterDeploy, hold) == z;
    }
  }

  /** `Deploy`: resolve the fleets, show the status, optionally clean up the
      idle fleet, then roll out. */
  function DeployStep(s: TestingState, c: Config.Config, swap: bool, cleanupBeforeDeploy: bool, cleanupAfterDeploy: bool, hold: int): (r: Step)
    requires Config.Valid(c)
  {
    match DeployInfoOf(s, c)
    case Err(e) => Step(s, Some(e))
    case Ok(info) =>
      var e := StatusError(s, c, Some(info));
      if e.Some? then Step(s, e)
      else
        var b := if cleanupBeforeDeploy then CleanupBeforeStep(s, c, info) else Step(s, None);
        if b.err.Some? then b
        else RolloutStep(b.state, c, info, swap, cleanupAfterDeploy, hold)
  }

  /** Traffic moves only through the swap: a deployment without it leaves
      the rule as it was, and one that ends in `RetryTimeout` (the drain or
      the health gate giving up) has not touched the rule either, and is
      not rolled back. */
  lemma DeployRoutingChangesOnlyBySwap(s: TestingState, c: Config.Config, swap: bool, cleanupBeforeDeploy: bool, cleanupAfterDeploy: bool, hold: int)
    requires Config.Valid(c)
    ensures var r := DeployStep(s, c, swap, cleanupBeforeDeploy, cleanupAfterDeploy, hold);
      && (!swap ==> r.state.loadBalancer == s.loadBalancer)
      && (r.err == Some(RetryTimeout) ==> r.state.loadBalancer == s.loadBalancer)
  {
    match DeployInfoOf(s, c)
    case Err(e) =>
    case Ok(info) =>
      var r := DeployStep(s, c, swap, cleanupBeforeDeploy, cleanupAfterDeploy, hold);
      var e := StatusError(s, c, Some(info));
      if e.Some? {
        assert r == Step(s, e);
      } else {
        var b := if cleanupBeforeDeploy then CleanupBeforeStep(s, c, info) else Step(s, None);
        if b.err.Some? {
          assert r == b;
        } else {
          RolloutFacts(b.state, c, info, swap, cleanupAfterDeploy, hold);
          assert r == RolloutStep(b.state, c, info, swap, cleanupAfterDeploy, hold);
        }
      }
  }

  // ---------------------------------------------------------------------
  // The controller.

  class Deployer {
    const config: Config.Config
    const gw: MockAwsClient

    /** `NewDeployer`. */
    constructor (config: Config.Config, gw: MockAwsClient)
      ensures this.config == config && this.gw == gw
    {
      this.config := config;
      this.gw := gw;
    }

    /** `getHealthInfo` (internal/deployer.go:95-118). */
    method GetHealthInfo(arn: string) returns (r: Result<HealthInfo>)
      ensures r == HealthInfoOf(gw.State(), arn)
    {
      var health := DescribeALBTargetHealth(gw.State(), arn);
      if health.Err? {
        return Err(health.error);
      }
      var d := health.value;
      var healthy := Util.Count(d, IsState(Healthy));
      var unhealthy := Util.Count(d, IsState(Unhealthy));
      var unused := Util.Count(d, IsState(Unused));
      var initial := Util.Count(d, IsState(Initial));
      var draining := Util.Count(d, IsState(Draining));
      return Ok(HealthInfo(arn, |d|, healthy, unhealthy, unused, initial, draining));
    }

    /** The counts of `getLifecycleStates` (internal/deployer.go:120-128):
        one entry per lifecycle state present, holding how many instances
        are in it. */
    method LifecycleCounts(group: AutoScalingGroup) returns (counts: map<LifecycleState, nat>)
      ensures forall st :: st in counts <==> exists i :: 0 <= i < |group.instances| && group.instances[i].lifecycleState == st
      ensures forall st :: st in counts ==> counts[st] == Util.CountOf(group.instances, InState(st))
    {
      var instances := group.instances;
      counts := map[];
      for i := 0 to |instances|
        invariant forall st :: st in counts <==> exists j :: 0 <= j < i && instances[j].lifecycleState == st
        invariant forall st :: st in counts ==> counts[st] == Util.CountOf(instances[..i], InState(st))
        invariant forall st :: st !in counts ==> Util.CountOf(instances[..i], InState(st)) == 0
      {
        var st := instances[i].lifecycleState;
        assert instances[..i + 1][..i] == instances[..i];
        if st in counts {
          counts := counts[st := counts[st] + 1];
        } else {
          counts := counts[st := 1];
        }
      }
      assert instances[..|instances|] == instances;
    }

    /** `GetDeployTarget` (internal/deployer.go:140-191). */
    method GetDeployTarget(targetType: TargetType) returns (r: Result<DeployTarget>)
      requires Config.Valid(config)
      ensures r == DeployTargetOf(gw.State(), config, targetType)
    {
      var target: Config.Target;
      if targetType == BlueTargetType {
        target := config.target.value.blue.value;
      } else if targetType == GreenTargetType {
        target := config.target.value.green.value;
      } else {
        return Err(Failure(TargetTypePrefix + targetType + NoSuchTargetType));
      }
      var ruleOutput := GetALBListenerRule(gw.State(), config.listenerRuleArn);
      if ruleOutput.Err? {
        return Err(ruleOutput.error);
      }
      var actions := ruleOutput.value.actions;
      var tuple: Option<TargetGroupTuple> := None;
      for i := 0 to |actions|
        invariant tuple == FindTuple(actions[..i], target.targetGroupArn)
      {
        assert actions[..i + 1][..i] == actions[..i];
        if actions[i].Forward? {
          var tgs := actions[i].config.targetGroups;
          var found := false;
          for j := 0 to |tgs|
            invariant !found ==> tuple == FindTuple(actions[..i], target.targetGroupArn)
            invariant !found ==> forall k :: 0 <= k < j ==> tgs[k].targetGroupArn != target.targetGroupArn
            invariant found ==> tuple == FirstOrNil(tgs, TupleArnIs(target.targetGroupArn))
          {
            if !found && tgs[j].targetGroupArn == target.targetGroupArn {
              tuple := Some(tgs[j]);
              found := true;
            }
          }
        }
      }
      assert actions[..|actions|] == actions;
      var asgOutput := DescribeAutoScalingGroup(gw.State(), target.autoScalingGroupName);
      if asgOutput.Err? {
        return Err(asgOutput.error);
      }
      if tuple.None? {
        return Ok(DeployTarget(UnknownTargetType, TargetGroupTuple("missing", 0), asgOutput.value));
      }
      return Ok(DeployTarget(targetType, tuple.value, asgOutput.value));
    }

    /** `GetDeployInfo` (internal/deployer.go:287-317). */
    method GetDeployInfo() returns (r: Result<DeployInfo>)
      requires Config.Valid(config)
      ensures r == DeployInfoOf(gw.State(), config)
    {
      var blue := GetDeployTarget(BlueTargetType);
      if blue.Err? {
        return Err(blue.error);
      }
      if blue.value.targetType == UnknownTargetType {
        return Err(Failure(BlueNotFound));
      }
      var green := GetDeployTarget(GreenTargetType);
      if green.Err? {
        return Err(green.error);
      }
      if green.value.targetType == UnknownTargetType {
        return Err(Failure(GreenNotFound));
      }
      if blue.value.targetGroup.weight > 0 && green.value.targetGroup.weight <= 0 {
        return Ok(DeployInfo(green.value, blue.value));
      } else if green.value.targetGroup.weight > 0 && blue.value.targetGroup.weight <= 0 {
        return Ok(DeployInfo(blue.value, green.value));
      }
      return Err(Failure(NotIdentified));
    }

    /** The reads of `ShowStatus` (internal/deployer.go:193-243). */
    method ShowStatus(info: Option<DeployInfo>) returns (err: Option<Error>)
      requires Config.Valid(config)
      ensures err == StatusError(gw.State(), config, info)
    {
      var blue := DecideDeployTarget(info, BlueTargetType);
      if blue.Err? {
        return Some(blue.error);
      }
      var green := DecideDeployTarget(info, GreenTargetType);
      if green.Err? {
        return Some(green.error);
      }
      var blueArn := config.target.value.blue.value.targetGroupArn;
      var greenArn := config.target.value.green.value.targetGroupArn;
      var blueName := DescribeALBTargetGroup(gw.State(), blueArn);
      if blueName.Err? {
        return Some(blueName.error);
      }
      var greenName := DescribeALBTargetGroup(gw.State(), greenArn);
      if greenName.Err? {
        return Some(greenName.error);
      }
      var blueHealth := GetHealthInfo(blueArn);
      if blueHealth.Err? {
        return Some(blueHealth.error);
      }
      var greenHealth := GetHealthInfo(greenArn);
      if greenHealth.Err? {
        return Some(greenHealth.error);
      }
      return None;
    }

    method DecideDeployTarget(info: Option<DeployInfo>, targetType: TargetType) returns (r: Result<DeployTarget>)
      requires Config.Valid(config)
      ensures r == DecideTarget(gw.State(), config, info, targetType)
    {
      if info.Some? {
        if info.value.idling.targetType == targetType {
          return Ok(info.value.idling);
        } else if info.value.running.targetType == targetType {
          return Ok(info.value.running);
        }
        return Err(Failure(TargetTypePrefix + targetType + NoSuchTargetTypeInInfo));
      }
      r := GetDeployTarget(targetType);
    }

    /** `HealthCheck` (internal/deployer.go:418-444). */
    method HealthCheck(arn: string, desired: int) returns (err: Option<Error>)
      requires Config.Valid(config)
      ensures err == HealthCheckResult(gw.State(), config, arn, desired)
    {
      var maxLimit := config.retryPolicy.value.maxLimit;
      var handler := HealthHandler(Frozen(gw.State()), arn, desired);
      var indices, sleeps;
      err, indices, sleeps := Retryer.Start(maxLimit, handler);
      Retryer.RunConstant(maxLimit, handler, HealthPoll(gw.State(), arn, desired));
    }

    /** `UpdateTraffic` (internal/deployer.go:446-476). */
    method UpdateTraffic(blueWeight: int, greenWeight: int) returns (err: Option<Error>)
      requires Config.Valid(config)
      modifies gw
      ensures Step(gw.State(), err) == UpdateTrafficStep(old(gw.State()), config, blueWeight, greenWeight)
    {
      err := gw.ModifyALBListenerRule(config.listenerRuleArn, TrafficRequest(config, blueWeight, greenWeight));
    }

    /** `SwapTraffic` (internal/deployer.go:478-499); the hold is not waited. */
    method SwapTraffic(hold: int) returns (err: Option<Error>)
      requires Config.Valid(config)
      modifies gw
      ensures Step(gw.State(), err) == SwapTrafficStep(old(gw.State()), config, hold)
    {
      if hold > 0 {
        err := UpdateTraffic(50, 50);
        if err.Some? {
          return;
        }
      }
      var blue := GetDeployTarget(BlueTargetType);
      if blue.Err? {
        return Some(blue.error);
      }
      var green := GetDeployTarget(GreenTargetType);
      if green.Err? {
        return Some(green.error);
      }
      err := UpdateTraffic(green.value.targetGroup.weight, blue.value.targetGroup.weight);
    }

    /** `UpdateAutoScalingGroup` (internal/deployer.go:501-520). */
    method UpdateAutoScalingGroup(name: string, desiredCapacity: Option<int>, minSize: Option<int>, maxSize: Option<int>)
      returns (err: Option<Error>)
      modifies gw
      ensures Step(gw.State(), err) == UpdateCapacityStep(old(gw.State()), name, desiredCapacity, minSize, maxSize)
    {
      var d: Option<int> := None;
      var mn: Option<int> := None;
      var mx: Option<int> := None;
      if desiredCapacity.Some? && desiredCapacity.value >= 0 {
        d := desiredCapacity;
      }
      if minSize.Some? && minSize.value >= 0 {
        mn := minSize;
      }
      if maxSize.Some? && maxSize.value >= 0 {
        mx := maxSize;
      }
      err := gw.UpdateAutoScalingGroup(name, d, mn, mx);
    }

    /** `CleanupAutoScalingGroup` (internal/deployer.go:522-564). */
    method CleanupAutoScalingGroup(group: AutoScalingGroup) returns (result: ProcessResult, err: Option<Error>)
      requires Config.Valid(config)
      modifies gw
      ensures Cleanup(gw.State(), result, err) == CleanupStep(old(gw.State()), config, group)
    {
      if |group.instances| <= 0 {
        return ProcessSkipped, None;
      }
      err := UpdateAutoScalingGroup(group.name, Some(0), Some(0), None);
      if err.Some? {
        return ProcessSkipped, err;
      }
      var maxLimit := config.retryPolicy.value.maxLimit;
      var handler := DrainHandler(Frozen(gw.State()), group.name);
      var indices, sleeps;
      err, indices, sleeps := Retryer.Start(maxLimit, handler);
      Retryer.RunConstant(maxLimit, handler, DrainPoll(gw.State(), group.name));
      return ProcessCompleted, err;
    }

    /** `MoveScheduledActions` (internal/deployer.go:566-608). */
    method MoveScheduledActions(from: string, to: string) returns (err: Option<Error>)
      modifies gw
      ensures Step(gw.State(), err) == MoveStep(old(gw.State()), from, to)
    {
      var output := DescribeScheduledActions(gw.State(), from);
      if output.Err? {
        return Some(output.error);
      }
      var actions := output.value;
      if |actions| <= 0 {
        return None;
      }
      for i := 0 to |actions|
        invariant gw.State() == MoveAll(old(gw.State()), to, actions[..i])
      {
        assert actions[..i + 1][..i] == actions[..i];
        var a := actions[i];
        var e := gw.PutScheduledUpdateGroupAction(to, CopyOf(a, to));
        if e.None? {
          e := gw.DeleteScheduledAction(a.groupName, a.name);
        }
      }
      assert actions[..|actions|] == actions;
      return None;
    }

    /** `Deploy` (internal/deployer.go:319-416); the hold is `swapDuration`. */
    method Deploy(swap: bool, cleanupBeforeDeploy: bool, cleanupAfterDeploy: bool, swapDuration: int) returns (err: Option<Error>)
      requires Config.Valid(config)
      modifies gw
      ensures Step(gw.State(), err) == DeployStep(old(gw.State()), config, swap, cleanupBeforeDeploy, cleanupAfterDeploy, swapDuration)
    {
      var info := GetDeployInfo();
      if info.Err? {
        return Some(info.error);
      }
      err := ShowStatus(Some(info.value));
      if err.Some? {
        return;
      }
      if cleanupBeforeDeploy {
        var result;
        result, err := CleanupAutoScalingGroup(info.value.idling.group);
        if err.Some? {
          return;
        }
        if result == ProcessCompleted {
          err := ShowStatus(None);
          if err.Some? {
            return;
          }
        }
      }
      err := Rollout(info.value, swap, cleanupAfterDeploy, swapDuration);
    }

    /** The part of `Deploy` from the capacity copy on
        (internal/deployer.go:358-413). */
    method Rollout(info: DeployInfo, swap: bool, cleanupAfterDeploy: bool, swapDuration: int) returns (err: Option<Error>)
      requires Config.Valid(config)
      modifies gw
      ensures Step(gw.State(), err) == RolloutStep(old(gw.State()), config, info, swap, cleanupAfterDeploy, swapDuration)
    {
      var running := info.running.group;
      err := UpdateAutoScalingGroup(info.idling.group.name,
        Some(running.desiredCapacity), Some(running.minSize), Some(running.maxSize));
      if err.Some? {
        return;
      }
      err := HealthCheck(info.idling.targetGroup.targetGroupArn, running.desiredCapacity);
      if err.Some? {
        return;
      }
      err := ShowStatus(None);
      if err.Some? {
        return;
      }
      if swap {
        err := SwapTraffic(swapDuration);
        if err.Some? {
          return;
        }
        err := ShowStatus(None);
        if err.Some? {
          return;
        }
      }
      if cleanupAfterDeploy {
        var after := GetDeployInfo();
        if after.Err? {
          return Some(after.error);
        }
        err := UpdateAutoScalingGroup(after.value.idling.group.name, None, Some(0), None);
        if err.Some? {
          return;
        }
        err := ShowStatus(None);
      }
    }
  }

  function InState(st: LifecycleState): Instance -> bool
  {
    (ins: Instance) => ins.lifecycleState == st
  }
}
