/** The end-to-end scenarios of test/e2e_test.go for the deployer, stated
    over the model: the two-fleet fixture the tests build
    (test/e2e_model.go:84-173) and what `Deploy`, the traffic swap and the
    health gate do to it. */
module Scenarios {
  import opened Wrappers
  import opened Aws
  import opened MockAws
  import Config
  import GoStrings
  import Util
  import opened Deployment

  /** One fleet of the fixture: its weight and its targets' health on the
      load balancer, and its autoscaling group. */
  datatype Fleet = Fleet(weight: int, healthStates: seq<HealthState>, group: AutoScalingGroup)

  /** A configuration the fixture can be built from: valid, naming two
      different target groups and two different autoscaling groups, with a
      retry budget of at least one poll. */
  predicate Fixture(c: Config.Config)
  {
    && Config.Valid(c)
    && TargetOf(c, BlueTargetType).targetGroupArn != TargetOf(c, GreenTargetType).targetGroupArn
    && TargetOf(c, BlueTargetType).autoScalingGroupName != TargetOf(c, GreenTargetType).autoScalingGroupName
    && c.retryPolicy.value.maxLimit > 0
  }

  /** Each fleet's group carries the name the configuration gives it. */
  predicate Placed(c: Config.Config, blue: Fleet, green: Fleet)
    requires Config.Valid(c)
  {
    && blue.group.name == TargetOf(c, BlueTargetType).autoScalingGroupName
    && green.group.name == TargetOf(c, GreenTargetType).autoScalingGroupName
  }

  /** The instances `WithAutoScalingGroups` gives a group: one per
      lifecycle state, named after the fleet and numbered from 0. */
  function InstancesOf(fleet: TargetType, states: seq<LifecycleState>): (r: seq<Instance>)
    ensures |r| == |states|
    ensures forall i :: 0 <= i < |r| ==> r[i] == Instance(fleet + GoStrings.NatToString(i), states[i])
  {
    seq(|states|, i requires 0 <= i < |states| => Instance(fleet + GoStrings.NatToString(i), states[i]))
  }

  /** A fixture group of fleet `t`. */
  function GroupOf(c: Config.Config, t: TargetType, desiredCapacity: int, minSize: int, maxSize: int, states: seq<LifecycleState>): AutoScalingGroup
    requires Config.Valid(c) && IsFleet(t)
  {
    AutoScalingGroup(TargetOf(c, t).autoScalingGroupName, desiredCapacity, minSize, maxSize, InstancesOf(t, states))
  }

  /** `NewTestingState(config).WithLoadBalancer(...).WithAutoScalingGroups(...)`
      (test/e2e_model.go:84-173): no bucket; the rule forwards to the blue
      and then the green target group, named after their fleets, with a
      ten-second stickiness; the blue and then the green group, neither
      with scheduled actions; every call answered. */
  function Scene(c: Config.Config, blue: Fleet, green: Fleet): TestingState
    requires Config.Valid(c)
  {
    TestingState(
      None,
      LoadBalancer(c.listenerRuleArn,
        [TargetGroup(TargetGroupTuple(TargetOf(c, BlueTargetType).targetGroupArn, blue.weight), BlueTargetType, blue.healthStates),
         TargetGroup(TargetGroupTuple(TargetOf(c, GreenTargetType).targetGroupArn, green.weight), GreenTargetType, green.healthStates)],
        Stickiness(10, true)),
      [TestingGroup(blue.group, []), TestingGroup(green.group, [])],
      map[])
  }

  /** The fleet `GetDeployTarget` reports for a fixture fleet. */
  function TargetFor(c: Config.Config, t: TargetType, f: Fleet): DeployTarget
    requires Config.Valid(c) && IsFleet(t)
  {
    DeployTarget(t, TargetGroupTuple(TargetOf(c, t).targetGroupArn, f.weight), f.group)
  }

  // ---------------------------------------------------------------------
  // Reads of the fixture.

  /** Both fleets read back as they were laid out. */
  lemma SceneTargets(c: Config.Config, blue: Fleet, green: Fleet)
    requires Fixture(c) && Placed(c, blue, green)
    ensures DeployTargetOf(Scene(c, blue, green), c, BlueTargetType) == Ok(TargetFor(c, BlueTargetType, blue))
    ensures DeployTargetOf(Scene(c, blue, green), c, GreenTargetType) == Ok(TargetFor(c, GreenTargetType, green))
  {
    var s := Scene(c, blue, green);
    assert FirstIndex(s.groups, GroupNamed(blue.group.name)) == Some(0);
    ReadWeight(s, c, BlueTargetType, 0);
    assert !GroupNamed(green.group.name)(s.groups[0]);
    assert FirstIndex(s.groups, GroupNamed(green.group.name)) == Some(1);
    ReadWeight(s, c, GreenTargetType, 1);
  }

  /** `GetDeployInfo` on the fixture: the fleet with the positive weight
      runs and the other idles; any other split is refused. */
  lemma SceneInfo(c: Config.Config, blue: Fleet, green: Fleet)
    requires Fixture(c) && Placed(c, blue, green)
    ensures DeployInfoOf(Scene(c, blue, green), c) ==
      if blue.weight > 0 && green.weight <= 0 then
        Ok(DeployInfo(TargetFor(c, GreenTargetType, green), TargetFor(c, BlueTargetType, blue)))
      else if green.weight > 0 && blue.weight <= 0 then
        Ok(DeployInfo(TargetFor(c, BlueTargetType, blue), TargetFor(c, GreenTargetType, green)))
      else Err(Failure(NotIdentified))
  {
    SceneTargets(c, blue, green);
  }

  /** The health tallies of the fixture's target groups. */
  lemma SceneHealth(c: Config.Config, blue: Fleet, green: Fleet)
    requires Fixture(c)
    ensures HealthInfoOf(Scene(c, blue, green), TargetOf(c, BlueTargetType).targetGroupArn) ==
      Ok(Tally(TargetOf(c, BlueTargetType).targetGroupArn, blue.healthStates))
    ensures HealthInfoOf(Scene(c, blue, green), TargetOf(c, GreenTargetType).targetGroupArn) ==
      Ok(Tally(TargetOf(c, GreenTargetType).targetGroupArn, green.healthStates))
  {
    var tgs := Scene(c, blue, green).loadBalancer.targetGroups;
    assert FirstIndex(tgs, ArnIs(TargetOf(c, BlueTargetType).targetGroupArn)) == Some(0);
    assert !ArnIs(TargetOf(c, GreenTargetType).targetGroupArn)(tgs[0]);
    assert FirstIndex(tgs, ArnIs(TargetOf(c, GreenTargetType).targetGroupArn)) == Some(1);
  }

  /** Every read `ShowStatus` makes succeeds on the fixture, whether the
      fleets are read or taken from a `DeployInfo` of the fixture. */
  lemma SceneStatus(c: Config.Config, blue: Fleet, green: Fleet, info: Option<DeployInfo>)
    requires Fixture(c) && Placed(c, blue, green)
    requires info.Some? ==>
      || info.value == DeployInfo(TargetFor(c, BlueTargetType, blue), TargetFor(c, GreenTargetType, green))
      || info.value == DeployInfo(TargetFor(c, GreenTargetType, green), TargetFor(c, BlueTargetType, blue))
    ensures StatusError(Scene(c, blue, green), c, info) == None
  {
    SceneTargets(c, blue, green);
    SceneHealth(c, blue, green);
    SceneNames(c, blue, green);
  }

  /** The fixture's target groups are named after their fleets. */
  lemma SceneNames(c: Config.Config, blue: Fleet, green: Fleet)
    requires Fixture(c)
    ensures DescribeALBTargetGroup(Scene(c, blue, green), TargetOf(c, BlueTargetType).targetGroupArn) == Ok(BlueTargetType)
    ensures DescribeALBTargetGroup(Scene(c, blue, green), TargetOf(c, GreenTargetType).targetGroupArn) == Ok(GreenTargetType)
  {
    var tgs := Scene(c, blue, green).loadBalancer.targetGroups;
    assert FirstIndex(tgs, ArnIs(TargetOf(c, BlueTargetType).targetGroupArn)) == Some(0);
    assert !ArnIs(TargetOf(c, GreenTargetType).targetGroupArn)(tgs[0]);
    assert FirstIndex(tgs, ArnIs(TargetOf(c, GreenTargetType).targetGroupArn)) == Some(1);
  }

  // ---------------------------------------------------------------------
  // Writes to the fixture.

  /** A traffic update leaves a fixture: the fleets take the requested
      weights and nothing else changes. */
  lemma SceneTraffic(c: Config.Config, blue: Fleet, green: Fleet, blueWeight: int, greenWeight: int)
    requires Fixture(c)
    ensures UpdateTrafficStep(Scene(c, blue, green), c, blueWeight, greenWeight) ==
      Step(Scene(c, blue.(weight := blueWeight), green.(weight := greenWeight)), None)
  {
    var s := Scene(c, blue, green);
    UpdateTrafficEffect(s, c, blueWeight, greenWeight);
    var r := UpdateTrafficStep(s, c, blueWeight, greenWeight);
    var t := Scene(c, blue.(weight := blueWeight), green.(weight := greenWeight));
    assert r.state.loadBalancer.targetGroups == t.loadBalancer.targetGroups;
  }

  /** A fixture fleet after a capacity update of the group `name`. */
  function Resized(f: Fleet, name: string, desiredCapacity: Option<int>, minSize: Option<int>, maxSize: Option<int>): Fleet
  {
    if f.group.name == name then f.(group := UpdatedGroup(f.group, SentField(desiredCapacity), SentField(minSize), SentField(maxSize)))
    else f
  }

  /** A capacity update leaves a fixture: the named group is updated and
      nothing else changes. */
  lemma SceneCapacity(c: Config.Config, blue: Fleet, green: Fleet, name: string, desiredCapacity: Option<int>, minSize: Option<int>, maxSize: Option<int>)
    requires Fixture(c)
    ensures UpdateCapacityStep(Scene(c, blue, green), name, desiredCapacity, minSize, maxSize) ==
      Step(Scene(c, Resized(blue, name, desiredCapacity, minSize, maxSize), Resized(green, name, desiredCapacity, minSize, maxSize)), None)
  {
    var r := UpdateCapacityStep(Scene(c, blue, green), name, desiredCapacity, minSize, maxSize);
    var t := Scene(c, Resized(blue, name, desiredCapacity, minSize, maxSize), Resized(green, name, desiredCapacity, minSize, maxSize));
    assert r.state.groups == t.groups;
  }

  /** `SwapTraffic` on the fixture: with a positive hold both fleets end at
      50 (the 50/50 split is read back and written again), otherwise the
      two weights are exchanged. */
  lemma SceneSwap(c: Config.Config, blue: Fleet, green: Fleet, hold: int)
    requires Fixture(c) && Placed(c, blue, green)
    ensures SwapTrafficStep(Scene(c, blue, green), c, hold) ==
      if hold > 0 then Step(Scene(c, blue.(weight := 50), green.(weight := 50)), None)
      else Step(Scene(c, blue.(weight := green.weight), green.(weight := blue.weight)), None)
  {
    if hold > 0 {
      var b := blue.(weight := 50);
      var g := green.(weight := 50);
      SceneTraffic(c, blue, green, 50, 50);
      SceneTargets(c, b, g);
      SceneTraffic(c, b, g, 50, 50);
      assert b.(weight := 50) == b && g.(weight := 50) == g;
    } else {
      SceneTargets(c, blue, green);
      SceneTraffic(c, blue, green, green.weight, blue.weight);
    }
  }

  /** The scale-in that follows a deployment on the fixture: the fleet that
      now idles has its minimum size set to 0 and keeps its instances; when
      the weights no longer tell the fleets apart it stops with the
      classification error and changes nothing. */
  lemma SceneScaleIn(c: Config.Config, blue: Fleet, green: Fleet)
    requires Fixture(c) && Placed(c, blue, green)
    ensures ScaleInStep(Scene(c, blue, green), c) ==
      if blue.weight > 0 && green.weight <= 0 then Step(Scene(c, blue, green.(group := green.group.(minSize := 0))), None)
      else if green.weight > 0 && blue.weight <= 0 then Step(Scene(c, blue.(group := blue.group.(minSize := 0)), green), None)
      else Step(Scene(c, blue, green), Some(Failure(NotIdentified)))
  {
    SceneInfo(c, blue, green);
    if blue.weight > 0 && green.weight <= 0 {
      var g := green.(group := green.group.(minSize := 0));
      SceneCapacity(c, blue, green, green.group.name, None, Some(0), None);
      assert Resized(blue, green.group.name, None, Some(0), None) == blue;
      assert Resized(green, green.group.name, None, Some(0), None) == g;
      SceneStatus(c, blue, g, None);
    } else if green.weight > 0 && blue.weight <= 0 {
      var b := blue.(group := blue.group.(minSize := 0));
      SceneCapacity(c, blue, green, blue.group.name, None, Some(0), None);
      assert Resized(blue, blue.group.name, None, Some(0), None) == b;
      assert Resized(green, blue.group.name, None, Some(0), None) == green;
      SceneStatus(c, b, green, None);
    }
  }

  // ---------------------------------------------------------------------
  // Deploy on the fixture, blue idling and green running as in the tests.

  function HealthyCount(f: Fleet): nat
  {
    Util.CountOf(f.healthStates, IsState(Healthy))
  }

  /** The idle blue fleet once its group has taken the running green
      group's desired, minimum and maximum sizes. */
  function Prepared(blue: Fleet, green: Fleet): Fleet
  {
    Resized(blue, blue.group.name, Some(green.group.desiredCapacity), Some(green.group.minSize), Some(green.group.maxSize))
  }

  /** The end of a rollout once the health gate passed, from the idle blue
      fleet `blue` to the running green one:
      - no swap: traffic stays, and with the scale-in the blue group's
        minimum size goes back to 0;
      - a positive hold: the swap leaves both fleets at 50, after which the
        scale-in cannot tell running from idling and fails;
      - no hold: the weights are exchanged and the scale-in sets the green
        group's minimum size to 0. */
  function FinishOutcome(c: Config.Config, blue: Fleet, green: Fleet, swap: bool, cleanupAfterDeploy: bool, hold: int): Step
    requires Config.Valid(c)
  {
    if !swap then
      Step(Scene(c, if cleanupAfterDeploy then blue.(group := blue.group.(minSize := 0)) else blue, green), None)
    else if hold > 0 then
      Step(Scene(c, blue.(weight := 50), green.(weight := 50)), if cleanupAfterDeploy then Some(Failure(NotIdentified)) else None)
    else
      Step(Scene(c, blue.(weight := green.weight),
                    green.(weight := blue.weight, group := if cleanupAfterDeploy then green.group.(minSize := 0) else green.group)),
           None)
  }

  /** The end of a deployment from the idle blue fleet to the running green
      one, as internal/deployer.go:319-416 takes it: the blue group takes the
      green group's sizes; with too few healthy blue targets the health gate
      then times out and traffic is not touched; otherwise the rollout ends
      as `FinishOutcome` says. */
  function DeployOutcome(c: Config.Config, blue: Fleet, green: Fleet, swap: bool, cleanupAfterDeploy: bool, hold: int): Step
    requires Config.Valid(c)
  {
    var b := Prepared(blue, green);
    if HealthyCount(blue) < green.group.desiredCapacity then Step(Scene(c, b, green), Some(RetryTimeout))
    else FinishOutcome(c, b, green, swap, cleanupAfterDeploy, hold)
  }

  /** The capacity copy and the health gate of the rollout on the fixture. */
  lemma SceneGate(c: Config.Config, blue: Fleet, green: Fleet)
    requires Fixture(c) && Placed(c, blue, green)
    ensures var g := green.group;
      UpdateCapacityStep(Scene(c, blue, green), blue.group.name, Some(g.desiredCapacity), Some(g.minSize), Some(g.maxSize))
        == Step(Scene(c, Prepared(blue, green), green), None)
    ensures HealthCheckResult(Scene(c, Prepared(blue, green), green), c, TargetOf(c, BlueTargetType).targetGroupArn, green.group.desiredCapacity)
      == if HealthyCount(blue) >= green.group.desiredCapacity then None else Some(RetryTimeout)
  {
    var g := green.group;
    SceneCapacity(c, blue, green, blue.group.name, Some(g.desiredCapacity), Some(g.minSize), Some(g.maxSize));
    assert Resized(green, blue.group.name, Some(g.desiredCapacity), Some(g.minSize), Some(g.maxSize)) == green;
    SceneHealth(c, Prepared(blue, green), green);
  }

  /** The blue fleet after the swap. */
  function SwappedBlue(blue: Fleet, green: Fleet, hold: int): Fleet
  {
    if hold > 0 then blue.(weight := 50) else blue.(weight := green.weight)
  }

  /** The green fleet after the swap. */
  function SwappedGreen(blue: Fleet, green: Fleet, hold: int): Fleet
  {
    if hold > 0 then green.(weight := 50) else green.(weight := blue.weight)
  }

  /** The swap and the status read after it, on the fixture. */
  lemma SceneSwapAndShow(c: Config.Config, blue: Fleet, green: Fleet, hold: int)
    requires Fixture(c) && Placed(c, blue, green)
    ensures SwapAndShowStep(Scene(c, blue, green), c, hold) ==
      Step(Scene(c, SwappedBlue(blue, green, hold), SwappedGreen(blue, green, hold)), None)
  {
    SceneSwap(c, blue, green, hold);
    SceneStatus(c, SwappedBlue(blue, green, hold), SwappedGreen(blue, green, hold), None);
  }

  /** After a passed gate the rollout ends as `FinishOutcome` says. */
  lemma SceneFinish(c: Config.Config, blue: Fleet, green: Fleet, swap: bool, cleanupAfterDeploy: bool, hold: int)
    requires Fixture(c) && Placed(c, blue, green) && blue.weight <= 0 < green.weight
    ensures FinishStep(Scene(c, blue, green), c, swap, cleanupAfterDeploy, hold) == FinishOutcome(c, blue, green, swap, cleanupAfterDeploy, hold)
  {
    if swap {
      SceneSwapAndShow(c, blue, green, hold);
      if cleanupAfterDeploy {
        SceneScaleIn(c, SwappedBlue(blue, green, hold), SwappedGreen(blue, green, hold));
      }
    } else if cleanupAfterDeploy {
      SceneScaleIn(c, blue, green);
    }
  }

  /** The rollout from the idle blue fleet ends as `DeployOutcome` says. */
  lemma SceneRollout(c: Config.Config, blue: Fleet, green: Fleet, swap: bool, cleanupAfterDeploy: bool, hold: int)
    requires Fixture(c) && Placed(c, blue, green) && blue.weight <= 0 < green.weight
    ensures RolloutStep(Scene(c, blue, green), c,
      DeployInfo(TargetFor(c, BlueTargetType, blue), TargetFor(c, GreenTargetType, green)), swap, cleanupAfterDeploy, hold)
      == DeployOutcome(c, blue, green, swap, cleanupAfterDeploy, hold)
  {
    var b := Prepared(blue, green);
    SceneGate(c, blue, green);
    if HealthyCount(blue) >= green.group.desiredCapacity {
      SceneStatus(c, b, green, None);
      SceneFinish(c, b, green, swap, cleanupAfterDeploy, hold);
    }
  }

  /** `Deploy` on the fixture with the blue fleet idling ends as
      `DeployOutcome` says, when the cleanup before it finds no instances
      to remove. */
  lemma SceneDeploy(c: Config.Config, blue: Fleet, green: Fleet, swap: bool, cleanupBeforeDeploy: bool, cleanupAfterDeploy: bool, hold: int)
    requires Fixture(c) && Placed(c, blue, green) && blue.weight <= 0 < green.weight
    requires cleanupBeforeDeploy ==> |blue.group.instances| == 0
    ensures DeployStep(Scene(c, blue, green), c, swap, cleanupBeforeDeploy, cleanupAfterDeploy, hold)
      == DeployOutcome(c, blue, green, swap, cleanupAfterDeploy, hold)
  {
    var info := DeployInfo(TargetFor(c, BlueTargetType, blue), TargetFor(c, GreenTargetType, green));
    SceneInfo(c, blue, green);
    SceneStatus(c, blue, green, Some(info));
    SceneRollout(c, blue, green, swap, cleanupAfterDeploy, hold);
  }

  /** A cleanup before the deploy, of an idle group that has instances:
      the group is scaled to zero, but the fake never removes instances, so
      the drain times out and `Deploy` stops with `RetryTimeout` before
      traffic or the running group is touched. */
  lemma SceneDeployStuckCleanup(c: Config.Config, blue: Fleet, green: Fleet, swap: bool, cleanupAfterDeploy: bool, hold: int)
    requires Fixture(c) && Placed(c, blue, green) && blue.weight <= 0 < green.weight
    requires |blue.group.instances| > 0
    ensures DeployStep(Scene(c, blue, green), c, swap, true, cleanupAfterDeploy, hold)
      == Step(Scene(c, blue.(group := blue.group.(desiredCapacity := 0, minSize := 0)), green), Some(RetryTimeout))
  {
    var s := Scene(c, blue, green);
    var info := DeployInfo(TargetFor(c, BlueTargetType, blue), TargetFor(c, GreenTargetType, green));
    SceneInfo(c, blue, green);
    SceneStatus(c, blue, green, Some(info));
    CleanupNeverDrains(s, c, blue.group);
    SceneCapacity(c, blue, green, blue.group.name, Some(0), Some(0), None);
    assert Resized(blue, blue.group.name, Some(0), Some(0), None) == blue.(group := blue.group.(desiredCapacity := 0, minSize := 0));
    assert Resized(green, blue.group.name, Some(0), Some(0), None) == green;
  }

  // ---------------------------------------------------------------------
  // The deployment tests (test/e2e_test.go:68-147).

  /** The blue fleet of the deployment tests: weight 0, one healthy target,
      sizes 0/0/2 and no instances. */
  function TestBlue(c: Config.Config): Fleet
    requires Config.Valid(c)
  {
    Fleet(0, [Healthy], GroupOf(c, BlueTargetType, 0, 0, 2, []))
  }

  /** The green fleet of the deployment tests: weight 100, one healthy
      target, sizes 1/1/2 and one instance in service. */
  function TestGreen(c: Config.Config): Fleet
    requires Config.Valid(c)
  {
    Fleet(100, [Healthy], GroupOf(c, GreenTargetType, 1, 1, 2, [InService]))
  }

  /** The blue group after the deploy copied the green sizes onto it: the
      fake adds one instance for the minimum size of 1. */
  function DeployedBlueGroup(c: Config.Config): AutoScalingGroup
    requires Config.Valid(c)
  {
    AutoScalingGroup(TargetOf(c, BlueTargetType).autoScalingGroupName, 1, 1, 2, NewInstances(1))
  }

  lemma TestFleetsPlaced(c: Config.Config)
    requires Fixture(c)
    ensures Placed(c, TestBlue(c), TestGreen(c))
    ensures HealthyCount(TestBlue(c)) == 1
    ensures Prepared(TestBlue(c), TestGreen(c)).group == DeployedBlueGroup(c)
  {
    assert TestBlue(c).healthStates[..0] == [];
    assert InstancesOf(BlueTargetType, []) + NewInstances(1) == NewInstances(1);
  }

  /** `Deploy(swap, cleanupBeforeDeploy, cleanupAfterDeploy)` with no hold
      (test/e2e_test.go:68-96 with a zero duration): blue ends at weight
      100 with sizes 1/1/2, green at weight 0 with sizes 1/0/2. */
  lemma DeployWithoutHold(c: Config.Config)
    requires Fixture(c)
    ensures DeployStep(Scene(c, TestBlue(c), TestGreen(c)), c, true, true, true, 0) ==
      Step(Scene(c,
        Fleet(100, [Healthy], DeployedBlueGroup(c)),
        Fleet(0, [Healthy], TestGreen(c).group.(minSize := 0))), None)
  {
    TestFleetsPlaced(c);
    SceneDeploy(c, TestBlue(c), TestGreen(c), true, true, true, 0);
  }

  /** `Deploy(swap)` with no cleanups and no hold (test/e2e_test.go:126-147
      with a zero duration): traffic moves to blue, and green keeps its
      sizes 1/1/2. */
  lemma DeployWithoutScaleIn(c: Config.Config)
    requires Fixture(c)
    ensures DeployStep(Scene(c, TestBlue(c), TestGreen(c)), c, true, false, false, 0) ==
      Step(Scene(c, Fleet(100, [Healthy], DeployedBlueGroup(c)), Fleet(0, [Healthy], TestGreen(c).group)), None)
  {
    TestFleetsPlaced(c);
    SceneDeploy(c, TestBlue(c), TestGreen(c), true, false, false, 0);
  }

  /** The same deployment with the tests' positive hold
      (test/e2e_test.go:89): the swap leaves both fleets at 50, and the
      scale-in then refuses the even split. */
  lemma DeployWithHoldFailsScaleIn(c: Config.Config, hold: int)
    requires Fixture(c) && hold > 0
    ensures DeployStep(Scene(c, TestBlue(c), TestGreen(c)), c, true, true, true, hold) ==
      Step(Scene(c, Fleet(50, [Healthy], DeployedBlueGroup(c)), Fleet(50, [Healthy], TestGreen(c).group)), Some(Failure(NotIdentified)))
  {
    TestFleetsPlaced(c);
    SceneDeploy(c, TestBlue(c), TestGreen(c), true, true, true, hold);
  }

  /** Without the scale-in the positive hold leaves both fleets at 50 and
      reports success (test/e2e_test.go:138). */
  lemma DeployWithHoldEndsEven(c: Config.Config, hold: int)
    requires Fixture(c) && hold > 0
    ensures DeployStep(Scene(c, TestBlue(c), TestGreen(c)), c, true, false, false, hold) ==
      Step(Scene(c, Fleet(50, [Healthy], DeployedBlueGroup(c)), Fleet(50, [Healthy], TestGreen(c).group)), None)
  {
    TestFleetsPlaced(c);
    SceneDeploy(c, TestBlue(c), TestGreen(c), true, false, false, hold);
  }

  /** With the blue target unhealthy the health gate times out after the
      capacity copy: traffic stays on green and nothing is cleaned up. */
  lemma DeployHealthTimeout(c: Config.Config, hold: int)
    requires Fixture(c)
    ensures DeployStep(Scene(c, TestBlue(c).(healthStates := [Unhealthy]), TestGreen(c)), c, true, true, true, hold) ==
      Step(Scene(c, Fleet(0, [Unhealthy], DeployedBlueGroup(c)), TestGreen(c)), Some(RetryTimeout))
  {
    var blue := TestBlue(c).(healthStates := [Unhealthy]);
    TestFleetsPlaced(c);
    assert blue.healthStates[..0] == [];
    assert HealthyCount(blue) == 0;
    assert Prepared(blue, TestGreen(c)) == Fleet(0, [Unhealthy], DeployedBlueGroup(c));
    SceneDeploy(c, blue, TestGreen(c), true, true, true, hold);
  }

  // ---------------------------------------------------------------------
  // The scheduled-action test (test/e2e_test.go:174-199).

  /** `WithAutoScalingGroupScheduledAction` (test/e2e_model.go:175-196): the
      group `from` holding `fromActions` and then the group `to` holding
      `toActions`, with no bucket and every call answered. The tests leave
      the load balancer unset; here it is whatever `lb` is. */
  function ActionScene(lb: LoadBalancer, from: AutoScalingGroup, fromActions: seq<ScheduledAction>, to: AutoScalingGroup, toActions: seq<ScheduledAction>): TestingState
  {
    TestingState(None, lb, [TestingGroup(from, fromActions), TestingGroup(to, toActions)], map[])
  }

  /** The copies the move puts on the group `to`, in order. */
  function Copies(actions: seq<ScheduledAction>, to: string): (r: seq<ScheduledAction>)
    ensures |r| == |actions| && forall i :: 0 <= i < |r| ==> r[i] == CopyOf(actions[i], to)
  {
    seq(|actions|, i requires 0 <= i < |actions| => CopyOf(actions[i], to))
  }

  /** Actions that all name the group `from` and have distinct names, as
      actions read from one group do. */
  predicate OwnedBy(actions: seq<ScheduledAction>, from: string)
  {
    && (forall i :: 0 <= i < |actions| ==> actions[i].groupName == from)
    && (forall i, j :: 0 <= i < j < |actions| ==> actions[i].name != actions[j].name)
  }

  /** Moving one action between the two groups: its copy is appended to
      `to`, and `from` loses exactly that action. */
  lemma MoveOneBetween(lb: LoadBalancer, from: AutoScalingGroup, rest: seq<ScheduledAction>, to: AutoScalingGroup, moved: seq<ScheduledAction>, a: ScheduledAction)
    requires from.name != to.name && a.groupName == from.name
    requires a in rest && forall b :: b in rest && b.name == a.name ==> b == a
    ensures var left := FastDelete(rest, ActionNamed(a.name));
      && MoveOne(ActionScene(lb, from, rest, to, moved), to.name, a) == ActionScene(lb, from, left, to, moved + [CopyOf(a, to.name)])
      && multiset(left) == multiset(rest) - multiset{a}
  {
    var s := ActionScene(lb, from, rest, to, moved);
    var put := PutScheduledUpdateGroupActionStep(s, to.name, CopyOf(a, to.name));
    var del := DeleteScheduledActionStep(put.state, a.groupName, a.name);
    var left := FastDelete(rest, ActionNamed(a.name));
    assert del.state.groups == ActionScene(lb, from, left, to, moved + [CopyOf(a, to.name)]).groups;
    var k := FirstIndex(rest, ActionNamed(a.name)).value;
    assert rest[k] == a;
  }

  /** Among actions that are a rearrangement of the not yet moved ones,
      the next action is the only one with its name. */
  lemma NextIsOnlyNamed(actions: seq<ScheduledAction>, k: nat, rest: seq<ScheduledAction>, from: string)
    requires OwnedBy(actions, from) && k < |actions|
    requires multiset(rest) == multiset(actions[k..])
    ensures actions[k] in rest
    ensures forall b :: b in rest && b.name == actions[k].name ==> b == actions[k]
    ensures multiset(rest) - multiset{actions[k]} == multiset(actions[k + 1..])
  {
    assert actions[k..] == [actions[k]] + actions[k + 1..];
    assert actions[k] in multiset(rest);
    forall b | b in rest && b.name == actions[k].name
      ensures b == actions[k]
    {
      assert b in multiset(actions[k..]);
      var m :| k <= m < |actions| && actions[m] == b;
    }
  }

  /** Moving one more action of the list. */
  lemma MoveAllSnoc(s: TestingState, to: string, actions: seq<ScheduledAction>, k: nat)
    requires 0 < k <= |actions|
    ensures MoveAll(s, to, actions[..k]) == MoveOne(MoveAll(s, to, actions[..k - 1]), to, actions[k - 1])
  {
    assert actions[..k][..k - 1] == actions[..k - 1];
  }

  lemma CopiesSnoc(actions: seq<ScheduledAction>, k: nat, to: string)
    requires 0 < k <= |actions|
    ensures Copies(actions[..k], to) == Copies(actions[..k - 1], to) + [CopyOf(actions[k - 1], to)]
  {
  }

  /** After the first `k` actions of the source group were moved, the
      target group holds their copies in order and the source group holds
      the others, in some order. */
  lemma {:induction false} MovePrefix(lb: LoadBalancer, from: AutoScalingGroup, to: AutoScalingGroup, actions: seq<ScheduledAction>, k: nat)
    returns (rest: seq<ScheduledAction>)
    requires from.name != to.name && OwnedBy(actions, from.name)
    requires k <= |actions|
    ensures MoveAll(ActionScene(lb, from, actions, to, []), to.name, actions[..k]) == ActionScene(lb, from, rest, to, Copies(actions[..k], to.name))
    ensures multiset(rest) == multiset(actions[k..])
  {
    if k == 0 {
      rest := actions;
      assert actions[..0] == [];
      assert actions[0..] == actions;
    } else {
      var before := MovePrefix(lb, from, to, actions, k - 1);
      var a := actions[k - 1];
      MoveAllSnoc(ActionScene(lb, from, actions, to, []), to.name, actions, k);
      NextIsOnlyNamed(actions, k - 1, before, from.name);
      MoveOneBetween(lb, from, before, to, Copies(actions[..k - 1], to.name), a);
      rest := FastDelete(before, ActionNamed(a.name));
      CopiesSnoc(actions, k, to.name);
    }
  }

  /** `MoveScheduledActions(from, to)` between the test's two groups: every
      action leaves `from`, and `to` receives a copy of each, in order, with
      the same schedule. */
  lemma MoveEverything(lb: LoadBalancer, from: AutoScalingGroup, to: AutoScalingGroup, actions: seq<ScheduledAction>)
    requires from.name != to.name && OwnedBy(actions, from.name)
    ensures MoveStep(ActionScene(lb, from, actions, to, []), from.name, to.name) ==
      Step(ActionScene(lb, from, [], to, Copies(actions, to.name)), None)
    ensures forall i :: 0 <= i < |actions| ==> SameSchedule(Copies(actions, to.name)[i], actions[i])
  {
    var s := ActionScene(lb, from, actions, to, []);
    assert FirstIndex(s.groups, GroupNamed(from.name)) == Some(0);
    var rest := MovePrefix(lb, from, to, actions, |actions|);
    assert actions[..|actions|] == actions;
    assert actions[|actions|..] == [];
  }

  /** The test itself: one action on "fromASG", none on "toASG"; after the
      move "fromASG" has none and "toASG" has one. */
  lemma MoveTheTestAction(lb: LoadBalancer, a: ScheduledAction)
    requires a.groupName == "fromASG"
    ensures var r := MoveStep(ActionScene(lb, AutoScalingGroup("fromASG", 0, 0, 0, []), [a], AutoScalingGroup("toASG", 0, 0, 0, []), []), "fromASG", "toASG");
      && r.err.None?
      && |r.state.groups| == 2
      && |r.state.groups[0].scheduledActions| == 0
      && |r.state.groups[1].scheduledActions| == 1
  {
    MoveEverything(lb, AutoScalingGroup("fromASG", 0, 0, 0, []), AutoScalingGroup("toASG", 0, 0, 0, []), [a]);
  }
}
