/** The shapes of the values exchanged with the cloud provider through the
    `AwsClient` interface (internal/awsclient.go:18-42): load-balancer rules,
    target health, autoscaling groups, scheduled actions and bucket objects.
    Every SDK pointer that the modelled code dereferences without a nil check
    is a plain value here; one it may leave unset is an `Option`. Times are
    integers (nanoseconds of some fixed clock). */
module Aws {
  import opened Wrappers

  /** One (target group, weight) pair of a forward action. */
  datatype TargetGroupTuple = TargetGroupTuple(targetGroupArn: string, weight: int)

  datatype Stickiness = Stickiness(durationSeconds: int, enabled: bool)

  datatype ForwardConfig = ForwardConfig(targetGroups: seq<TargetGroupTuple>, stickiness: Stickiness)

  /** A listener-rule action: a weighted forward, or any other kind. */
  datatype Action = Forward(config: ForwardConfig) | OtherAction(kind: string)

  datatype Rule = Rule(actions: seq<Action>)

  /** `TargetHealthStateEnum`. */
  datatype HealthState = Initial | Healthy | Unhealthy | Unused | Draining | Unavailable | UnhealthyDraining

  /** The `LifecycleState` values of an autoscaling instance. */
  datatype LifecycleState =
    | Pending | PendingWait | PendingProceed | Quarantined | InService
    | Terminating | TerminatingWait | TerminatingProceed | Terminated
    | Detaching | Detached | EnteringStandby | Standby

  datatype Instance = Instance(instanceId: string, lifecycleState: LifecycleState)

  datatype AutoScalingGroup = AutoScalingGroup(
    name: string,
    desiredCapacity: int,
    minSize: int,
    maxSize: int,
    instances: seq<Instance>)

  /** `ScheduledUpdateGroupAction`. */
  datatype ScheduledAction = ScheduledAction(
    groupName: string,
    name: string,
    arn: Option<string>,
    desiredCapacity: Option<int>,
    minSize: Option<int>,
    maxSize: Option<int>,
    recurrence: Option<string>,
    startTime: Option<int>,
    endTime: Option<int>,
    time: Option<int>,
    timeZone: Option<string>)

  /** An entry of a bucket listing. */
  datatype S3Object = S3Object(key: string, lastModified: int)

  /** The provider calls, as far as they can be told apart by their
      arguments; used to say which calls the provider refuses. */
  datatype Call =
    | ListObjects(prefix: string)
    | HeadBucket
    | CreateBucket
    | EnableVersioning
    | MakeAclPrivate
    | DisablePublicAccess
    | DeleteObject(key: string)
    | PutObject(key: string)
    | GetObject(key: string)
    | GetRule
    | ModifyRule
    | DescribeHealth(targetGroupArn: string)
    | DescribeTargetGroup(targetGroupArn: string)
    | DescribeGroup(groupName: string)
    | UpdateGroup(groupName: string)
    | DescribeActions(groupName: string)
    | PutAction(groupName: string, actionName: string)
    | DeleteAction(groupName: string, actionName: string)
}
