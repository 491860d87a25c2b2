/** Loading and validating the configuration (internal/config.go). The
    JSON decoder is not modelled: a configuration source holds an already
    decoded `Raw` document, which is overlaid on the defaults the way
    `json.Unmarshal` overwrites the fields of an existing struct. */
module Config {
  import opened Wrappers
  import GoStrings

  datatype Target = Target(autoScalingGroupName: string, targetGroupArn: string)
  datatype TargetSet = TargetSet(blue: Option<Target>, green: Option<Target>)
  datatype RetryPolicy = RetryPolicy(maxLimit: int, intervalSeconds: int)
  datatype TimeZone = TimeZone(location: string, offset: int)

  /** `Config`; a nil pointer field is `None`, an absent string is "". */
  datatype Config = Config(
    bundleBucket: string,
    listenerRuleArn: string,
    target: Option<TargetSet>,
    retryPolicy: Option<RetryPolicy>,
    timeZone: Option<TimeZone>)

  const DefaultRetryPolicy := RetryPolicy(120, 10)
  const DefaultTimeZone := TimeZone("Asia/Tokyo", 9 * 60 * 60)

  /** The struct `NewConfig` builds before decoding (internal/config.go:52-61). */
  const Defaults := Config("", "", None, Some(DefaultRetryPolicy), Some(DefaultTimeZone))

  /** A JSON member: missing, `null`, or given. */
  datatype JsonField<T> = Absent | Null | Given(value: T)

  datatype RawRetryPolicy = RawRetryPolicy(maxLimit: Option<int>, intervalSeconds: Option<int>)
  datatype RawTimeZone = RawTimeZone(location: Option<string>, offset: Option<int>)

  /** A decoded JSON object with the members `Config` knows. */
  datatype Document = Document(
    bundleBucket: Option<string>,
    listenerRuleArn: Option<string>,
    target: JsonField<TargetSet>,
    retryPolicy: JsonField<RawRetryPolicy>,
    timeZone: JsonField<RawTimeZone>)

  /** The contents of a configuration source: not JSON, the JSON literal
      `null` (which sets the decoded pointer to nil), or an object. */
  datatype Raw = Malformed | NullDocument | Object(doc: Document)

  /** `json.Unmarshal` of an object onto the defaults: a given member
      overwrites, an absent one keeps the default, `null` clears a pointer;
      a given `retryPolicy` or `timeZone` object is decoded into the default
      struct, so the members it omits keep their default values. */
  function Decode(doc: Document): (c: Config)
    ensures doc.retryPolicy.Absent? ==> c.retryPolicy == Some(DefaultRetryPolicy)
    ensures doc.timeZone.Absent? ==> c.timeZone == Some(DefaultTimeZone)
    ensures doc.retryPolicy.Given? ==>
      && c.retryPolicy.Some?
      && c.retryPolicy.value.maxLimit == (if doc.retryPolicy.value.maxLimit.Some? then doc.retryPolicy.value.maxLimit.value else 120)
      && c.retryPolicy.value.intervalSeconds == (if doc.retryPolicy.value.intervalSeconds.Some? then doc.retryPolicy.value.intervalSeconds.value else 10)
    ensures doc.timeZone.Given? ==>
      && c.timeZone.Some?
      && c.timeZone.value.location == (if doc.timeZone.value.location.Some? then doc.timeZone.value.location.value else "Asia/Tokyo")
      && c.timeZone.value.offset == (if doc.timeZone.value.offset.Some? then doc.timeZone.value.offset.value else 32400)
    ensures doc.retryPolicy.Null? <==> c.retryPolicy.None?
    ensures doc.timeZone.Null? <==> c.timeZone.None?
  {
    var d := Defaults;
    Config(
      if doc.bundleBucket.Some? then doc.bundleBucket.value else d.bundleBucket,
      if doc.listenerRuleArn.Some? then doc.listenerRuleArn.value else d.listenerRuleArn,
      match doc.target
      case Given(ts) => Some(ts)
      case _ => d.target,
      match doc.retryPolicy
      case Absent => d.retryPolicy
      case Null => None
      case Given(rp) =>
        var p := d.retryPolicy.value;
        Some(RetryPolicy(
          if rp.maxLimit.Some? then rp.maxLimit.value else p.maxLimit,
          if rp.intervalSeconds.Some? then rp.intervalSeconds.value else p.intervalSeconds)),
      match doc.timeZone
      case Absent => d.timeZone
      case Null => None
      case Given(tz) =>
        var z := d.timeZone.value;
        Some(TimeZone(
          if tz.location.Some? then tz.location.value else z.location,
          if tz.offset.Some? then tz.offset.value else z.offset)))
  }

  predicate TargetComplete(t: Target)
  {
    t.autoScalingGroupName != "" && t.targetGroupArn != ""
  }

  /** The `validate:"required"` tags (internal/config.go:13-29): the bucket,
      the rule, the target set, both fleets with both their fields, the retry
      policy and the time zone must all be present. */
  predicate Valid(c: Config)
  {
    && c.bundleBucket != ""
    && c.listenerRuleArn != ""
    && c.target.Some?
    && c.target.value.blue.Some? && TargetComplete(c.target.value.blue.value)
    && c.target.value.green.Some? && TargetComplete(c.target.value.green.value)
    && c.retryPolicy.Some?
    && c.timeZone.Some?
  }

  const SsmPrefix := "ssm:"

  /** The parameter name read for an "ssm:" path (internal/config.go:65). */
  function SsmParameterName(path: string): string
  {
    GoStrings.TrimLeft(path, SsmPrefix)
  }

  /** The cutset strips more than the prefix: "ssm:myparam" reads "yparam". */
  lemma SsmParameterNameOvertrims()
    ensures SsmParameterName("ssm:myparam") == "yparam"
  {
    var s := "ssm:myparam";
    assert s[0] == 's' && s[1] == 's' && s[2] == 'm' && s[3] == ':' && s[4] == 'm' && s[5] == 'y';
    assert s[1..][1..][1..][1..][1..] == "yparam";
    assert "yparam"[0] !in SsmPrefix;
  }

  /** For "ssm:" followed by a name, the parameter read is that name exactly
      when the name does not itself start with 's', 'm' or ':'. */
  lemma SsmParameterNameOfPrefixed(name: string)
    ensures SsmParameterName(SsmPrefix + name) == name <==> (name == [] || name[0] !in SsmPrefix)
  {
    var s := SsmPrefix + name;
    assert s[1..][1..][1..][1..] == name;
    assert SsmParameterName(s) == GoStrings.TrimLeft(name, SsmPrefix);
    if name != [] && name[0] in SsmPrefix {
      assert |GoStrings.TrimLeft(name, SsmPrefix)| < |name|;
    }
  }

  /** The source a path names: the parameter store for an "ssm:" path, the
      file system otherwise; `None` when the read fails. */
  function Source(path: string, parameters: map<string, Raw>, files: map<string, Raw>): Option<Raw>
  {
    if GoStrings.HasPrefix(path, SsmPrefix) then
      var name := SsmParameterName(path);
      if name in parameters then Some(parameters[name]) else None
    else if path in files then Some(files[path]) else None
  }

  /** The tail of the error `os.Open` gives for a missing file. */
  const NoSuchFile := ": no such file or directory"

  /** The messages `json.Unmarshal` and the validator fail with. */
  const NotJson := "invalid character looking for beginning of value"
  const ValidationFailed := "Key: 'Config' Error: Field validation failed on the 'required' tag"

  /** `NewConfig` (internal/config.go:51-89). A failed read, a document that is
      not JSON, and a decoded configuration that fails validation all return
      an error and no configuration. */
  method NewConfig(path: string, parameters: map<string, Raw>, files: map<string, Raw>) returns (r: Result<Config>)
    ensures var src := Source(path, parameters, files);
      r.Ok? <==> src.Some? && src.value.Object? && Valid(Decode(src.value.doc))
    ensures r.Ok? ==> Valid(r.value) && r.value == Decode(Source(path, parameters, files).value.doc)
    ensures GoStrings.HasPrefix(path, SsmPrefix) && SsmParameterName(path) !in parameters ==> r.Err?
    ensures !GoStrings.HasPrefix(path, SsmPrefix) && path !in files ==> r.Err?
  {
    var config: Option<Config> := Some(Defaults);
    var raw: Raw;
    if GoStrings.HasPrefix(path, SsmPrefix) {
      var name := GoStrings.TrimLeft(path, SsmPrefix);
      if name !in parameters {
        return Err(ApiError("ParameterNotFound"));
      }
      raw := parameters[name];
      assert Source(path, parameters, files) == Some(raw);
    } else {
      if path !in files {
        return Err(Failure("open " + path + NoSuchFile));
      }
      raw := files[path];
      assert Source(path, parameters, files) == Some(raw);
    }
    match raw {
      case Malformed =>
        return Err(Failure(NotJson));
      case NullDocument =>
        config := None;
      case Object(doc) =>
        config := Some(Decode(doc));
    }
    if config.None? || !Valid(config.value) {
      return Err(Failure(ValidationFailed));
    }
    return Ok(config.value);
  }

  /** The fixed zone `time.FixedZone(name, offset)` builds. */
  datatype Location = FixedZone(name: string, offset: int)

  /** The package-level `location` variable of internal/config.go:41. */
  class LocationCache {
    var location: Option<Location>

    constructor ()
      ensures location == None
    {
      location := None;
    }

    /** `TimeZone.CurrentLocation` (internal/config.go:43-49): the first call
        fixes the zone; every later call returns it, whatever `tz` it is given. */
    method CurrentLocation(tz: TimeZone) returns (loc: Location)
      modifies this
      ensures old(location).Some? ==> loc == old(location).value && location == old(location)
      ensures old(location).None? ==> loc == FixedZone(tz.location, tz.offset) && location == Some(loc)
    {
      if location.Some? {
        return location.value;
      }
      location := Some(FixedZone(tz.location, tz.offset));
      return location.value;
    }
  }

  /** Two time zones asking the same process for its location get the
      first one's zone both times. */
  method FirstCallWins(first: TimeZone, second: TimeZone) returns (a: Location, b: Location)
    ensures a == FixedZone(first.location, first.offset)
    ensures b == a
  {
    var cache := new LocationCache();
    a := cache.CurrentLocation(first);
    b := cache.CurrentLocation(second);
  }
}
