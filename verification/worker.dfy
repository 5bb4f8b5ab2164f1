/** The `Worker` generator: from a Docker-for-AWS CloudFormation template it
    builds a second, independently sized pool of worker nodes. The pool is a
    copy of the template's node pool (cluster-size and instance-type
    parameters, auto-scaling group, launch configuration) under names derived
    from `opts.Name`, rewired to its own parameters and launch
    configuration, and given the option's tags, post-start commands and
    daemon labels. */
module Worker {
  import opened Outcomes
  import opened JsonValue
  import Version
  import Tags
  import Script

  /** The constructor's `opts`. Absent fields are `None`; `CustomTags` is
      given as the entry list `Object.entries` produces. */
  datatype Options = Options(
    name: Option<string>,
    customTags: Option<seq<(string, Json)>>,
    labels: Option<seq<string>>,
    afterDaemonStarted: Option<seq<string>>)

  /** A constructed generator: the options, the validated `opts.Name`, the
      private copy of the template and the derived names. */
  datatype Worker = Worker(
    opts: Options,
    name: string,
    template: Json,
    versionString: string,
    autoScalingGroupName: string,
    launchConfigName: string,
    instanceTypeName: string)

  // ---------------------------------------------------------------------
  // Fixed locations in the template

  const VersionPath: Path := ["Mappings", "DockerForAWS", "version", "forAws"]
  const ClusterSizePath: Path := ["Parameters", "ClusterSize"]
  const InstanceTypePath: Path := ["Parameters", "InstanceType"]
  const NodeAsgPath: Path := ["Resources", "NodeAsg"]

  /** References inside an auto-scaling group. */
  const CountRef: Path := ["CreationPolicy", "ResourceSignal", "Count", "Ref"]
  const DesiredCapacityRef: Path := ["Properties", "DesiredCapacity", "Ref"]
  const LaunchConfigNameRef: Path := ["Properties", "LaunchConfigurationName", "Ref"]
  const MinInServiceRef: Path := ["UpdatePolicy", "AutoScalingRollingUpdate", "MinInstancesInService", "Ref"]
  const TagsField: Path := ["Properties", "Tags"]

  /** Locations inside a launch configuration. */
  const InstanceTypeRef: Path := ["Properties", "InstanceType", "Ref"]
  const ScriptField: Path := ["Properties", "UserData", "Fn::Base64", "Fn::Join", "1"]

  function Parameter(name: string): Path {
    ["Parameters", name]
  }

  function Resource(name: string): Path {
    ["Resources", name]
  }

  function NodeLaunchConfigPath(versionString: string): Path {
    Resource("NodeLaunchConfig" + versionString)
  }

  /** The worker's cluster-size parameter, `${opts.Name}WorkerSize`. */
  function SizeName(w: Worker): string {
    w.name + "WorkerSize"
  }

  /** The names a constructed generator holds, as the constructor derives
      them from `opts.Name` and the version suffix. */
  predicate Valid(w: Worker) {
    && w.name != ""
    && w.opts.name == Some(w.name)
    && w.autoScalingGroupName == w.name + "WorkerAsg"
    && w.launchConfigName == w.name + "WorkerLaunchConfig" + w.versionString
    && w.instanceTypeName == w.name + "WorkerInstanceType"
  }

  /** The template's `forAws` version string, if it is one. */
  function ForAws(t: Json): Option<string> {
    var v := Get(Defined(t), VersionPath);
    if v.Success? && v.value.Defined? && v.value.json.JStr? then Some(v.value.json.s) else None
  }

  // ---------------------------------------------------------------------
  // Construction

  /** `new Worker(template, opts)`: the template must be given (and truthy),
      `opts.Name` must be a non-empty string, and the version string must be
      a string (JavaScript throws a `TypeError` when `.replace` is applied to
      anything else, or when the path to it is broken). */
  function New(template: Option<Json>, opts: Options): (r: Result<Worker, Error>)
    ensures r == Failure(MissingTemplate) <==> template.None? || !Truthy(template.value)
    ensures r == Failure(MissingName)
            <==> template.Some? && Truthy(template.value) && (opts.name.None? || opts.name.value == "")
    ensures r.Success?
            <==> template.Some? && template.value.JObj? && opts.name.Some? && opts.name.value != ""
                 && ForAws(template.value).Some?
    ensures r.Success? ==>
              && Valid(r.value)
              && r.value.opts == opts
              && r.value.template == template.value
              && r.value.versionString == Version.Suffix(ForAws(template.value).value)
              && '.' !in r.value.versionString && '-' !in r.value.versionString
    ensures r.Failure? ==> r.error in {MissingTemplate, MissingName, TypeError}
  {
    if template.None? || !Truthy(template.value) then Failure(MissingTemplate)
    else
      var copy := ExtendedCopy(Defined(template.value));
      if opts.name.None? || opts.name.value == "" then Failure(MissingName)
      else
        var forAws := ForAws(copy);
        if forAws.None? then Failure(TypeError)
        else
          var n := opts.name.value;
          var v := Version.Suffix(forAws.value);
          Success(Worker(opts, n, copy, v, n + "WorkerAsg", n + "WorkerLaunchConfig" + v,
                         n + "WorkerInstanceType"))
  }

  // ---------------------------------------------------------------------
  // The steps of `create`

  /** The four `_copy*` steps: `t[to] = deepExtend({}, t[from])`. */
  function Copy(t: Json, from: Path, to: Path): Result<Json, Error>
    requires |to| > 0
  {
    var source :- Get(Defined(t), from);
    Put(t, to, ExtendedCopy(source))
  }

  /** `_copyClusterSize`. */
  function CopyClusterSize(w: Worker, t: Json): Result<Json, Error> {
    Copy(t, ClusterSizePath, Parameter(w.name + "WorkerSize"))
  }

  /** `_copyInstanceType`. */
  function CopyInstanceType(w: Worker, t: Json): Result<Json, Error> {
    Copy(t, InstanceTypePath, Parameter(w.instanceTypeName))
  }

  /** `_copyNodeAsg`. */
  function CopyNodeAsg(w: Worker, t: Json): Result<Json, Error> {
    Copy(t, NodeAsgPath, Resource(w.name + "WorkerAsg"))
  }

  /** `_copyLaunchConfig`. */
  function CopyLaunchConfig(w: Worker, t: Json): Result<Json, Error> {
    Copy(t, NodeLaunchConfigPath(w.versionString),
         Resource(w.name + "WorkerLaunchConfig" + w.versionString))
  }

  /** `_modifyWorkerAsg`: the four references of the new group, in the
      source's order. */
  function ModifyWorkerAsg(w: Worker, t: Json): Result<Json, Error> {
    var asg := Resource(w.name + "WorkerAsg");
    var t1 :- Put(t, asg + CountRef, JStr(w.name + "WorkerSize"));
    var t2 :- Put(t1, asg + DesiredCapacityRef, JStr(w.name + "WorkerSize"));
    var t3 :- Put(t2, asg + LaunchConfigNameRef, JStr(w.name + "WorkerLaunchConfig" + w.versionString));
    Put(t3, asg + MinInServiceRef, JStr(w.name + "WorkerSize"))
  }

  /** `_modifyWorkerLaunchConfig`. */
  function ModifyWorkerLaunchConfig(w: Worker, t: Json): Result<Json, Error> {
    Put(t, Resource(w.launchConfigName) + InstanceTypeRef, JStr(w.name + "WorkerInstanceType"))
  }

  /** `opts.CustomTags` as entries; an absent option has none. */
  function TagEntries(w: Worker): seq<(string, Json)> {
    match w.opts.customTags
    case None => []
    case Some(entries) => entries
  }

  /** `opts.AfterDaemonStarted`; an absent option has no commands. */
  function Commands(w: Worker): seq<string> {
    match w.opts.afterDaemonStarted
    case None => []
    case Some(commands) => commands
  }

  /** `opts.Labels`; an absent option has no labels. */
  function Labels(w: Worker): seq<string> {
    match w.opts.labels
    case None => []
    case Some(labels) => labels
  }

  /** `_setCustomTags`: nothing to do without tags. */
  function SetCustomTags(w: Worker, t: Json): Result<Json, Error> {
    if |TagEntries(w)| == 0 then Success(t)
    else
      var tags := Resource(w.autoScalingGroupName) + TagsField;
      var existing :- Get(Defined(t), tags);
      Put(t, tags, JArr(Tags.Union(Tags.Records(TagEntries(w)), existing)))
  }

  /** The value at `p` used as an array (the receiver of a `.map`), which
      throws unless it is one. */
  function ArrayAt(t: Json, p: Path): Result<seq<Json>, Error> {
    var v :- Get(Defined(t), p);
    if v.Defined? && v.json.JArr? then Success(v.json.items) else Failure(TypeError)
  }

  /** `_getLaunchConfigCode`, together with the `.map` each caller applies
      to it. */
  function LaunchConfigCode(w: Worker, t: Json): Result<seq<Json>, Error> {
    ArrayAt(t, Resource(w.launchConfigName) + ScriptField)
  }

  /** `_setLaunchConfigCode`. */
  function SetLaunchConfigCode(w: Worker, t: Json, code: seq<Json>): Result<Json, Error> {
    Put(t, Resource(w.launchConfigName) + ScriptField, JArr(code))
  }

  /** `_setAfterDaemonStarted`: nothing to do without commands. */
  function SetAfterDaemonStarted(w: Worker, t: Json): Result<Json, Error> {
    if |Commands(w)| == 0 then Success(t)
    else
      var tokens :- LaunchConfigCode(w, t);
      SetLaunchConfigCode(w, t, Script.InsertCommands(tokens, Commands(w)))
  }

  /** `_setLabels`: nothing to do without labels. */
  function SetLabels(w: Worker, t: Json): Result<Json, Error> {
    if |Labels(w)| == 0 then Success(t)
    else
      var tokens :- LaunchConfigCode(w, t);
      SetLaunchConfigCode(w, t, Script.SpliceLabels(tokens, Labels(w)))
  }

  /** `create()`: the copies, the rewiring, then the three overlays in the
      order tags, commands, labels. */
  function Create(w: Worker): (r: Result<Json, Error>)
    ensures r.Failure? ==> r.error == TypeError || r.error == Unrepresentable
  {
    var t1 :- CopyClusterSize(w, w.template);
    var t2 :- CopyInstanceType(w, t1);
    var t3 :- CopyNodeAsg(w, t2);
    var t4 :- CopyLaunchConfig(w, t3);
    var t5 :- ModifyWorkerAsg(w, t4);
    var t6 :- ModifyWorkerLaunchConfig(w, t5);
    var t7 :- SetCustomTags(w, t6);
    var t8 :- SetAfterDaemonStarted(w, t7);
    SetLabels(w, t8)
  }

  /** `new Worker(template, opts).create()`. */
  function Generate(template: Option<Json>, opts: Options): (r: Result<Json, Error>)
    ensures r == Failure(MissingTemplate) <==> template.None? || !Truthy(template.value)
    ensures r == Failure(MissingName)
            <==> template.Some? && Truthy(template.value) && (opts.name.None? || opts.name.value == "")
    ensures r.Success? ==> template.Some? && template.value.JObj? && opts.name.Some? && opts.name.value != ""
                           && ForAws(template.value).Some?
  {
    var w :- New(template, opts);
    Create(w)
  }
}
