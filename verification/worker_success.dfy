/** When `create` succeeds. A template shaped like the Docker for AWS one,
    whose node pool holds the objects the rewiring assigns into and, when
    commands or labels are given, a script array, lets every step of
    `create` go through. */
module WorkerSuccess {
  import opened Outcomes
  import opened JsonValue
  import opened Worker
  import opened WorkerProofs
  import Tags
  import Script

  // ---------------------------------------------------------------------
  // The shape `create` needs

  /** The new group can be added, and NodeAsg holds the objects the
      rewiring assigns into (and `Properties` for the tags, when there are
      tags). */
  predicate NodeAsgShaped(w: Worker, t: Json) {
    && Writable(t, Resource(w.autoScalingGroupName))
    && Writable(t, NodeAsgPath + CountRef) && Writable(t, NodeAsgPath + DesiredCapacityRef)
    && Writable(t, NodeAsgPath + LaunchConfigNameRef) && Writable(t, NodeAsgPath + MinInServiceRef)
    && (|TagEntries(w)| > 0 ==> Writable(t, NodeAsgPath + TagsField))
  }

  /** The new launch configuration can be added, and NodeLaunchConfig<suffix>
      holds `Properties.InstanceType` and, when commands or labels are
      given, a script array in a writable place. */
  predicate NodeLaunchConfigShaped(w: Worker, t: Json) {
    var nlc := NodeLaunchConfigPath(w.versionString);
    && Writable(t, Resource(w.launchConfigName))
    && Writable(t, nlc + InstanceTypeRef)
    && (|Commands(w)| > 0 || |Labels(w)| > 0 ==>
          Writable(t, nlc + ScriptField) && ArrayAt(t, nlc + ScriptField).Success?)
  }

  /** The shape of the constructor's copy that lets `create` succeed: the
      two new parameters can be added, and the node pool is shaped as
      above. */
  predicate Shaped(w: Worker) {
    && Writable(w.template, Parameter(SizeName(w)))
    && Writable(w.template, Parameter(w.instanceTypeName))
    && NodeAsgShaped(w, w.template)
    && NodeLaunchConfigShaped(w, w.template)
  }

  predicate AsgRefsShaped(w: Worker, t: Json) {
    var asg := Resource(w.autoScalingGroupName);
    && Writable(t, asg + CountRef) && Writable(t, asg + DesiredCapacityRef)
    && Writable(t, asg + LaunchConfigNameRef) && Writable(t, asg + MinInServiceRef)
  }

  predicate TagsShaped(w: Worker, t: Json) {
    |TagEntries(w)| > 0 ==> Writable(t, Resource(w.autoScalingGroupName) + TagsField)
  }

  predicate LaunchConfigRefShaped(w: Worker, t: Json) {
    Writable(t, Resource(w.launchConfigName) + InstanceTypeRef)
  }

  predicate ScriptShaped(w: Worker, t: Json) {
    var script := Resource(w.launchConfigName) + ScriptField;
    |Commands(w)| > 0 || |Labels(w)| > 0 ==> Writable(t, script) && ArrayAt(t, script).Success?
  }

  // ---------------------------------------------------------------------
  // The copies

  /** A write outside `Resources` keeps the node pool's shape. */
  lemma NodePoolShapedKept(w: Worker, t: Json, p: Path, x: Json)
    requires |p| > 0 && p[0] != "Resources" && Put(t, p, x).Success?
    requires NodeAsgShaped(w, t) && NodeLaunchConfigShaped(w, t)
    ensures NodeAsgShaped(w, Put(t, p, x).value) && NodeLaunchConfigShaped(w, Put(t, p, x).value)
  {
    var nlc := NodeLaunchConfigPath(w.versionString);
    WritableKept(t, p, x, Resource(w.autoScalingGroupName));
    WritableKept(t, p, x, NodeAsgPath + CountRef);
    WritableKept(t, p, x, NodeAsgPath + DesiredCapacityRef);
    WritableKept(t, p, x, NodeAsgPath + LaunchConfigNameRef);
    WritableKept(t, p, x, NodeAsgPath + MinInServiceRef);
    if |TagEntries(w)| > 0 {
      WritableKept(t, p, x, NodeAsgPath + TagsField);
    }
    WritableKept(t, p, x, Resource(w.launchConfigName));
    WritableKept(t, p, x, nlc + InstanceTypeRef);
    if |Commands(w)| > 0 || |Labels(w)| > 0 {
      WritableKept(t, p, x, nlc + ScriptField);
      DivergeAt(p, nlc + ScriptField, 0);
      PutFrame(t, p, x, nlc + ScriptField);
    }
  }

  /** The two parameter copies succeed and keep the node pool's shape. */
  lemma ParameterCopiesSucceed(w: Worker)
    requires Valid(w) && Shaped(w)
    ensures CopyClusterSize(w, w.template).Success?
    ensures var t1 := CopyClusterSize(w, w.template).value;
            && CopyInstanceType(w, t1).Success?
            && NodeAsgShaped(w, CopyInstanceType(w, t1).value)
            && NodeLaunchConfigShaped(w, CopyInstanceType(w, t1).value)
  {
    var t := w.template;
    var p1 := Parameter(SizeName(w));
    var p2 := Parameter(w.instanceTypeName);
    ReadsBeside(t, p1, "ClusterSize");
    assert p1[..1] + ["ClusterSize"] == ClusterSizePath;
    var c1 := ExtendedCopy(Get(Defined(t), ClusterSizePath).value);
    PutSucceeds(t, p1, c1);
    var t1 := Put(t, p1, c1).value;
    WritableKept(t, p1, c1, p2);
    NodePoolShapedKept(w, t, p1, c1);
    ReadsBeside(t1, p2, "InstanceType");
    assert p2[..1] + ["InstanceType"] == InstanceTypePath;
    var c2 := ExtendedCopy(Get(Defined(t1), InstanceTypePath).value);
    PutSucceeds(t1, p2, c2);
    NodePoolShapedKept(w, t1, p2, c2);
  }

  /** Copying an object carries the writable paths below its source over to
      below its copy. */
  lemma CopyCarriesWritable(t: Json, from: Path, to: Path, b: Path, n: Json)
    requires |to| > 0 && Copy(t, from, to).Success?
    requires Get(Defined(t), from) == Success(Defined(n)) && n.JObj?
    requires Writable(t, to) && Writable(t, from + b)
    ensures Writable(Copy(t, from, to).value, to + b)
  {
    CopyWrites(t, from, to);
    WritableKept(t, to, n, to);
    WritableAppend(t, from, b, n);
    WritableAppend(Copy(t, from, to).value, to, b, n);
  }

  /** The node at the head of a writable path `a + b` whose first key below
      `a` is not an index is an object. */
  lemma ObjectAbove(t: Json, a: Path, b: Path)
    requires |b| > 0 && |b[0]| > 0 && !IsDigit(b[0][0]) && Writable(t, a + b)
    ensures Get(Defined(t), a).Success? && Get(Defined(t), a).value.Defined?
    ensures Get(Defined(t), a).value.json.JObj?
  {
    assert CanAssignAt(t, (a + b)[..|a|], (a + b)[|a|]);
    assert (a + b)[..|a|] == a;
    NamedKeyNeedsObject(Get(Defined(t), a).value.json, b[0]);
  }

  /** Copying NodeAsg succeeds; the new group can then be rewired, and the
      launch configuration's source is untouched. */
  lemma NodeAsgCopySucceeds(w: Worker, t2: Json)
    requires Valid(w) && NoShadow(w)
    requires NodeAsgShaped(w, t2) && NodeLaunchConfigShaped(w, t2)
    ensures CopyNodeAsg(w, t2).Success?
    ensures AsgRefsShaped(w, CopyNodeAsg(w, t2).value) && TagsShaped(w, CopyNodeAsg(w, t2).value)
    ensures NodeLaunchConfigShaped(w, CopyNodeAsg(w, t2).value)
  {
    var asg := Resource(w.autoScalingGroupName);
    var nlc := NodeLaunchConfigPath(w.versionString);
    ObjectAbove(t2, NodeAsgPath, CountRef);
    var n := Get(Defined(t2), NodeAsgPath).value.json;
    var x := ExtendedCopy(Defined(n));
    PutSucceeds(t2, asg, x);
    CopyCarriesWritable(t2, NodeAsgPath, asg, CountRef, n);
    CopyCarriesWritable(t2, NodeAsgPath, asg, DesiredCapacityRef, n);
    CopyCarriesWritable(t2, NodeAsgPath, asg, LaunchConfigNameRef, n);
    CopyCarriesWritable(t2, NodeAsgPath, asg, MinInServiceRef, n);
    if |TagEntries(w)| > 0 {
      CopyCarriesWritable(t2, NodeAsgPath, asg, TagsField, n);
    }
    WritableKept(t2, asg, x, Resource(w.launchConfigName));
    WritableKept(t2, asg, x, nlc + InstanceTypeRef);
    if |Commands(w)| > 0 || |Labels(w)| > 0 {
      WritableKept(t2, asg, x, nlc + ScriptField);
      DivergeAt(asg, nlc + ScriptField, 1);
      PutFrame(t2, asg, x, nlc + ScriptField);
    }
  }

  /** Copying the launch configuration succeeds, and the new pool can then
      be rewired and overlaid. */
  lemma LaunchConfigCopySucceeds(w: Worker, t3: Json)
    requires Valid(w)
    requires AsgRefsShaped(w, t3) && TagsShaped(w, t3) && NodeLaunchConfigShaped(w, t3)
    ensures CopyLaunchConfig(w, t3).Success?
    ensures var t4 := CopyLaunchConfig(w, t3).value;
            && AsgRefsShaped(w, t4) && TagsShaped(w, t4)
            && LaunchConfigRefShaped(w, t4) && ScriptShaped(w, t4)
  {
    var asg := Resource(w.autoScalingGroupName);
    var lc := Resource(w.launchConfigName);
    var nlc := NodeLaunchConfigPath(w.versionString);
    NamesDistinct(w);
    ObjectAbove(t3, nlc, InstanceTypeRef);
    var n := Get(Defined(t3), nlc).value.json;
    var x := ExtendedCopy(Defined(n));
    PutSucceeds(t3, lc, x);
    var t4 := Put(t3, lc, x).value;
    CopyCarriesWritable(t3, nlc, lc, InstanceTypeRef, n);
    if |Commands(w)| > 0 || |Labels(w)| > 0 {
      CopyCarriesWritable(t3, nlc, lc, ScriptField, n);
      CopyWrites(t3, nlc, lc);
      GetAppend(Defined(t4), lc, ScriptField);
      GetAppend(Defined(t3), nlc, ScriptField);
    }
    WritableKept(t3, lc, x, asg + CountRef);
    WritableKept(t3, lc, x, asg + DesiredCapacityRef);
    WritableKept(t3, lc, x, asg + LaunchConfigNameRef);
    WritableKept(t3, lc, x, asg + MinInServiceRef);
    if |TagEntries(w)| > 0 {
      WritableKept(t3, lc, x, asg + TagsField);
    }
  }

  // ---------------------------------------------------------------------
  // The rewiring and the overlays

  /** The group's rewiring keeps writable every path that does not run
      below one of its four references. */
  lemma AsgRewiringKeepsWritable(w: Worker, t: Json, q: Path)
    requires ModifyWorkerAsg(w, t).Success? && Writable(t, q)
    requires var asg := Resource(w.name + "WorkerAsg");
             && !(asg + CountRef < q) && !(asg + DesiredCapacityRef < q)
             && !(asg + LaunchConfigNameRef < q) && !(asg + MinInServiceRef < q)
    ensures Writable(ModifyWorkerAsg(w, t).value, q)
  {
    var asg := Resource(w.name + "WorkerAsg");
    var size := JStr(w.name + "WorkerSize");
    var lc := JStr(w.name + "WorkerLaunchConfig" + w.versionString);
    var t1 := Put(t, asg + CountRef, size).value;
    WritableKept(t, asg + CountRef, size, q);
    var t2 := Put(t1, asg + DesiredCapacityRef, size).value;
    WritableKept(t1, asg + DesiredCapacityRef, size, q);
    var t3 := Put(t2, asg + LaunchConfigNameRef, lc).value;
    WritableKept(t2, asg + LaunchConfigNameRef, lc, q);
    WritableKept(t3, asg + MinInServiceRef, size, q);
  }

  /** The group's rewiring succeeds on a group holding the four
      referenced objects. */
  lemma AsgRewiringSucceeds(w: Worker, t4: Json)
    requires Valid(w) && AsgRefsShaped(w, t4)
    ensures ModifyWorkerAsg(w, t4).Success?
  {
    var asg := Resource(w.name + "WorkerAsg");
    var size := JStr(w.name + "WorkerSize");
    var lc := JStr(w.name + "WorkerLaunchConfig" + w.versionString);
    PutSucceeds(t4, asg + CountRef, size);
    var t1 := Put(t4, asg + CountRef, size).value;
    WritableKept(t4, asg + CountRef, size, asg + DesiredCapacityRef);
    PutSucceeds(t1, asg + DesiredCapacityRef, size);
    var t2 := Put(t1, asg + DesiredCapacityRef, size).value;
    WritableKept(t4, asg + CountRef, size, asg + LaunchConfigNameRef);
    WritableKept(t1, asg + DesiredCapacityRef, size, asg + LaunchConfigNameRef);
    PutSucceeds(t2, asg + LaunchConfigNameRef, lc);
    var t3 := Put(t2, asg + LaunchConfigNameRef, lc).value;
    WritableKept(t4, asg + CountRef, size, asg + MinInServiceRef);
    WritableKept(t1, asg + DesiredCapacityRef, size, asg + MinInServiceRef);
    WritableKept(t2, asg + LaunchConfigNameRef, lc, asg + MinInServiceRef);
    PutSucceeds(t3, asg + MinInServiceRef, size);
  }

  /** After the group's rewiring, the tags, the launch configuration's
      reference and its script keep their shape. */
  lemma AsgRewiringKeepsShape(w: Worker, t4: Json)
    requires Valid(w) && ModifyWorkerAsg(w, t4).Success?
    requires TagsShaped(w, t4) && LaunchConfigRefShaped(w, t4) && ScriptShaped(w, t4)
    ensures var t5 := ModifyWorkerAsg(w, t4).value;
            TagsShaped(w, t5) && LaunchConfigRefShaped(w, t5) && ScriptShaped(w, t5)
  {
    var asg := Resource(w.autoScalingGroupName);
    var lc := Resource(w.launchConfigName);
    NamesDistinct(w);
    if |TagEntries(w)| > 0 {
      AsgRewiringKeepsWritable(w, t4, asg + TagsField);
    }
    AsgRewiringKeepsWritable(w, t4, lc + InstanceTypeRef);
    if |Commands(w)| > 0 || |Labels(w)| > 0 {
      PartedNotBelow(asg + CountRef, lc + ScriptField, 1);
      PartedNotBelow(asg + DesiredCapacityRef, lc + ScriptField, 1);
      PartedNotBelow(asg + LaunchConfigNameRef, lc + ScriptField, 1);
      PartedNotBelow(asg + MinInServiceRef, lc + ScriptField, 1);
      AsgRewiringKeepsWritable(w, t4, lc + ScriptField);
      ResourcesApart(w.autoScalingGroupName, w.launchConfigName, CountRef, ScriptField);
      ResourcesApart(w.autoScalingGroupName, w.launchConfigName, DesiredCapacityRef, ScriptField);
      ResourcesApart(w.autoScalingGroupName, w.launchConfigName, LaunchConfigNameRef, ScriptField);
      ResourcesApart(w.autoScalingGroupName, w.launchConfigName, MinInServiceRef, ScriptField);
      ModifyWorkerAsgFrame(w, t4, lc + ScriptField);
    }
  }

  /** The launch configuration's rewiring succeeds and keeps the tags and
      the script in shape. */
  lemma LaunchConfigRewiringSucceeds(w: Worker, t5: Json)
    requires Valid(w) && TagsShaped(w, t5) && LaunchConfigRefShaped(w, t5) && ScriptShaped(w, t5)
    ensures ModifyWorkerLaunchConfig(w, t5).Success?
    ensures TagsShaped(w, ModifyWorkerLaunchConfig(w, t5).value)
    ensures ScriptShaped(w, ModifyWorkerLaunchConfig(w, t5).value)
  {
    var lc := Resource(w.launchConfigName);
    var x := JStr(w.name + "WorkerInstanceType");
    NamesDistinct(w);
    PutSucceeds(t5, lc + InstanceTypeRef, x);
    if |TagEntries(w)| > 0 {
      WritableKept(t5, lc + InstanceTypeRef, x, Resource(w.autoScalingGroupName) + TagsField);
    }
    if |Commands(w)| > 0 || |Labels(w)| > 0 {
      PartedNotBelow(lc + InstanceTypeRef, lc + ScriptField, 3);
      WritableKept(t5, lc + InstanceTypeRef, x, lc + ScriptField);
      DivergeAt(lc + InstanceTypeRef, lc + ScriptField, 3);
      ModifyWorkerLaunchConfigFrame(w, t5, lc + ScriptField);
    }
  }

  /** The tag overlay succeeds and keeps the script in shape. */
  lemma TagOverlaySucceeds(w: Worker, t6: Json)
    requires Valid(w) && TagsShaped(w, t6) && ScriptShaped(w, t6)
    ensures SetCustomTags(w, t6).Success?
    ensures ScriptShaped(w, SetCustomTags(w, t6).value)
  {
    if |TagEntries(w)| > 0 {
      var tags := Resource(w.autoScalingGroupName) + TagsField;
      var lc := Resource(w.launchConfigName);
      NamesDistinct(w);
      WritableReads(t6, tags);
      var x := JArr(Tags.Union(Tags.Records(TagEntries(w)), Get(Defined(t6), tags).value));
      PutSucceeds(t6, tags, x);
      if |Commands(w)| > 0 || |Labels(w)| > 0 {
        WritableKept(t6, tags, x, lc + ScriptField);
        ResourcesApart(w.autoScalingGroupName, w.launchConfigName, TagsField, ScriptField);
        SetCustomTagsFrame(w, t6, lc + ScriptField);
      }
    }
  }

  /** The command overlay succeeds on a script array in a writable place,
      and leaves one there. */
  lemma CommandOverlaySucceeds(w: Worker, t7: Json)
    requires Valid(w) && ScriptShaped(w, t7)
    ensures SetAfterDaemonStarted(w, t7).Success?
    ensures ScriptShaped(w, SetAfterDaemonStarted(w, t7).value)
  {
    if |Commands(w)| > 0 {
      var script := Resource(w.launchConfigName) + ScriptField;
      var x := JArr(Script.InsertCommands(LaunchConfigCode(w, t7).value, Commands(w)));
      PutSucceeds(t7, script, x);
      WritableKept(t7, script, x, script);
      GetAfterPut(t7, script, x);
    }
  }

  /** The label overlay succeeds on a script array in a writable place. */
  lemma LabelOverlaySucceeds(w: Worker, t8: Json)
    requires Valid(w) && ScriptShaped(w, t8)
    ensures SetLabels(w, t8).Success?
  {
    if |Labels(w)| > 0 {
      var script := Resource(w.launchConfigName) + ScriptField;
      PutSucceeds(t8, script, JArr(Script.SpliceLabels(LaunchConfigCode(w, t8).value, Labels(w))));
    }
  }

  // ---------------------------------------------------------------------
  // `create` as a whole

  /** On a template of that shape `create` succeeds. */
  lemma {:induction false} CreateSucceeds(w: Worker)
    requires Valid(w) && NoShadow(w) && Shaped(w)
    ensures Create(w).Success?
  {
    ParameterCopiesSucceed(w);
    var t1 := CopyClusterSize(w, w.template).value;
    var t2 := CopyInstanceType(w, t1).value;
    NodeAsgCopySucceeds(w, t2);
    var t3 := CopyNodeAsg(w, t2).value;
    LaunchConfigCopySucceeds(w, t3);
    var t4 := CopyLaunchConfig(w, t3).value;
    AsgRewiringSucceeds(w, t4);
    AsgRewiringKeepsShape(w, t4);
    var t5 := ModifyWorkerAsg(w, t4).value;
    LaunchConfigRewiringSucceeds(w, t5);
    var t6 := ModifyWorkerLaunchConfig(w, t5).value;
    TagOverlaySucceeds(w, t6);
    var t7 := SetCustomTags(w, t6).value;
    CommandOverlaySucceeds(w, t7);
    var t8 := SetAfterDaemonStarted(w, t7).value;
    LabelOverlaySucceeds(w, t8);
  }

  // ---------------------------------------------------------------------
  // An example

  /** The parts of a Docker for AWS 17.05.0-ce template that `create`
      touches: a cluster size defaulting to 5, a node group with the four
      referenced objects, and a node launch configuration. */
  function ExampleTemplate(): Json {
    JObj(map[
      "Mappings" := JObj(map["DockerForAWS" := JObj(map["version" := JObj(map["forAws" := JStr("17.05.0-ce")])])]),
      "Parameters" := JObj(map["ClusterSize" := JObj(map["Default" := JStr("5")]), "InstanceType" := JObj(map[])]),
      "Resources" := JObj(map["NodeAsg" := ExampleNodeAsg(), "NodeLaunchConfig17050ce" := ExampleNodeLaunchConfig()])])
  }

  function ExampleNodeAsg(): Json {
    JObj(map[
      "CreationPolicy" := JObj(map["ResourceSignal" := JObj(map["Count" := JObj(map["Ref" := JStr("ClusterSize")])])]),
      "Properties" := JObj(map["DesiredCapacity" := JObj(map[]), "LaunchConfigurationName" := JObj(map[])]),
      "UpdatePolicy" := JObj(map["AutoScalingRollingUpdate" := JObj(map["MinInstancesInService" := JObj(map[])])])])
  }

  function ExampleNodeLaunchConfig(): Json {
    JObj(map["Properties" := JObj(map["InstanceType" := JObj(map[])])])
  }

  function ExampleOptions(): Options {
    Options(Some("Infra"), None, None, None)
  }

  lemma ExampleVersion()
    ensures ForAws(ExampleTemplate()) == Some("17.05.0-ce")
  {
    var t := ExampleTemplate();
    var m := t.fields["Mappings"];
    assert Member(Defined(t), "Mappings") == Success(Defined(m));
    assert VersionPath[1..] == ["DockerForAWS", "version", "forAws"];
    assert Get(Defined(m), ["DockerForAWS", "version", "forAws"]) == Success(Defined(JStr("17.05.0-ce")));
  }

  /** The constructor accepts the example and derives the suffix `17050ce`
      from `17.05.0-ce`. */
  lemma ExampleWorker()
    ensures New(Some(ExampleTemplate()), ExampleOptions()).Success?
    ensures New(Some(ExampleTemplate()), ExampleOptions()).value.versionString == "17050ce"
  {
    var r := New(Some(ExampleTemplate()), ExampleOptions());
    ExampleVersion();
    assert r.Success?;
    assert r.value.versionString == Version.Suffix("17.05.0-ce");
    Version.SuffixExample();
  }

  /** `ObjectsAlong` one level up: `k` names an object field of `j`. */
  lemma ObjectsAbove(j: Json, k: string, p: Path)
    requires j.JObj? && k in j.fields && ObjectsAlong(j.fields[k], p)
    ensures ObjectsAlong(j, [k] + p)
  {
    assert ([k] + p)[1..] == p;
  }

  /** The node group of the example holds the four referenced objects. */
  lemma ExampleNodeAsgShaped(t: Json)
    requires t == ExampleTemplate()
    ensures ObjectsAlong(t, ["Resources", "NodeAsg"] + ["CreationPolicy", "ResourceSignal", "Count"])
    ensures ObjectsAlong(t, ["Resources", "NodeAsg"] + ["Properties", "DesiredCapacity"])
    ensures ObjectsAlong(t, ["Resources", "NodeAsg"] + ["Properties", "LaunchConfigurationName"])
    ensures ObjectsAlong(t, ["Resources", "NodeAsg"] + ["UpdatePolicy", "AutoScalingRollingUpdate", "MinInstancesInService"])
  {
    var resources := t.fields["Resources"];
    var asg := ExampleNodeAsg();
    assert resources.fields["NodeAsg"] == asg;
    var cp := asg.fields["CreationPolicy"];
    var rs := cp.fields["ResourceSignal"];
    assert ObjectsAlong(rs, ["Count"]);
    ObjectsAbove(cp, "ResourceSignal", ["Count"]);
    ObjectsAbove(asg, "CreationPolicy", ["ResourceSignal", "Count"]);
    var props := asg.fields["Properties"];
    assert ObjectsAlong(props, ["DesiredCapacity"]);
    assert ObjectsAlong(props, ["LaunchConfigurationName"]);
    ObjectsAbove(asg, "Properties", ["DesiredCapacity"]);
    ObjectsAbove(asg, "Properties", ["LaunchConfigurationName"]);
    var up := asg.fields["UpdatePolicy"];
    assert ObjectsAlong(up.fields["AutoScalingRollingUpdate"], ["MinInstancesInService"]);
    ObjectsAbove(up, "AutoScalingRollingUpdate", ["MinInstancesInService"]);
    ObjectsAbove(asg, "UpdatePolicy", ["AutoScalingRollingUpdate", "MinInstancesInService"]);
    var below := [["CreationPolicy", "ResourceSignal", "Count"], ["Properties", "DesiredCapacity"],
                  ["Properties", "LaunchConfigurationName"],
                  ["UpdatePolicy", "AutoScalingRollingUpdate", "MinInstancesInService"]];
    forall i | 0 <= i < |below|
      ensures ObjectsAlong(t, ["Resources", "NodeAsg"] + below[i])
    {
      ObjectsAbove(resources, "NodeAsg", below[i]);
      ObjectsAbove(t, "Resources", ["NodeAsg"] + below[i]);
      assert ["Resources"] + (["NodeAsg"] + below[i]) == ["Resources", "NodeAsg"] + below[i];
    }
    assert below[0] == ["CreationPolicy", "ResourceSignal", "Count"];
    assert below[1] == ["Properties", "DesiredCapacity"];
    assert below[2] == ["Properties", "LaunchConfigurationName"];
    assert below[3] == ["UpdatePolicy", "AutoScalingRollingUpdate", "MinInstancesInService"];
  }

  lemma ExampleShaped(w: Worker)
    requires Valid(w) && w.opts == ExampleOptions() && w.template == ExampleTemplate()
    requires w.versionString == "17050ce"
    ensures NoShadow(w) && Shaped(w)
  {
    var t := ExampleTemplate();
    assert ObjectsAlong(t, ["Parameters"]);
    ObjectsAlongWritable(t, ["Parameters"], SizeName(w));
    ObjectsAlongWritable(t, ["Parameters"], w.instanceTypeName);
    assert ObjectsAlong(t, ["Resources"]);
    ObjectsAlongWritable(t, ["Resources"], w.autoScalingGroupName);
    ObjectsAlongWritable(t, ["Resources"], w.launchConfigName);
    ExampleNodeAsgShaped(t);
    var asg := ["Resources", "NodeAsg"];
    ObjectsAlongWritable(t, asg + ["CreationPolicy", "ResourceSignal", "Count"], "Ref");
    ObjectsAlongWritable(t, asg + ["Properties", "DesiredCapacity"], "Ref");
    ObjectsAlongWritable(t, asg + ["Properties", "LaunchConfigurationName"], "Ref");
    ObjectsAlongWritable(t, asg + ["UpdatePolicy", "AutoScalingRollingUpdate", "MinInstancesInService"], "Ref");
    var lc := t.fields["Resources"].fields["NodeLaunchConfig17050ce"];
    assert lc == ExampleNodeLaunchConfig();
    assert ObjectsAlong(lc.fields["Properties"], ["InstanceType"]);
    ObjectsAbove(lc, "Properties", ["InstanceType"]);
    ObjectsAbove(t.fields["Resources"], "NodeLaunchConfig17050ce", ["Properties", "InstanceType"]);
    ObjectsAbove(t, "Resources", ["NodeLaunchConfig17050ce", "Properties", "InstanceType"]);
    ObjectsAlongWritable(t, ["Resources", "NodeLaunchConfig17050ce", "Properties", "InstanceType"], "Ref");
    assert NodeAsgPath + CountRef == asg + ["CreationPolicy", "ResourceSignal", "Count"] + ["Ref"];
    assert NodeAsgPath + DesiredCapacityRef == asg + ["Properties", "DesiredCapacity"] + ["Ref"];
    assert NodeAsgPath + LaunchConfigNameRef == asg + ["Properties", "LaunchConfigurationName"] + ["Ref"];
    assert NodeAsgPath + MinInServiceRef
        == asg + ["UpdatePolicy", "AutoScalingRollingUpdate", "MinInstancesInService"] + ["Ref"];
    assert "NodeLaunchConfig" + w.versionString == "NodeLaunchConfig17050ce";
    assert NodeLaunchConfigPath(w.versionString) + InstanceTypeRef
        == ["Resources", "NodeLaunchConfig17050ce", "Properties", "InstanceType"] + ["Ref"];
  }

  /** The example's cluster size parameter is an object whose default is
      `"5"`. */
  lemma ExampleClusterSize(t: Json)
    requires t == ExampleTemplate()
    ensures IsObjectAt(t, ClusterSizePath)
    ensures Get(Defined(t), ClusterSizePath + ["Default"]) == Success(Defined(JStr("5")))
  {
    var params := t.fields["Parameters"];
    var size := params.fields["ClusterSize"];
    assert Member(Defined(t), "Parameters") == Success(Defined(params));
    assert Member(Defined(params), "ClusterSize") == Success(Defined(size));
    assert Get(Defined(size), ["Default"]) == Success(Defined(JStr("5")));
    assert (ClusterSizePath + ["Default"])[1..][1..] == ["Default"];
    assert ClusterSizePath[1..][1..] == [];
  }

  /** The names the example worker derives from `Infra`. */
  lemma ExampleNames(w: Worker)
    requires Valid(w) && w.opts == ExampleOptions()
    ensures SizeName(w) == "InfraWorkerSize" && w.autoScalingGroupName == "InfraWorkerAsg"
  {
    assert w.name == "Infra";
  }

  /** The example meets `CreateSucceeds`' conditions. */
  lemma ExampleCreateSucceeds(w: Worker)
    requires Valid(w) && w.opts == ExampleOptions() && w.template == ExampleTemplate()
    requires w.versionString == "17050ce"
    ensures Create(w).Success?
  {
    ExampleShaped(w);
    CreateSucceeds(w);
  }

  /** `create` on the example worker succeeds, gives `InfraWorkerSize` the
      default 5, and points the new group's signal count at it. */
  lemma ExampleCreate(w: Worker)
    requires Valid(w) && w.opts == ExampleOptions() && w.template == ExampleTemplate()
    requires w.versionString == "17050ce"
    ensures SizeName(w) == "InfraWorkerSize" && w.autoScalingGroupName == "InfraWorkerAsg"
    ensures Create(w).Success?
    ensures Get(Defined(Create(w).value), Parameter(SizeName(w)) + ["Default"]) == Success(Defined(JStr("5")))
    ensures Get(Defined(Create(w).value), Resource(w.autoScalingGroupName) + CountRef)
            == Success(Defined(JStr(SizeName(w))))
  {
    ExampleNames(w);
    ExampleCreateSucceeds(w);
    ExampleClusterSize(w.template);
    CreateCopiesParameters(w, ["Default"]);
    CreateRewiresWorkerAsg(w);
  }

  /** `new Worker(template, { Name: "Infra" }).create()` on the example
      succeeds with the same parameter and reference. */
  lemma ExampleGenerate(t: Json)
    requires t == ExampleTemplate()
    ensures var r := Generate(Some(t), ExampleOptions());
            && r.Success?
            && Get(Defined(r.value), ["Parameters", "InfraWorkerSize", "Default"]) == Success(Defined(JStr("5")))
            && Get(Defined(r.value), ["Resources", "InfraWorkerAsg"] + CountRef)
               == Success(Defined(JStr("InfraWorkerSize")))
  {
    ExampleWorker();
    var w := New(Some(t), ExampleOptions()).value;
    assert Generate(Some(t), ExampleOptions()) == Create(w);
    ExampleCreate(w);
    assert Parameter(SizeName(w)) + ["Default"] == ["Parameters", "InfraWorkerSize", "Default"];
    assert Resource(w.autoScalingGroupName) + CountRef == ["Resources", "InfraWorkerAsg"] + CountRef;
  }
}
