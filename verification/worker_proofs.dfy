/** What `create` does to the template, stated without reference to the
    order of its steps: where the new pool's nodes come from, which
    references point at the new names, what the three overlays produce, and
    that nothing outside the new pool changes. */
module WorkerProofs {
  import opened Outcomes
  import opened JsonValue
  import opened Worker
  import Tags
  import Script

  // ---------------------------------------------------------------------
  // The script overlays

  /** Reference definition of the script overlays: the composition
      `SpliceLabels(InsertCommands(tokens, commands), labels)`, where each
      stage is skipped when its list is empty, as `_setAfterDaemonStarted`
      and `_setLabels` skip it. Inserted commands get the labels too. */
  function OverlaidScript(w: Worker, tokens: seq<Json>): seq<Json> {
    var withCommands := if |Commands(w)| == 0 then tokens else Script.InsertCommands(tokens, Commands(w));
    if |Labels(w)| == 0 then withCommands else Script.SpliceLabels(withCommands, Labels(w))
  }

  /** The worker's group is not the launch configuration being copied.
      `Name + "WorkerAsg"` can spell `"NodeLaunchConfig" + suffix` (see
      `ShadowingIsReachable`); then the group's copy overwrites the source of
      the launch-configuration copy (`ShadowedLaunchConfigCopiesNodeAsg`). */
  predicate NoShadow(w: Worker) {
    w.autoScalingGroupName != "NodeLaunchConfig" + w.versionString
  }

  /** A template whose only content is the version string `WorkerAsg`. */
  function ShadowingTemplate(): Json {
    JObj(map["Mappings" := JObj(map["DockerForAWS" :=
      JObj(map["version" := JObj(map["forAws" := JStr("WorkerAsg")])])])])
  }

  lemma ShadowingTemplateVersion()
    ensures ForAws(ShadowingTemplate()) == Some("WorkerAsg")
  {
  }

  /** The clash `NoShadow` excludes is reachable: the constructor accepts
      the name `NodeLaunchConfig` for a template whose version string is
      `WorkerAsg`, and the new group is then named `NodeLaunchConfigWorkerAsg`,
      the launch configuration that `create` copies next. */
  lemma ShadowingIsReachable()
    ensures var r := New(Some(ShadowingTemplate()), Options(Some("NodeLaunchConfig"), None, None, None));
            r.Success? && !NoShadow(r.value)
  {
    var opts := Options(Some("NodeLaunchConfig"), None, None, None);
    ShadowingTemplateVersion();
    var r := New(Some(ShadowingTemplate()), opts);
    assert r.Success?;
    assert r.value.versionString == Version.Suffix("WorkerAsg");
    SeparatorFree("WorkerAsg");
    Version.SuffixWithoutSeparators("WorkerAsg");
    assert r.value.autoScalingGroupName == "NodeLaunchConfig" + "WorkerAsg";
  }

  /** A string none of whose characters is a separator has none. */
  lemma SeparatorFree(s: string)
    requires forall i :: 0 <= i < |s| ==> s[i] != '.' && s[i] != '-'
    ensures '.' !in s && '-' !in s
  {
  }

  /** Under that clash, copying NodeAsg overwrites the launch configuration
      the next step reads, so the new launch configuration is a copy of
      NodeAsg rather than of NodeLaunchConfig<suffix>. */
  lemma ShadowedLaunchConfigCopiesNodeAsg(w: Worker, t2: Json, t3: Json)
    requires Valid(w) && !NoShadow(w)
    requires CopyNodeAsg(w, t2).Success? && t3 == CopyNodeAsg(w, t2).value
    requires CopyLaunchConfig(w, t3).Success?
    ensures Get(Defined(t2), NodeAsgPath).Success?
    ensures Get(Defined(CopyLaunchConfig(w, t3).value), Resource(w.launchConfigName))
            == Success(Defined(ExtendedCopy(Get(Defined(t2), NodeAsgPath).value)))
  {
    CopyWrites(t2, NodeAsgPath, Resource(w.name + "WorkerAsg"));
    assert Resource(w.name + "WorkerAsg") == NodeLaunchConfigPath(w.versionString);
    CopyWrites(t3, NodeLaunchConfigPath(w.versionString),
               Resource(w.name + "WorkerLaunchConfig" + w.versionString));
  }

  // ---------------------------------------------------------------------
  // Names and paths

  /** The derived names differ from each other and from the node pool's
      names, apart from the one coincidence `NoShadow` excludes. */
  lemma NamesDistinct(w: Worker)
    requires Valid(w)
    ensures SizeName(w) != "ClusterSize" && SizeName(w) != "InstanceType"
    ensures w.instanceTypeName != "ClusterSize" && w.instanceTypeName != "InstanceType"
    ensures SizeName(w) != w.instanceTypeName
    ensures w.autoScalingGroupName != "NodeAsg" && w.autoScalingGroupName != w.launchConfigName
    ensures w.launchConfigName != "NodeAsg" && w.launchConfigName != "NodeLaunchConfig" + w.versionString
  {
    var n := |w.name|;
    assert SizeName(w)[n] == 'W';
    assert "ClusterSize"[1] == 'l' && "InstanceType"[2] == 's';
  }

  /** The parts of a group the rewiring and the tag overlay write. */
  predicate AvoidsAsgWrites(q: Path) {
    && Diverge(CountRef, q) && Diverge(DesiredCapacityRef, q)
    && Diverge(LaunchConfigNameRef, q) && Diverge(MinInServiceRef, q)
    && Diverge(TagsField, q)
  }

  /** The parts of a launch configuration the rewiring and the script
      overlays write. */
  predicate AvoidsLaunchConfigWrites(q: Path) {
    Diverge(InstanceTypeRef, q) && Diverge(ScriptField, q)
  }

  lemma AsgFieldsApart()
    ensures Diverge(DesiredCapacityRef, CountRef) && Diverge(LaunchConfigNameRef, CountRef)
    ensures Diverge(MinInServiceRef, CountRef) && Diverge(TagsField, CountRef)
    ensures Diverge(LaunchConfigNameRef, DesiredCapacityRef) && Diverge(MinInServiceRef, DesiredCapacityRef)
    ensures Diverge(TagsField, DesiredCapacityRef)
    ensures Diverge(MinInServiceRef, LaunchConfigNameRef) && Diverge(TagsField, LaunchConfigNameRef)
    ensures Diverge(TagsField, MinInServiceRef)
    ensures Diverge(CountRef, TagsField) && Diverge(DesiredCapacityRef, TagsField)
    ensures Diverge(LaunchConfigNameRef, TagsField) && Diverge(MinInServiceRef, TagsField)
  {
    DivergeAt(DesiredCapacityRef, CountRef, 0);
    DivergeAt(LaunchConfigNameRef, CountRef, 0);
    DivergeAt(MinInServiceRef, CountRef, 0);
    DivergeAt(TagsField, CountRef, 0);
    DivergeAt(LaunchConfigNameRef, DesiredCapacityRef, 1);
    DivergeAt(MinInServiceRef, DesiredCapacityRef, 0);
    DivergeAt(TagsField, DesiredCapacityRef, 1);
    DivergeAt(MinInServiceRef, LaunchConfigNameRef, 0);
    DivergeAt(TagsField, LaunchConfigNameRef, 1);
    DivergeAt(TagsField, MinInServiceRef, 0);
    DivergeAt(CountRef, TagsField, 0);
    DivergeAt(DesiredCapacityRef, TagsField, 1);
    DivergeAt(LaunchConfigNameRef, TagsField, 1);
    DivergeAt(MinInServiceRef, TagsField, 0);
  }

  /** Two resources with different names never share a node. */
  lemma ResourcesApart(a: string, b: string, x: Path, y: Path)
    requires a != b
    ensures Diverge(Resource(a) + x, Resource(b) + y)
  {
    DivergeAt(Resource(a) + x, Resource(b) + y, 1);
  }

  // ---------------------------------------------------------------------
  // The steps one at a time

  /** The intermediate templates of a successful `create`. */
  lemma Stages(w: Worker) returns (t1: Json, t2: Json, t3: Json, t4: Json,
                                            t5: Json, t6: Json, t7: Json, t8: Json)
    requires Create(w).Success?
    ensures CopyClusterSize(w, w.template) == Success(t1)
    ensures CopyInstanceType(w, t1) == Success(t2)
    ensures CopyNodeAsg(w, t2) == Success(t3)
    ensures CopyLaunchConfig(w, t3) == Success(t4)
    ensures ModifyWorkerAsg(w, t4) == Success(t5)
    ensures ModifyWorkerLaunchConfig(w, t5) == Success(t6)
    ensures SetCustomTags(w, t6) == Success(t7)
    ensures SetAfterDaemonStarted(w, t7) == Success(t8)
    ensures SetLabels(w, t8) == Create(w)
  {
    t1 := CopyClusterSize(w, w.template).value;
    t2 := CopyInstanceType(w, t1).value;
    t3 := CopyNodeAsg(w, t2).value;
    t4 := CopyLaunchConfig(w, t3).value;
    t5 := ModifyWorkerAsg(w, t4).value;
    t6 := ModifyWorkerLaunchConfig(w, t5).value;
    t7 := SetCustomTags(w, t6).value;
    t8 := SetAfterDaemonStarted(w, t7).value;
  }

  /** A copy step reads its source and stores the `deep-extend` copy. */
  lemma CopyWrites(t: Json, from: Path, to: Path)
    requires |to| > 0 && Copy(t, from, to).Success?
    ensures Get(Defined(t), from).Success?
    ensures Get(Defined(Copy(t, from, to).value), to)
            == Success(Defined(ExtendedCopy(Get(Defined(t), from).value)))
  {
    GetAfterPut(t, to, ExtendedCopy(Get(Defined(t), from).value));
  }

  lemma CopyFrame(t: Json, from: Path, to: Path, q: Path)
    requires |to| > 0 && Copy(t, from, to).Success?
    requires Diverge(to, q)
    ensures Get(Defined(Copy(t, from, to).value), q) == Get(Defined(t), q)
  {
    PutFrame(t, to, ExtendedCopy(Get(Defined(t), from).value), q);
  }

  lemma ModifyWorkerAsgWrites(w: Worker, t: Json)
    requires ModifyWorkerAsg(w, t).Success?
    ensures var asg := Resource(w.name + "WorkerAsg");
            var t' := Defined(ModifyWorkerAsg(w, t).value);
            && Get(t', asg + CountRef) == Success(Defined(JStr(w.name + "WorkerSize")))
            && Get(t', asg + DesiredCapacityRef) == Success(Defined(JStr(w.name + "WorkerSize")))
            && Get(t', asg + LaunchConfigNameRef)
               == Success(Defined(JStr(w.name + "WorkerLaunchConfig" + w.versionString)))
            && Get(t', asg + MinInServiceRef) == Success(Defined(JStr(w.name + "WorkerSize")))
  {
    var asg := Resource(w.name + "WorkerAsg");
    var size := JStr(w.name + "WorkerSize");
    var lc := JStr(w.name + "WorkerLaunchConfig" + w.versionString);
    AsgFieldsApart();
    var t1 := Put(t, asg + CountRef, size).value;
    GetAfterPut(t, asg + CountRef, size);
    var t2 := Put(t1, asg + DesiredCapacityRef, size).value;
    GetAfterPut(t1, asg + DesiredCapacityRef, size);
    DivergeUnder(asg, DesiredCapacityRef, CountRef);
    PutFrame(t1, asg + DesiredCapacityRef, size, asg + CountRef);
    var t3 := Put(t2, asg + LaunchConfigNameRef, lc).value;
    GetAfterPut(t2, asg + LaunchConfigNameRef, lc);
    DivergeUnder(asg, LaunchConfigNameRef, CountRef);
    DivergeUnder(asg, LaunchConfigNameRef, DesiredCapacityRef);
    PutFrame(t2, asg + LaunchConfigNameRef, lc, asg + CountRef);
    PutFrame(t2, asg + LaunchConfigNameRef, lc, asg + DesiredCapacityRef);
    GetAfterPut(t3, asg + MinInServiceRef, size);
    DivergeUnder(asg, MinInServiceRef, CountRef);
    DivergeUnder(asg, MinInServiceRef, DesiredCapacityRef);
    DivergeUnder(asg, MinInServiceRef, LaunchConfigNameRef);
    PutFrame(t3, asg + MinInServiceRef, size, asg + CountRef);
    PutFrame(t3, asg + MinInServiceRef, size, asg + DesiredCapacityRef);
    PutFrame(t3, asg + MinInServiceRef, size, asg + LaunchConfigNameRef);
  }

  lemma ModifyWorkerAsgFrame(w: Worker, t: Json, q: Path)
    requires ModifyWorkerAsg(w, t).Success?
    requires var asg := Resource(w.name + "WorkerAsg");
             && Diverge(asg + CountRef, q) && Diverge(asg + DesiredCapacityRef, q)
             && Diverge(asg + LaunchConfigNameRef, q) && Diverge(asg + MinInServiceRef, q)
    ensures Get(Defined(ModifyWorkerAsg(w, t).value), q) == Get(Defined(t), q)
  {
    var asg := Resource(w.name + "WorkerAsg");
    var size := JStr(w.name + "WorkerSize");
    var lc := JStr(w.name + "WorkerLaunchConfig" + w.versionString);
    var t1 := Put(t, asg + CountRef, size).value;
    PutFrame(t, asg + CountRef, size, q);
    var t2 := Put(t1, asg + DesiredCapacityRef, size).value;
    PutFrame(t1, asg + DesiredCapacityRef, size, q);
    var t3 := Put(t2, asg + LaunchConfigNameRef, lc).value;
    PutFrame(t2, asg + LaunchConfigNameRef, lc, q);
    PutFrame(t3, asg + MinInServiceRef, size, q);
  }

  lemma ModifyWorkerLaunchConfigWrites(w: Worker, t: Json)
    requires ModifyWorkerLaunchConfig(w, t).Success?
    ensures Get(Defined(ModifyWorkerLaunchConfig(w, t).value), Resource(w.launchConfigName) + InstanceTypeRef)
            == Success(Defined(JStr(w.name + "WorkerInstanceType")))
  {
    GetAfterPut(t, Resource(w.launchConfigName) + InstanceTypeRef, JStr(w.name + "WorkerInstanceType"));
  }

  lemma ModifyWorkerLaunchConfigFrame(w: Worker, t: Json, q: Path)
    requires ModifyWorkerLaunchConfig(w, t).Success?
    requires Diverge(Resource(w.launchConfigName) + InstanceTypeRef, q)
    ensures Get(Defined(ModifyWorkerLaunchConfig(w, t).value), q) == Get(Defined(t), q)
  {
    PutFrame(t, Resource(w.launchConfigName) + InstanceTypeRef, JStr(w.name + "WorkerInstanceType"), q);
  }

  lemma SetCustomTagsWrites(w: Worker, t: Json)
    requires SetCustomTags(w, t).Success?
    ensures var tags := Resource(w.autoScalingGroupName) + TagsField;
            if |TagEntries(w)| == 0 then SetCustomTags(w, t).value == t
            else
              && Get(Defined(t), tags).Success?
              && Get(Defined(SetCustomTags(w, t).value), tags)
                 == Success(Defined(JArr(Tags.Union(Tags.Records(TagEntries(w)), Get(Defined(t), tags).value))))
  {
    if |TagEntries(w)| > 0 {
      var tags := Resource(w.autoScalingGroupName) + TagsField;
      GetAfterPut(t, tags, JArr(Tags.Union(Tags.Records(TagEntries(w)), Get(Defined(t), tags).value)));
    }
  }

  lemma SetCustomTagsFrame(w: Worker, t: Json, q: Path)
    requires SetCustomTags(w, t).Success?
    requires Diverge(Resource(w.autoScalingGroupName) + TagsField, q)
    ensures Get(Defined(SetCustomTags(w, t).value), q) == Get(Defined(t), q)
  {
    if |TagEntries(w)| > 0 {
      var tags := Resource(w.autoScalingGroupName) + TagsField;
      PutFrame(t, tags, JArr(Tags.Union(Tags.Records(TagEntries(w)), Get(Defined(t), tags).value)), q);
    }
  }

  lemma SetAfterDaemonStartedWrites(w: Worker, t: Json)
    requires SetAfterDaemonStarted(w, t).Success?
    ensures var script := Resource(w.launchConfigName) + ScriptField;
            if |Commands(w)| == 0 then SetAfterDaemonStarted(w, t).value == t
            else
              && ArrayAt(t, script).Success?
              && Get(Defined(SetAfterDaemonStarted(w, t).value), script)
                 == Success(Defined(JArr(Script.InsertCommands(ArrayAt(t, script).value, Commands(w)))))
  {
    if |Commands(w)| > 0 {
      var script := Resource(w.launchConfigName) + ScriptField;
      var tokens := LaunchConfigCode(w, t).value;
      GetAfterPut(t, script, JArr(Script.InsertCommands(tokens, Commands(w))));
    }
  }

  lemma SetAfterDaemonStartedFrame(w: Worker, t: Json, q: Path)
    requires SetAfterDaemonStarted(w, t).Success?
    requires Diverge(Resource(w.launchConfigName) + ScriptField, q)
    ensures Get(Defined(SetAfterDaemonStarted(w, t).value), q) == Get(Defined(t), q)
  {
    if |Commands(w)| > 0 {
      var script := Resource(w.launchConfigName) + ScriptField;
      var tokens := LaunchConfigCode(w, t).value;
      PutFrame(t, script, JArr(Script.InsertCommands(tokens, Commands(w))), q);
    }
  }

  lemma SetLabelsWrites(w: Worker, t: Json)
    requires SetLabels(w, t).Success?
    ensures var script := Resource(w.launchConfigName) + ScriptField;
            if |Labels(w)| == 0 then SetLabels(w, t).value == t
            else
              && ArrayAt(t, script).Success?
              && Get(Defined(SetLabels(w, t).value), script)
                 == Success(Defined(JArr(Script.SpliceLabels(ArrayAt(t, script).value, Labels(w)))))
  {
    if |Labels(w)| > 0 {
      var script := Resource(w.launchConfigName) + ScriptField;
      var tokens := LaunchConfigCode(w, t).value;
      GetAfterPut(t, script, JArr(Script.SpliceLabels(tokens, Labels(w))));
    }
  }

  lemma SetLabelsFrame(w: Worker, t: Json, q: Path)
    requires SetLabels(w, t).Success?
    requires Diverge(Resource(w.launchConfigName) + ScriptField, q)
    ensures Get(Defined(SetLabels(w, t).value), q) == Get(Defined(t), q)
  {
    if |Labels(w)| > 0 {
      var script := Resource(w.launchConfigName) + ScriptField;
      var tokens := LaunchConfigCode(w, t).value;
      PutFrame(t, script, JArr(Script.SpliceLabels(tokens, Labels(w))), q);
    }
  }

  // ---------------------------------------------------------------------
  // Which steps touch which part

  /** The two resource copies change nothing outside the two new
      resources. */
  lemma ResourceCopiesFrame(w: Worker, t2: Json, t3: Json, t4: Json, q: Path)
    requires Valid(w)
    requires CopyNodeAsg(w, t2).Success? && t3 == CopyNodeAsg(w, t2).value
    requires CopyLaunchConfig(w, t3).Success? && t4 == CopyLaunchConfig(w, t3).value
    requires Diverge(Resource(w.autoScalingGroupName), q) && Diverge(Resource(w.launchConfigName), q)
    ensures Get(Defined(t4), q) == Get(Defined(t2), q)
  {
    CopyFrame(t2, NodeAsgPath, Resource(w.autoScalingGroupName), q);
    CopyFrame(t3, NodeLaunchConfigPath(w.versionString), Resource(w.launchConfigName), q);
  }

  /** The rewiring and the overlays change nothing outside the two new
      resources. */
  lemma {:induction false} RewiringAndOverlaysFrame(w: Worker, t4: Json, t5: Json, t6: Json, t7: Json,
                                                    t8: Json, r: Json, q: Path)
    requires Valid(w)
    requires ModifyWorkerAsg(w, t4).Success? && t5 == ModifyWorkerAsg(w, t4).value
    requires ModifyWorkerLaunchConfig(w, t5).Success? && t6 == ModifyWorkerLaunchConfig(w, t5).value
    requires SetCustomTags(w, t6).Success? && t7 == SetCustomTags(w, t6).value
    requires SetAfterDaemonStarted(w, t7).Success? && t8 == SetAfterDaemonStarted(w, t7).value
    requires SetLabels(w, t8).Success? && r == SetLabels(w, t8).value
    requires Diverge(Resource(w.autoScalingGroupName), q) && Diverge(Resource(w.launchConfigName), q)
    ensures Get(Defined(r), q) == Get(Defined(t4), q)
  {
    var asg := Resource(w.autoScalingGroupName);
    var lc := Resource(w.launchConfigName);
    DivergeDeeper(asg, CountRef, q);
    DivergeDeeper(asg, DesiredCapacityRef, q);
    DivergeDeeper(asg, LaunchConfigNameRef, q);
    DivergeDeeper(asg, MinInServiceRef, q);
    ModifyWorkerAsgFrame(w, t4, q);
    DivergeDeeper(lc, InstanceTypeRef, q);
    ModifyWorkerLaunchConfigFrame(w, t5, q);
    DivergeDeeper(asg, TagsField, q);
    SetCustomTagsFrame(w, t6, q);
    DivergeDeeper(lc, ScriptField, q);
    SetAfterDaemonStartedFrame(w, t7, q);
    SetLabelsFrame(w, t8, q);
  }

  /** The last four steps keep the new group as the rewiring left it, apart
      from its tags. */
  lemma {:induction false} LaterStepsKeepAsg(w: Worker, t5: Json, t6: Json, t7: Json, t8: Json,
                                             r: Json, q: Path)
    requires Valid(w)
    requires ModifyWorkerLaunchConfig(w, t5).Success? && t6 == ModifyWorkerLaunchConfig(w, t5).value
    requires SetCustomTags(w, t6).Success? && t7 == SetCustomTags(w, t6).value
    requires SetAfterDaemonStarted(w, t7).Success? && t8 == SetAfterDaemonStarted(w, t7).value
    requires SetLabels(w, t8).Success? && r == SetLabels(w, t8).value
    requires Diverge(TagsField, q)
    ensures Get(Defined(r), Resource(w.autoScalingGroupName) + q)
            == Get(Defined(t5), Resource(w.autoScalingGroupName) + q)
  {
    var asg := w.autoScalingGroupName;
    NamesDistinct(w);
    ResourcesApart(w.launchConfigName, asg, InstanceTypeRef, q);
    ModifyWorkerLaunchConfigFrame(w, t5, Resource(asg) + q);
    DivergeUnder(Resource(asg), TagsField, q);
    SetCustomTagsFrame(w, t6, Resource(asg) + q);
    ResourcesApart(w.launchConfigName, asg, ScriptField, q);
    SetAfterDaemonStartedFrame(w, t7, Resource(asg) + q);
    SetLabelsFrame(w, t8, Resource(asg) + q);
  }

  /** The three overlays keep the new launch configuration as the rewiring
      left it, apart from its script. */
  lemma {:induction false} OverlaysKeepLaunchConfig(w: Worker, t6: Json, t7: Json, t8: Json,
                                                    r: Json, q: Path)
    requires Valid(w)
    requires SetCustomTags(w, t6).Success? && t7 == SetCustomTags(w, t6).value
    requires SetAfterDaemonStarted(w, t7).Success? && t8 == SetAfterDaemonStarted(w, t7).value
    requires SetLabels(w, t8).Success? && r == SetLabels(w, t8).value
    requires Diverge(ScriptField, q)
    ensures Get(Defined(r), Resource(w.launchConfigName) + q)
            == Get(Defined(t6), Resource(w.launchConfigName) + q)
  {
    var lc := w.launchConfigName;
    NamesDistinct(w);
    ResourcesApart(w.autoScalingGroupName, lc, TagsField, q);
    SetCustomTagsFrame(w, t6, Resource(lc) + q);
    DivergeUnder(Resource(lc), ScriptField, q);
    SetAfterDaemonStartedFrame(w, t7, Resource(lc) + q);
    SetLabelsFrame(w, t8, Resource(lc) + q);
  }

  /** Once the group is rewired, the copy held the node group object: the
      rewiring's first chained assignment reads `CreationPolicy` from it,
      and a skipped (non-object) source would have left an empty object. */
  lemma {:induction false} AsgCopyIsNodeAsg(w: Worker, t2: Json, t3: Json, t4: Json, t5: Json, q: Path)
    requires Valid(w)
    requires CopyNodeAsg(w, t2).Success? && t3 == CopyNodeAsg(w, t2).value
    requires CopyLaunchConfig(w, t3).Success? && t4 == CopyLaunchConfig(w, t3).value
    requires ModifyWorkerAsg(w, t4).Success? && t5 == ModifyWorkerAsg(w, t4).value
    ensures Get(Defined(t2), NodeAsgPath).Success?
    ensures Get(Defined(t2), NodeAsgPath).value.Defined?
    ensures Get(Defined(t2), NodeAsgPath).value.json.JObj?
    ensures Get(Defined(t4), Resource(w.autoScalingGroupName) + q) == Get(Defined(t2), NodeAsgPath + q)
  {
    var asg := Resource(w.autoScalingGroupName);
    var lc := Resource(w.launchConfigName);
    NamesDistinct(w);
    CopyWrites(t2, NodeAsgPath, asg);
    var source := Get(Defined(t2), NodeAsgPath).value;
    var copy := ExtendedCopy(source);
    // The copy is what the launch-configuration copy leaves at `asg`.
    DivergeAt(lc, asg + q, 1);
    CopyFrame(t3, NodeLaunchConfigPath(w.versionString), lc, asg + q);
    GetAppend(Defined(t3), asg, q);
    // The copy has a `CreationPolicy`, so it is not the empty object.
    var creation := asg + ["CreationPolicy"];
    assert creation + CountRef[1..] == asg + CountRef;
    PutReadsPrefix(t4, creation, CountRef[1..], JStr(w.name + "WorkerSize"));
    DivergeAt(lc, creation, 1);
    CopyFrame(t3, NodeLaunchConfigPath(w.versionString), lc, creation);
    GetAppend(Defined(t3), asg, ["CreationPolicy"]);
    assert "CreationPolicy" in copy.fields;
    GetAppend(Defined(t2), NodeAsgPath, q);
  }

  /** The same for the launch configuration: the rewiring reads
      `Properties` from the copy. */
  lemma {:induction false} LaunchConfigCopyIsNodeLaunchConfig(w: Worker, t3: Json, t4: Json, t5: Json,
                                                              t6: Json, q: Path)
    requires Valid(w)
    requires CopyLaunchConfig(w, t3).Success? && t4 == CopyLaunchConfig(w, t3).value
    requires ModifyWorkerAsg(w, t4).Success? && t5 == ModifyWorkerAsg(w, t4).value
    requires ModifyWorkerLaunchConfig(w, t5).Success? && t6 == ModifyWorkerLaunchConfig(w, t5).value
    ensures Get(Defined(t3), NodeLaunchConfigPath(w.versionString)).Success?
    ensures Get(Defined(t3), NodeLaunchConfigPath(w.versionString)).value.Defined?
    ensures Get(Defined(t3), NodeLaunchConfigPath(w.versionString)).value.json.JObj?
    ensures Get(Defined(t5), Resource(w.launchConfigName) + q)
            == Get(Defined(t3), NodeLaunchConfigPath(w.versionString) + q)
  {
    var asg := w.autoScalingGroupName;
    var lc := Resource(w.launchConfigName);
    var from := NodeLaunchConfigPath(w.versionString);
    NamesDistinct(w);
    CopyWrites(t3, from, lc);
    var copy := ExtendedCopy(Get(Defined(t3), from).value);
    ResourcesApart(asg, w.launchConfigName, CountRef, q);
    ResourcesApart(asg, w.launchConfigName, DesiredCapacityRef, q);
    ResourcesApart(asg, w.launchConfigName, LaunchConfigNameRef, q);
    ResourcesApart(asg, w.launchConfigName, MinInServiceRef, q);
    ModifyWorkerAsgFrame(w, t4, lc + q);
    GetAppend(Defined(t4), lc, q);
    // The copy has `Properties`, so it is not the empty object.
    var props: Path := ["Properties"];
    assert (lc + props) + InstanceTypeRef[1..] == lc + InstanceTypeRef;
    PutReadsPrefix(t5, lc + props, InstanceTypeRef[1..], JStr(w.name + "WorkerInstanceType"));
    ResourcesApart(asg, w.launchConfigName, CountRef, props);
    ResourcesApart(asg, w.launchConfigName, DesiredCapacityRef, props);
    ResourcesApart(asg, w.launchConfigName, LaunchConfigNameRef, props);
    ResourcesApart(asg, w.launchConfigName, MinInServiceRef, props);
    ModifyWorkerAsgFrame(w, t4, lc + props);
    GetAppend(Defined(t4), lc, props);
    assert "Properties" in copy.fields;
    GetAppend(Defined(t3), from, q);
  }

  // ---------------------------------------------------------------------
  // What `create` produces

  /** Outside the four new nodes the generated template reads exactly as
      the constructor's copy of the input. */
  lemma {:induction false} CreateChangesOnlyNewPool(w: Worker, q: Path)
    requires Valid(w) && Create(w).Success?
    requires Diverge(Parameter(SizeName(w)), q) && Diverge(Parameter(w.instanceTypeName), q)
    requires Diverge(Resource(w.autoScalingGroupName), q) && Diverge(Resource(w.launchConfigName), q)
    ensures Get(Defined(Create(w).value), q) == Get(Defined(w.template), q)
  {
    var r := Create(w).value;
    var t1, t2, t3, t4, t5, t6, t7, t8 := Stages(w);
    CopyFrame(w.template, ClusterSizePath, Parameter(SizeName(w)), q);
    CopyFrame(t1, InstanceTypePath, Parameter(w.instanceTypeName), q);
    ResourceCopiesFrame(w, t2, t3, t4, q);
    RewiringAndOverlaysFrame(w, t4, t5, t6, t7, t8, r, q);
  }

  /** The only parameters and resources `create` adds or changes are the
      four named after `opts.Name`, and no other top-level section changes. */
  lemma CreateAddsOnlyPoolNames(w: Worker, k: string)
    requires Valid(w) && Create(w).Success?
    ensures k != SizeName(w) && k != w.instanceTypeName
            ==> Get(Defined(Create(w).value), Parameter(k)) == Get(Defined(w.template), Parameter(k))
    ensures k != w.autoScalingGroupName && k != w.launchConfigName
            ==> Get(Defined(Create(w).value), Resource(k)) == Get(Defined(w.template), Resource(k))
    ensures k != "Parameters" && k != "Resources"
            ==> Get(Defined(Create(w).value), [k]) == Get(Defined(w.template), [k])
  {
    var r := Create(w).value;
    if k != SizeName(w) && k != w.instanceTypeName {
      DivergeAt(Parameter(SizeName(w)), Parameter(k), 1);
      DivergeAt(Parameter(w.instanceTypeName), Parameter(k), 1);
      DivergeAt(Resource(w.autoScalingGroupName), Parameter(k), 0);
      DivergeAt(Resource(w.launchConfigName), Parameter(k), 0);
      CreateChangesOnlyNewPool(w, Parameter(k));
    }
    if k != w.autoScalingGroupName && k != w.launchConfigName {
      DivergeAt(Parameter(SizeName(w)), Resource(k), 0);
      DivergeAt(Parameter(w.instanceTypeName), Resource(k), 0);
      DivergeAt(Resource(w.autoScalingGroupName), Resource(k), 1);
      DivergeAt(Resource(w.launchConfigName), Resource(k), 1);
      CreateChangesOnlyNewPool(w, Resource(k));
    }
    if k != "Parameters" && k != "Resources" {
      DivergeAt(Parameter(SizeName(w)), [k], 0);
      DivergeAt(Parameter(w.instanceTypeName), [k], 0);
      DivergeAt(Resource(w.autoScalingGroupName), [k], 0);
      DivergeAt(Resource(w.launchConfigName), [k], 0);
      CreateChangesOnlyNewPool(w, [k]);
    }
  }

  /** The node pool the copies are made from keeps its contents. */
  lemma CreateKeepsNodePool(w: Worker)
    requires Valid(w) && Create(w).Success?
    ensures Get(Defined(Create(w).value), ClusterSizePath) == Get(Defined(w.template), ClusterSizePath)
    ensures Get(Defined(Create(w).value), InstanceTypePath) == Get(Defined(w.template), InstanceTypePath)
    ensures Get(Defined(Create(w).value), NodeAsgPath) == Get(Defined(w.template), NodeAsgPath)
    ensures NoShadow(w) ==>
              Get(Defined(Create(w).value), NodeLaunchConfigPath(w.versionString))
              == Get(Defined(w.template), NodeLaunchConfigPath(w.versionString))
  {
    var r := Create(w).value;
    NamesDistinct(w);
    CreateAddsOnlyPoolNames(w, "ClusterSize");
    CreateAddsOnlyPoolNames(w, "InstanceType");
    CreateAddsOnlyPoolNames(w, "NodeAsg");
    CreateAddsOnlyPoolNames(w, "NodeLaunchConfig" + w.versionString);
  }

  /** The two new parameters are `deep-extend` copies of `ClusterSize` and
      `InstanceType`; when those are objects (as parameters are), every
      field below them reads the same in the copy. */
  lemma {:induction false} CreateCopiesParameters(w: Worker, x: Path)
    requires Valid(w) && Create(w).Success?
    ensures Get(Defined(w.template), ClusterSizePath).Success?
    ensures Get(Defined(w.template), InstanceTypePath).Success?
    ensures Get(Defined(Create(w).value), Parameter(SizeName(w)))
            == Success(Defined(ExtendedCopy(Get(Defined(w.template), ClusterSizePath).value)))
    ensures Get(Defined(Create(w).value), Parameter(w.instanceTypeName))
            == Success(Defined(ExtendedCopy(Get(Defined(w.template), InstanceTypePath).value)))
    ensures IsObjectAt(w.template, ClusterSizePath)
            ==> Get(Defined(Create(w).value), Parameter(SizeName(w)) + x) == Get(Defined(w.template), ClusterSizePath + x)
    ensures IsObjectAt(w.template, InstanceTypePath)
            ==> Get(Defined(Create(w).value), Parameter(w.instanceTypeName) + x) == Get(Defined(w.template), InstanceTypePath + x)
  {
    var r := Create(w).value;
    var t1, t2, t3, t4, t5, t6, t7, t8 := Stages(w);
    var size := Parameter(SizeName(w));
    var it := Parameter(w.instanceTypeName);
    NamesDistinct(w);
    // The size parameter: written first, untouched afterwards.
    CopyWrites(w.template, ClusterSizePath, size);
    DivergeAt(it, size, 1);
    CopyFrame(t1, InstanceTypePath, it, size);
    DivergeAt(Resource(w.autoScalingGroupName), size, 0);
    DivergeAt(Resource(w.launchConfigName), size, 0);
    ResourceCopiesFrame(w, t2, t3, t4, size);
    RewiringAndOverlaysFrame(w, t4, t5, t6, t7, t8, r, size);
    // The instance-type parameter: its source is read after the first copy.
    DivergeAt(size, InstanceTypePath, 1);
    CopyFrame(w.template, ClusterSizePath, size, InstanceTypePath);
    CopyWrites(t1, InstanceTypePath, it);
    DivergeAt(Resource(w.autoScalingGroupName), it, 0);
    DivergeAt(Resource(w.launchConfigName), it, 0);
    ResourceCopiesFrame(w, t2, t3, t4, it);
    RewiringAndOverlaysFrame(w, t4, t5, t6, t7, t8, r, it);
    // Fields below the copies.
    GetAppend(Defined(r), size, x);
    GetAppend(Defined(w.template), ClusterSizePath, x);
    GetAppend(Defined(r), it, x);
    GetAppend(Defined(w.template), InstanceTypePath, x);
  }

  predicate IsObjectAt(t: Json, p: Path) {
    var v := Get(Defined(t), p);
    v.Success? && v.value.Defined? && v.value.json.JObj?
  }

  /** `create` succeeds only if the node group and (unless the names clash)
      the launch configuration are objects: copying anything else yields an
      empty object, and the rewiring then reads through `undefined`. */
  lemma CreateNeedsNodePool(w: Worker)
    requires Valid(w) && Create(w).Success?
    ensures IsObjectAt(w.template, NodeAsgPath)
    ensures NoShadow(w) ==> IsObjectAt(w.template, NodeLaunchConfigPath(w.versionString))
  {
    var r := Create(w).value;
    var t1, t2, t3, t4, t5, t6, t7, t8 := Stages(w);
    NamesDistinct(w);
    AsgCopyIsNodeAsg(w, t2, t3, t4, t5, []);
    DivergeAt(Parameter(SizeName(w)), NodeAsgPath, 0);
    DivergeAt(Parameter(w.instanceTypeName), NodeAsgPath, 0);
    CopyFrame(w.template, ClusterSizePath, Parameter(SizeName(w)), NodeAsgPath);
    CopyFrame(t1, InstanceTypePath, Parameter(w.instanceTypeName), NodeAsgPath);
    if NoShadow(w) {
      var from := NodeLaunchConfigPath(w.versionString);
      LaunchConfigCopyIsNodeLaunchConfig(w, t3, t4, t5, t6, []);
      DivergeAt(Parameter(SizeName(w)), from, 0);
      DivergeAt(Parameter(w.instanceTypeName), from, 0);
      DivergeAt(Resource(w.autoScalingGroupName), from, 1);
      CopyFrame(w.template, ClusterSizePath, Parameter(SizeName(w)), from);
      CopyFrame(t1, InstanceTypePath, Parameter(w.instanceTypeName), from);
      CopyFrame(t2, NodeAsgPath, Resource(w.autoScalingGroupName), from);
    }
  }

  /** Reading below the node group is the same in the input and after the
      two parameter copies. */
  lemma ParameterCopiesKeepResources(w: Worker, t1: Json, t2: Json, p: Path)
    requires CopyClusterSize(w, w.template).Success? && t1 == CopyClusterSize(w, w.template).value
    requires CopyInstanceType(w, t1).Success? && t2 == CopyInstanceType(w, t1).value
    requires |p| > 0 && p[0] == "Resources"
    ensures Get(Defined(t2), p) == Get(Defined(w.template), p)
  {
    DivergeAt(Parameter(w.name + "WorkerSize"), p, 0);
    DivergeAt(Parameter(w.instanceTypeName), p, 0);
    CopyFrame(w.template, ClusterSizePath, Parameter(w.name + "WorkerSize"), p);
    CopyFrame(t1, InstanceTypePath, Parameter(w.instanceTypeName), p);
  }

  /** The new group's four references name the new pool. */
  lemma {:induction false} CreateRewiresWorkerAsg(w: Worker)
    requires Valid(w) && Create(w).Success?
    ensures var asg := Resource(w.autoScalingGroupName);
            && Get(Defined(Create(w).value), asg + CountRef) == Success(Defined(JStr(SizeName(w))))
            && Get(Defined(Create(w).value), asg + DesiredCapacityRef) == Success(Defined(JStr(SizeName(w))))
            && Get(Defined(Create(w).value), asg + LaunchConfigNameRef) == Success(Defined(JStr(w.launchConfigName)))
            && Get(Defined(Create(w).value), asg + MinInServiceRef) == Success(Defined(JStr(SizeName(w))))
  {
    var r := Create(w).value;
    var t1, t2, t3, t4, t5, t6, t7, t8 := Stages(w);
    ModifyWorkerAsgWrites(w, t4);
    AsgFieldsApart();
    LaterStepsKeepAsg(w, t5, t6, t7, t8, r, CountRef);
    LaterStepsKeepAsg(w, t5, t6, t7, t8, r, DesiredCapacityRef);
    LaterStepsKeepAsg(w, t5, t6, t7, t8, r, LaunchConfigNameRef);
    LaterStepsKeepAsg(w, t5, t6, t7, t8, r, MinInServiceRef);
  }

  /** Apart from the rewired references and the tags, the new group reads
      exactly as `Resources.NodeAsg` of the input. */
  lemma {:induction false} CreateWorkerAsgMirrorsNodeAsg(w: Worker, q: Path)
    requires Valid(w) && Create(w).Success?
    requires AvoidsAsgWrites(q)
    ensures Get(Defined(Create(w).value), Resource(w.autoScalingGroupName) + q) == Get(Defined(w.template), NodeAsgPath + q)
  {
    var r := Create(w).value;
    var t1, t2, t3, t4, t5, t6, t7, t8 := Stages(w);
    var asg := Resource(w.autoScalingGroupName);
    LaterStepsKeepAsg(w, t5, t6, t7, t8, r, q);
    DivergeUnder(asg, CountRef, q);
    DivergeUnder(asg, DesiredCapacityRef, q);
    DivergeUnder(asg, LaunchConfigNameRef, q);
    DivergeUnder(asg, MinInServiceRef, q);
    ModifyWorkerAsgFrame(w, t4, asg + q);
    AsgCopyIsNodeAsg(w, t2, t3, t4, t5, q);
    ParameterCopiesKeepResources(w, t1, t2, NodeAsgPath + q);
  }

  /** The tag overlay: without custom tags the group's `Tags` is the node
      group's; with them it is the `array-union` of the tag records and the
      node group's `Tags`. For a node group whose tags are records, the
      custom tags come first, one record per entry in entry order, followed
      by the existing tags; a node group without `Tags` gets the records
      followed by one `undefined` entry, which the generated JSON shows as
      `null`. */
  lemma {:induction false} CreateTagsWorkerAsg(w: Worker)
    requires Valid(w) && Create(w).Success?
    ensures var tags := Resource(w.autoScalingGroupName) + TagsField;
            var nodeTags := Get(Defined(w.template), NodeAsgPath + TagsField);
            if |TagEntries(w)| == 0 then Get(Defined(Create(w).value), tags) == nodeTags
            else
              && nodeTags.Success?
              && Get(Defined(Create(w).value), tags)
                 == Success(Defined(JArr(Tags.Union(Tags.Records(TagEntries(w)), nodeTags.value))))
    ensures var nodeTags := Get(Defined(w.template), NodeAsgPath + TagsField);
            && |TagEntries(w)| > 0 && nodeTags.Success? && nodeTags.value.Defined?
            && nodeTags.value.json.JArr? && Tags.AllObjectLike(nodeTags.value.json.items)
            ==> Get(Defined(Create(w).value), Resource(w.autoScalingGroupName) + TagsField)
                == Success(Defined(JArr(Tags.Records(TagEntries(w)) + nodeTags.value.json.items)))
    ensures |TagEntries(w)| > 0 && Get(Defined(w.template), NodeAsgPath + TagsField) == Success(Undefined)
            ==> Get(Defined(Create(w).value), Resource(w.autoScalingGroupName) + TagsField)
                == Success(Defined(JArr(Tags.Records(TagEntries(w)) + [JNull])))
  {
    var r := Create(w).value;
    Tags.UnionWithoutExistingTags(TagEntries(w));
    var nodeTags := Get(Defined(w.template), NodeAsgPath + TagsField);
    if nodeTags.Success? && nodeTags.value.Defined? && nodeTags.value.json.JArr?
       && Tags.AllObjectLike(nodeTags.value.json.items) {
      Tags.UnionPrependsRecords(TagEntries(w), nodeTags.value.json.items);
    }
    var t1, t2, t3, t4, t5, t6, t7, t8 := Stages(w);
    var asg := w.autoScalingGroupName;
    var lc := w.launchConfigName;
    NamesDistinct(w);
    // The tags the overlay reads are the node group's.
    ResourcesApart(lc, asg, InstanceTypeRef, TagsField);
    ModifyWorkerLaunchConfigFrame(w, t5, Resource(asg) + TagsField);
    AsgFieldsApart();
    DivergeUnder(Resource(asg), CountRef, TagsField);
    DivergeUnder(Resource(asg), DesiredCapacityRef, TagsField);
    DivergeUnder(Resource(asg), LaunchConfigNameRef, TagsField);
    DivergeUnder(Resource(asg), MinInServiceRef, TagsField);
    ModifyWorkerAsgFrame(w, t4, Resource(asg) + TagsField);
    AsgCopyIsNodeAsg(w, t2, t3, t4, t5, TagsField);
    ParameterCopiesKeepResources(w, t1, t2, NodeAsgPath + TagsField);
    // What the overlay writes survives the script overlays.
    SetCustomTagsWrites(w, t6);
    ResourcesApart(lc, asg, ScriptField, TagsField);
    SetAfterDaemonStartedFrame(w, t7, Resource(asg) + TagsField);
    SetLabelsFrame(w, t8, Resource(asg) + TagsField);
  }

  /** The new launch configuration's instance type names the new
      parameter. */
  lemma {:induction false} CreateRewiresWorkerLaunchConfig(w: Worker)
    requires Valid(w) && Create(w).Success?
    ensures Get(Defined(Create(w).value), Resource(w.launchConfigName) + InstanceTypeRef)
            == Success(Defined(JStr(w.instanceTypeName)))
  {
    var r := Create(w).value;
    var t1, t2, t3, t4, t5, t6, t7, t8 := Stages(w);
    ModifyWorkerLaunchConfigWrites(w, t5);
    DivergeAt(ScriptField, InstanceTypeRef, 1);
    OverlaysKeepLaunchConfig(w, t6, t7, t8, r, InstanceTypeRef);
  }

  /** Apart from the instance type and the script, the new launch
      configuration reads exactly as `NodeLaunchConfig<suffix>` of the
      input. */
  lemma {:induction false} CreateWorkerLaunchConfigMirrorsNode(w: Worker, q: Path)
    requires Valid(w) && NoShadow(w) && Create(w).Success?
    requires AvoidsLaunchConfigWrites(q)
    ensures Get(Defined(Create(w).value), Resource(w.launchConfigName) + q)
            == Get(Defined(w.template), NodeLaunchConfigPath(w.versionString) + q)
  {
    var r := Create(w).value;
    var t1, t2, t3, t4, t5, t6, t7, t8 := Stages(w);
    var lc := Resource(w.launchConfigName);
    var from := NodeLaunchConfigPath(w.versionString);
    OverlaysKeepLaunchConfig(w, t6, t7, t8, r, q);
    DivergeUnder(lc, InstanceTypeRef, q);
    ModifyWorkerLaunchConfigFrame(w, t5, lc + q);
    LaunchConfigCopyIsNodeLaunchConfig(w, t3, t4, t5, t6, q);
    DivergeAt(Resource(w.autoScalingGroupName), from + q, 1);
    CopyFrame(t2, NodeAsgPath, Resource(w.autoScalingGroupName), from + q);
    ParameterCopiesKeepResources(w, t1, t2, from + q);
  }

  /** The script overlays: without commands and labels the new launch
      configuration's script is the node launch configuration's; otherwise
      that script must be an array and the result is `OverlaidScript` of
      it. */
  lemma {:induction false} CreateOverlaysScript(w: Worker)
    requires Valid(w) && NoShadow(w) && Create(w).Success?
    ensures var script := Resource(w.launchConfigName) + ScriptField;
            var nodeScript := NodeLaunchConfigPath(w.versionString) + ScriptField;
            if |Commands(w)| == 0 && |Labels(w)| == 0 then
              Get(Defined(Create(w).value), script) == Get(Defined(w.template), nodeScript)
            else
              && ArrayAt(w.template, nodeScript).Success?
              && Get(Defined(Create(w).value), script)
                 == Success(Defined(JArr(OverlaidScript(w, ArrayAt(w.template, nodeScript).value))))
  {
    var r := Create(w).value;
    var t1, t2, t3, t4, t5, t6, t7, t8 := Stages(w);
    var lc := w.launchConfigName;
    var script := Resource(lc) + ScriptField;
    var from := NodeLaunchConfigPath(w.versionString);
    NamesDistinct(w);
    // The script the overlays read is the node launch configuration's.
    ResourcesApart(w.autoScalingGroupName, lc, TagsField, ScriptField);
    SetCustomTagsFrame(w, t6, script);
    DivergeAt(InstanceTypeRef, ScriptField, 1);
    DivergeUnder(Resource(lc), InstanceTypeRef, ScriptField);
    ModifyWorkerLaunchConfigFrame(w, t5, script);
    LaunchConfigCopyIsNodeLaunchConfig(w, t3, t4, t5, t6, ScriptField);
    DivergeAt(Resource(w.autoScalingGroupName), from + ScriptField, 1);
    CopyFrame(t2, NodeAsgPath, Resource(w.autoScalingGroupName), from + ScriptField);
    ParameterCopiesKeepResources(w, t1, t2, from + ScriptField);
    assert Get(Defined(t7), script) == Get(Defined(w.template), from + ScriptField);
    // The two overlays in turn.
    SetAfterDaemonStartedWrites(w, t7);
    SetLabelsWrites(w, t8);
  }

  /** The copies keep the resource `Type` of the node pool. */
  lemma CreateKeepsResourceTypes(w: Worker)
    requires Valid(w) && Create(w).Success?
    ensures Get(Defined(Create(w).value), Resource(w.autoScalingGroupName) + ["Type"])
            == Get(Defined(w.template), NodeAsgPath + ["Type"])
    ensures NoShadow(w) ==>
              Get(Defined(Create(w).value), Resource(w.launchConfigName) + ["Type"])
              == Get(Defined(w.template), NodeLaunchConfigPath(w.versionString) + ["Type"])
  {
    var r := Create(w).value;
    var ty: Path := ["Type"];
    DivergeAt(CountRef, ty, 0);
    DivergeAt(DesiredCapacityRef, ty, 0);
    DivergeAt(LaunchConfigNameRef, ty, 0);
    DivergeAt(MinInServiceRef, ty, 0);
    DivergeAt(TagsField, ty, 0);
    CreateWorkerAsgMirrorsNodeAsg(w, ty);
    if NoShadow(w) {
      DivergeAt(InstanceTypeRef, ty, 0);
      DivergeAt(ScriptField, ty, 0);
      CreateWorkerLaunchConfigMirrorsNode(w, ty);
    }
  }
}
