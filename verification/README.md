# Worker pool generator for Docker for AWS templates

This project models the `Worker` class of `lib/worker.js` in Dafny.
The class takes a parsed Docker-for-AWS CloudFormation template and an
options record (`Name`, `CustomTags`, `Labels`, `AfterDaemonStarted`). It
returns the template with a second, separately sized pool of worker nodes
added.

The model follows the class step by step:

- The constructor validates its inputs and takes a private deep copy of
  the template.
- It derives the version suffix from `Mappings.DockerForAWS.version.forAws`
  by deleting every `.` and `-`.
- It derives the four new names from `Name` and that suffix.
- `create` copies `Parameters.ClusterSize`, `Parameters.InstanceType`,
  `Resources.NodeAsg` and `Resources.NodeLaunchConfig<suffix>` under the new
  names.
- It then rewires five `Ref`s in the copies.
- Last, it applies three overlays in order: tags, then post-start commands,
  then daemon labels.

Modules:

- `Outcomes`: `Option`, `Result` and the error kinds. `MissingTemplate` and
  `MissingName` are the constructor's two thrown errors. `TypeError` is
  JavaScript's error for reading through `undefined`/`null` or calling a
  method that is not there. `Unrepresentable` is described under Left out.
- `JsonValue`: JSON values with map-valued objects, and JavaScript property
  reads (`Member`, `Get`) and strict-mode writes (`Assign`, `Put`) along key
  paths. It also holds `deep-extend`'s copy into a fresh `{}`
  (`ExtendedCopy`, value semantics) and the path algebra (`Diverge`) that the
  frame lemmas use.
- `Version`: the version suffix.
- `JsString`: `indexOf`, and `replace` with a string pattern, including the
  `$` patterns of the replacement text.
- `Script`: the `AfterDaemonStarted` and `Labels` overlays on the
  bootstrap-script token list.
- `Tags`: the tag records, and `array-union` (concatenation, then a
  JavaScript `Set`).
- `Worker`: the constructor (`New`), the steps of `create`, `Create`, and
  `Generate` (construction followed by `create`).
- `WorkerProofs`: what `create` produces, stated on paths of the result.
- `WorkerSuccess`: a shape of template on which `create` succeeds, and a
  worked example (name `Infra`, version `17.05.0-ce`).

One name clash is possible: with the name `NodeLaunchConfig` and the
version string `WorkerAsg`, the new group is named like the node launch
configuration, and copying NodeAsg overwrites that launch configuration
before it is copied. The model keeps this behaviour and states it in
`WorkerProofs.ShadowedLaunchConfigCopiesNodeAsg`; the lemmas about the
launch configuration assume the names do not clash (`NoShadow`).

The constructor's deep copy makes every step a function from template to
template. The input template is a value in the model, so it is never
mutated.

Three things `lib/worker.js` does not do:

- The code does not deduplicate tags by key, and no "existing tag wins"
  rule applies. `array-union` merges only equal primitive values (see
  `Tags.UnionTwiceRepeatsRecords`).
- There is no generic reference-rewriting walk. Only the five fixed paths
  change.
- There is no "append commands at the end" mode. Commands replace
  init-aws lines and nothing else.

## Model

| member | source | states |
|---|---|---|
| JsonValue.ArrayIndexSpelling | lib/worker.js:100 | a key selects an array element exactly when it is the canonical decimal spelling of the index (`[1]` reads element 1; `"01"` reads nothing) |
| JsonValue.Get | lib/worker.js:96-100 | a chained property read fails only with a TypeError, from reading through `undefined` or `null`; JsonValue.GetAppend states how reads compose |
| JsonValue.Put | lib/worker.js:109-115 | a chained strict-mode assignment fails only with a TypeError or an unrepresentable array write; JsonValue.GetAfterPut and JsonValue.PutFrame state what it changes |
| JsonValue.GetAppend | lib/worker.js:96-100 | reading along a chained path is reading along its prefix and then along the rest, with a failure anywhere propagating |
| JsonValue.GetAfterPut | lib/worker.js:180 | after a chained assignment succeeds, reading the same path yields the assigned value |
| JsonValue.PutFrame | lib/worker.js:180 | a chained assignment leaves every path that branches off the assigned one reading as before |
| JsonValue.PutReadsPrefix | lib/worker.js:220 | a successful chained assignment found a defined value at every node above the assigned key |
| JsonValue.AssignSucceeds | lib/worker.js:220 | a single assignment succeeds exactly on an object, or on an array with an index at most its length |
| JsonValue.PutSucceeds | lib/worker.js:109-115 | a chained assignment succeeds exactly when every node it passes exists and can take the next key (`Writable`) |
| JsonValue.NodeAfterPut | lib/worker.js:180 | an assignment keeps every node that could take a key, except those it replaces |
| JsonValue.WritableKept | lib/worker.js:180 | an assignment keeps every writable path that does not run through the assigned value |
| JsonValue.WritableAppend | lib/worker.js:220 | below an existing node, a path is writable exactly when the way to the node is and the rest is within the node |
| JsonValue.WritableReads | lib/worker.js:220 | a writable path can be read without a TypeError |
| JsonValue.ObjectsAlongWritable | lib/worker.js:220 | below a chain of objects any key can be assigned |
| Version.Suffix | lib/worker.js:35-41 | the suffix has no `.` and no `-` and is no longer than the version string |
| Version.SuffixKeepsOthersInOrder | lib/worker.js:35-41 | the two removal passes equal one pass that keeps exactly the non-separator characters, in order |
| Version.SuffixCounts | lib/worker.js:35-41 | every separator occurs zero times in the suffix; every other character occurs as often as in the version string |
| Version.SuffixAppend | lib/worker.js:35-41 | the suffix of a concatenation is the concatenation of the suffixes |
| Version.SuffixWithoutSeparators | lib/worker.js:35-41 | a version string without `.` and `-` is its own suffix, so taking the suffix twice gives the same as once |
| Version.SuffixExample | lib/worker.js:35-41 | `17.05.0-ce` gives `17050ce` |
| JsString.IndexOf | lib/worker.js:141 | `indexOf` yields the leftmost occurrence of the pattern, and `-1` (None) exactly when the pattern occurs nowhere |
| JsString.SubstituteVerbatim | lib/worker.js:145 | a replacement text without `$` is inserted unchanged |
| JsString.Substitute | lib/worker.js:145 | the `$$`, `$&`, `` $` `` and `$'` patterns of a replacement text; JsString.SubstituteVerbatim states that text without `$` passes unchanged |
| JsString.ReplaceFirst | lib/worker.js:145 | `replace` with a string pattern; JsString.ReplaceFirstVerbatim states that it replaces only the first occurrence and keeps the text around it |
| JsString.ReplaceFirstVerbatim | lib/worker.js:145 | `replace` with a `$`-free text replaces exactly the first occurrence and keeps the text around it |
| Script.InsertCommands | lib/worker.js:162-170 | the token list keeps its length; each token equal to `"# init-aws\n"` becomes the joined commands; every other token, string or object, is unchanged |
| Script.NoInitLineRemains | lib/worker.js:164-170 | unless the commands join to the init-aws line itself, no init-aws token remains |
| Script.InsertCommandsIdempotent | lib/worker.js:164-170 | inserting the same commands twice gives the same script as inserting them once |
| Script.SpliceLabels | lib/worker.js:134-146 | the token list keeps its length and is transformed token by token |
| Script.QuotedList | lib/worker.js:130-132 | the labels, each in double quotes, joined by commas; Script.QuotedListDollarFree states it adds no `$` |
| Script.LabelToken | lib/worker.js:136-145 | the `_setLabels` callback on one token; Script.LabelTokenInsertsAfterFirstMarker states its effect |
| Script.QuotedListDollarFree | lib/worker.js:130-132 | the quoted, comma-joined labels contain no `$` when no label does |
| Script.LabelTokenAtMarker | lib/worker.js:141-145 | for labels without `$`, a string holding the marker gets `,"l1",...` inserted right after the marker's first occurrence, with the text before and after kept |
| Script.LabelTokenInsertsAfterFirstMarker | lib/worker.js:136-146 | non-string tokens and strings without the marker are unchanged; otherwise `,"l1",...` is inserted right after the first marker and nothing else moves |
| Tags.Records | lib/worker.js:75-81 | one record `{Key, PropagateAtLaunch: true, Value}` per entry, in entry order |
| Tags.Distinct | lib/worker.js:83-86 | `[...new Set(xs)]`; Tags.DistinctSameValues, Tags.DistinctNoRepeatedPrimitive and Tags.DistinctKeepsObjects state what it keeps |
| Tags.Union | lib/worker.js:83-86 | `arrayUnion([], awsTags, tags)`; Tags.UnionPrependsRecords and Tags.UnionWithoutExistingTags state its result for the tags a template holds |
| Tags.DistinctSameValues | lib/worker.js:83-86 | the `Set` step loses no value and adds none |
| Tags.DistinctNoRepeatedPrimitive | lib/worker.js:83-86 | after the `Set` step no primitive value occurs twice |
| Tags.DistinctKeepsObjects | lib/worker.js:83-86 | a list of objects and arrays passes the `Set` step unchanged |
| Tags.UnionPrependsRecords | lib/worker.js:83-86 | with existing tags that are records, the union is the new records followed by the existing tags |
| Tags.UnionWithoutExistingTags | lib/worker.js:83-86 | without existing tags the union is the records followed by one `undefined` (`null`) |
| Tags.UnionTwiceRepeatsRecords | lib/worker.js:83-86 | the union does not merge by key: adding the same tags twice lists every record twice |
| Worker.New | lib/worker.js:23-48 | fails with MissingTemplate exactly for an absent or falsy template and with MissingName exactly for a missing or empty name; succeeds exactly for an object template with a name and a string version; on success the names are derived from Name and the suffix, which has no `.` or `-` |
| Worker.CopyClusterSize | lib/worker.js:176-181 | `_copyClusterSize`; WorkerProofs.CopyWrites and WorkerProofs.CopyFrame state what a copy step writes and keeps |
| Worker.CopyInstanceType | lib/worker.js:184-189 | `_copyInstanceType`; stated by WorkerProofs.CopyWrites and WorkerProofs.CopyFrame |
| Worker.CopyNodeAsg | lib/worker.js:193-198 | `_copyNodeAsg`; stated by WorkerProofs.CopyWrites and WorkerProofs.CopyFrame |
| Worker.CopyLaunchConfig | lib/worker.js:202-207 | `_copyLaunchConfig`; stated by WorkerProofs.CopyWrites and WorkerProofs.CopyFrame |
| Worker.ModifyWorkerAsg | lib/worker.js:217-224 | `_modifyWorkerAsg`; stated by WorkerProofs.ModifyWorkerAsgWrites and WorkerProofs.ModifyWorkerAsgFrame |
| Worker.ModifyWorkerLaunchConfig | lib/worker.js:228-232 | `_modifyWorkerLaunchConfig`; stated by WorkerProofs.ModifyWorkerLaunchConfigWrites and WorkerProofs.ModifyWorkerLaunchConfigFrame |
| Worker.SetCustomTags | lib/worker.js:69-87 | `_setCustomTags`; stated by WorkerProofs.SetCustomTagsWrites and WorkerProofs.SetCustomTagsFrame |
| Worker.LaunchConfigCode | lib/worker.js:95-101 | `_getLaunchConfigCode` followed by `.map`, which throws unless the script is an array; its use is stated by WorkerProofs.SetAfterDaemonStartedWrites and WorkerProofs.SetLabelsWrites |
| Worker.SetLaunchConfigCode | lib/worker.js:109-115 | `_setLaunchConfigCode`; stated by WorkerProofs.SetAfterDaemonStartedFrame and WorkerProofs.SetLabelsFrame |
| Worker.SetAfterDaemonStarted | lib/worker.js:156-173 | `_setAfterDaemonStarted`; stated by WorkerProofs.SetAfterDaemonStartedWrites and WorkerProofs.SetAfterDaemonStartedFrame |
| Worker.SetLabels | lib/worker.js:123-149 | `_setLabels`; stated by WorkerProofs.SetLabelsWrites and WorkerProofs.SetLabelsFrame |
| Worker.Create | lib/worker.js:50-62 | a failing `create` fails only with a TypeError or an unrepresentable write |
| Worker.Generate | lib/worker.js:23-62 | the two constructor errors arise exactly in the constructor's cases; success needs an object template, a name and a string version |
| WorkerProofs.NamesDistinct | lib/worker.js:43-45 | the derived names differ from each other and from ClusterSize, InstanceType, NodeAsg and NodeLaunchConfig<suffix> |
| WorkerProofs.ShadowingIsReachable | lib/worker.js:35-45 | the constructor accepts the name `NodeLaunchConfig` with the version string `WorkerAsg`, and the new group then bears the name of the node launch configuration |
| WorkerProofs.ShadowedLaunchConfigCopiesNodeAsg | lib/worker.js:193-207 | under that name clash the new launch configuration is a copy of NodeAsg, because the group's copy overwrote its source |
| WorkerProofs.CopyWrites | lib/worker.js:176-207 | a copy step reads its source and stores the `deep-extend` copy of it at the new name |
| WorkerProofs.CopyFrame | lib/worker.js:176-207 | a copy step changes nothing outside the new name |
| WorkerProofs.ModifyWorkerAsgWrites | lib/worker.js:217-224 | after the rewiring, Count, DesiredCapacity and MinInstancesInService refer to `Name+"WorkerSize"` and LaunchConfigurationName to the new launch configuration |
| WorkerProofs.ModifyWorkerAsgFrame | lib/worker.js:217-224 | the rewiring changes nothing but its four `Ref`s |
| WorkerProofs.ModifyWorkerLaunchConfigWrites | lib/worker.js:228-232 | the new launch configuration's InstanceType refers to `Name+"WorkerInstanceType"` |
| WorkerProofs.ModifyWorkerLaunchConfigFrame | lib/worker.js:228-232 | that rewiring changes nothing but its `Ref` |
| WorkerProofs.SetCustomTagsWrites | lib/worker.js:69-87 | without tags the template is unchanged; otherwise the new group's Tags become the union of the records and the old Tags |
| WorkerProofs.SetCustomTagsFrame | lib/worker.js:69-87 | the tag overlay changes nothing but the new group's Tags |
| WorkerProofs.SetAfterDaemonStartedWrites | lib/worker.js:156-173 | without commands the template is unchanged; otherwise the script must be an array and becomes its command-inserted form |
| WorkerProofs.SetAfterDaemonStartedFrame | lib/worker.js:156-173 | the command overlay changes nothing but the new launch configuration's script |
| WorkerProofs.SetLabelsWrites | lib/worker.js:123-149 | without labels the template is unchanged; otherwise the script must be an array and becomes its label-spliced form |
| WorkerProofs.SetLabelsFrame | lib/worker.js:123-149 | the label overlay changes nothing but the new launch configuration's script |
| WorkerProofs.ResourceCopiesFrame | lib/worker.js:193-207 | the two resource copies change nothing outside the two new resources |
| WorkerProofs.RewiringAndOverlaysFrame | lib/worker.js:217-232 | the rewiring and the three overlays change nothing outside the two new resources |
| WorkerProofs.LaterStepsKeepAsg | lib/worker.js:57-59 | the steps after the group's rewiring change nothing in the new group but its Tags |
| WorkerProofs.OverlaysKeepLaunchConfig | lib/worker.js:57-59 | the three overlays change nothing in the new launch configuration but its script |
| WorkerProofs.AsgCopyIsNodeAsg | lib/worker.js:193-198 | if the group's rewiring succeeds, NodeAsg was an object and the new group is an exact copy of it |
| WorkerProofs.LaunchConfigCopyIsNodeLaunchConfig | lib/worker.js:202-207 | if the launch configuration's rewiring succeeds, its source was an object and the new launch configuration is an exact copy of it |
| WorkerProofs.CreateChangesOnlyNewPool | lib/worker.js:50-62 | every path away from the four new names reads in the result as in the constructor's copy of the input |
| WorkerProofs.CreateAddsOnlyPoolNames | lib/worker.js:50-62 | the only parameters and resources added or changed are the four new names, and no other top-level section changes |
| WorkerProofs.CreateKeepsNodePool | lib/worker.js:176-207 | ClusterSize, InstanceType, NodeAsg and (absent a name clash) NodeLaunchConfig<suffix> keep their contents |
| WorkerProofs.CreateCopiesParameters | lib/worker.js:176-189 | the new size and instance-type parameters are copies of ClusterSize and InstanceType, field for field when those are objects |
| WorkerProofs.ParameterCopiesKeepResources | lib/worker.js:176-189 | the parameter copies change nothing under Resources |
| WorkerProofs.CreateNeedsNodePool | lib/worker.js:193-232 | `create` succeeds only if NodeAsg and (absent a name clash) NodeLaunchConfig<suffix> are objects |
| WorkerProofs.CreateRewiresWorkerAsg | lib/worker.js:217-224 | in the result the new group's four `Ref`s name the new size parameter and launch configuration |
| WorkerProofs.CreateWorkerAsgMirrorsNodeAsg | lib/worker.js:193-198 | away from those `Ref`s and Tags the new group reads exactly as NodeAsg |
| WorkerProofs.CreateTagsWorkerAsg | lib/worker.js:69-87 | the new group's Tags are NodeAsg's without custom tags, and otherwise their union with the records: when NodeAsg's tags are records, one record per entry in entry order followed by them; when NodeAsg has no Tags, the records followed by `null` |
| WorkerProofs.CreateRewiresWorkerLaunchConfig | lib/worker.js:228-232 | in the result the new launch configuration's InstanceType names the new instance-type parameter |
| WorkerProofs.CreateWorkerLaunchConfigMirrorsNode | lib/worker.js:202-207 | away from InstanceType and the script, the new launch configuration reads exactly as NodeLaunchConfig<suffix> |
| WorkerProofs.CreateOverlaysScript | lib/worker.js:156-173 | without commands and labels the script is NodeLaunchConfig's; otherwise that script must be an array and the result has commands inserted first and labels spliced into every token after |
| WorkerProofs.CreateKeepsResourceTypes | test/worker_test.js:48-70 | the new group and launch configuration keep the source resources' `Type` |
| WorkerSuccess.CreateSucceeds | lib/worker.js:50-62 | `create` succeeds when the new parameter and resource names can be added, NodeAsg holds the four referenced objects (and `Properties` when there are tags), NodeLaunchConfig<suffix> holds `Properties.InstanceType`, and, with commands or labels, its script is an array |
| WorkerSuccess.ParameterCopiesSucceed | lib/worker.js:176-189 | the two parameter copies succeed when the new parameter names can be added, and keep the node pool's shape |
| WorkerSuccess.NodeAsgCopySucceeds | lib/worker.js:193-198 | the group copy succeeds and the new group holds the objects the rewiring needs |
| WorkerSuccess.LaunchConfigCopySucceeds | lib/worker.js:202-207 | the launch-configuration copy succeeds and the copy holds InstanceType and, when needed, the script array |
| WorkerSuccess.AsgRewiringSucceeds | lib/worker.js:217-224 | the four `Ref` assignments into the new group succeed |
| WorkerSuccess.LaunchConfigRewiringSucceeds | lib/worker.js:228-232 | the InstanceType `Ref` assignment succeeds |
| WorkerSuccess.TagOverlaySucceeds | lib/worker.js:69-87 | the tag overlay succeeds when the new group has writable `Properties.Tags` or there are no tags |
| WorkerSuccess.CommandOverlaySucceeds | lib/worker.js:156-173 | the command overlay succeeds when the script is an array or there are no commands |
| WorkerSuccess.LabelOverlaySucceeds | lib/worker.js:123-149 | the label overlay succeeds when the script is an array or there are no labels |
| WorkerSuccess.ExampleWorker | lib/worker.js:30-45 | the constructor accepts a template whose `forAws` is `17.05.0-ce` and derives the suffix `17050ce` |
| WorkerSuccess.ExampleShaped | lib/worker.js:50-62 | that template, with the name `Infra`, has the shape `CreateSucceeds` asks for |
| WorkerSuccess.ExampleCreate | test/worker_test.js:12-19 | on it `create` succeeds, `InfraWorkerSize.Default` is `"5"` and the new group's signal count refers to `InfraWorkerSize` |
| WorkerSuccess.ExampleGenerate | test/worker_test.js:73-83 | the same, starting from the constructor: `new Worker(template, { Name: "Infra" }).create()` succeeds, and the new group's `Count.Ref` is `InfraWorkerSize` |

## Left out

- `bin/index.js`: reading files, parsing arguments, `JSON.parse`/`JSON.stringify`, console output and exit codes are I/O and are not modelled. `lib/manager.js` and `test/manager_test.js` hold a stub and library demonstrations with no behaviour of their own.
- The `DiskType`/`DiskSize` copies and the `INSTANCE_NAME` rewrite that `test/worker_test.js` expects are not in `lib/worker.js` and are not modelled.
- `opts` itself being `undefined` (a `TypeError` at lib/worker.js:31) is folded into `MissingName`.
- Writing a non-index key into an array makes JavaScript attach a named property that JSON output drops, and writing an index beyond the end leaves holes. The model reports such a write as `Unrepresentable` instead of producing a template. Writing at the index just past the end appends, as in JavaScript. The only index key `create` writes is `"1"`, into an array it has just read; a named key reaches an array only when the template holds an array where an object is expected.
- Prototype properties and an array's `length` are not readable through `Member`; every key of a JSON object is an own property, and arrays are indexed only by canonical decimal keys. The 2^32 bound on array indices is not modelled.
- Object key order is not modelled: objects are maps. A `Set` compares objects by identity; the model never merges two objects or arrays, which matches every call here because `deep-extend` and the tag records produce fresh objects.
- `Name`, `Labels` and `AfterDaemonStarted` are strings and string lists in the model. JavaScript converts any value there to a string (`${this._opts.Name}`, `"${str}"`, `join('')`); those conversions are not modelled.
- JSON numbers are exact reals. JavaScript holds them as doubles, so two numbers the model keeps apart can be one double, which the `Set` step of `array-union` would then merge.
- `CustomTags` is given as the entry list `Object.entries` produces; enumeration order of a JavaScript object is not modelled.
- WorkerProofs.CreateWorkerLaunchConfigMirrorsNode: assumes `NoShadow` (`Name+"WorkerAsg"` is not `NodeLaunchConfig<suffix>`). The clash is possible (WorkerProofs.ShadowingIsReachable); then the group's copy replaces the launch configuration's source before it is copied (WorkerProofs.ShadowedLaunchConfigCopiesNodeAsg), and this lemma says nothing.
- WorkerProofs.CreateOverlaysScript: assumes `NoShadow`, for the same reason.
- WorkerProofs.CreateKeepsNodePool: states NodeLaunchConfig<suffix> unchanged only under `NoShadow`, for the same reason.
- WorkerProofs.CreateNeedsNodePool: states the launch-configuration source is an object only under `NoShadow`, for the same reason.
- WorkerProofs.CreateKeepsResourceTypes: states the launch configuration's `Type` only under `NoShadow`, for the same reason.
- WorkerSuccess.CreateSucceeds: proves its condition sufficient, not necessary, and assumes `NoShadow`. Under the name clash it says nothing.
- WorkerSuccess.ExampleCreate: the example template holds only the parts `create` touches. The `templates/17.05.0-ce/edge/template.json` file used by `test/worker_test.js` is not part of this model.
- Script.LabelTokenInsertsAfterFirstMarker: its closed form requires labels without `$`. `replace` expands `$$`, `$&`, `` $` `` and `$'` in the labels, which `JsString.Substitute` models exactly but no lemma restates.
