# Ghost deployment core, modelled in Dafny

This project models the decision logic at the core of Ghost, a deployment
tool for applications made of modules and hosted on autoscaling groups.

- **Redeploy** puts the package of a past deployment back into the
  environment's `MANIFEST` (a `name:package:path` line per module) and
  deploys the module on the hosts again.
- **The blue/green library** resolves which of an app and its *alter ego*
  is online. It also reads the per-command blue/green configuration and
  counts the lines of a deployed manifest.
- **The API hooks** create the *green* twin of an app and link the pair
  through `alter_ego_id` back-references.
- **Preparebluegreen** runs a chain of gates. It then copies the online
  load balancer to a temporary one, copies the sizing (and optionally the
  AMI) to the offline app, and starts its instances.
- **Deploy** initialises the selected modules, then for each one updates
  the working copy, packages and uploads it. With autoscaling suspended, it
  uploads the manifest and syncs the running instances. It then resumes
  autoscaling and records the deployment.

## How the model is built

- Records (apps, jobs, modules, history records, configuration) are typed
  Dafny values (`records.dfy`). A key that some modelled command indexes
  directly (`app['name']`) is present in the model, even where another
  function reads it with `.get`. The app's `name`, `env` and `role` are
  such keys (commands/deploy.py:44, commands/redeploy.py:32). A key the code
  only reads with `.get` or tests with `in` is optional. Where a command
  tests a key with `in`, it is optional even if other code indexes it;
  indexing a missing key is then an uncaught `KeyError`. Blue/green documents distinguish a missing key, a `None` value
  and a value (`Field`), because `get_blue_green_from_app` does.
- The `apps` collection is a class over a `seq` of records (`apps_table.dfy`).
  `find_one` returns the first match in natural order, and `insert_one`
  appends under a fresh id. `update`/`update_one` with `$set` change the
  first record with the id.
- Each command is a class whose fields are the state the command changes:
  - the S3 objects (a map from key to text);
  - the `deploy_histories` records;
  - the cloud changes, kept as an event list;
  - the job status.
- Cloud, shell, git and S3 calls are events. Whether a call raises
  `GCallException`, and with which message, is an input (`failing`).
- Cloud queries are inputs: which groups exist, a snapshot of the groups,
  the stored manifest, the user-data and the load balancer address.
- Timestamps and commit hashes are inputs (`clock`, `commitOf`).
- Loops in the source are loops in Dafny, proved against specification
  functions:
  - `ModulesByName` for module selection;
  - `Rewrite`/`Upsert`/`Serialize` for the manifest;
  - `InitAll`/`DeployAll`/`DeployOne` for the deploy loops;
  - `PreparationEffects`/`ResizeEffects` for the preparation.

  Lemmas about those functions state what the code promises.

## Model

| member | source | states |
|---|---|---|
| AppsDb.FindById | libs/blue_green.py:70-72 | `find_one({'_id': id})` finds a record exactly when one has the id, and the one it finds is in the table with that id |
| AppsDb.UpdateFirst | ghost_api.py:59 | an update by id keeps the number of records |
| AppsDb.UpdateFirstAt | ghost_api.py:59 | position by position, an update by id changes exactly the first record with the id and leaves every other record as it was |
| AppsDb.UpdateKeepsUnique | ghost_api.py:59 | an update that keeps ids keeps every id unique |
| AppsDb.FindUpdated | ghost_api.py:59 | after an update by id, looking the id up finds the updated record |
| AppsDb.FindOtherAfterUpdate | ghost_api.py:59 | an update by id leaves the lookup of every other id unchanged |
| AppsDb.FindAppended | ghost_api.py:46 | an inserted record is found by its id when no earlier record has it; other lookups are unchanged |
| AppsDb.AppsTable.constructor | ghost_api.py:46 | the table starts with the given records and unique ids |
| AppsDb.AppsTable.InsertOne | ghost_api.py:46 | `insert_one` appends the document under the fresh id, returns that id and keeps ids unique |
| AppsDb.AppsTable.SetBlueGreen | ghost_api.py:59 | `update_one` with `$set` of `blue_green` replaces that field of the first record with the id and nothing else |
| AppsDb.AppsTable.SetAutoscaleSizing | commands/preparebluegreen.py:60-64 | `$set` of `autoscale.min/max/current` changes only those keys of the first record with the id |
| AppsDb.WithSizing | commands/preparebluegreen.py:60-64 | the `$set` keeps the autoscale name and every other field, creating the `autoscale` document when missing |
| Records.NamedModules | commands/redeploy.py:26-28 | the inner loop selects only app modules with the job module's name, never more than the app has |
| Records.NamedModulesMembers | commands/redeploy.py:26-28 | a module is selected for a name exactly when it is an app module with that name |
| Records.ModulesByNameMembers | commands/redeploy.py:22-29 | a module is selected exactly when it has a name that some named job module asks for; nameless job entries and unknown names select nothing |
| Records.ModulesByNameConcat | commands/deploy.py:36-41 | selection follows job-module order: selecting for `a + b` is selecting for `a` then for `b` |
| Records.NamedModulesSnoc | commands/redeploy.py:26-28 | the inner loop appends an app module exactly when its name matches |
| Paths.ModulePath | commands/deploy.py:43-44 | the module path is `/ghost/<name>/<env>/<role>/<module>` |
| Paths.ManifestKeyComponents | commands/redeploy.py:31-35 | for components without `/`, the manifest key splits at `/` into `""`, `ghost`, name, env, role and `MANIFEST` |
| Paths.AppPathComponents | commands/redeploy.py:31-32 | the app path splits at `/` into `""`, `ghost`, name, env and role |
| Paths.ManifestKeyInjective | commands/redeploy.py:31-35 | two apps share a manifest key only when they agree on name, env and role |
| Text.Count | commands/redeploy.py:49 | the separator count is zero exactly when the separator is absent |
| Text.Split | commands/redeploy.py:49 | `str.split` yields one more piece than there are separators |
| Text.SplitJoinsBack | commands/redeploy.py:49 | joining the pieces of a split gives the text back |
| Text.SplitPiecesLack | commands/redeploy.py:49 | no piece of a split holds the separator |
| Text.SplitNoSeparator | commands/redeploy.py:46 | a text without the separator splits into itself |
| Text.SplitAfterPiece | commands/redeploy.py:46 | splitting `a + sep + b` peels `a` off when `a` lacks the separator |
| Text.SplitJoin | commands/redeploy.py:63-64 | splitting a join of separator-free pieces gives the pieces back |
| Text.LStrip | libs/blue_green.py:99 | `lstrip` keeps a suffix of the text |
| Text.LStripDropsSpace | libs/blue_green.py:99 | `lstrip` drops only white space, and what it keeps does not start with white space |
| Text.RStrip | libs/blue_green.py:99 | `rstrip` keeps a prefix of the text |
| Text.RStripDropsSpace | libs/blue_green.py:99 | `rstrip` drops only white space, and what it keeps does not end with white space |
| Text.Decimal | commands/deploy.py:112 | `str(n)` is a non-empty string of decimal digits |
| Manifest.Lines | commands/redeploy.py:63-64 | one `name:package:path` line per entry, in order |
| Manifest.NonEmpty | commands/redeploy.py:46-47 | only non-empty stored lines are read, each one a stored line |
| Manifest.ParseLine | commands/redeploy.py:47-58 | a line names the module when its first field is the module's name, and then yields the module; otherwise it needs three fields and keeps them (a prefix of the line, free of `:`), raising `IndexError` with fewer |
| Manifest.Rewrite | commands/redeploy.py:46-58 | reading the stored lines raises only `IndexError` |
| Manifest.UpsertHoldsModule | commands/redeploy.py:51-62 | after the upsert the module is in the manifest and every entry of its name is the module; without a stored object the manifest is the module alone |
| Manifest.SerializeAppend | commands/redeploy.py:63-64 | the write loop appends each entry's line and a newline |
| Manifest.RewriteReadsEachLine | commands/redeploy.py:46-58 | reading succeeds exactly when every non-empty line parses, and the k-th entry comes from the k-th non-empty line |
| Manifest.EmptyLinesDropped | commands/redeploy.py:46-47 | empty lines do not matter: reading only the non-empty lines gives the same result |
| Manifest.UpsertKeepsOthersInOrder | commands/redeploy.py:46-62 | entries keep the stored order and names; matching entries become the module, others keep package and path; the module is appended last exactly when no line had its name |
| Manifest.LineFields | commands/redeploy.py:64 | a written line of a clean entry splits back into its three fields |
| Manifest.ParseCleanLine | commands/redeploy.py:47-57 | a written line reads back as its entry, or as the module when the names agree |
| Manifest.SerializeJoin | commands/redeploy.py:63-64 | the written text is the lines joined by newlines with a final newline |
| Manifest.SplitSerialized | commands/redeploy.py:46 | splitting the written text gives its lines and one empty last piece |
| Manifest.Replace | commands/redeploy.py:51-53 | every entry of the module's name becomes the module; the others stay |
| Manifest.SerializedLines | commands/redeploy.py:46-49 | the pieces of a written manifest are one non-empty line per entry, named by it, then an empty piece |
| Manifest.LineNames | commands/redeploy.py:49-50 | each written line is non-empty and its first field is the entry's name |
| Manifest.NonEmptyDropsEmpty | commands/redeploy.py:47 | a trailing empty line is skipped |
| Manifest.ReadBackSerialized | commands/redeploy.py:42-64 | reading back a written manifest of clean entries gives the same entries, in order, with the module in place of those of its name |
| Manifest.ReadBackFindsModule | commands/redeploy.py:51-54 | in a written manifest the module is matched exactly when an entry has its name |
| Manifest.UpsertEntriesClean | commands/redeploy.py:49-57 | upserting a clean module leaves only entries free of `:` and newlines |
| Manifest.UpsertIdempotent | commands/redeploy.py:46-64 | upserting the same module twice writes the same text as upserting it once |
| Manifest.UpsertFromRead | commands/redeploy.py:59-62 | the module is appended exactly when no stored line had its name |
| Manifest.ReadOneLine | commands/redeploy.py:46-58 | one loop turn: an empty line adds nothing, another adds what `ParseLine` reads, and it sets the match flag when its first field is the name |
| Manifest.RewriteFailurePersists | commands/redeploy.py:46-58 | once a line raised, the read raises |
| Redeploy.LowerHex | commands/redeploy.py:74 | the canonical id lowers the hexadecimal letters and keeps everything else |
| Redeploy.ParseObjectId | commands/redeploy.py:74 | `ObjectId(v)` accepts 24 hex digits (canonical id) or `None` (a fresh id); other text raises `InvalidId`, other values `TypeError` |
| Redeploy.ParseCanonicalId | commands/redeploy.py:74 | a canonical id names itself |
| Redeploy.StrategyAsWritten | commands/redeploy.py:97 | with two options or more the strategy is the second option |
| Redeploy.StrategyAsWrittenRaisesOnOneOption | commands/redeploy.py:95-97 | with exactly one option the guard lets `options[1]` through and it raises `IndexError` |
| Redeploy.Strategy | commands/redeploy.py:97 | the strategy is the second option exactly when there are two or more |
| Redeploy.StrategyAgrees | commands/redeploy.py:97 | the written guard succeeds exactly when there is not exactly one option, and then agrees with `Strategy` |
| Redeploy.ReadManifest | commands/redeploy.py:46-62 | the read loop computes `Rewrite` of the stored lines (the entries with the module substituted, or `IndexError`); when it succeeds, `module_exist` is set exactly when some line had the module's name |
| Redeploy.RenderManifest | commands/redeploy.py:63-64 | the write loop builds `Serialize` of the entries |
| Redeploy.Redeployer.constructor | commands/redeploy.py:14-20 | the command starts from the worker's app, job, histories and bucket, with nothing deployed and no status |
| Redeploy.Redeployer.FindModulesByName | commands/redeploy.py:22-29 | the nested loops return `ModulesByName`: exactly the app modules some named job module asks for, in job order |
| Redeploy.Redeployer.GetDeployInfos | commands/redeploy.py:73-80 | the module (path, name) and package of the record with the id; nothing without a record; `KeyError` for a missing `module_path`, `module` or `package`, in that order |
| Redeploy.Redeployer.UpdateManifest | commands/redeploy.py:34-71 | when the upsert reads the stored lines, the object is replaced by the upserted text and nothing else changes; a line that raises leaves the bucket unchanged |
| Redeploy.Redeployer.RedeployEntry | commands/redeploy.py:85-88 | there is an entry exactly for a valid id whose record has `module`, `module_path` and a non-empty `package`; the entry then holds the record's module, package and path |
| Redeploy.Redeployer.RedeployFailsWithoutRecord | commands/redeploy.py:85-91 | without a record the redeploy fails naming the id and writes and deploys nothing |
| Redeploy.Redeployer.RedeployOfRecordWithoutPathRaises | commands/redeploy.py:77 | a record without `module_path` makes the redeploy raise `KeyError` |
| Redeploy.Redeployer.RedeployCompletes | commands/redeploy.py:85-91 | the redeploy completes exactly when the entry exists, the upsert succeeds and the hosts accept the module |
| Redeploy.Redeployer.DeployModule | commands/redeploy.py:82-83 | one host deployment of the module with the strategy, failing with the hosts' error |
| Redeploy.Redeployer.ExecuteRedeploy | commands/redeploy.py:85-91 | ends as `RedeployOutcome`; the manifest is rewritten and the module deployed only for a usable record; otherwise nothing changes |
| Redeploy.Redeployer.Execute | commands/redeploy.py:93-104 | missing or empty options fail the job with the fixed message; exactly one option raises an uncaught `IndexError` with no status and no change; otherwise `done` naming the id, `failed` with the id and the message, or an uncaught error and no status; the manifest object becomes the upserted text and the module is deployed with `Strategy` exactly for a usable record whose manifest reads, and otherwise the bucket and the host deployments are unchanged |
| BlueGreenLib.GetBlueGreenConfig | libs/blue_green.py:19-29 | the key's value whenever the command's section holds the key, otherwise the default; the falsy tests on the sections never change the answer |
| BlueGreenLib.ConfigValueComesFromSection | libs/blue_green.py:19-29 | a value other than the default comes from the command's section |
| BlueGreenLib.GetBlueGreenFromApp | libs/blue_green.py:34-61 | `(None, None)` exactly when `blue_green` is missing, `None` or `{}`; otherwise the document and its colour, `None` when the colour is missing or `None` |
| BlueGreenLib.GetBlueGreenFromAppExamples | libs/blue_green.py:38-57 | the seven documented examples |
| BlueGreenLib.GetBlueGreenApps | libs/blue_green.py:63-86 | no pair without a blue/green document and alter ego; a pair is the app and its alter ego, the online one first and the other offline |
| BlueGreenLib.BothOnlineRefused | libs/blue_green.py:74-76 | both online gives no pair |
| BlueGreenLib.NeitherOnlineRefused | libs/blue_green.py:79-84 | neither online gives no pair |
| BlueGreenLib.ManifestLineCount | libs/blue_green.py:99 | a manifest always counts at least one line |
| Text.StripDropsFinalNewline | libs/blue_green.py:99 | `strip` removes exactly one newline from text ending in one, when a non-space character stands before its first and after its last other newline |
| BlueGreenLib.SerializedManifestCount | libs/blue_green.py:99 | a manifest written for one or more clean entries counts exactly one line per entry |
| BlueGreenLib.CheckSerializedManifest | libs/blue_green.py:88-101 | false without a manifest object; for a written manifest, true exactly when the app has as many modules as the manifest has entries |
| BlueGreenLib.BlankManifestCountsOneLine | libs/blue_green.py:99-101 | a blank manifest counts as one line |
| GhostApi.OppositeColor | ghost_api.py:3-6 | blue and green swap; any other colour raises `KeyError` |
| GhostApi.OppositeColorInvolution | ghost_api.py:3-6 | flipping twice gives the colour back |
| GhostApi.BluegreenIsEnabled | ghost_api.py:8-9 | falsy for a missing, `None` or `{}` document; otherwise `get('enable_blue_green')`; true exactly when that flag is true |
| GhostApi.SourceColor | ghost_api.py:16 | the colour read is `blue` without a blue/green document, else `get('color', 'blue')` |
| GhostApi.FindTwin | ghost_api.py:17-22 | the query finds a matching record, or none exists |
| GhostApi.CheckGreenAppExists | ghost_api.py:11-23 | the first record with the same name, role and env and the opposite colour; `KeyError` for a colour without an opposite |
| GhostApi.GreenDraft | ghost_api.py:25-44 | the twin is the app without its five metadata keys, with `user` replaced and a `blue_green` that is enabled, offline, of the opposite colour and points back; `KeyError` for a missing key or colour |
| GhostApi.TwinColorIsOpposite | ghost_api.py:28-34 | the twin's colour differs from the source colour |
| GhostApi.LinkedBlueGreen | ghost_api.py:49-58 | the source document is enabled, online and points at the twin, keeping the source colour (`None` when missing) |
| GhostApi.UpdateBluegreenApp | ghost_api.py:49-59 | only the source record's `blue_green` changes; an app without `_id` raises and changes nothing |
| GhostApi.CreateGreenApp | ghost_api.py:25-47 | the twin draft is inserted under the fresh id and that id is returned; a draft that raises inserts nothing |
| GhostApi.EnableGreenApp | ghost_api.py:61-70 | links to an existing twin without inserting; otherwise inserts the twin, then links, returning false for a falsy id |
| GhostApi.LinkedSourceFound | ghost_api.py:59 | after linking, the source is found online and pointing at the twin |
| GhostApi.AppendedTwinFound | ghost_api.py:46 | linking leaves the inserted twin untouched |
| GhostApi.CreatedPairResolves | ghost_api.py:61-68 | after creating and linking, exactly one of the pair (the source) is online, each `alter_ego_id` points at the other, and the pair resolves with the source online |
| GhostApi.LinkedPairResolves | ghost_api.py:61-70 | the same for any offline twin stored under the new id that points back |
| GhostApi.OnlineSourceResolves | libs/blue_green.py:77-78 | an online app with an offline alter ego resolves to the pair, app first |
| PrepareBlueGreen.CopyAmiOption | commands/preparebluegreen.py:70 | the first job option when there are options, otherwise `preparebluegreen.copy_ami`, `False` by default |
| PrepareBlueGreen.Gates | commands/preparebluegreen.py:86-125 | the first gate, in source order, whose condition fails; none exactly when all pass; `KeyError` for a missing autoscale name |
| PrepareBlueGreen.AmiGateExact | commands/preparebluegreen.py:87-88 | the AMI gate aborts exactly when the app the AMI comes from has none |
| PrepareBlueGreen.Decide | commands/preparebluegreen.py:67-125 | no pair aborts with the not-enabled reason; for a resolved pair the gate chain's first failing gate aborts with its reason, its `KeyError` crashes, and a clean chain proceeds with the pair (or raises `KeyError` for an offline app without `_id`) |
| PrepareBlueGreen.FirstFailingGateAborts | commands/preparebluegreen.py:86-125 | for a resolved pair, the first gate in source order that does not pass aborts the job with that gate's reason; only the autoscale gate can instead raise `KeyError`, for an app with no autoscale name |
| PrepareBlueGreen.AllGatesPassProceeds | commands/preparebluegreen.py:86-125 | a resolved pair that passes every gate, whose offline app has an id, is prepared with the `copy_ami` option |
| PrepareBlueGreen.UnresolvedNeverProceeds | commands/preparebluegreen.py:82-84 | an unresolved pair is never prepared |
| PrepareBlueGreen.TempElbName | commands/preparebluegreen.py:130 | the name is the prefix of `bgtmp-` + id of length at most 31 |
| PrepareBlueGreen.TempElbNameShape | commands/preparebluegreen.py:130 | the name starts with `bgtmp-` and keeps as much of the id as fits |
| PrepareBlueGreen.PersistedSizingIsCached | commands/preparebluegreen.py:60-64 | the persisted sizing is the online record's cached `min/max/current`, not the group's desired capacity; other fields and apps are unchanged |
| PrepareBlueGreen.Preparer.constructor | commands/preparebluegreen.py:24-40 | the command starts from the worker's app, job, config and store, with no changes and no status |
| PrepareBlueGreen.Preparer.Execute | commands/preparebluegreen.py:67-159 | nothing changes before every gate passes; an abort reports its reason; a proceeding pair gets `PreparationEffects`; every path that does not crash reports exactly one status |
| PrepareBlueGreen.Preparer.CheckGates | commands/preparebluegreen.py:86-125 | the early-return chain computes `Gates` |
| PrepareBlueGreen.Preparer.Prepare | commands/preparebluegreen.py:127-157 | the temporary load balancer is copied from the first online one and registered, then `ResizeEffects`; a failing call ends `failed` there |
| PrepareBlueGreen.Preparer.Resize | commands/preparebluegreen.py:138-157 | the sizing is persisted; a launch configuration is made only with `copy_ami` and non-empty user data; the group is updated with the online sizing; the job ends `done` or `failed` |
| Deploy.ModuleRevision | commands/deploy.py:122-127 | a revision exists exactly when some job module has the name |
| Deploy.ModuleRevisionOfFirst | commands/deploy.py:122-127 | the revision is the `rev` of the first job module with the name, `master` when it has none |
| Deploy.PackageNameFields | commands/deploy.py:112 | the package name splits back into timestamp, module and `commit.tar.gz` |
| Deploy.Run | commands/deploy.py:157-160 | a run records at most one event per command |
| Deploy.RunStopsAtFirstFailure | commands/deploy.py:157-177 | a run fails exactly when some command raises, at the first such one, after the events of the ones before it |
| Deploy.RunStep | commands/deploy.py:157-158 | a command that does not raise adds its event and the run goes on |
| Deploy.RunConcat | commands/deploy.py:145-189 | running two parts in a row is the first, then the second unless the first raised |
| Deploy.RunEventsSatisfy | commands/deploy.py:145-189 | every event of a run is the event of one of its commands |
| Deploy.DeployRecord | commands/deploy.py:188 | the history record has no `module_path` and no `package` |
| Deploy.Deployer.Group | commands/deploy.py:83-88 | a group is found only for an app with an autoscale name, and is that name |
| Deploy.Deployer.constructor | commands/deploy.py:27-32 | the command starts from the worker's app and job, with no group looked up, no events, no records and no status |
| Deploy.Deployer.Gcall | commands/deploy.py:157-158 | one command: its event, or its `GCallException` |
| Deploy.Deployer.SetAutoscaleGroup | commands/deploy.py:83-88 | the group is looked up only when the app has an autoscale name |
| Deploy.Deployer.StopAutoscale | commands/deploy.py:97-102 | suspends the app's group when found, otherwise does nothing |
| Deploy.Deployer.StartAutoscale | commands/deploy.py:90-95 | resumes the app's group when found, otherwise does nothing |
| Deploy.Deployer.InitializeModule | commands/deploy.py:46-58 | removes, creates and clones the directory, then flags the module, stopping at the first failure with the fixed message for the directory |
| Deploy.Deployer.InitRunEvents | commands/deploy.py:46-58 | an initialisation that does not fail goes through all four steps |
| Deploy.Deployer.PackageModule | commands/deploy.py:110-116 | the package is named `{ts}_{module}_{commit}.tar.gz`, archived then uploaded, stopping at the first failure |
| Deploy.Deployer.ReleasePlanRun | commands/deploy.py:173-187 | suspension, manifest upload, sync, resumption and purge run in that order, each stopping the rest when it raises |
| Deploy.Deployer.InitEventsAreInit | commands/deploy.py:131-134 | every event of the init loop is an init event |
| Deploy.Deployer.DeployEventsAreNotInit | commands/deploy.py:136-138 | no event of the deploy loop is an init event, so initialisation precedes every deployment |
| Deploy.Deployer.ModuleRunNotInit | commands/deploy.py:145-189 | no step of `_execute_deploy` initialises |
| Deploy.Deployer.InitializesEveryModule | commands/deploy.py:131-134 | when the init loop succeeds, every selected uninitialised module has been flagged initialised |
| Deploy.Deployer.SuccessfulDeployEvents | commands/deploy.py:145-187 | a module that deploys goes through clean, pull, checkout, archive, upload, suspend, manifest, sync, resume, purge, in order |
| Deploy.Deployer.SuccessfulBuildEvents | commands/deploy.py:156-167 | the first half that succeeds: clean, pull, checkout, archive, upload |
| Deploy.Deployer.SuccessfulReleaseEvents | commands/deploy.py:173-187 | the second half that succeeds: suspend, manifest, sync, resume, purge, with suspend/resume only when the group exists |
| Deploy.Deployer.FailureAfterSuspendLeavesGroupSuspended | commands/deploy.py:174-179 | a manifest upload or sync that raises leaves the group suspended, with no resumption |
| Deploy.Deployer.FailedReleaseEvents | commands/deploy.py:174-179 | a failing second half stops right after the suspension or after the manifest upload |
| Deploy.Deployer.NoGroupNoSuspension | commands/deploy.py:90-102 | without a group nothing is suspended or resumed |
| Deploy.Deployer.ExpectedRecord | commands/deploy.py:188 | the record names the app, job, module and timestamp |
| Deploy.Deployer.FinishedRecordsEveryModule | commands/deploy.py:136-138 | a deploy loop that finishes writes one record per selected module, in order, with its commit and timestamp |
| Deploy.Deployer.SelectedModulesNamed | commands/deploy.py:36-41 | every selected module has a name |
| Deploy.Deployer.InitFailurePersists | commands/deploy.py:131-134 | after a failed initialisation the later modules are not initialised |
| Deploy.Deployer.DeployStopPersists | commands/deploy.py:136-138 | after a module stops the loop the later modules are not deployed |
| Deploy.Deployer.UpdateWorkingCopy | commands/deploy.py:156-160 | clean, pull and checkout of the job's revision, stopping at the first failure |
| Deploy.Deployer.Build | commands/deploy.py:154-167 | updates the working copy, then packages it; on success returns the commit and the package name |
| Deploy.Deployer.Release | commands/deploy.py:168-187 | suspends autoscaling, uploads the manifest, syncs, resumes and purges, stopping at the first failure |
| Deploy.Deployer.ExecuteDeploy | commands/deploy.py:145-189 | adds `DeployOne`'s events and, only when every command succeeded, its one history record; `KeyError` for an app without `_id` |
| Deploy.Deployer.InitializeAll | commands/deploy.py:131-134 | the init loop computes `InitAll`: each uninitialised module in order up to the first failure |
| Deploy.Deployer.DeployNext | commands/deploy.py:137-138 | one turn of the deploy loop extends `DeployAll` by one module |
| Deploy.Deployer.DeployEach | commands/deploy.py:136-138 | the deploy loop computes `DeployAll`: each module in order up to the first error |
| Deploy.Deployer.Execute | commands/deploy.py:129-142 | a failed initialisation fails the job before any deployment; otherwise `done` with "Deployment OK", `failed` with the first message, or an uncaught error and no status |

## Left out

- Cloud SDK internals are not modelled. This covers autoscaling, ELB, EC2 and launch configurations; their queries are inputs and their changes are events.
- Connections and regions are not modelled (`connect_to_region`, `get_connection`, `_set_as_conn`, `bucket_region`), since they decide only where a call goes.
- Shell, git, tar and `aws s3 cp` are not modelled as processes. Each command is an event that may raise `GCallException` with a message given as input.
- The `rmtree` error is ignored, as the source does. `git rev-parse` is an input (`commitOf`).
- The temporary manifest file of the deploy command is left out. Its content, the package name, is recorded as the manifest upload event.
- `_purge_old_modules` is called by the deploy command but not defined in it. It is an opaque step that always succeeds.
- `_predeploy_module`, `_postdeploy_module` and `_purge_package` do nothing or are never called, so they are not modelled.
- Timestamps (`utcnow`, `timegm`) are inputs (`clock`).
- Log messages, `fabric.colors` and the friendly app name are not modelled. Statuses carry their kind and the key identifiers only.
- Bytes and decoding are not modelled: manifest text is a `string`.
- Concurrent jobs on the same app and last-writer-wins races are out of scope, since the model is sequential.
- `ghost_has_blue_green_enabled` and `get_blue_green_destroy_temporary_elb_config` are not modelled. Neither is used by the modelled commands.
- The deploy hosts (`deploy_module_on_hosts`) are an event that fails with a given message.
- The Mongo collections are sequences (apps) and maps (histories). Query operators other than equality on `_id`, and the twin query, are not modelled.
- An app without `name`, `env` or `role` is not modelled: these keys are always present. For such an app the twin query of ghost_api.py:12-20 would match on `None`.
- The preparation reads the cloud as one snapshot taken before any change. A group that changes during the command is not modelled.

## Findings

| source | as written | input that shows it | evidently intended | confidence | as-written member | corrected member |
|---|---|---|---|---|---|---|
| commands/redeploy.py:97 | `options[1] if len(options) > 0 else None` guards the second option with a length test that lets a one-option job through, so `options[1]` raises `IndexError` outside the `try` | a job with `options == [deploy_id]` | `len(options) > 1`: the strategy is the second option when there is one, otherwise `None` | not executed | Redeploy.StrategyAsWrittenRaisesOnOneOption | Redeploy.Strategy |

`Redeploy.Redeployer.Execute` reads the strategy as written, so a one-option job ends with the uncaught `IndexError`. For every other option count its contract is stated with the corrected `Redeploy.Strategy`, which agrees there with the written read (`Redeploy.StrategyAgrees`).
