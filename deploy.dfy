/**
 * The deploy command: selects the app modules the job names, initialises the
 * ones not yet initialised (a fresh clone), then for each module in turn
 * updates its working copy, packages and uploads it, and, with autoscaling
 * suspended, uploads the environment manifest and syncs the running instances,
 * before resuming autoscaling and recording the deployment.
 *
 * Shell commands, git, S3 uploads and the autoscaling API are events in a
 * trace; a command in `failing` raises `GCallException` with its message.
 * Timestamps and commit hashes are inputs.
 */
module Deploy {
  import opened Wrappers
  import opened Text
  import opened Records
  import opened Paths

  /**
   * `_get_module_revision`: the `rev` of the first job module called `name`,
   * `master` when that module has no `rev`, and `None` when no job module has
   * that name.
   */
  function ModuleRevision(jms: seq<JobModule>, name: string): (r: Option<string>)
    ensures r.Some? <==> Requested(jms, name)
  {
    if jms == [] then None
    else if jms[0].name == Some(name) then Some(jms[0].rev.GetOr("master"))
    else
      var r := ModuleRevision(jms[1..], name);
      assert Requested(jms, name) <==> Requested(jms[1..], name) by {
        assert forall j :: j in jms <==> j == jms[0] || j in jms[1..];
      }
      r
  }

  /** The revision is the one of the first job module with the name; later ones are ignored. */
  lemma {:induction false} ModuleRevisionOfFirst(jms: seq<JobModule>, name: string, i: nat)
    requires i < |jms| && jms[i].name == Some(name)
    requires forall k :: 0 <= k < i ==> jms[k].name != Some(name)
    ensures ModuleRevision(jms, name) == Some(jms[i].rev.GetOr("master"))
    decreases i
  {
    if i > 0 {
      ModuleRevisionOfFirst(jms[1..], name, i - 1);
    }
  }

  /** `_package_module`'s package name: `"{ts}_{module}_{commit}.tar.gz"`. */
  function PackageName(ts: int, moduleName: string, commit: string): string {
    Str(IntValue(ts)) + "_" + moduleName + "_" + commit + ".tar.gz"
  }

  /** Splitting a package name at `_` gives back the timestamp, the module and the commit (when neither holds a `_`). */
  lemma PackageNameFields(ts: int, moduleName: string, commit: string)
    requires '_' !in moduleName && '_' !in commit
    ensures Split(PackageName(ts, moduleName, commit), '_') == [Str(IntValue(ts)), moduleName, commit + ".tar.gz"]
  {
    var stamp := Str(IntValue(ts));
    assert '_' !in stamp by {
      if ts < 0 {
        assert stamp == "-" + Decimal(-ts);
        assert forall i :: 1 <= i < |stamp| ==> stamp[i] == Decimal(-ts)[i - 1];
      }
    }
    assert '_' !in commit + ".tar.gz";
    var parts := [stamp, moduleName, commit + ".tar.gz"];
    assert parts[1..] == [moduleName, commit + ".tar.gz"];
    assert parts[2..] == [commit + ".tar.gz"];
    assert Join(parts[1..], '_') == moduleName + "_" + commit + ".tar.gz";
    assert Join(parts, '_') == PackageName(ts, moduleName, commit);
    SplitJoin(parts, '_');
  }

  /** A change the command makes to the filesystem, the repository, the bucket, the instances or the autoscaling group. */
  datatype Event =
    | DirectoryRemoved(path: string)                 // `shutil.rmtree`
    | DirectoryCreated(path: string)                 // `os.makedirs`
    | Cloned(repo: string, path: string)             // `git clone`
    | Initialized(moduleName: string)                // `worker.module_initialized`
    | Cleaned(path: string)                          // `git clean -f`
    | Pulled(path: string)                           // `git pull`
    | CheckedOut(path: string, revision: string)     // `git checkout`
    | Packaged(path: string, package: string)        // `tar cvzf`
    | PackageUploaded(package: string, path: string) // `aws s3 cp` of the package
    | Suspended(group: string)                       // `suspend_processes`
    | ManifestUploaded(key: string, package: string) // `aws s3 cp` of the manifest
    | Synced(task: string)                           // `fab ... deploy` on the running instances
    | Resumed(group: string)                         // `resume_processes`
    | Purged(moduleName: string)                     // `_purge_old_modules`
  {
    /** An event of module initialisation. */
    predicate IsInit() {
      DirectoryRemoved? || DirectoryCreated? || Cloned? || Initialized?
    }
  }

  /** The commands that may raise `GCallException`. */
  datatype Stage = MakeDirs | Clone | Clean | Pull | Checkout | Tar | UploadPackage | UploadManifest | Sync

  /** One step of a command: its event, and the stage it may fail at (`None` for steps that do not raise). */
  datatype Action = Action(stage: Option<Stage>, event: Event)

  /** The events of a run and the message of the `GCallException` that ended it, if any. */
  datatype Trace = Trace(events: seq<Event>, failure: Option<string>)

  /** `a`, then `b` unless `a` failed. */
  function Then(a: Trace, b: Trace): Trace {
    if a.failure.Some? then a else Trace(a.events + b.events, b.failure)
  }

  /** Whether `a`, run for module `name`, raises. */
  predicate Fails(name: string, a: Action, failing: map<(string, Stage), string>) {
    a.stage.Some? && (name, a.stage.value) in failing
  }

  /**
   * The message of a failing step: the fixed one of `_initialize_module` when
   * the directory cannot be created, otherwise the command's own.
   */
  function Message(name: string, a: Action, failing: map<(string, Stage), string>): string
    requires Fails(name, a, failing)
  {
    if a.stage.value == MakeDirs then "Init module: " + name + " failed, creating directory"
    else failing[(name, a.stage.value)]
  }

  /** Running the steps of `plan` for module `name` in order, up to the first one that raises. */
  function Run(name: string, plan: seq<Action>, failing: map<(string, Stage), string>): (r: Trace)
    ensures |r.events| <= |plan|
  {
    if plan == [] then Trace([], None)
    else if Fails(name, plan[0], failing) then Trace([], Some(Message(name, plan[0], failing)))
    else
      var rest := Run(name, plan[1..], failing);
      Trace([plan[0].event] + rest.events, rest.failure)
  }

  /** A run fails exactly at its first failing step, after the events of the steps before it. */
  lemma {:induction false} RunStopsAtFirstFailure(name: string, plan: seq<Action>, failing: map<(string, Stage), string>)
    ensures Run(name, plan, failing).failure.None? <==> forall i :: 0 <= i < |plan| ==> !Fails(name, plan[i], failing)
    ensures Run(name, plan, failing).failure.None? ==> |Run(name, plan, failing).events| == |plan|
    ensures Run(name, plan, failing).failure.Some? ==>
              var n := |Run(name, plan, failing).events|;
              n < |plan| && Fails(name, plan[n], failing)
              && Run(name, plan, failing).failure == Some(Message(name, plan[n], failing))
              && forall i :: 0 <= i < n ==> !Fails(name, plan[i], failing)
    decreases |plan|
  {
    if plan != [] && !Fails(name, plan[0], failing) {
      RunStopsAtFirstFailure(name, plan[1..], failing);
    }
  }

  /** A step that does not raise adds its event, and the run goes on. */
  lemma RunStep(name: string, plan: seq<Action>, failing: map<(string, Stage), string>)
    requires plan != [] && !Fails(name, plan[0], failing)
    ensures Run(name, plan, failing) == Then(Trace([plan[0].event], None), Run(name, plan[1..], failing))
  {
  }

  /** Running a concatenation runs the first part, then the second unless the first failed. */
  lemma {:induction false} RunConcat(name: string, p: seq<Action>, q: seq<Action>, failing: map<(string, Stage), string>)
    ensures Run(name, p + q, failing) == Then(Run(name, p, failing), Run(name, q, failing))
    decreases |p|
  {
    if p == [] {
      assert p + q == q;
    } else {
      assert (p + q)[1..] == p[1..] + q;
      RunConcat(name, p[1..], q, failing);
    }
  }

  /** Every event of a run is the event of one of its steps: a property all steps' events have, the run's events have. */
  lemma {:induction false} RunEventsSatisfy(name: string, plan: seq<Action>, failing: map<(string, Stage), string>, p: Event -> bool)
    requires forall i :: 0 <= i < |plan| ==> p(plan[i].event)
    ensures forall e :: e in Run(name, plan, failing).events ==> p(e)
    decreases |plan|
  {
    if plan != [] && !Fails(name, plan[0], failing) {
      RunEventsSatisfy(name, plan[1..], failing, p);
    }
  }

  /** A `deploy_histories` record as this command writes it: no `module_path` and no `package`. */
  function DeployRecord(appId: Id, jobId: Id, moduleName: string, commit: string, ts: int): (rec: HistoryRecord)
    ensures rec.modulePath.None? && rec.package.None?
  {
    HistoryRecord(Some(appId), Some(jobId), Some(moduleName), None, None, Some(commit), Some(ts))
  }

  /** How the deploy loop ended: all modules deployed, a `GCallException`, or another error. */
  datatype End = Finished | Stopped(message: string) | Raised(error: PyError)

  /** The events and history records of the deploy loop, and how it ended. */
  datatype Progress = Progress(events: seq<Event>, records: seq<HistoryRecord>, end: End)

  /** The `Deploy` command for one job. */
  class Deployer {
    const app: App
    const job: Job
    /** The autoscaling groups that exist. */
    const cloudGroups: set<string>
    /** The timestamp of the deployment of the `k`-th selected module. */
    const clock: nat -> int
    /** The short commit hash a checkout of `(module, revision)` gives. */
    const commitOf: (string, string) -> string
    /** The commands that raise `GCallException`, per module, with their message. */
    const failing: map<(string, Stage), string>
    /** `_as_group`, looked up lazily. */
    var asGroup: Option<string>
    var events: seq<Event>
    /** The records added to `deploy_histories`. */
    var histories: seq<HistoryRecord>
    var status: Option<Status>

    /** The group `get_all_groups` finds for the app's autoscale name, when it has one. */
    function Group(): (g: Option<string>)
      ensures g.Some? ==> HasAutoscaleName(app) && g.value == app.autoscale.value.name.value
    {
      if HasAutoscaleName(app) && app.autoscale.value.name.value in cloudGroups
      then Some(app.autoscale.value.name.value) else None
    }

    /** The lazily set group is either not looked up yet or the app's group. */
    ghost predicate Valid()
      reads this
    {
      asGroup.None? || asGroup == Group()
    }

    constructor (app: App, job: Job, cloudGroups: set<string>, clock: nat -> int,
                 commitOf: (string, string) -> string, failing: map<(string, Stage), string>)
      ensures Valid()
      ensures this.app == app && this.job == job && this.cloudGroups == cloudGroups
      ensures this.clock == clock && this.commitOf == commitOf && this.failing == failing
      ensures asGroup.None? && events == [] && histories == [] && status.None?
    {
      this.app := app;
      this.job := job;
      this.cloudGroups := cloudGroups;
      this.clock := clock;
      this.commitOf := commitOf;
      this.failing := failing;
      asGroup := None;
      events := [];
      histories := [];
      status := None;
    }

    /** `_get_path_from_module`. */
    function PathOf(m: AppModule): string
      requires m.name.Some?
    {
      ModulePath(app, m.name.value)
    }

    /** `_initialize_module`: a fresh directory and a clone of the module's repository. */
    function InitPlan(m: AppModule): seq<Action>
      requires m.name.Some?
    {
      [Action(None, DirectoryRemoved(PathOf(m))),
       Action(Some(MakeDirs), DirectoryCreated(PathOf(m))),
       Action(Some(Clone), Cloned(m.gitRepo, PathOf(m))),
       Action(None, Initialized(m.name.value))]
    }

    /** The revision checked out for `m` (`"None"` when no job module names it, as Python formats it). */
    function RevisionOf(m: AppModule): string
      requires m.name.Some?
    {
      ModuleRevision(job.modules, m.name.value).GetOr("None")
    }

    /** The package of the `k`-th deployed module. */
    function PackageOf(m: AppModule, k: nat): string
      requires m.name.Some?
    {
      PackageName(clock(k), m.name.value, commitOf(m.name.value, RevisionOf(m)))
    }

    /** Updating the working copy: clean, pull, checkout of the revision. */
    function UpdatePlan(m: AppModule): seq<Action>
      requires m.name.Some?
    {
      [Action(Some(Clean), Cleaned(PathOf(m))),
       Action(Some(Pull), Pulled(PathOf(m))),
       Action(Some(Checkout), CheckedOut(PathOf(m), RevisionOf(m)))]
    }

    /** `_package_module`: the archive, then its upload next to the module. */
    function PackagePlan(m: AppModule, k: nat): seq<Action>
      requires m.name.Some?
    {
      [Action(Some(Tar), Packaged(PathOf(m), PackageOf(m, k))),
       Action(Some(UploadPackage), PackageUploaded(PackageOf(m, k), PathOf(m)))]
    }

    /** `_stop_autoscale`: a suspension when the group is found, nothing otherwise. */
    function SuspendPlan(): seq<Action> {
      if Group().Some? then [Action(None, Suspended(Group().value))] else []
    }

    /** `_start_autoscale`: a resumption when the group is found, nothing otherwise. */
    function ResumePlan(): seq<Action> {
      if Group().Some? then [Action(None, Resumed(Group().value))] else []
    }

    /** The manifest upload (the manifest holds the package name) and the sync of the running instances. */
    function ManifestPlan(m: AppModule, k: nat): seq<Action>
      requires m.name.Some?
    {
      [Action(Some(UploadManifest), ManifestUploaded(PathOf(m) + "/MANIFEST", PackageOf(m, k)))]
    }

    function SyncPlan(): seq<Action> {
      [Action(Some(Sync), Synced("deploy"))]
    }

    /** The first half of `_execute_deploy`: update the working copy, then package it. */
    function BuildPlan(m: AppModule, k: nat): seq<Action>
      requires m.name.Some?
    {
      UpdatePlan(m) + PackagePlan(m, k)
    }

    /**
     * The second half of `_execute_deploy`: suspend autoscaling, upload the
     * manifest, sync the instances, resume autoscaling, purge old packages.
     */
    function ReleasePlan(m: AppModule, k: nat): seq<Action>
      requires m.name.Some?
    {
      SuspendPlan() + ManifestPlan(m, k) + SyncPlan() + ResumePlan() + [Action(None, Purged(m.name.value))]
    }

    /** `_execute_deploy` of the `k`-th module, in order. */
    function DeployPlan(m: AppModule, k: nat): seq<Action>
      requires m.name.Some?
    {
      BuildPlan(m, k) + ReleasePlan(m, k)
    }

    /** The run of `_execute_deploy` for the `k`-th selected module. */
    function ModuleRun(m: AppModule, k: nat): Trace
      requires m.name.Some?
    {
      Run(m.name.value, DeployPlan(m, k), failing)
    }

    /** The init loop of `execute` over the first `n` selected modules, up to the first failure. */
    function InitAll(mods: seq<AppModule>, n: nat): Trace
      requires ModulesNamed(mods) && n <= |mods|
    {
      if n == 0 then Trace([], None)
      else
        var m := mods[n - 1];
        Then(InitAll(mods, n - 1), if m.initialized then Trace([], None) else Run(m.name.value, InitPlan(m), failing))
    }

    /**
     * `_execute_deploy` of the `k`-th selected module, with what it leaves
     * behind: its events, the history record it writes once every command
     * succeeded, and how it ends (a failed command, or a `KeyError` when the
     * app has no `_id`).
     */
    function DeployOne(m: AppModule, k: nat): Progress
      requires m.name.Some?
    {
      var r := ModuleRun(m, k);
      if r.failure.Some? then Progress(r.events, [], Stopped(r.failure.value))
      else if app.id.None? then Progress(r.events, [], Raised(KeyError("_id")))
      else Progress(r.events, [DeployRecord(app.id.value, job.id, m.name.value, commitOf(m.name.value, RevisionOf(m)), clock(k))],
                    Finished)
    }

    /** The deploy loop of `execute` over the first `n` selected modules, up to the first error. */
    function DeployAll(mods: seq<AppModule>, n: nat): Progress
      requires ModulesNamed(mods) && n <= |mods|
    {
      if n == 0 then Progress([], [], Finished)
      else
        var before := DeployAll(mods, n - 1);
        if !before.end.Finished? then before
        else
          var one := DeployOne(mods[n - 1], n - 1);
          Progress(before.events + one.events, before.records + one.records, one.end)
    }

    /** `gcall`: runs one command, which raises `GCallException` when it fails. */
    method Gcall(name: string, a: Action) returns (failure: Option<string>)
      modifies this
      ensures Trace(events, failure) == Then(Trace(old(events), None), Run(name, [a], failing))
      ensures asGroup == old(asGroup) && histories == old(histories) && status == old(status)
    {
      if Fails(name, a, failing) {
        failure := Some(Message(name, a, failing));
      } else {
        events := events + [a.event];
        failure := None;
      }
    }

    /** `_set_autoscale_group`: looks the app's group up when it has an autoscale name. */
    method SetAutoscaleGroup()
      modifies this
      ensures asGroup == if HasAutoscaleName(app) then Group() else old(asGroup)
      ensures events == old(events) && histories == old(histories) && status == old(status)
    {
      if HasAutoscaleName(app) {
        var name := app.autoscale.value.name.value;
        asGroup := if name in cloudGroups then Some(name) else None;
      }
    }

    /** `_stop_autoscale`. */
    method StopAutoscale()
      requires Valid()
      modifies this
      ensures Valid()
      ensures events == old(events) + (if Group().Some? then [Suspended(Group().value)] else [])
      ensures histories == old(histories) && status == old(status)
    {
      if asGroup.None? {
        SetAutoscaleGroup();
      }
      if asGroup.Some? {
        events := events + [Suspended(asGroup.value)];
      }
    }

    /** `_start_autoscale`. */
    method StartAutoscale()
      requires Valid()
      modifies this
      ensures Valid()
      ensures events == old(events) + (if Group().Some? then [Resumed(Group().value)] else [])
      ensures histories == old(histories) && status == old(status)
    {
      if asGroup.None? {
        SetAutoscaleGroup();
      }
      if asGroup.Some? {
        events := events + [Resumed(asGroup.value)];
      }
    }

    /** `_initialize_module`. */
    method InitializeModule(m: AppModule) returns (failure: Option<string>)
      requires m.name.Some?
      modifies this
      ensures Trace(events, failure) == Then(Trace(old(events), None), Run(m.name.value, InitPlan(m), failing))
      ensures asGroup == old(asGroup) && histories == old(histories) && status == old(status)
    {
      var name := m.name.value;
      var path := PathOf(m);
      ghost var plan := InitPlan(m);
      RunStep(name, plan, failing);
      events := events + [DirectoryRemoved(path)];
      if (name, MakeDirs) in failing {
        return Some("Init module: " + name + " failed, creating directory");
      }
      RunStep(name, plan[1..], failing);
      events := events + [DirectoryCreated(path)];
      failure := Gcall(name, Action(Some(Clone), Cloned(m.gitRepo, path)));
      if failure.Some? {
        return;
      }
      RunStep(name, plan[2..], failing);
      assert plan[1..][1..] == plan[2..] && plan[2..][1..] == [plan[3]];
      events := events + [Initialized(name)];
    }

    /** `_package_module`. */
    method PackageModule(m: AppModule, k: nat) returns (pkg: string, failure: Option<string>)
      requires m.name.Some?
      modifies this
      ensures pkg == PackageOf(m, k)
      ensures Trace(events, failure) == Then(Trace(old(events), None), Run(m.name.value, PackagePlan(m, k), failing))
      ensures asGroup == old(asGroup) && histories == old(histories) && status == old(status)
    {
      pkg := PackageName(clock(k), m.name.value, commitOf(m.name.value, RevisionOf(m)));
      failure := Gcall(m.name.value, Action(Some(Tar), Packaged(PathOf(m), pkg)));
      if failure.Some? {
        return;
      }
      failure := Gcall(m.name.value, Action(Some(UploadPackage), PackageUploaded(pkg, PathOf(m))));
    }

    /** The run of the second half of `_execute_deploy`, part by part. */
    lemma ReleasePlanRun(m: AppModule, k: nat)
      requires m.name.Some?
      ensures var name := m.name.value;
              Run(name, ReleasePlan(m, k), failing)
              == Then(Then(Then(Then(
                   Run(name, SuspendPlan(), failing), Run(name, ManifestPlan(m, k), failing)),
                   Run(name, SyncPlan(), failing)), Run(name, ResumePlan(), failing)),
                   Run(name, [Action(None, Purged(name))], failing))
    {
      var name := m.name.value;
      var s, mf, y, r := SuspendPlan(), ManifestPlan(m, k), SyncPlan(), ResumePlan();
      RunConcat(name, s, mf, failing);
      RunConcat(name, s + mf, y, failing);
      RunConcat(name, s + mf + y, r, failing);
      RunConcat(name, s + mf + y + r, [Action(None, Purged(name))], failing);
    }

    /** Initialisation only removes, creates, clones and flags: every event of the init loop is an init event. */
    lemma {:induction false} InitEventsAreInit(mods: seq<AppModule>, n: nat)
      requires ModulesNamed(mods) && n <= |mods|
      ensures forall e :: e in InitAll(mods, n).events ==> e.IsInit()
      decreases n
    {
      if n > 0 {
        InitEventsAreInit(mods, n - 1);
        var m := mods[n - 1];
        if !m.initialized {
          RunEventsSatisfy(m.name.value, InitPlan(m), failing, (e: Event) => e.IsInit());
        }
      }
    }

    /** Deployment never re-initialises: no event of the deploy loop is an init event. */
    lemma {:induction false} DeployEventsAreNotInit(mods: seq<AppModule>, n: nat)
      requires ModulesNamed(mods) && n <= |mods|
      ensures forall e :: e in DeployAll(mods, n).events ==> !e.IsInit()
      decreases n
    {
      if n > 0 {
        var before := DeployAll(mods, n - 1);
        var one := DeployOne(mods[n - 1], n - 1);
        assert DeployAll(mods, n).events == if before.end.Finished? then before.events + one.events else before.events;
        assert one.events == ModuleRun(mods[n - 1], n - 1).events;
        DeployEventsAreNotInit(mods, n - 1);
        ModuleRunNotInit(mods[n - 1], n - 1);
      }
    }

    /** No step of `_execute_deploy` is an init step. */
    lemma ModuleRunNotInit(m: AppModule, k: nat)
      requires m.name.Some?
      ensures forall e :: e in ModuleRun(m, k).events ==> !e.IsInit()
    {
      var name := m.name.value;
      RunConcat(name, BuildPlan(m, k), ReleasePlan(m, k), failing);
      RunEventsSatisfy(name, BuildPlan(m, k), failing, (e: Event) => !e.IsInit());
      RunEventsSatisfy(name, ReleasePlan(m, k), failing, (e: Event) => !e.IsInit());
    }

    /** When the init loop succeeds, every selected module that was not initialised has been flagged initialised. */
    lemma {:induction false} InitializesEveryModule(mods: seq<AppModule>, n: nat)
      requires ModulesNamed(mods) && n <= |mods| && InitAll(mods, n).failure.None?
      ensures forall i :: 0 <= i < n && !mods[i].initialized ==> Initialized(mods[i].name.value) in InitAll(mods, n).events
      decreases n
    {
      if n > 0 {
        var m := mods[n - 1];
        var before := InitAll(mods, n - 1);
        assert before.failure.None?;
        InitializesEveryModule(mods, n - 1);
        var r := if m.initialized then Trace([], None) else Run(m.name.value, InitPlan(m), failing);
        assert InitAll(mods, n).events == before.events + r.events;
        if !m.initialized {
          RunStopsAtFirstFailure(m.name.value, InitPlan(m), failing);
          assert InitPlan(m)[3] == Action(None, Initialized(m.name.value));
          InitRunEvents(m);
        }
      }
    }

    /** An initialisation that does not fail goes through all four steps. */
    lemma InitRunEvents(m: AppModule)
      requires m.name.Some? && Run(m.name.value, InitPlan(m), failing).failure.None?
      ensures Run(m.name.value, InitPlan(m), failing).events
              == [DirectoryRemoved(PathOf(m)), DirectoryCreated(PathOf(m)), Cloned(m.gitRepo, PathOf(m)), Initialized(m.name.value)]
    {
      var plan := InitPlan(m);
      var name := m.name.value;
      RunStopsAtFirstFailure(name, plan, failing);
      assert !Fails(name, plan[0], failing) && !Fails(name, plan[1], failing) && !Fails(name, plan[2], failing);
      RunStep(name, plan, failing);
      RunStep(name, plan[1..], failing);
      RunStep(name, plan[2..], failing);
      assert plan[1..][1..] == plan[2..] && plan[2..][1..] == [plan[3]];
    }

    /**
     * A module whose deployment goes through: the working copy is cleaned,
     * pulled and checked out, the package built and uploaded, then the
     * manifest uploaded and the instances synced while the group (when there
     * is one) is suspended, and finally the old packages purged.
     */
    lemma SuccessfulDeployEvents(m: AppModule, k: nat)
      requires m.name.Some? && ModuleRun(m, k).failure.None?
      ensures var p := PathOf(m);
              var pkg := PackageOf(m, k);
              ModuleRun(m, k).events
              == [Cleaned(p), Pulled(p), CheckedOut(p, RevisionOf(m)), Packaged(p, pkg), PackageUploaded(pkg, p)]
                 + ((if Group().Some? then [Suspended(Group().value)] else [])
                 + [ManifestUploaded(p + "/MANIFEST", pkg), Synced("deploy")]
                 + (if Group().Some? then [Resumed(Group().value)] else [])
                 + [Purged(m.name.value)])
    {
      RunConcat(m.name.value, BuildPlan(m, k), ReleasePlan(m, k), failing);
      SuccessfulBuildEvents(m, k);
      SuccessfulReleaseEvents(m, k);
    }

    /** The first half of a deployment that goes through. */
    lemma SuccessfulBuildEvents(m: AppModule, k: nat)
      requires m.name.Some? && Run(m.name.value, BuildPlan(m, k), failing).failure.None?
      ensures var p := PathOf(m);
              var pkg := PackageOf(m, k);
              Run(m.name.value, BuildPlan(m, k), failing).events
              == [Cleaned(p), Pulled(p), CheckedOut(p, RevisionOf(m)), Packaged(p, pkg), PackageUploaded(pkg, p)]
    {
      var name := m.name.value;
      RunConcat(name, UpdatePlan(m), PackagePlan(m, k), failing);
      AllPass(name, UpdatePlan(m));
      AllPass(name, PackagePlan(m, k));
    }

    /** The second half of a deployment that goes through. */
    lemma SuccessfulReleaseEvents(m: AppModule, k: nat)
      requires m.name.Some? && Run(m.name.value, ReleasePlan(m, k), failing).failure.None?
      ensures Run(m.name.value, ReleasePlan(m, k), failing).events
              == (if Group().Some? then [Suspended(Group().value)] else [])
                 + [ManifestUploaded(PathOf(m) + "/MANIFEST", PackageOf(m, k)), Synced("deploy")]
                 + (if Group().Some? then [Resumed(Group().value)] else [])
                 + [Purged(m.name.value)]
    {
      AllPass(m.name.value, ReleasePlan(m, k));
    }

    /** A part of a run that does not fail records the event of each of its steps. */
    lemma {:induction false} AllPass(name: string, plan: seq<Action>)
      requires Run(name, plan, failing).failure.None?
      ensures Run(name, plan, failing).events == seq(|plan|, i requires 0 <= i < |plan| => plan[i].event)
      decreases |plan|
    {
      if plan != [] {
        AllPass(name, plan[1..]);
      }
    }

    /**
     * Autoscaling is not resumed when the manifest upload or the sync fails:
     * the group stays suspended (there is no `finally` around them).
     */
    lemma FailureAfterSuspendLeavesGroupSuspended(m: AppModule, k: nat)
      requires m.name.Some? && Group().Some?
      requires Run(m.name.value, BuildPlan(m, k), failing).failure.None? && ModuleRun(m, k).failure.Some?
      ensures Suspended(Group().value) in ModuleRun(m, k).events
      ensures Resumed(Group().value) !in ModuleRun(m, k).events
    {
      var name := m.name.value;
      var g := Group().value;
      RunConcat(name, BuildPlan(m, k), ReleasePlan(m, k), failing);
      SuccessfulBuildEvents(m, k);
      FailedReleaseEvents(m, k);
    }

    /** A failing second half stops at the manifest upload or the sync, after the suspension. */
    lemma FailedReleaseEvents(m: AppModule, k: nat)
      requires m.name.Some? && Group().Some?
      requires Run(m.name.value, ReleasePlan(m, k), failing).failure.Some?
      ensures var events := Run(m.name.value, ReleasePlan(m, k), failing).events;
              events == [Suspended(Group().value)]
              || events == [Suspended(Group().value), ManifestUploaded(PathOf(m) + "/MANIFEST", PackageOf(m, k))]
    {
      var name := m.name.value;
      var g := Group().value;
      ReleasePlanRun(m, k);
      var rS, rM, rY := Run(name, SuspendPlan(), failing), Run(name, ManifestPlan(m, k), failing), Run(name, SyncPlan(), failing);
      assert rS == Trace([Suspended(g)], None);
      assert Run(name, ResumePlan(), failing).failure.None?;
      assert Run(name, [Action(None, Purged(name))], failing).failure.None?;
      if rM.failure.Some? {
        assert rM.events == [];
      } else {
        assert rM.events == [ManifestUploaded(PathOf(m) + "/MANIFEST", PackageOf(m, k))];
        assert rY.failure.Some? && rY.events == [];
      }
    }

    /** Without an autoscaling group, a deployment never suspends nor resumes anything. */
    lemma NoGroupNoSuspension(m: AppModule, k: nat)
      requires m.name.Some? && Group().None?
      ensures forall e :: e in ModuleRun(m, k).events ==> !e.Suspended? && !e.Resumed?
    {
      RunEventsSatisfy(m.name.value, DeployPlan(m, k), failing, (e: Event) => !e.Suspended? && !e.Resumed?);
    }

    /** The `deploy_histories` record `_execute_deploy` writes for the `k`-th selected module. */
    function ExpectedRecord(m: AppModule, k: nat): (rec: HistoryRecord)
      requires m.name.Some? && app.id.Some?
      ensures rec.moduleName == m.name && rec.appId == app.id && rec.jobId == Some(job.id) && rec.timestamp == Some(clock(k))
    {
      DeployRecord(app.id.value, job.id, m.name.value, commitOf(m.name.value, RevisionOf(m)), clock(k))
    }

    /** `records` holds one expected record per module among the first `n`, in order. */
    ghost predicate RecordsFor(mods: seq<AppModule>, records: seq<HistoryRecord>, n: nat)
      requires ModulesNamed(mods) && n <= |mods| && app.id.Some?
    {
      |records| == n && forall i :: 0 <= i < n ==> records[i] == ExpectedRecord(mods[i], i)
    }

    /**
     * A deploy loop that went through every module wrote one history record
     * per module, in order, each with the module's commit and timestamp.
     */
    lemma {:induction false} FinishedRecordsEveryModule(mods: seq<AppModule>, n: nat)
      requires ModulesNamed(mods) && n <= |mods| && DeployAll(mods, n).end.Finished?
      ensures n > 0 ==> app.id.Some?
      ensures app.id.Some? ==> RecordsFor(mods, DeployAll(mods, n).records, n)
      decreases n
    {
      if n > 0 {
        var before := DeployAll(mods, n - 1);
        assert before.end.Finished?;
        var one := DeployOne(mods[n - 1], n - 1);
        assert DeployAll(mods, n) == Progress(before.events + one.events, before.records + one.records, one.end);
        FinishedRecordsEveryModule(mods, n - 1);
        FinishedRecord(mods[n - 1], n - 1);
        RecordsForNext(mods, before.records, n);
      }
    }

    /** A module whose deployment ended `Finished` wrote exactly its own record. */
    lemma FinishedRecord(m: AppModule, k: nat)
      requires m.name.Some? && DeployOne(m, k).end.Finished?
      ensures app.id.Some? && DeployOne(m, k).records == [ExpectedRecord(m, k)]
    {
    }

    /** Appending the next module's record extends the expected records by one module. */
    lemma RecordsForNext(mods: seq<AppModule>, records: seq<HistoryRecord>, n: nat)
      requires ModulesNamed(mods) && 0 < n <= |mods| && app.id.Some? && RecordsFor(mods, records, n - 1)
      ensures RecordsFor(mods, records + [ExpectedRecord(mods[n - 1], n - 1)], n)
    {
    }

    /** Every selected module has a name. */
    static predicate ModulesNamed(mods: seq<AppModule>) {
      forall i :: 0 <= i < |mods| ==> mods[i].name.Some?
    }

    static lemma SelectedModulesNamed(jms: seq<JobModule>, ams: seq<AppModule>)
      ensures ModulesNamed(ModulesByName(jms, ams))
    {
      ModulesByNameMembers(jms, ams);
      var mods := ModulesByName(jms, ams);
      assert forall i :: 0 <= i < |mods| ==> mods[i] in mods;
    }

    /** Once an initialisation has failed, the later modules add nothing. */
    lemma {:induction false} InitFailurePersists(mods: seq<AppModule>, j: nat, n: nat)
      requires ModulesNamed(mods) && j <= n <= |mods|
      requires InitAll(mods, j).failure.Some?
      ensures InitAll(mods, n) == InitAll(mods, j)
      decreases n
    {
      if j < n {
        InitFailurePersists(mods, j, n - 1);
      }
    }

    /**
     * Once a module's deployment has stopped the loop (a `GCallException` or
     * another error), the later modules are not deployed: nothing is added.
     */
    lemma {:induction false} DeployStopPersists(mods: seq<AppModule>, j: nat, n: nat)
      requires ModulesNamed(mods) && j <= n <= |mods|
      requires !DeployAll(mods, j).end.Finished?
      ensures DeployAll(mods, n) == DeployAll(mods, j)
      decreases n
    {
      if j < n {
        DeployStopPersists(mods, j, n - 1);
      }
    }

    /** Lists concatenate associatively. */
    static lemma ConcatAssoc<T>(a: seq<T>, b: seq<T>, c: seq<T>)
      ensures a + b + c == a + (b + c)
    {
    }

    /** `a` then `b` then `c` does not depend on the grouping. */
    static lemma ThenAssoc(a: Trace, b: Trace, c: Trace)
      ensures Then(Then(a, b), c) == Then(a, Then(b, c))
    {
      if a.failure.None? && b.failure.None? {
        assert a.events + b.events + c.events == a.events + (b.events + c.events);
      }
    }

    /** The first part of `_execute_deploy`: clean, pull and check out the module's revision. */
    method UpdateWorkingCopy(m: AppModule) returns (revision: string, failure: Option<string>)
      requires m.name.Some?
      modifies this
      ensures revision == RevisionOf(m)
      ensures Trace(events, failure) == Then(Trace(old(events), None), Run(m.name.value, UpdatePlan(m), failing))
      ensures asGroup == old(asGroup) && histories == old(histories) && status == old(status)
    {
      var name := m.name.value;
      var path := PathOf(m);
      ghost var u := UpdatePlan(m);
      revision := ModuleRevision(job.modules, name).GetOr("None");
      failure := Gcall(name, Action(Some(Clean), Cleaned(path)));
      if failure.Some? {
        return;
      }
      RunStep(name, u, failing);
      failure := Gcall(name, Action(Some(Pull), Pulled(path)));
      if failure.Some? {
        return;
      }
      RunStep(name, u[1..], failing);
      assert u[1..][1..] == [u[2]];
      failure := Gcall(name, Action(Some(Checkout), CheckedOut(path, revision)));
    }

    /** The first half of `_execute_deploy`: the working copy is updated, then packaged and uploaded. */
    method Build(m: AppModule, k: nat) returns (commit: string, pkg: string, failure: Option<string>)
      requires m.name.Some?
      modifies this
      ensures failure.None? ==> commit == commitOf(m.name.value, RevisionOf(m)) && pkg == PackageOf(m, k)
      ensures Trace(events, failure) == Then(Trace(old(events), None), Run(m.name.value, BuildPlan(m, k), failing))
      ensures asGroup == old(asGroup) && histories == old(histories) && status == old(status)
    {
      ghost var e0 := Trace(events, None);
      RunConcat(m.name.value, UpdatePlan(m), PackagePlan(m, k), failing);
      ThenAssoc(e0, Run(m.name.value, UpdatePlan(m), failing), Run(m.name.value, PackagePlan(m, k), failing));
      var revision;
      revision, failure := UpdateWorkingCopy(m);
      commit, pkg := "", "";
      if failure.Some? {
        return;
      }
      commit := commitOf(m.name.value, revision);
      pkg, failure := PackageModule(m, k);
    }

    /**
     * The second half of `_execute_deploy`: autoscaling of the group is
     * suspended around the manifest upload and the sync, and old packages are
     * purged; the first failing command stops it.
     */
    method Release(m: AppModule, k: nat, pkg: string) returns (failure: Option<string>)
      requires m.name.Some? && Valid() && pkg == PackageOf(m, k)
      modifies this
      ensures Valid()
      ensures Trace(events, failure) == Then(Trace(old(events), None), Run(m.name.value, ReleasePlan(m, k), failing))
      ensures histories == old(histories) && status == old(status)
    {
      var name := m.name.value;
      ghost var e0 := Trace(events, None);
      ghost var rS, rM, rY, rR, rX :=
        Run(name, SuspendPlan(), failing), Run(name, ManifestPlan(m, k), failing), Run(name, SyncPlan(), failing),
        Run(name, ResumePlan(), failing), Run(name, [Action(None, Purged(name))], failing);
      ReleasePlanRun(m, k);
      assert Then(e0, Run(name, ReleasePlan(m, k), failing)) == Then(Then(Then(Then(Then(e0, rS), rM), rY), rR), rX) by {
        ThenAssoc(e0, Then(Then(Then(rS, rM), rY), rR), rX);
        ThenAssoc(e0, Then(Then(rS, rM), rY), rR);
        ThenAssoc(e0, Then(rS, rM), rY);
        ThenAssoc(e0, rS, rM);
      }
      StopAutoscale();
      assert rS == Trace(if Group().Some? then [Suspended(Group().value)] else [], None);
      ghost var acc := Then(e0, rS);
      assert Trace(events, None) == acc;
      failure := Gcall(name, Action(Some(UploadManifest), ManifestUploaded(PathOf(m) + "/MANIFEST", pkg)));
      acc := Then(acc, rM);
      if failure.Some? {
        return;
      }
      // `_sync_instances('deploy')`
      failure := Gcall(name, Action(Some(Sync), Synced("deploy")));
      acc := Then(acc, rY);
      if failure.Some? {
        return;
      }
      StartAutoscale();
      assert rR == Trace(if Group().Some? then [Resumed(Group().value)] else [], None);
      acc := Then(acc, rR);
      events := events + [Purged(name)];
      acc := Then(acc, rX);
      assert Trace(events, None) == acc;
    }

    /**
     * `_execute_deploy` of the `k`-th selected module: every command in
     * order up to the first failing one; once all succeeded, the history
     * record, or `KeyError` when the app has no `_id`.
     */
    method ExecuteDeploy(m: AppModule, k: nat) returns (failure: Option<string>, crash: Option<PyError>)
      requires m.name.Some? && Valid()
      modifies this
      ensures Valid()
      ensures var one := DeployOne(m, k);
              events == old(events) + one.events && histories == old(histories) + one.records
              && failure == (if one.end.Stopped? then Some(one.end.message) else None)
              && crash == (if one.end.Raised? then Some(one.end.error) else None)
      ensures status == old(status)
    {
      var name := m.name.value;
      ghost var e0 := Trace(events, None);
      ghost var rB, rR := Run(name, BuildPlan(m, k), failing), Run(name, ReleasePlan(m, k), failing);
      RunConcat(name, BuildPlan(m, k), ReleasePlan(m, k), failing);
      ThenAssoc(e0, rB, rR);
      crash := None;
      var commit, pkg;
      commit, pkg, failure := Build(m, k);
      if failure.Some? {
        return;
      }
      failure := Release(m, k, pkg);
      if failure.Some? {
        return;
      }
      if app.id.None? {
        return None, Some(KeyError("_id"));
      }
      histories := histories + [DeployRecord(app.id.value, job.id, name, commit, clock(k))];
    }

    /** The init loop of `execute`: each selected module not yet initialised, in order, up to the first failure. */
    method InitializeAll(mods: seq<AppModule>) returns (failure: Option<string>)
      requires ModulesNamed(mods)
      modifies this
      ensures Trace(events, failure) == Then(Trace(old(events), None), InitAll(mods, |mods|))
      ensures asGroup == old(asGroup) && histories == old(histories) && status == old(status)
    {
      failure := None;
      var i := 0;
      while i < |mods| && failure.None?
        invariant 0 <= i <= |mods|
        invariant asGroup == old(asGroup) && histories == old(histories) && status == old(status)
        invariant Trace(events, failure) == Then(Trace(old(events), None), InitAll(mods, i))
      {
        ghost var done := InitAll(mods, i);
        if !mods[i].initialized {
          failure := InitializeModule(mods[i]);
          ghost var r := Run(mods[i].name.value, InitPlan(mods[i]), failing);
          assert InitAll(mods, i + 1) == Trace(done.events + r.events, r.failure);
          ConcatAssoc(old(events), done.events, r.events);
        } else {
          assert InitAll(mods, i + 1) == Trace(done.events + [], None);
        }
        i := i + 1;
      }
      if failure.Some? {
        InitFailurePersists(mods, i, |mods|);
      }
    }

    /** One turn of the deploy loop: the `i`-th selected module is deployed after the ones before it. */
    method DeployNext(mods: seq<AppModule>, i: nat, ghost e0: seq<Event>, ghost h0: seq<HistoryRecord>)
      returns (failure: Option<string>, crash: Option<PyError>)
      requires ModulesNamed(mods) && i < |mods| && Valid() && DeployAll(mods, i).end.Finished?
      requires events == e0 + DeployAll(mods, i).events && histories == h0 + DeployAll(mods, i).records
      modifies this
      ensures Valid() && status == old(status)
      ensures events == e0 + DeployAll(mods, i + 1).events && histories == h0 + DeployAll(mods, i + 1).records
      ensures DeployAll(mods, i + 1).end
              == if failure.Some? then Stopped(failure.value) else if crash.Some? then Raised(crash.value) else Finished
    {
      ghost var done := DeployAll(mods, i);
      ghost var one := DeployOne(mods[i], i);
      assert DeployAll(mods, i + 1) == Progress(done.events + one.events, done.records + one.records, one.end);
      failure, crash := ExecuteDeploy(mods[i], i);
      ConcatAssoc(e0, done.events, one.events);
      ConcatAssoc(h0, done.records, one.records);
    }

    /** The deploy loop of `execute`: each selected module in order, up to the first error. */
    method DeployEach(mods: seq<AppModule>) returns (end: End)
      requires ModulesNamed(mods) && Valid()
      modifies this
      ensures Valid() && status == old(status)
      ensures end == DeployAll(mods, |mods|).end
      ensures events == old(events) + DeployAll(mods, |mods|).events
      ensures histories == old(histories) + DeployAll(mods, |mods|).records
    {
      end := Finished;
      var i := 0;
      while i < |mods| && end.Finished?
        invariant 0 <= i <= |mods|
        invariant Valid() && status == old(status)
        invariant end == DeployAll(mods, i).end
        invariant events == old(events) + DeployAll(mods, i).events
        invariant histories == old(histories) + DeployAll(mods, i).records
      {
        var failure, raised := DeployNext(mods, i, old(events), old(histories));
        end := if failure.Some? then Stopped(failure.value) else if raised.Some? then Raised(raised.value) else Finished;
        i := i + 1;
      }
      if !end.Finished? {
        DeployStopPersists(mods, i, |mods|);
      }
    }

    /**
     * `execute`: the init loop over the selected modules, then, if no
     * initialisation failed, the deploy loop; `done` when every module is
     * deployed, `failed` with the message of the first `GCallException`, and no
     * status at all for any other error.
     */
    method Execute() returns (crash: Option<PyError>)
      requires Valid()
      modifies this
      ensures Valid()
      ensures ModulesNamed(ModulesByName(job.modules, app.modules))
      ensures var mods := ModulesByName(job.modules, app.modules);
              var init := InitAll(mods, |mods|);
              var dep := DeployAll(mods, |mods|);
              if init.failure.Some? then
                events == old(events) + init.events && histories == old(histories)
                && crash.None? && status == Some(Failed(init.failure.value))
              else
                events == old(events) + init.events + dep.events && histories == old(histories) + dep.records
                && match dep.end
                   case Finished => crash.None? && status == Some(Done("Deployment OK"))
                   case Stopped(msg) => crash.None? && status == Some(Failed(msg))
                   case Raised(e) => crash == Some(e) && status == old(status)
    {
      var mods := ModulesByName(job.modules, app.modules);
      SelectedModulesNamed(job.modules, app.modules);
      var failure := InitializeAll(mods);
      if failure.Some? {
        status := Some(Failed(failure.value));
        return None;
      }
      mods := ModulesByName(job.modules, app.modules);
      var end := DeployEach(mods);
      match end {
        case Finished =>
          status := Some(Done("Deployment OK"));
          crash := None;
        case Stopped(msg) =>
          status := Some(Failed(msg));
          crash := None;
        case Raised(e) =>
          crash := Some(e);
      }
    }
  }
}
