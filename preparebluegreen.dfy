/**
 * The blue/green preparation command: resolves the online and the offline app
 * of a pair, runs its chain of precondition gates (each one aborts the job
 * with a reason), then copies the online load balancer to a temporary one on
 * the offline autoscaling group, copies the sizing (and optionally the AMI)
 * and starts the offline instances.
 *
 * The cloud is seen through a snapshot of its autoscaling groups, read before
 * any change; the calls that change it are recorded as events, and each may
 * raise `GCallException` with a message (the `failing` input).
 */
module PrepareBlueGreen {
  import opened Wrappers
  import opened Records
  import opened AppsDb
  import opened BlueGreenLib

  /** An autoscaling group as the cloud reports it: its running instances, its load balancers and its desired capacity. */
  datatype Group = Group(instances: seq<string>, elbs: seq<string>, desiredCapacity: int)

  /** A launch configuration made from an AMI and user-data. */
  datatype LaunchConfig = LaunchConfig(ami: string, userdata: string)

  /** A change made to the cloud. */
  datatype CloudEvent =
    | ElbCopied(name: string, source: string, appIdTag: string)      // `copy_elb`
    | ElbRegistered(group: string, elb: string)                      // `register_elb_into_autoscale`
    | LaunchConfigCreated(config: LaunchConfig)                      // `create_launch_config`
    | AutoScaleUpdated(app: App, launchConfig: Option<LaunchConfig>) // `update_auto_scale`

  /** The cloud calls that may raise `GCallException`. */
  datatype Step = CopyElb | RegisterElb | CreateLaunchConfig | UpdateAutoScale

  /** The gates after pair resolution, in the order they run. */
  datatype Gate =
    | AmiMissing
    | AutoscaleNotSet
    | AutoscaleMissing
    | SameAutoscale
    | ModulesNotDeployed
    | OfflineGroupNotEmpty
    | NoOnlineElb

  function Rank(g: Gate): nat {
    match g
    case AmiMissing => 0
    case AutoscaleNotSet => 1
    case AutoscaleMissing => 2
    case SameAutoscale => 3
    case ModulesNotDeployed => 4
    case OfflineGroupNotEmpty => 5
    case NoOnlineElb => 6
  }

  /** The reason the job is aborted with at each gate. */
  function Reason(g: Gate): string {
    match g
    case AmiMissing => "Please run `Buildimage` first or use the `copy_ami` option"
    case AutoscaleNotSet => "Please set an AutoScale on both green and blue app."
    case AutoscaleMissing => "Please check that the configured AutoScale on both green and blue app exists."
    case SameAutoscale => "Please set a different AutoScale on green and blue app."
    case ModulesNotDeployed => "Please deploy your app's modules"
    case OfflineGroupNotEmpty => "Autoscaling Group of offline app should be empty."
    case NoOnlineElb => "Online app AutoScale is not attached to a valid Elastic Load Balancer"
  }

  const NotEnabledReason := "Blue/green is not enabled on this app or not well configured"

  /** `app['autoscale']['name']`, the empty (falsy) name when it is missing. */
  function AsName(a: App): string {
    if HasAutoscaleName(a) then a.autoscale.value.name.value else ""
  }

  /**
   * `copy_ami_option`: the first job option when the job has a non-empty
   * option list, otherwise `preparebluegreen.copy_ami` of the blue/green
   * configuration, `False` by default.
   */
  function CopyAmiOption(job: Job, config: Config): (v: Value)
    ensures job.options.Some? && |job.options.value| > 0 ==> v == job.options.value[0]
    ensures job.options.None? || job.options.value == [] ==>
              v == GetBlueGreenConfig(config, "preparebluegreen", "copy_ami", BoolValue(false))
  {
    if job.options.Some? && |job.options.value| > 0 then job.options.value[0]
    else GetBlueGreenConfig(config, "preparebluegreen", "copy_ami", BoolValue(false))
  }

  /** Whether the configuration asks for the offline modules to be deployed before preparing. */
  predicate ModuleDeployRequired(config: Config) {
    Truthy(GetBlueGreenConfig(config, "preparebluegreen", "module_deploy_required", BoolValue(false)))
  }

  /** What the gates look at once the pair is resolved. */
  datatype Facts = Facts(
    online: App,
    offline: App,
    copyAmi: bool,
    groups: map<string, Group>,
    manifestRequired: bool,
    manifest: Option<string>)   // the offline app's stored manifest

  /** The condition gate `g` lets through. */
  predicate Passes(g: Gate, f: Facts) {
    match g
    case AmiMissing => !(!f.copyAmi && f.offline.ami.None?) && !(f.copyAmi && f.online.ami.None?)
    case AutoscaleNotSet =>
      HasAutoscaleName(f.offline) && HasAutoscaleName(f.online) && AsName(f.offline) != "" && AsName(f.online) != ""
    case AutoscaleMissing => AsName(f.offline) in f.groups && AsName(f.online) in f.groups
    case SameAutoscale => AsName(f.offline) != AsName(f.online)
    case ModulesNotDeployed => !f.manifestRequired || CheckAppManifest(f.manifest, f.offline)
    case OfflineGroupNotEmpty => AsName(f.offline) !in f.groups || f.groups[AsName(f.offline)].instances == []
    case NoOnlineElb => AsName(f.online) in f.groups && f.groups[AsName(f.online)].elbs != []
  }

  /**
   * The gate chain: the first gate that does not pass, `None` when all pass.
   * Reading the autoscale name of an app without one raises `KeyError`; the
   * online app's name is read only when the offline one is truthy.
   */
  function Gates(f: Facts): (r: Result<Option<Gate>, PyError>)
    ensures r.Success? && r.value.Some? ==>
              !Passes(r.value.value, f) && forall h :: Rank(h) < Rank(r.value.value) ==> Passes(h, f)
    ensures r == Success(None) <==> forall g :: Passes(g, f)
    ensures r.Failure? ==>
              Passes(AmiMissing, f) && !Passes(AutoscaleNotSet, f)
              && (r.error == KeyError("autoscale") || r.error == KeyError("name"))
  {
    var off := f.offline;
    var on := f.online;
    if (!f.copyAmi && off.ami.None?) || (f.copyAmi && on.ami.None?) then Success(Some(AmiMissing))
    else if off.autoscale.None? || off.autoscale.value.name.None? then
      assert !Passes(AutoscaleNotSet, f);
      Failure(KeyError(if off.autoscale.None? then "autoscale" else "name"))
    else if off.autoscale.value.name.value == "" then Success(Some(AutoscaleNotSet))
    else if on.autoscale.None? || on.autoscale.value.name.None? then
      assert !Passes(AutoscaleNotSet, f);
      Failure(KeyError(if on.autoscale.None? then "autoscale" else "name"))
    else if on.autoscale.value.name.value == "" then Success(Some(AutoscaleNotSet))
    else
      var offName := off.autoscale.value.name.value;
      var onName := on.autoscale.value.name.value;
      if !(offName in f.groups && onName in f.groups) then Success(Some(AutoscaleMissing))
      else if offName == onName then Success(Some(SameAutoscale))
      else if f.manifestRequired && !CheckAppManifest(f.manifest, off) then Success(Some(ModulesNotDeployed))
      else if f.groups[offName].instances != [] then Success(Some(OfflineGroupNotEmpty))
      else if f.groups[onName].elbs == [] then Success(Some(NoOnlineElb))
      else Success(None)
  }

  /** The AMI gate aborts exactly when the app the AMI is taken from has none. */
  lemma AmiGateExact(f: Facts)
    ensures Gates(f) == Success(Some(AmiMissing)) <==>
              (!f.copyAmi && f.offline.ami.None?) || (f.copyAmi && f.online.ami.None?)
  {
  }

  /** How the command goes once the pair is resolved and the gates have run. */
  datatype Decision =
    | Crash(error: PyError)                            // an error no handler catches
    | Abort(reason: string)                            // status `aborted`
    | Proceed(online: App, offline: App, copyAmi: bool)

  /**
   * Everything `execute` decides before its first change: the pair, the gate
   * chain, and the offline id the temporary load balancer is named after.
   */
  function Decide(app: App, job: Job, config: Config, recs: seq<App>, groups: map<string, Group>, manifest: Option<string>): (d: Decision)
    ensures GetBlueGreenApps(app, recs).Raised? ==> d == Crash(GetBlueGreenApps(app, recs).error)
    ensures GetBlueGreenApps(app, recs).Unresolved? ==> d == Abort(NotEnabledReason)
    ensures d.Proceed? ==>
              GetBlueGreenApps(app, recs) == Resolved(d.online, d.offline)
              && d.copyAmi == Truthy(CopyAmiOption(job, config))
              && (forall g :: Passes(g, Facts(d.online, d.offline, d.copyAmi, groups, ModuleDeployRequired(config), manifest)))
              && d.offline.id.Some?
    ensures d.Proceed? ==>
              HasAutoscaleName(d.offline) && HasAutoscaleName(d.online) && AsName(d.online) in groups
              && groups[AsName(d.online)].elbs != [] && (d.copyAmi ==> d.online.ami.Some?)
    ensures GetBlueGreenApps(app, recs).Resolved? ==>
              var p := GetBlueGreenApps(app, recs);
              var f := Facts(p.online, p.offline, Truthy(CopyAmiOption(job, config)), groups, ModuleDeployRequired(config), manifest);
              d == match Gates(f)
                   case Failure(e) => Crash(e)
                   case Success(Some(g)) => Abort(Reason(g))
                   case Success(None) => if p.offline.id.None? then Crash(KeyError("_id")) else Proceed(p.online, p.offline, f.copyAmi)
  {
    match GetBlueGreenApps(app, recs)
    case Raised(e) => Crash(e)
    case Unresolved => Abort(NotEnabledReason)
    case Resolved(on, off) =>
      var f := Facts(on, off, Truthy(CopyAmiOption(job, config)), groups, ModuleDeployRequired(config), manifest);
      match Gates(f)
      case Failure(e) => Crash(e)
      case Success(g) =>
        if g.Some? then Abort(Reason(g.value))
        else
          assert Passes(AutoscaleNotSet, f) && Passes(AutoscaleMissing, f) && Passes(NoOnlineElb, f) && Passes(AmiMissing, f);
          if off.id.None? then Crash(KeyError("_id"))
          else Proceed(on, off, f.copyAmi)
  }

  /** The facts the gates of a resolved pair look at. */
  function PairFacts(app: App, job: Job, config: Config, recs: seq<App>, groups: map<string, Group>, manifest: Option<string>): Facts
    requires GetBlueGreenApps(app, recs).Resolved?
  {
    var p := GetBlueGreenApps(app, recs);
    Facts(p.online, p.offline, Truthy(CopyAmiOption(job, config)), groups, ModuleDeployRequired(config), manifest)
  }

  /**
   * For a resolved pair the first gate that does not pass aborts the job with
   * its reason. The one exception is the autoscale gate when an app has no
   * autoscale name at all: reading it raises `KeyError`.
   */
  lemma FirstFailingGateAborts(app: App, job: Job, config: Config, recs: seq<App>, groups: map<string, Group>, manifest: Option<string>, g: Gate)
    requires GetBlueGreenApps(app, recs).Resolved?
    requires var f := PairFacts(app, job, config, recs, groups, manifest);
             !Passes(g, f) && forall h :: Rank(h) < Rank(g) ==> Passes(h, f)
    ensures var d := Decide(app, job, config, recs, groups, manifest);
            d == Abort(Reason(g))
            || (g == AutoscaleNotSet && (d == Crash(KeyError("autoscale")) || d == Crash(KeyError("name"))))
  {
    var f := PairFacts(app, job, config, recs, groups, manifest);
    var d := Decide(app, job, config, recs, groups, manifest);
    match Gates(f)
    case Failure(e) =>
      assert d == Crash(e);
      assert Rank(g) <= Rank(AutoscaleNotSet);
      RankAtMostOne(g);
    case Success(None) =>
      assert false;
    case Success(Some(h)) =>
      assert d == Abort(Reason(h));
      assert Rank(h) == Rank(g);
      RankInjective(h, g);
  }

  lemma RankInjective(g: Gate, h: Gate)
    requires Rank(g) == Rank(h)
    ensures g == h
  {
  }

  lemma RankAtMostOne(g: Gate)
    requires Rank(g) <= 1
    ensures g == AmiMissing || g == AutoscaleNotSet
  {
  }

  /** For a resolved pair whose offline app has an id, passing every gate prepares the pair. */
  lemma AllGatesPassProceeds(app: App, job: Job, config: Config, recs: seq<App>, groups: map<string, Group>, manifest: Option<string>)
    requires GetBlueGreenApps(app, recs).Resolved? && GetBlueGreenApps(app, recs).offline.id.Some?
    requires forall g :: Passes(g, PairFacts(app, job, config, recs, groups, manifest))
    ensures Decide(app, job, config, recs, groups, manifest)
            == Proceed(GetBlueGreenApps(app, recs).online, GetBlueGreenApps(app, recs).offline, Truthy(CopyAmiOption(job, config)))
  {
    var f := PairFacts(app, job, config, recs, groups, manifest);
    assert Gates(f) == Success(None);
  }

  /** A pair that is not resolved is never prepared. */
  lemma UnresolvedNeverProceeds(app: App, job: Job, config: Config, recs: seq<App>, groups: map<string, Group>, manifest: Option<string>)
    requires !GetBlueGreenApps(app, recs).Resolved?
    ensures !Decide(app, job, config, recs, groups, manifest).Proceed?
  {
  }

  /** The temporary load balancer name: `"bgtmp-" + id`, cut to 31 characters. */
  function TempElbName(id: Id): (name: string)
    ensures |name| == if |"bgtmp-" + id| <= 31 then |"bgtmp-" + id| else 31
    ensures name == ("bgtmp-" + id)[..|name|]
  {
    var full := "bgtmp-" + id;
    if |full| <= 31 then full else full[..31]
  }

  /** The temporary name always starts with `bgtmp-` and keeps as much of the id as fits. */
  lemma TempElbNameShape(id: Id)
    ensures TempElbName(id)[..6] == "bgtmp-"
    ensures TempElbName(id)[6..] == id[..|TempElbName(id)| - 6]
  {
    var full := "bgtmp-" + id;
    var name := TempElbName(id);
    assert name == full[..|name|];
    assert full[..6] == "bgtmp-";
    assert name[6..] == full[6..|name|];
    assert full[6..] == id;
  }

  /** The record of `off` after `$set` of the online app's cached sizing. */
  function SizedLike(on: App): App -> App
    requires on.autoscale.Some?
  {
    Sized(on.autoscale.value.min, on.autoscale.value.max, on.autoscale.value.current)
  }

  /**
   * The persisted sizing of the offline app is the online record's cached
   * sizing, not the desired capacity of the online group; its autoscale name
   * and every other field are kept, and every other app is left as it was.
   */
  lemma PersistedSizingIsCached(recs: seq<App>, offId: Id, on: App, other: Id)
    requires on.autoscale.Some? && HasId(recs, offId) && other != offId
    ensures FindById(UpdateFirst(recs, offId, SizedLike(on)), offId).Some?
    ensures var after := FindById(UpdateFirst(recs, offId, SizedLike(on)), offId).value;
            var before := FindById(recs, offId).value;
            after.autoscale.Some?
            && after.autoscale.value.min == on.autoscale.value.min
            && after.autoscale.value.max == on.autoscale.value.max
            && after.autoscale.value.current == on.autoscale.value.current
            && after.autoscale.value.name == (if before.autoscale.Some? then before.autoscale.value.name else None)
            && after == before.(autoscale := after.autoscale)
    ensures FindById(UpdateFirst(recs, offId, SizedLike(on)), other) == FindById(recs, other)
  {
    var f := SizedLike(on);
    assert forall a: App :: f(a).id == a.id by {
      forall a: App ensures f(a).id == a.id {
        assert f(a) == WithSizing(a, on.autoscale.value.min, on.autoscale.value.max, on.autoscale.value.current);
      }
    }
    FindUpdated(recs, offId, f);
    FindOtherAfterUpdate(recs, offId, other, f);
  }

  /** The message of the `done` status: the temporary load balancer and the offline group it was attached to. */
  function DoneMessage(elbName: string, elbDns: string, asName: string): string {
    "Blue/green preparation done by creating the temporary ELB [" + elbName + "/" + elbDns
    + "] attached to the AutoScale '" + asName + "'"
  }

  /** The launch configuration step as an event list: empty when no configuration is made. */
  function LaunchConfigEvents(lc: Option<LaunchConfig>): seq<CloudEvent> {
    if lc.Some? then [LaunchConfigCreated(lc.value)] else []
  }

  /**
   * The changes the preparation of a resolved pair makes, from `events0` and
   * `recs0` to `events`, `recs` and `status`: the cloud calls in order up to the
   * first failing one, the sizing write once the load balancer is registered,
   * and the terminal status.
   */
  ghost predicate PreparationEffects(
    on: App, off: App, copyAmi: bool, groups: map<string, Group>,
    userdata: string, elbDns: string, failing: map<Step, string>,
    events0: seq<CloudEvent>, recs0: seq<App>, events: seq<CloudEvent>, recs: seq<App>, status: Option<Status>)
    requires off.id.Some? && HasAutoscaleName(off) && HasAutoscaleName(on)
    requires AsName(on) in groups && groups[AsName(on)].elbs != [] && (copyAmi ==> on.ami.Some?)
  {
    var temp := TempElbName(off.id.value);
    var copied := ElbCopied(temp, groups[AsName(on)].elbs[0], off.id.value);
    var registered := ElbRegistered(AsName(off), temp);
    if CopyElb in failing then
      status == Some(Failed(failing[CopyElb])) && events == events0 && recs == recs0
    else if RegisterElb in failing then
      status == Some(Failed(failing[RegisterElb])) && events == events0 + [copied] && recs == recs0
    else
      ResizeEffects(on, off, copyAmi, groups, userdata, elbDns, failing,
                    events0 + [copied, registered], recs0, events, recs, status)
  }

  /**
   * The effects of the second half of the preparation, once the temporary
   * load balancer is registered: the sizing is persisted, then the launch
   * configuration is created (when the AMI is copied and there is user data)
   * and the offline group is updated, each step raising on failure.
   */
  ghost predicate ResizeEffects(
    on: App, off: App, copyAmi: bool, groups: map<string, Group>,
    userdata: string, elbDns: string, failing: map<Step, string>,
    events0: seq<CloudEvent>, recs0: seq<App>, events: seq<CloudEvent>, recs: seq<App>, status: Option<Status>)
    requires off.id.Some? && HasAutoscaleName(off) && HasAutoscaleName(on)
    requires AsName(on) in groups && (copyAmi ==> on.ami.Some?)
  {
    var prepared := off.(
      autoscale := Some(Autoscale(off.autoscale.value.name, on.autoscale.value.min, on.autoscale.value.max,
                                  groups[AsName(on)].desiredCapacity)),
      ami := if copyAmi then on.ami else off.ami,
      buildInfos := if copyAmi then on.buildInfos else off.buildInfos);
    var lc := if copyAmi && userdata != "" then Some(LaunchConfig(on.ami.value, userdata)) else None;
    recs == UpdateFirst(recs0, off.id.value, SizedLike(on))
    && if lc.Some? && CreateLaunchConfig in failing then
         status == Some(Failed(failing[CreateLaunchConfig])) && events == events0
       else if UpdateAutoScale in failing then
         status == Some(Failed(failing[UpdateAutoScale])) && events == events0 + LaunchConfigEvents(lc)
       else
         status == Some(Done(DoneMessage(TempElbName(off.id.value), elbDns, AsName(off))))
         && events == events0 + LaunchConfigEvents(lc) + [AutoScaleUpdated(prepared, lc)]
  }

  /** The `Preparebluegreen` command for one job. */
  class Preparer {
    const app: App
    const job: Job
    const config: Config
    /** The `apps` collection. */
    const db: AppsTable
    /** The autoscaling groups of the app's region, by name. */
    const groups: map<string, Group>
    /** The manifest object of the offline app, when one is stored. */
    const offlineManifest: Option<string>
    /** The changes made to the cloud, in order. */
    var events: seq<CloudEvent>
    /** The status reported to the job owner. */
    var status: Option<Status>

    constructor (app: App, job: Job, config: Config, db: AppsTable, groups: map<string, Group>, offlineManifest: Option<string>)
      ensures this.app == app && this.job == job && this.config == config && this.db == db
      ensures this.groups == groups && this.offlineManifest == offlineManifest
      ensures events == [] && status.None?
    {
      this.app := app;
      this.job := job;
      this.config := config;
      this.db := db;
      this.groups := groups;
      this.offlineManifest := offlineManifest;
      events := [];
      status := None;
    }

    /**
     * `execute`. `userdata` is what `generate_userdata` returns, `elbDns` the
     * address `copy_elb` returns, and a step in `failing` raises
     * `GCallException` with the given message. Nothing changes before every
     * gate has passed; after that the cloud calls run in order up to the first
     * one that fails, and the job ends `done`, or `failed` with the message.
     */
    method Execute(userdata: string, elbDns: string, failing: map<Step, string>) returns (crash: Option<PyError>)
      requires db.Valid()
      modifies this, db
      ensures db.Valid()
      ensures crash.None? ==> status.Some?
      ensures var d := Decide(app, job, config, old(db.records), groups, offlineManifest);
              (d.Crash? ==> crash == Some(d.error) && status == old(status))
              && (d.Abort? ==> crash.None? && status == Some(Aborted(d.reason)))
              && (!d.Proceed? ==> events == old(events) && db.records == old(db.records))
      ensures var d := Decide(app, job, config, old(db.records), groups, offlineManifest);
              d.Proceed? ==>
                crash.None?
                && PreparationEffects(d.online, d.offline, d.copyAmi, groups, userdata, elbDns, failing,
                                      old(events), old(db.records), events, db.records, status)
    {
      ghost var d := Decide(app, job, config, db.records, groups, offlineManifest);
      var copyAmi := Truthy(CopyAmiOption(job, config));
      var pair := GetBlueGreenApps(app, db.records);
      if pair.Raised? {
        assert d == Crash(pair.error);
        return Some(pair.error);
      }
      if pair.Unresolved? {
        assert d == Abort(NotEnabledReason);
        status := Some(Aborted(NotEnabledReason));
        return None;
      }
      var online, offline := pair.online, pair.offline;

      var gate := CheckGates(online, offline, copyAmi);
      if gate.Failure? {
        assert d == Crash(gate.error);
        return Some(gate.error);
      }
      if gate.value.Some? {
        assert d == Abort(Reason(gate.value.value));
        status := Some(Aborted(Reason(gate.value.value)));
        return None;
      }

      // the temporary load balancer is named after the offline id
      if offline.id.None? {
        assert d == Crash(KeyError("_id"));
        return Some(KeyError("_id"));
      }
      assert d == Proceed(online, offline, copyAmi);
      Prepare(online, offline, copyAmi, userdata, elbDns, failing);
      crash := None;
    }

    /**
     * The gate chain of `execute` on the resolved pair: the first gate that
     * does not pass, or the `KeyError` of reading a missing autoscale name.
     */
    method CheckGates(online: App, offline: App, copyAmi: bool) returns (gate: Result<Option<Gate>, PyError>)
      ensures gate == Gates(Facts(online, offline, copyAmi, groups, ModuleDeployRequired(config), offlineManifest))
    {
      if (!copyAmi && offline.ami.None?) || (copyAmi && online.ami.None?) {
        return Success(Some(AmiMissing));
      }
      if offline.autoscale.None? {
        return Failure(KeyError("autoscale"));
      }
      if offline.autoscale.value.name.None? {
        return Failure(KeyError("name"));
      }
      var offName := offline.autoscale.value.name.value;
      if offName != "" {
        if online.autoscale.None? {
          return Failure(KeyError("autoscale"));
        }
        if online.autoscale.value.name.None? {
          return Failure(KeyError("name"));
        }
      }
      if offName == "" || online.autoscale.value.name.value == "" {
        return Success(Some(AutoscaleNotSet));
      }
      var onName := online.autoscale.value.name.value;
      if !(offName in groups && onName in groups) {
        return Success(Some(AutoscaleMissing));
      }
      if offName == onName {
        return Success(Some(SameAutoscale));
      }
      if ModuleDeployRequired(config) && !CheckAppManifest(offlineManifest, offline) {
        return Success(Some(ModulesNotDeployed));
      }
      if groups[offName].instances != [] {
        return Success(Some(OfflineGroupNotEmpty));
      }
      if groups[onName].elbs == [] {
        return Success(Some(NoOnlineElb));
      }
      return Success(None);
    }

    /**
     * The changes after the gates: the temporary load balancer copied from the
     * first online one and registered on the offline group, the offline app
     * given the online sizing (and AMI) in memory and in the store, an optional
     * launch configuration, the autoscale update and the `done` status; a
     * failing call ends the job `failed` at that point.
     */
    method Prepare(online: App, offline: App, copyAmi: bool, userdata: string, elbDns: string, failing: map<Step, string>)
      requires db.Valid()
      requires offline.id.Some? && HasAutoscaleName(offline) && HasAutoscaleName(online)
      requires AsName(online) in groups && groups[AsName(online)].elbs != [] && (copyAmi ==> online.ami.Some?)
      modifies this, db
      ensures db.Valid()
      ensures PreparationEffects(online, offline, copyAmi, groups, userdata, elbDns, failing,
                                 old(events), old(db.records), events, db.records, status)
    {
      var offName := offline.autoscale.value.name.value;
      var onlineElbs := groups[online.autoscale.value.name.value].elbs;
      var offId := offline.id.value;
      var tempElbName := TempElbName(offId);
      if CopyElb in failing {
        status := Some(Failed(failing[CopyElb]));
        return;
      }
      events := events + [ElbCopied(tempElbName, onlineElbs[0], offId)];
      if RegisterElb in failing {
        status := Some(Failed(failing[RegisterElb]));
        return;
      }
      events := events + [ElbRegistered(offName, tempElbName)];
      assert events == old(events) + [ElbCopied(tempElbName, onlineElbs[0], offId), ElbRegistered(offName, tempElbName)];
      Resize(online, offline, copyAmi, userdata, elbDns, failing);
    }

    /** The second half of the preparation, after the temporary load balancer is registered. */
    method Resize(online: App, offline: App, copyAmi: bool, userdata: string, elbDns: string, failing: map<Step, string>)
      requires db.Valid()
      requires offline.id.Some? && HasAutoscaleName(offline) && HasAutoscaleName(online)
      requires AsName(online) in groups && (copyAmi ==> online.ami.Some?)
      modifies this, db
      ensures db.Valid()
      ensures ResizeEffects(online, offline, copyAmi, groups, userdata, elbDns, failing,
                            old(events), old(db.records), events, db.records, status)
    {
      var offName := offline.autoscale.value.name.value;
      var onName := online.autoscale.value.name.value;
      var offId := offline.id.value;

      // the offline app takes the online sizing (and AMI)
      var prepared := offline;
      prepared := prepared.(autoscale := Some(prepared.autoscale.value.(min := online.autoscale.value.min)));
      prepared := prepared.(autoscale := Some(prepared.autoscale.value.(max := online.autoscale.value.max)));
      prepared := prepared.(autoscale := Some(prepared.autoscale.value.(current := groups[onName].desiredCapacity)));
      if copyAmi {
        prepared := prepared.(ami := online.ami);
        prepared := prepared.(buildInfos := prepared.buildInfos.(amiName := online.buildInfos.amiName));
      }
      assert prepared == offline.(
        autoscale := Some(Autoscale(offline.autoscale.value.name, online.autoscale.value.min, online.autoscale.value.max,
                                    groups[onName].desiredCapacity)),
        ami := if copyAmi then online.ami else offline.ami,
        buildInfos := if copyAmi then online.buildInfos else offline.buildInfos);
      ghost var registered := events;
      db.SetAutoscaleSizing(offId, online.autoscale.value.min, online.autoscale.value.max, online.autoscale.value.current);

      var launchConfig: Option<LaunchConfig> := None;
      if copyAmi && userdata != "" {
        if CreateLaunchConfig in failing {
          status := Some(Failed(failing[CreateLaunchConfig]));
          return;
        }
        launchConfig := Some(LaunchConfig(prepared.ami.value, userdata));
        events := events + [LaunchConfigCreated(launchConfig.value)];
      }
      if UpdateAutoScale in failing {
        status := Some(Failed(failing[UpdateAutoScale]));
        return;
      }
      assert events == registered + LaunchConfigEvents(launchConfig);
      events := events + [AutoScaleUpdated(prepared, launchConfig)];
      status := Some(Done(DoneMessage(TempElbName(offId), elbDns, offName)));
    }
  }
}
