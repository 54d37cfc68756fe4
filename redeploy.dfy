/**
 * The redeploy command: looks a past deployment up by id, writes its package
 * back into the environment's manifest and deploys the module on the hosts
 * again. The S3 bucket is a map from key to object text; the host deployment
 * is an event that may fail with a message.
 */
module Redeploy {
  import opened Wrappers
  import opened Text
  import opened Records
  import opened Paths
  import opened Manifest

  /** The module document `_get_deploy_infos` builds: `{'path': ..., 'name': ...}`. */
  datatype ModuleRef = ModuleRef(name: string, path: string)

  /** One call of `deploy_module_on_hosts`. */
  datatype HostDeploy = HostDeploy(target: ModuleRef, strategy: Option<Value>)

  /** How `_execute_redeploy` ends: normally, with a `GCallException` and its message, or with another error. */
  datatype Outcome = Completed | GCallFailed(message: string) | Crashed(error: PyError)

  predicate IsHexDigit(c: char) {
    '0' <= c <= '9' || 'a' <= c <= 'f' || 'A' <= c <= 'F'
  }

  /** The text form `ObjectId` accepts: 24 hexadecimal digits. */
  predicate IsObjectIdText(s: string) {
    |s| == 24 && forall i :: 0 <= i < |s| ==> IsHexDigit(s[i])
  }

  /** The canonical (lower-case) form of an object id, as `str(ObjectId(s))` gives it. */
  predicate IsCanonicalId(s: string) {
    |s| == 24 && forall i :: 0 <= i < |s| ==> '0' <= s[i] <= '9' || 'a' <= s[i] <= 'f'
  }

  function LowerHex(s: string): (r: string)
    ensures |r| == |s|
    ensures forall i :: 0 <= i < |s| ==> r[i] == if 'A' <= s[i] <= 'F' then (s[i] as int + 32) as char else s[i]
  {
    if s == [] then []
    else [if 'A' <= s[0] <= 'F' then (s[0] as int + 32) as char else s[0]] + LowerHex(s[1..])
  }

  /**
   * `ObjectId(deploy_id)`: the canonical id for 24 hexadecimal digits; `None`
   * stands for the fresh id `ObjectId(None)` generates, which no stored record
   * has. Other text raises `InvalidId`, other values `TypeError`.
   */
  function ParseObjectId(v: Value): (r: Result<Option<Id>, PyError>)
    ensures r.Success? <==> v.NullValue? || (v.StrValue? && IsObjectIdText(v.s))
    ensures v.NullValue? ==> r == Success(None)
    ensures r.Success? && v.StrValue? ==> r.value.Some? && IsCanonicalId(r.value.value)
    ensures r.Failure? ==> r.error == if v.StrValue? then InvalidId else TypeError
  {
    match v
    case NullValue => Success(None)
    case StrValue(s) => if IsObjectIdText(s) then Success(Some(LowerHex(s))) else Failure(InvalidId)
    case _ => Failure(TypeError)
  }

  /** A canonical id given as text names itself. */
  lemma ParseCanonicalId(id: Id)
    requires IsCanonicalId(id)
    ensures ParseObjectId(StrValue(id)) == Success(Some(id))
  {
    assert LowerHex(id) == id;
  }

  /**
   * `job['options'][1] if len(job['options']) > 0 else None` as written: with
   * exactly one option the guard lets the index through and it raises.
   */
  function StrategyAsWritten(options: seq<Value>): (r: Result<Option<Value>, PyError>)
    ensures |options| >= 2 ==> r == Success(Some(options[1]))
  {
    if |options| > 0 then (if 1 < |options| then Success(Some(options[1])) else Failure(IndexError))
    else Success(None)
  }

  /** The one input the written guard mishandles: a job with a single option. */
  lemma StrategyAsWrittenRaisesOnOneOption(deployId: Value)
    ensures StrategyAsWritten([deployId]) == Failure(IndexError)
  {
  }

  /** The fabric execution strategy the guard evidently means: the second option when there is one. */
  function Strategy(options: seq<Value>): (r: Option<Value>)
    ensures r.Some? <==> |options| >= 2
    ensures r.Some? ==> r.value == options[1]
  {
    if |options| > 1 then Some(options[1]) else None
  }

  /** The corrected reading agrees with the written one wherever the written one does not raise. */
  lemma StrategyAgrees(options: seq<Value>)
    ensures StrategyAsWritten(options).Success? <==> |options| != 1
    ensures StrategyAsWritten(options).Success? ==> StrategyAsWritten(options).value == Strategy(options)
  {
  }

  /** The manifest text stored under `key`, or `None` when there is no object. */
  function Stored(objects: map<string, string>, key: string): Option<string> {
    if key in objects then Some(objects[key]) else None
  }

  /**
   * The read loop of `_update_manifest`: the entries of the stored text's
   * non-empty lines, with the module in place of those of its name, and the
   * `module_exist` flag; a line with another name and fewer than three fields
   * raises `IndexError`.
   */
  method ReadManifest(text: string, m: Entry) returns (read: Result<seq<Entry>, PyError>, moduleExist: bool)
    ensures read == Rewrite(Split(text, '\n'), m)
    ensures read.Success? ==> moduleExist == Matched(Split(text, '\n'), m.name)
  {
    var lines := Split(text, '\n');
    var modules: seq<Entry> := [];
    moduleExist := false;
    var i := 0;
    while i < |lines|
      invariant 0 <= i <= |lines|
      invariant Rewrite(lines[..i], m) == Success(modules)
      invariant moduleExist == Matched(lines[..i], m.name)
    {
      var line := lines[i];
      if line != "" {
        var tmp := Split(line, ':');
        if tmp[0] == m.name {
          assert Rewrite(lines[..i + 1], m) == Success(modules + [Entry(tmp[0], m.package, m.path)])
                 && Matched(lines[..i + 1], m.name) by {
            ReadOneLine(lines, i, m, modules);
          }
          modules := modules + [Entry(tmp[0], m.package, m.path)];
          moduleExist := true;
        } else if |tmp| < 3 {
          assert Rewrite(lines, m) == Failure(IndexError) by {
            ReadOneLine(lines, i, m, modules);
            RewriteFailurePersists(lines, i + 1, m);
          }
          return Failure(IndexError), moduleExist;
        } else {
          assert Rewrite(lines[..i + 1], m) == Success(modules + [Entry(tmp[0], tmp[1], tmp[2])])
                 && (moduleExist <==> Matched(lines[..i + 1], m.name)) by {
            ReadOneLine(lines, i, m, modules);
          }
          modules := modules + [Entry(tmp[0], tmp[1], tmp[2])];
        }
      } else {
        assert Rewrite(lines[..i + 1], m) == Success(modules)
               && (moduleExist <==> Matched(lines[..i + 1], m.name)) by {
          ReadOneLine(lines, i, m, modules);
        }
      }
      i := i + 1;
    }
    assert lines[..i] == lines;
    read := Success(modules);
  }

  /**
   * The write loop of `_update_manifest`: `name:package:path` and a newline
   * for each entry, appended in list order.
   */
  method RenderManifest(modules: seq<Entry>) returns (data: string)
    ensures data == Serialize(modules)
  {
    data := "";
    var j := 0;
    while j < |modules|
      invariant 0 <= j <= |modules|
      invariant data == Serialize(modules[..j])
    {
      var mod := modules[j];
      var line := mod.name + ":" + mod.package + ":" + mod.path;
      assert line == Line(mod);
      PrefixSnoc(modules, j);
      SerializeAppend(modules[..j], mod);
      data := data + line + "\n";
      j := j + 1;
    }
    assert modules[..j] == modules;
  }

  /** The redeploy command for one job on one app. */
  class Redeployer {
    const app: App
    const job: Job
    /** The `deploy_histories` collection, by id. */
    const histories: map<Id, HistoryRecord>
    /** The objects of the configured S3 bucket, by key. */
    var objects: map<string, string>
    /** The calls of `deploy_module_on_hosts` so far. */
    var hostDeploys: seq<HostDeploy>
    /** The status reported to the job owner, once reported. */
    var status: Option<Status>

    constructor (app: App, job: Job, histories: map<Id, HistoryRecord>, objects: map<string, string>)
      ensures this.app == app && this.job == job && this.histories == histories
      ensures this.objects == objects && hostDeploys == [] && status.None?
    {
      this.app := app;
      this.job := job;
      this.histories := histories;
      this.objects := objects;
      hostDeploys := [];
      status := None;
    }

    /**
     * `_find_modules_by_name`: for each named job module, in job order, the app
     * modules of that name, in app order.
     */
    method FindModulesByName(modules: seq<JobModule>) returns (result: seq<AppModule>)
      ensures result == ModulesByName(modules, app.modules)
      ensures forall m :: m in result <==> m in app.modules && m.name.Some? && Requested(modules, m.name.value)
    {
      result := [];
      var i := 0;
      while i < |modules|
        invariant 0 <= i <= |modules|
        invariant result == ModulesByName(modules[..i], app.modules)
      {
        var jm := modules[i];
        ghost var selected := if jm.name.Some? then NamedModules(app.modules, jm.name.value) else [];
        assert ModulesByName(modules[..i + 1], app.modules) == result + selected by {
          ModulesByNameConcat(modules[..i], [jm], app.modules);
          assert modules[..i + 1] == modules[..i] + [jm];
          assert [jm][1..] == [];
        }
        if jm.name.Some? {
          var items := app.modules;
          var j := 0;
          ghost var before := result;
          while j < |items|
            invariant 0 <= j <= |items|
            invariant result == before + NamedModules(items[..j], jm.name.value)
          {
            var item := items[j];
            assert NamedModules(items[..j + 1], jm.name.value)
                   == NamedModules(items[..j], jm.name.value) + (if item.name == jm.name then [item] else []) by {
              NamedModulesSnoc(items[..j], item, jm.name.value);
              assert items[..j + 1] == items[..j] + [item];
            }
            if item.name.Some? && item.name == jm.name {
              result := result + [item];
            }
            j := j + 1;
          }
          assert items[..j] == items;
        }
        i := i + 1;
      }
      assert modules[..i] == modules;
      ModulesByNameMembers(modules, app.modules);
    }

    /**
     * `_get_deploy_infos`: the module (name and path) and the package of the
     * deployment record with the given id, or nothing when there is none. A
     * record without `module_path`, `module` or `package` raises `KeyError`,
     * in that order.
     */
    function GetDeployInfos(oid: Option<Id>): (r: Result<Option<(ModuleRef, string)>, PyError>)
      ensures oid.None? || oid.value !in histories ==> r == Success(None)
      ensures r.Success? && r.value.Some? ==>
                oid.Some? && oid.value in histories
                && histories[oid.value].moduleName == Some(r.value.value.0.name)
                && histories[oid.value].modulePath == Some(r.value.value.0.path)
                && histories[oid.value].package == Some(r.value.value.1)
      ensures r.Failure? <==>
                oid.Some? && oid.value in histories
                && (histories[oid.value].modulePath.None? || histories[oid.value].moduleName.None?
                    || histories[oid.value].package.None?)
      ensures r.Failure? ==>
                r.error == KeyError(if histories[oid.value].modulePath.None? then "module_path"
                                    else if histories[oid.value].moduleName.None? then "module" else "package")
    {
      if oid.None? || oid.value !in histories then Success(None)
      else
        var rec := histories[oid.value];
        if rec.modulePath.None? then Failure(KeyError("module_path"))
        else if rec.moduleName.None? then Failure(KeyError("module"))
        else if rec.package.None? then Failure(KeyError("package"))
        else Success(Some((ModuleRef(rec.moduleName.value, rec.modulePath.value), rec.package.value)))
    }

    /**
     * `_update_manifest`: reads the environment's manifest (when the object
     * exists), replaces the entry of the module or appends it, and writes the
     * whole text back. A stored line that has another module's name and fewer
     * than three fields raises `IndexError` before anything is written.
     */
    method UpdateManifest(m: Entry) returns (raised: Option<PyError>)
      modifies this
      ensures UpsertText(Stored(old(objects), ManifestKey(app)), m).Failure? ==>
                raised == Some(IndexError) && objects == old(objects)
      ensures UpsertText(Stored(old(objects), ManifestKey(app)), m).Success? ==>
                raised.None?
                && objects == old(objects)[ManifestKey(app) := UpsertText(Stored(old(objects), ManifestKey(app)), m).value]
      ensures hostDeploys == old(hostDeploys) && status == old(status)
    {
      var keyPath := AppPath(app) + "/MANIFEST";
      var modules: seq<Entry> := [];
      var moduleExist := false;
      if keyPath in objects {
        var read;
        read, moduleExist := ReadManifest(objects[keyPath], m);
        if read.Failure? {
          return Some(read.error);
        }
        modules := read.value;
      }
      ghost var read := modules;
      assert Entry(m.name, m.package, m.path) == m;
      if !moduleExist {
        modules := modules + [Entry(m.name, m.package, m.path)];
      }
      assert Upsert(Stored(objects, keyPath), m) == Success(modules) by {
        if keyPath in objects {
          UpsertFromRead(objects[keyPath], m, read);
        } else {
          assert read == [] && modules == [m];
        }
      }
      var data := RenderManifest(modules);
      objects := objects[keyPath := data];
      raised := None;
    }
  
    /**
     * The entry the redeploy writes for `deployId`: the module and the manifest
     * entry of its package, when the id is valid, the record exists with all
     * three fields and the package is not empty.
     */
    function RedeployEntry(deployId: Value): (r: Option<(ModuleRef, Entry)>)
      ensures r.Some? ==>
                ParseObjectId(deployId).Success? && ParseObjectId(deployId).value.Some?
                && ParseObjectId(deployId).value.value in histories
                && var rec := histories[ParseObjectId(deployId).value.value];
                rec.moduleName == Some(r.value.0.name) && rec.modulePath == Some(r.value.0.path)
                && rec.package == Some(r.value.1.package) && r.value.1.package != ""
                && r.value.1.name == r.value.0.name && r.value.1.path == r.value.0.path
      ensures ParseObjectId(deployId).Success? && ParseObjectId(deployId).value.Some?
              && ParseObjectId(deployId).value.value in histories ==>
                var rec := histories[ParseObjectId(deployId).value.value];
                rec.moduleName.Some? && rec.modulePath.Some? && rec.package.Some? && rec.package.value != "" ==>
                  r == Some((ModuleRef(rec.moduleName.value, rec.modulePath.value),
                             Entry(rec.moduleName.value, rec.package.value, rec.modulePath.value)))
    {
      match ParseObjectId(deployId)
      case Failure(_) => None
      case Success(oid) =>
        match GetDeployInfos(oid)
        case Failure(_) => None
        case Success(infos) =>
          if infos.None? || infos.value.1 == "" then None
          else Some((infos.value.0, Entry(infos.value.0.name, infos.value.1, infos.value.0.path)))
    }

    /**
     * How `_execute_redeploy` ends for `deployId`, given the stored manifest
     * and the failure of the host deployment, if any.
     */
    function RedeployOutcome(deployId: Value, stored: Option<string>, hostsError: Option<string>): Outcome {
      match ParseObjectId(deployId)
      case Failure(e) => Crashed(e)
      case Success(oid) =>
        match GetDeployInfos(oid)
        case Failure(e) => Crashed(e)
        case Success(infos) =>
          if infos.None? || infos.value.1 == "" then GCallFailed(NotFoundMessage(deployId))
          else
            match UpsertText(stored, Entry(infos.value.0.name, infos.value.1, infos.value.0.path))
            case Failure(e) => Crashed(e)
            case Success(_) => if hostsError.Some? then GCallFailed(hostsError.value) else Completed
    }

    /** Without a deployment record for a valid id the redeploy fails naming the id, and writes and deploys nothing. */
    lemma RedeployFailsWithoutRecord(deployId: Value, stored: Option<string>, hostsError: Option<string>)
      requires ParseObjectId(deployId).Success?
      requires ParseObjectId(deployId).value.None? || ParseObjectId(deployId).value.value !in histories
      ensures RedeployOutcome(deployId, stored, hostsError)
              == GCallFailed("Redeploy on deployment ID: " + Str(deployId) + " failed")
      ensures RedeployEntry(deployId).None?
    {
    }

    /** A record without `module_path` (as the deploy command writes them) makes the redeploy raise `KeyError`. */
    lemma RedeployOfRecordWithoutPathRaises(deployId: Value, stored: Option<string>, hostsError: Option<string>)
      requires ParseObjectId(deployId).Success? && ParseObjectId(deployId).value.Some?
      requires ParseObjectId(deployId).value.value in histories
      requires histories[ParseObjectId(deployId).value.value].modulePath.None?
      ensures RedeployOutcome(deployId, stored, hostsError) == Crashed(KeyError("module_path"))
    {
    }

    /** The redeploy completes only when the entry exists, its manifest upsert succeeds and the hosts accept it. */
    lemma RedeployCompletes(deployId: Value, stored: Option<string>, hostsError: Option<string>)
      ensures RedeployOutcome(deployId, stored, hostsError).Completed? <==>
                RedeployEntry(deployId).Some? && UpsertText(stored, RedeployEntry(deployId).value.1).Success?
                && hostsError.None?
    {
    }

    /** `_deploy_module`: one call of `deploy_module_on_hosts`, which fails with `hostsError` when that is given. */
    method DeployModule(target: ModuleRef, strategy: Option<Value>, hostsError: Option<string>) returns (failure: Option<string>)
      modifies this
      ensures hostDeploys == old(hostDeploys) + [HostDeploy(target, strategy)]
      ensures failure == hostsError
      ensures objects == old(objects) && status == old(status)
    {
      hostDeploys := hostDeploys + [HostDeploy(target, strategy)];
      failure := hostsError;
    }

    /**
     * `_execute_redeploy`: finds the deployment, writes its package into the
     * manifest and deploys the module again; without a usable record it raises
     * `GCallException` and changes nothing.
     */
    method ExecuteRedeploy(deployId: Value, strategy: Option<Value>, hostsError: Option<string>) returns (outcome: Outcome)
      modifies this
      ensures outcome == RedeployOutcome(deployId, Stored(old(objects), ManifestKey(app)), hostsError)
      ensures var e := RedeployEntry(deployId);
              var text := if e.Some? then UpsertText(Stored(old(objects), ManifestKey(app)), e.value.1) else Failure(IndexError);
              if e.Some? && text.Success? then
                objects == old(objects)[ManifestKey(app) := text.value]
                && hostDeploys == old(hostDeploys) + [HostDeploy(e.value.0, strategy)]
              else objects == old(objects) && hostDeploys == old(hostDeploys)
      ensures status == old(status)
    {
      var oid := ParseObjectId(deployId);
      if oid.Failure? {
        return Crashed(oid.error);
      }
      var infos := GetDeployInfos(oid.value);
      if infos.Failure? {
        return Crashed(infos.error);
      }
      if infos.value.Some? && infos.value.value.1 != "" {
        var (target, package) := infos.value.value;
        var raised := UpdateManifest(Entry(target.name, package, target.path));
        if raised.Some? {
          return Crashed(raised.value);
        }
        var failure := DeployModule(target, strategy, hostsError);
        outcome := if failure.Some? then GCallFailed(failure.value) else Completed;
      } else {
        outcome := GCallFailed(NotFoundMessage(deployId));
      }
    }

    /**
     * `execute`: the first option is the deployment id, the second (when
     * present) the fabric execution strategy. A missing or empty option list
     * fails the job; a `GCallException` of the redeploy fails it with its
     * message; any other error is not caught and leaves no status. The
     * strategy is read as written, so a job with exactly one option raises
     * `IndexError` before the redeploy starts; with any other number of
     * options the written read agrees with `Strategy`.
     */
    method Execute(hostsError: Option<string>) returns (crash: Option<PyError>)
      modifies this
      ensures job.options.None? || job.options.value == [] ==>
                crash.None? && status == Some(Failed("Incorrect job request: missing options field deploy_id"))
                && objects == old(objects) && hostDeploys == old(hostDeploys)
      ensures job.options.Some? && |job.options.value| == 1 ==>
                crash == Some(IndexError) && status == old(status)
                && objects == old(objects) && hostDeploys == old(hostDeploys)
      ensures job.options.Some? && |job.options.value| >= 2 ==>
                var deployId := job.options.value[0];
                var outcome := RedeployOutcome(deployId, Stored(old(objects), ManifestKey(app)), hostsError);
                match outcome
                case Crashed(e) => crash == Some(e) && status == old(status)
                case GCallFailed(msg) =>
                  crash.None? && status == Some(Failed("Redeploy Failed: [" + Str(deployId) + "]\n" + msg))
                case Completed =>
                  crash.None? && status == Some(Done("Redeploy OK: [" + Str(deployId) + "]"))
      ensures job.options.Some? && |job.options.value| >= 2 ==>
                var e := RedeployEntry(job.options.value[0]);
                var text := if e.Some? then UpsertText(Stored(old(objects), ManifestKey(app)), e.value.1) else Failure(IndexError);
                if e.Some? && text.Success? then
                  objects == old(objects)[ManifestKey(app) := text.value]
                  && hostDeploys == old(hostDeploys) + [HostDeploy(e.value.0, Strategy(job.options.value))]
                else objects == old(objects) && hostDeploys == old(hostDeploys)
    {
      if job.options.Some? && |job.options.value| > 0 {
        var deployId := job.options.value[0];
        var strategy := StrategyAsWritten(job.options.value);
        if strategy.Failure? {
          return Some(strategy.error);
        }
        StrategyAgrees(job.options.value);
        var outcome := ExecuteRedeploy(deployId, strategy.value, hostsError);
        match outcome {
          case Completed =>
            status := Some(Done("Redeploy OK: [" + Str(deployId) + "]"));
            crash := None;
          case GCallFailed(msg) =>
            status := Some(Failed("Redeploy Failed: [" + Str(deployId) + "]\n" + msg));
            crash := None;
          case Crashed(e) =>
            crash := Some(e);
        }
      } else {
        status := Some(Failed("Incorrect job request: missing options field deploy_id"));
        crash := None;
      }
    }
  }

  /** The `GCallException` message for a deployment that cannot be redeployed. */
  function NotFoundMessage(deployId: Value): string {
    "Redeploy on deployment ID: " + Str(deployId) + " failed"
  }
}
