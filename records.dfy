/**
 * The application, job and configuration records the commands read, as typed
 * values. A key the source reads with `.get` or tests with `in` is optional
 * here; a key it indexes directly is always present, except where another
 * command tests it (then it is optional, and indexing a missing one is an
 * uncaught `KeyError`, see `Raised` in the commands).
 */
module Records {
  import opened Wrappers
  import Text

  /** Mongo object ids, as their string form. */
  type Id = string

  /** A scalar stored in job options and in the configuration. */
  datatype Value = NullValue | BoolValue(b: bool) | IntValue(i: int) | StrValue(s: string)

  /** Python `str()` of a scalar. */
  function Str(v: Value): string {
    match v
    case NullValue => "None"
    case BoolValue(b) => if b then "True" else "False"
    case IntValue(i) => if i < 0 then "-" + Text.Decimal(-i) else Text.Decimal(i)
    case StrValue(s) => s
  }

  /** Python truthiness of a scalar. */
  predicate Truthy(v: Value) {
    match v
    case NullValue => false
    case BoolValue(b) => b
    case IntValue(i) => i != 0
    case StrValue(s) => s != ""
  }

  /** A dictionary key that may be missing, present and `None`, or present with a value. */
  datatype Field<+T> = Absent | Null | Val(value: T) {

    /** `d.get(key)`. */
    function Get(): Option<T> {
      if Val? then Some(value) else None
    }

    /** `d.get(key, default)`: the default only when the key is missing. */
    function GetOr(default: T): Option<T> {
      match this
      case Absent => Some(default)
      case Null => None
      case Val(v) => Some(v)
    }
  }

  /** The `blue_green` sub-document of an application. */
  datatype BlueGreen = BlueGreen(
    enableBlueGreen: Field<bool>,
    color: Field<string>,
    isOnline: Field<bool>,
    alterEgoId: Field<Id>)
  {
    /** `{}`, the one falsy dictionary. */
    predicate IsEmpty() {
      enableBlueGreen.Absent? && color.Absent? && isOnline.Absent? && alterEgoId.Absent?
    }
  }

  /** The `autoscale` sub-document: the cached mirror of the autoscaling group. */
  datatype Autoscale = Autoscale(name: Option<string>, min: int, max: int, current: int)

  /** One entry of `app['modules']`. */
  datatype AppModule = AppModule(name: Option<string>, gitRepo: string, initialized: bool)

  /** One entry of `job['modules']`: a module selector with an optional revision. */
  datatype JobModule = JobModule(name: Option<string>, rev: Option<string>)

  datatype BuildInfos = BuildInfos(amiName: string)

  /**
   * An application record. `_id`, `_etag`, `_version`, `_created` and
   * `_updated` are the store's identity and versioning metadata.
   */
  datatype App = App(
    id: Option<Id>,
    etag: Option<string>,
    version: Option<int>,
    created: Option<string>,
    updated: Option<string>,
    name: string,
    env: string,
    role: string,
    region: string,
    user: string,
    modules: seq<AppModule>,
    autoscale: Option<Autoscale>,
    blueGreen: Field<BlueGreen>,
    ami: Option<string>,
    buildInfos: BuildInfos)

  /** `app.get('blue_green')` is truthy: present, not `None` and not `{}`. */
  predicate HasBlueGreen(app: App) {
    app.blueGreen.Val? && !app.blueGreen.value.IsEmpty()
  }

  /** `'name' in app['autoscale']` (and `'autoscale' in app`). */
  predicate HasAutoscaleName(app: App) {
    app.autoscale.Some? && app.autoscale.value.name.Some?
  }

  datatype Job = Job(id: Id, options: Option<seq<Value>>, modules: seq<JobModule>)

  /**
   * The worker configuration: the S3 bucket and, under `blue_green`, one
   * optional section per command (`None` stands for a missing or null value).
   */
  datatype Config = Config(
    bucketS3: string,
    bucketRegion: Option<string>,
    ghostRootPath: string,
    blueGreen: Option<map<string, Option<map<string, Value>>>>)

  /**
   * A `deploy_histories` record. The deploy command writes `app_id`, `job_id`,
   * `module`, `commit` and `timestamp`; the redeploy command reads `module`,
   * `module_path` and `package`.
   */
  datatype HistoryRecord = HistoryRecord(
    appId: Option<Id>,
    jobId: Option<Id>,
    moduleName: Option<string>,
    modulePath: Option<string>,
    package: Option<string>,
    commit: Option<string>,
    timestamp: Option<int>)

  /** A Python exception other than `GCallException`: no command catches these. */
  datatype PyError = KeyError(key: string) | IndexError | TypeError | InvalidId

  /** The one terminal status each command reports to the job owner. */
  datatype Status = Done(message: string) | Failed(message: string) | Aborted(message: string)

  /** The app modules called `n`, in app order. */
  function NamedModules(ams: seq<AppModule>, n: string): (r: seq<AppModule>)
    ensures |r| <= |ams|
    ensures forall i :: 0 <= i < |r| ==> r[i].name == Some(n)
  {
    if ams == [] then []
    else (if ams[0].name == Some(n) then [ams[0]] else []) + NamedModules(ams[1..], n)
  }

  /** Exactly the app modules called `n` are selected for `n`. */
  lemma {:induction false} NamedModulesMembers(ams: seq<AppModule>, n: string)
    ensures forall m :: m in NamedModules(ams, n) <==> m in ams && m.name == Some(n)
    decreases |ams|
  {
    if ams != [] {
      NamedModulesMembers(ams[1..], n);
      assert forall m :: m in ams <==> m == ams[0] || m in ams[1..];
    }
  }

  /** Some job module selects the name `n`. */
  predicate Requested(jms: seq<JobModule>, n: string) {
    exists j :: j in jms && j.name == Some(n)
  }

  /**
   * The app modules selected by the job's module list: for each job module that
   * has a name, in job order, the app modules of that name. Job entries without
   * a name and names the app does not define select nothing.
   */
  function ModulesByName(jms: seq<JobModule>, ams: seq<AppModule>): seq<AppModule> {
    if jms == [] then []
    else (if jms[0].name.Some? then NamedModules(ams, jms[0].name.value) else []) + ModulesByName(jms[1..], ams)
  }

  /** An app module is selected exactly when it has a name some job module asks for. */
  lemma {:induction false} ModulesByNameMembers(jms: seq<JobModule>, ams: seq<AppModule>)
    ensures forall m :: m in ModulesByName(jms, ams) <==> m in ams && m.name.Some? && Requested(jms, m.name.value)
    decreases |jms|
  {
    if jms != [] {
      ModulesByNameMembers(jms[1..], ams);
      if jms[0].name.Some? {
        NamedModulesMembers(ams, jms[0].name.value);
      }
      assert forall j :: j in jms <==> j == jms[0] || j in jms[1..];
    }
  }

  /** Selection follows the job's order: selecting for `a + b` is selecting for `a`, then for `b`. */
  lemma {:induction false} ModulesByNameConcat(a: seq<JobModule>, b: seq<JobModule>, ams: seq<AppModule>)
    ensures ModulesByName(a + b, ams) == ModulesByName(a, ams) + ModulesByName(b, ams)
    decreases |a|
  {
    if a != [] {
      assert (a + b)[1..] == a[1..] + b;
      ModulesByNameConcat(a[1..], b, ams);
    } else {
      assert a + b == b;
    }
  }

  /** Selecting from one more app module adds that module at the end when it has the name. */
  lemma {:induction false} NamedModulesSnoc(ams: seq<AppModule>, x: AppModule, n: string)
    ensures NamedModules(ams + [x], n) == NamedModules(ams, n) + (if x.name == Some(n) then [x] else [])
    decreases |ams|
  {
    if ams == [] {
      assert ams + [x] == [x];
      assert [x][1..] == [];
    } else {
      assert (ams + [x])[1..] == ams[1..] + [x];
      NamedModulesSnoc(ams[1..], x, n);
    }
  }
}
