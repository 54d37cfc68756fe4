/**
 * The blue/green library: configuration lookup, reading an app's `blue_green`
 * document, resolving which of an app and its alter ego is online, and the
 * count check of a deployed manifest.
 */
module BlueGreenLib {
  import opened Wrappers
  import opened Text
  import opened Records
  import opened AppsDb
  import opened Manifest

  /** The `blue_green.<command>` section of the configuration when it is truthy (present, not `None`, not `{}`). */
  function CommandSection(config: Config, command: string): Option<map<string, Value>> {
    if config.blueGreen.None? || config.blueGreen.value == map[] then None
    else if command !in config.blueGreen.value then None
    else
      var cs := config.blueGreen.value[command];
      if cs.None? || cs.value == map[] then None else cs
  }

  /**
   * `get_blue_green_config`: the configured value of `key` for `command`, or
   * the default. The falsy tests on the two sections never change the answer:
   * the value is the key's entry whenever the command's section holds the key.
   */
  function GetBlueGreenConfig(config: Config, command: string, key: string, default: Value): (r: Value)
    ensures r == if config.blueGreen.Some? && command in config.blueGreen.value
                    && config.blueGreen.value[command].Some? && key in config.blueGreen.value[command].value
                 then config.blueGreen.value[command].value[key]
                 else default
  {
    var cs := CommandSection(config, command);
    if cs.Some? && key in cs.value then cs.value[key] else default
  }

  /** A value other than the default can only come from the command's section. */
  lemma ConfigValueComesFromSection(config: Config, command: string, key: string, default: Value)
    requires GetBlueGreenConfig(config, command, key, default) != default
    ensures config.blueGreen.Some? && command in config.blueGreen.value
    ensures var cs := config.blueGreen.value[command];
            cs.Some? && key in cs.value && cs.value[key] == GetBlueGreenConfig(config, command, key, default)
  {
  }

  /**
   * `get_blue_green_from_app`: the `blue_green` document and its colour when
   * the document is truthy; `(None, None)` when it is missing, `None` or `{}`.
   * The colour is `None` when the key is missing or `None`.
   */
  function GetBlueGreenFromApp(app: App): (r: (Option<BlueGreen>, Option<string>))
    ensures r.0.None? <==> !HasBlueGreen(app)
    ensures r.0.None? ==> r.1.None?
    ensures r.0.Some? ==> r.0.value == app.blueGreen.value
    ensures r.1.Some? <==> HasBlueGreen(app) && app.blueGreen.value.color.Val?
    ensures r.1.Some? ==> r.1.value == app.blueGreen.value.color.value
  {
    if HasBlueGreen(app) then (Some(app.blueGreen.value), app.blueGreen.value.color.Get())
    else (None, None)
  }

  /** The seven examples the function's documentation gives, on an app otherwise equal to `app`. */
  lemma GetBlueGreenFromAppExamples(app: App)
    ensures GetBlueGreenFromApp(app.(blueGreen := Absent)) == (None, None)
    ensures GetBlueGreenFromApp(app.(blueGreen := Null)) == (None, None)
    ensures GetBlueGreenFromApp(app.(blueGreen := Val(BlueGreen(Absent, Absent, Absent, Absent)))) == (None, None)
    ensures var bg := BlueGreen(Absent, Null, Absent, Absent);
            GetBlueGreenFromApp(app.(blueGreen := Val(bg))) == (Some(bg), None)
    ensures var bg := BlueGreen(Absent, Val(""), Absent, Absent);
            GetBlueGreenFromApp(app.(blueGreen := Val(bg))) == (Some(bg), Some(""))
    ensures var bg := BlueGreen(Absent, Val("blue"), Absent, Absent);
            GetBlueGreenFromApp(app.(blueGreen := Val(bg))) == (Some(bg), Some("blue"))
    ensures var bg := BlueGreen(Absent, Val("green"), Absent, Absent);
            GetBlueGreenFromApp(app.(blueGreen := Val(bg))) == (Some(bg), Some("green"))
  {
  }

  /**
   * `record['blue_green']['is_online']` as a truth value; `None` when evaluating
   * it raises (no `blue_green` key, a `None` document, or no `is_online` key).
   */
  function OnlineFlag(a: App): Option<bool> {
    if a.blueGreen.Val? then
      match a.blueGreen.value.isOnline
      case Absent => None
      case Null => Some(false)
      case Val(b) => Some(b)
    else None
  }

  /** The alter ego id when `app['blue_green'].get('alter_ego_id')` is truthy. */
  function AlterEgoId(app: App): Option<Id> {
    if HasBlueGreen(app) && app.blueGreen.value.alterEgoId.Val? && app.blueGreen.value.alterEgoId.value != ""
    then Some(app.blueGreen.value.alterEgoId.value)
    else None
  }

  /** The outcome of resolving a blue/green pair. */
  datatype Resolution =
    | Resolved(online: App, offline: App)   // the online app first
    | Unresolved                            // `(None, None)`
    | Raised(error: PyError)                // a lookup on a missing record or key

  /**
   * `get_blue_green_apps`: the app and its alter ego (looked up by id in `recs`)
   * when exactly one of them is online, the online one first. When both or
   * neither is online, or the app has no blue/green document or no alter ego,
   * there is no pair.
   */
  function GetBlueGreenApps(app: App, recs: seq<App>): (r: Resolution)
    ensures AlterEgoId(app).None? ==> r == Unresolved
    ensures r.Resolved? ==>
              var alter := FindById(recs, AlterEgoId(app).value);
              alter.Some?
              && ((r.online == app && r.offline == alter.value) || (r.online == alter.value && r.offline == app))
              && OnlineFlag(r.online) == Some(true) && OnlineFlag(r.offline) == Some(false)
    ensures AlterEgoId(app).Some? ==>
              var alter := FindById(recs, AlterEgoId(app).value);
              (alter.Some? && OnlineFlag(app).Some? && OnlineFlag(alter.value).Some? && app.id.Some?
               ==> (r.Resolved? <==> OnlineFlag(app) != OnlineFlag(alter.value)))
  {
    if AlterEgoId(app).None? then Unresolved
    else
      var alter := FindById(recs, AlterEgoId(app).value);
      var appOnline := OnlineFlag(app);
      if appOnline.None? then Raised(KeyError("is_online"))
      else if alter.None? then Raised(TypeError)
      else
        var alterOnline := OnlineFlag(alter.value);
        if alterOnline.None? then
          Raised(if alter.value.blueGreen.Val? || alter.value.blueGreen.Absent? then KeyError(
                   if alter.value.blueGreen.Absent? then "blue_green" else "is_online")
                 else TypeError)
        else if appOnline.value && alterOnline.value then
          // the error is logged with both ids before returning
          if app.id.None? then Raised(KeyError("_id")) else Unresolved
        else if appOnline.value then Resolved(app, alter.value)
        else if alterOnline.value then Resolved(alter.value, app)
        else if app.id.None? then Raised(KeyError("_id")) else Unresolved
  }

  /** When both apps of a pair are flagged online, nothing is resolved. */
  lemma BothOnlineRefused(app: App, recs: seq<App>)
    requires AlterEgoId(app).Some?
    requires FindById(recs, AlterEgoId(app).value).Some?
    requires OnlineFlag(app) == Some(true)
    requires OnlineFlag(FindById(recs, AlterEgoId(app).value).value) == Some(true)
    ensures !GetBlueGreenApps(app, recs).Resolved?
  {
  }

  /** When neither app of a pair is flagged online, nothing is resolved. */
  lemma NeitherOnlineRefused(app: App, recs: seq<App>)
    requires AlterEgoId(app).Some?
    requires FindById(recs, AlterEgoId(app).value).Some?
    requires OnlineFlag(app) == Some(false)
    requires OnlineFlag(FindById(recs, AlterEgoId(app).value).value) == Some(false)
    ensures !GetBlueGreenApps(app, recs).Resolved?
  {
  }

  /** The number of lines `check_app_manifest` counts: `len(text.strip().split('\n'))`. */
  function ManifestLineCount(text: string): (n: nat)
    ensures n >= 1
  {
    |Split(Strip(text), '\n')|
  }

  /**
   * The module-count decision of `check_app_manifest`, given the stored
   * manifest text (`None` when there is no object): false without a manifest,
   * otherwise whether it counts as many lines as the app has modules.
   */
  function CheckAppManifest(stored: Option<string>, app: App): bool {
    if stored.None? then false
    else ManifestLineCount(stored.value) == |app.modules|
  }

  /** A present manifest holding only white space counts as one line. */
  lemma {:induction false} BlankManifestCountsOneLine(text: string, app: App)
    requires AllSpace(text)
    ensures ManifestLineCount(text) == 1
    ensures CheckAppManifest(Some(text), app) <==> |app.modules| == 1
  {
    RStripDropsSpace(text);
    assert Split([], '\n') == [""];
  }

  /** Written text for clean entries holds one newline per entry. */
  lemma SerializedNewlines(es: seq<Entry>)
    requires forall e :: e in es ==> Clean(e)
    ensures Count(Serialize(es), '\n') == |es|
  {
    SplitSerialized(es);
  }

  /** `strip` removes only the final newline of text written for clean entries. */
  lemma StripSerialized(es: seq<Entry>)
    requires es != [] && forall e :: e in es ==> Clean(e)
    ensures Count(Strip(Serialize(es)), '\n') + 1 == Count(Serialize(es), '\n')
  {
    var s := Serialize(es);
    SerializedStart(es);
    SerializedEnd(es);
    var first := es[0];
    var last := es[|es| - 1];
    assert Clean(first) && Clean(last) by {
      assert first in es && last in es;
    }
    var q := |first.name|;
    var p := |s| - 2 - |last.path|;
    forall i | 0 <= i < q ensures s[i] != '\n' {
      assert s[i] == first.name[i];
    }
    forall i | p < i < |s| - 1 ensures s[i] != '\n' {
      assert s[i] == last.path[i - p - 1];
    }
    StripDropsFinalNewline(s, q, p);
  }

  /**
   * A manifest written for at least one clean entry counts one line per entry:
   * every written line holds a `:`, so `strip` removes only the final newline.
   */
  lemma SerializedManifestCount(es: seq<Entry>)
    requires es != [] && forall e :: e in es ==> Clean(e)
    ensures ManifestLineCount(Serialize(es)) == |es|
  {
    SerializedNewlines(es);
    StripSerialized(es);
  }

  /**
   * `check_app_manifest` on a manifest written for clean entries: true exactly
   * when the app has one module per entry; false when there is no manifest.
   */
  lemma CheckSerializedManifest(es: seq<Entry>, app: App)
    requires es != [] && forall e :: e in es ==> Clean(e)
    ensures CheckAppManifest(Some(Serialize(es)), app) <==> |es| == |app.modules|
    ensures !CheckAppManifest(None, app)
  {
    SerializedManifestCount(es);
  }
}
