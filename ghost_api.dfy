/**
 * The API hooks that make an app blue/green: the colour flip, finding or
 * creating the app's twin of the opposite colour, and linking the two records
 * through their `alter_ego_id` back-references.
 */
module GhostApi {
  import opened Wrappers
  import opened Records
  import opened AppsDb
  import BlueGreenLib

  /** `OPPOSITE_COLOR[c]`: blue and green swap; any other key raises `KeyError` (`None` here). */
  function OppositeColor(c: string): (r: Option<string>)
    ensures r.Some? <==> c == "blue" || c == "green"
    ensures r.Some? ==> r.value != c && (r.value == "blue" || r.value == "green")
  {
    if c == "blue" then Some("green")
    else if c == "green" then Some("blue")
    else None
  }

  /** Flipping the colour twice gives the colour back. */
  lemma OppositeColorInvolution(c: string)
    requires OppositeColor(c).Some?
    ensures OppositeColor(OppositeColor(c).value) == Some(c)
  {
  }

  /**
   * `ghost_api_bluegreen_is_enabled(blue_green)`: `None` when the document is
   * missing, `None` or `{}`; otherwise `blue_green.get('enable_blue_green')`.
   */
  function BluegreenIsEnabled(blueGreen: Field<BlueGreen>): (r: Option<bool>)
    ensures !(blueGreen.Val? && !blueGreen.value.IsEmpty()) ==> r.None?
    ensures blueGreen.Val? && !blueGreen.value.IsEmpty() ==> r == blueGreen.value.enableBlueGreen.Get()
    ensures r == Some(true) <==> blueGreen.Val? && blueGreen.value.enableBlueGreen == Val(true)
  {
    if blueGreen.Val? && !blueGreen.value.IsEmpty() then blueGreen.value.enableBlueGreen.Get() else None
  }

  /**
   * The source colour as the twin lookup and creation read it:
   * `blue_green.get('color', 'blue') if blue_green else 'blue'`; `None` when the
   * key is present and `None`.
   */
  function SourceColor(app: App): (c: Option<string>)
    ensures !HasBlueGreen(app) ==> c == Some("blue")
    ensures HasBlueGreen(app) ==> c == app.blueGreen.value.color.GetOr("blue")
  {
    if HasBlueGreen(app) then app.blueGreen.value.color.GetOr("blue") else Some("blue")
  }

  /** The `find_one` query of the twin lookup: same name, role and env, and the given colour. */
  predicate IsTwinOf(rec: App, app: App, color: string) {
    rec.name == app.name && rec.role == app.role && rec.env == app.env
    && rec.blueGreen.Val? && rec.blueGreen.value.color == Val(color)
  }

  /** The first record (in natural order) that the twin query matches. */
  function FindTwin(recs: seq<App>, app: App, color: string): (r: Option<App>)
    ensures r.Some? ==> r.value in recs && IsTwinOf(r.value, app, color)
    ensures r.None? <==> forall i :: 0 <= i < |recs| ==> !IsTwinOf(recs[i], app, color)
  {
    if recs == [] then None
    else if IsTwinOf(recs[0], app, color) then Some(recs[0])
    else
      var r := FindTwin(recs[1..], app, color);
      assert forall i :: 1 <= i < |recs| ==> recs[i] == recs[1..][i - 1];
      r
  }

  datatype Lookup = Found(twin: App) | NotFound | LookupRaised(error: PyError)

  /**
   * `ghost_api_check_green_app_exists`: the first record with the app's name,
   * role and env and the opposite of its colour. A colour with no opposite
   * (`None` or neither blue nor green) raises `KeyError`.
   */
  function CheckGreenAppExists(recs: seq<App>, app: App): (r: Lookup)
    ensures r.LookupRaised? <==> SourceColor(app).None? || OppositeColor(SourceColor(app).value).None?
    ensures r.Found? ==> r.twin in recs && IsTwinOf(r.twin, app, OppositeColor(SourceColor(app).value).value)
    ensures r.NotFound? ==>
              forall i :: 0 <= i < |recs| ==> !IsTwinOf(recs[i], app, OppositeColor(SourceColor(app).value).value)
  {
    var color := SourceColor(app);
    if color.None? || OppositeColor(color.value).None? then LookupRaised(KeyError(if color.None? then "None" else color.value))
    else
      match FindTwin(recs, app, OppositeColor(color.value).value)
      case Some(t) => Found(t)
      case None => NotFound
  }

  /** The twin's `blue_green` document: opposite colour, offline, enabled, pointing back at `sourceId`. */
  function TwinBlueGreen(color: string, sourceId: Id): BlueGreen {
    BlueGreen(Val(true), Val(color), Val(false), Val(sourceId))
  }

  /** `a` and `b` agree on every field other than the identity metadata, `user` and `blue_green`. */
  predicate SameContent(a: App, b: App) {
    a.name == b.name && a.env == b.env && a.role == b.role && a.region == b.region
    && a.modules == b.modules && a.autoscale == b.autoscale && a.ami == b.ami
    && a.buildInfos == b.buildInfos
  }

  datatype Draft = Draft(doc: App) | DraftRaised(error: PyError)

  /**
   * The document `ghost_api_create_green_app` inserts: a copy of the app without
   * `_id`, `_etag`, `_version`, `_created` and `_updated`, with `user` replaced
   * and the twin's `blue_green` document. It raises `KeyError` for a colour with
   * no opposite, and for each of the five metadata keys the app lacks.
   */
  function GreenDraft(app: App, user: string): (r: Draft)
    ensures r.Draft? <==>
              SourceColor(app).Some? && OppositeColor(SourceColor(app).value).Some?
              && app.id.Some? && app.etag.Some? && app.version.Some? && app.created.Some? && app.updated.Some?
    ensures r.Draft? ==>
              SameContent(r.doc, app)
              && r.doc.id.None? && r.doc.etag.None? && r.doc.version.None? && r.doc.created.None? && r.doc.updated.None?
              && r.doc.user == user
              && r.doc.blueGreen == Val(TwinBlueGreen(OppositeColor(SourceColor(app).value).value, app.id.value))
  {
    var color := SourceColor(app);
    if color.None? || OppositeColor(color.value).None? then DraftRaised(KeyError(if color.None? then "None" else color.value))
    else if app.id.None? then DraftRaised(KeyError("_id"))
    else
      var bg := TwinBlueGreen(OppositeColor(color.value).value, app.id.value);
      var twin := app.(user := user, blueGreen := Val(bg));
      if twin.etag.None? then DraftRaised(KeyError("_etag"))
      else if twin.version.None? then DraftRaised(KeyError("_version"))
      else if twin.created.None? then DraftRaised(KeyError("_created"))
      else if twin.updated.None? then DraftRaised(KeyError("_updated"))
      else Draft(twin.(id := None, etag := None, version := None, created := None, updated := None))
  }

  /** Creating a twin never changes the twin's colour back: it differs from the source colour. */
  lemma TwinColorIsOpposite(app: App, user: string)
    requires GreenDraft(app, user).Draft?
    ensures var bg := GreenDraft(app, user).doc.blueGreen.value;
            bg.color.Val? && Some(bg.color.value) != SourceColor(app)
            && OppositeColor(bg.color.value) == SourceColor(app)
  {
  }

  /**
   * The source's new `blue_green` document written by
   * `ghost_api_update_bluegreen_app`: enabled, online, pointing at the twin, and
   * keeping the source colour, which is `None` when the key is missing or `None`
   * (and blue when the app has no blue/green document).
   */
  function LinkedBlueGreen(blueApp: App, greenId: Id): (bg: BlueGreen)
    ensures bg.isOnline == Val(true) && bg.alterEgoId == Val(greenId) && bg.enableBlueGreen == Val(true)
    ensures HasBlueGreen(blueApp) ==>
              bg.color == (if blueApp.blueGreen.value.color.Val? then blueApp.blueGreen.value.color else Null)
    ensures !HasBlueGreen(blueApp) ==> bg.color == Val("blue")
  {
    var color := if HasBlueGreen(blueApp) then blueApp.blueGreen.value.color.Get() else Some("blue");
    BlueGreen(Val(true), if color.Some? then Val(color.value) else Null, Val(true), Val(greenId))
  }

  /**
   * `ghost_api_update_bluegreen_app`: replaces the `blue_green` document of the
   * record with the app's id, and nothing else. An app without an id raises.
   */
  method UpdateBluegreenApp(db: AppsTable, blueApp: App, greenId: Id) returns (raised: Option<PyError>)
    requires db.Valid()
    modifies db
    ensures db.Valid()
    ensures raised.Some? <==> blueApp.id.None?
    ensures raised.Some? ==> db.records == old(db.records)
    ensures raised.None? ==>
              db.records == UpdateFirst(old(db.records), blueApp.id.value,
                                        (a: App) => a.(blueGreen := Val(LinkedBlueGreen(blueApp, greenId))))
  {
    if blueApp.id.None? {
      return Some(KeyError("_id"));
    }
    db.SetBlueGreen(blueApp.id.value, LinkedBlueGreen(blueApp, greenId));
    raised := None;
  }

  datatype Created = CreatedId(id: Id) | CreateRaised(error: PyError)

  /**
   * `ghost_api_create_green_app`: inserts the twin draft under the id the store
   * assigns (`newId`) and returns that id.
   */
  method CreateGreenApp(db: AppsTable, app: App, user: string, newId: Id) returns (r: Created)
    requires db.Valid() && !HasId(db.records, newId)
    modifies db
    ensures db.Valid()
    ensures r.CreateRaised? <==> GreenDraft(app, user).DraftRaised?
    ensures r.CreateRaised? ==> db.records == old(db.records)
    ensures r.CreatedId? ==>
              r.id == newId && db.records == old(db.records) + [GreenDraft(app, user).doc.(id := Some(newId))]
  {
    var draft := GreenDraft(app, user);
    if draft.DraftRaised? {
      return CreateRaised(draft.error);
    }
    var id := db.InsertOne(draft.doc, newId);
    r := CreatedId(id);
  }

  datatype Enabled = Linked | NotLinked | EnableRaised(error: PyError)

  /**
   * `ghost_api_enable_green_app`: links the app to its existing twin, or
   * creates the twin and then links the app to it. It returns `False`
   * (`NotLinked`) when the insert yields a falsy id; the inserted record stays.
   */
  method EnableGreenApp(db: AppsTable, app: App, user: string, newId: Id) returns (r: Enabled)
    requires db.Valid() && !HasId(db.records, newId)
    modifies db
    ensures db.Valid()
    ensures CheckGreenAppExists(old(db.records), app).Found? ==>
              var twin := CheckGreenAppExists(old(db.records), app).twin;
              (r.Linked? <==> app.id.Some?) && twin.id.Some?
              && (r.Linked? ==> db.records == UpdateFirst(old(db.records), app.id.value,
                                  (a: App) => a.(blueGreen := Val(LinkedBlueGreen(app, twin.id.value)))))
              && (!r.Linked? ==> db.records == old(db.records))
    ensures CheckGreenAppExists(old(db.records), app).NotFound? ==>
              (r.EnableRaised? <==> GreenDraft(app, user).DraftRaised?)
              && (r.EnableRaised? ==> db.records == old(db.records))
              && (r.NotLinked? <==> GreenDraft(app, user).Draft? && newId == "")
              && (r.NotLinked? ==> db.records == old(db.records) + [GreenDraft(app, user).doc.(id := Some(newId))])
              && (r.Linked? ==>
                    db.records == UpdateFirst(old(db.records) + [GreenDraft(app, user).doc.(id := Some(newId))],
                                              app.id.value,
                                              (a: App) => a.(blueGreen := Val(LinkedBlueGreen(app, newId)))))
    ensures CheckGreenAppExists(old(db.records), app).LookupRaised? ==>
              r.EnableRaised? && db.records == old(db.records)
  {
    var found := CheckGreenAppExists(db.records, app);
    if found.LookupRaised? {
      return EnableRaised(found.error);
    }
    if found.NotFound? {
      var created := CreateGreenApp(db, app, user, newId);
      if created.CreateRaised? {
        return EnableRaised(created.error);
      }
      if created.id == "" {
        return NotLinked;
      }
      // the draft exists, so the app has an id and the link cannot raise
      var raised := UpdateBluegreenApp(db, app, created.id);
      assert raised.None?;
      r := Linked;
    } else {
      assert found.twin in db.records;
      var raised := UpdateBluegreenApp(db, app, found.twin.id.value);
      r := if raised.Some? then EnableRaised(raised.value) else Linked;
    }
  }

  /** The record update `ghost_api_update_bluegreen_app` applies. */
  function Link(blueApp: App, greenId: Id): App -> App {
    (a: App) => a.(blueGreen := Val(LinkedBlueGreen(blueApp, greenId)))
  }

  /** The apps table after `EnableGreenApp` created the twin `newId` and linked the app to it. */
  function CreatedAndLinked(recs: seq<App>, app: App, user: string, newId: Id): seq<App>
    requires GreenDraft(app, user).Draft?
  {
    UpdateFirst(recs + [GreenDraft(app, user).doc.(id := Some(newId))], app.id.value, Link(app, newId))
  }

  /** Looking up the linked app after the link finds it online and pointing at the twin. */
  lemma LinkedSourceFound(recs: seq<App>, app: App, greenId: Id)
    requires app.id.Some? && HasId(recs, app.id.value)
    ensures var src := FindById(UpdateFirst(recs, app.id.value, Link(app, greenId)), app.id.value);
            src.Some? && src.value.blueGreen == Val(LinkedBlueGreen(app, greenId))
  {
    var f := Link(app, greenId);
    FindUpdated(recs, app.id.value, f);
    var x := FindById(recs, app.id.value).value;
    assert f(x) == x.(blueGreen := Val(LinkedBlueGreen(app, greenId)));
  }

  /** Linking the app leaves the record appended under a different id untouched. */
  lemma AppendedTwinFound(recs: seq<App>, app: App, doc: App, greenId: Id)
    requires app.id.Some? && app.id.value != greenId
    requires !HasId(recs, greenId) && doc.id == Some(greenId)
    ensures FindById(UpdateFirst(recs + [doc], app.id.value, Link(app, greenId)), greenId) == Some(doc)
  {
    FindAppended(recs, doc, greenId);
    FindOtherAfterUpdate(recs + [doc], app.id.value, greenId, Link(app, greenId));
  }

  /**
   * After a twin is created and linked, exactly one of the pair is online (the
   * source), each record's `alter_ego_id` points at the other, and resolving
   * the stored source finds the pair with the source online.
   */
  lemma CreatedPairResolves(recs: seq<App>, app: App, user: string, newId: Id)
    requires UniqueIds(recs) && !HasId(recs, newId) && newId != ""
    requires GreenDraft(app, user).Draft?
    requires HasId(recs, app.id.value)
    ensures var after := CreatedAndLinked(recs, app, user, newId);
            var src := FindById(after, app.id.value);
            var twin := FindById(after, newId);
            src.Some? && twin.Some?
            && BlueGreenLib.OnlineFlag(src.value) == Some(true)
            && BlueGreenLib.OnlineFlag(twin.value) == Some(false)
            && src.value.blueGreen.value.alterEgoId == Val(newId)
            && twin.value.blueGreen.value.alterEgoId == Val(app.id.value)
            && BlueGreenLib.GetBlueGreenApps(src.value, after) == BlueGreenLib.Resolved(src.value, twin.value)
  {
    var draft := GreenDraft(app, user).doc;
    assert draft.blueGreen == Val(TwinBlueGreen(OppositeColor(SourceColor(app).value).value, app.id.value));
    LinkedPairResolves(recs, app, draft.(id := Some(newId)), newId);
  }

  /** The same, for any twin document stored under `newId` and pointing back at the app. */
  lemma LinkedPairResolves(recs: seq<App>, app: App, doc: App, newId: Id)
    requires app.id.Some? && HasId(recs, app.id.value) && !HasId(recs, newId) && newId != ""
    requires doc.id == Some(newId)
    requires doc.blueGreen.Val? && doc.blueGreen.value.isOnline == Val(false)
    requires doc.blueGreen.value.alterEgoId == Val(app.id.value)
    ensures var after := UpdateFirst(recs + [doc], app.id.value, Link(app, newId));
            var src := FindById(after, app.id.value);
            var twin := FindById(after, newId);
            src.Some? && twin == Some(doc)
            && BlueGreenLib.OnlineFlag(src.value) == Some(true)
            && src.value.blueGreen.value.alterEgoId == Val(newId)
            && BlueGreenLib.GetBlueGreenApps(src.value, after) == BlueGreenLib.Resolved(src.value, doc)
  {
    var sid := app.id.value;
    var appended := recs + [doc];
    assert HasId(appended, sid) by {
      var i :| 0 <= i < |recs| && recs[i].id == Some(sid);
      assert appended[i].id == Some(sid);
    }
    LinkedSourceFound(appended, app, newId);
    AppendedTwinFound(recs, app, doc, newId);
    var after := UpdateFirst(appended, sid, Link(app, newId));
    var src := FindById(after, sid).value;
    assert src.blueGreen == Val(LinkedBlueGreen(app, newId));
    assert BlueGreenLib.OnlineFlag(src) == Some(true);
    assert BlueGreenLib.AlterEgoId(src) == Some(newId);
    OnlineSourceResolves(src, doc, after);
  }

  /** An online app whose alter ego is found offline resolves to the pair, the app first. */
  lemma OnlineSourceResolves(src: App, twin: App, recs: seq<App>)
    requires BlueGreenLib.AlterEgoId(src).Some?
    requires FindById(recs, BlueGreenLib.AlterEgoId(src).value) == Some(twin)
    requires BlueGreenLib.OnlineFlag(src) == Some(true) && BlueGreenLib.OnlineFlag(twin) == Some(false)
    ensures BlueGreenLib.GetBlueGreenApps(src, recs) == BlueGreenLib.Resolved(src, twin)
  {
  }
}
