/**
 * The object-storage and working-directory paths derived from an app:
 * `/ghost/<name>/<env>/<role>` for the environment, one more component for a
 * module, and `MANIFEST` under the environment path.
 */
module Paths {
  import opened Text
  import opened Records

  /** `_get_path_from_app` of the redeploy command. */
  function AppPath(app: App): string {
    "/ghost/" + app.name + "/" + app.env + "/" + app.role
  }

  /** `_get_path_from_module` of the deploy command, for the module called `moduleName`. */
  function ModulePath(app: App, moduleName: string): (p: string)
    ensures p == AppPath(app) + "/" + moduleName
  {
    "/ghost/" + app.name + "/" + app.env + "/" + app.role + "/" + moduleName
  }

  /** The key of the environment's manifest object. */
  function ManifestKey(app: App): string {
    AppPath(app) + "/MANIFEST"
  }

  /** An app's name, env and role hold no `/`, so each is one path component. */
  predicate PlainComponents(app: App) {
    '/' !in app.name && '/' !in app.env && '/' !in app.role
  }

  /** The components of the environment path, read back by splitting at `/`. */
  lemma AppPathComponents(app: App)
    requires PlainComponents(app)
    ensures Split(AppPath(app), '/') == ["", "ghost", app.name, app.env, app.role]
  {
    var parts := ["", "ghost", app.name, app.env, app.role];
    assert parts[1..] == ["ghost", app.name, app.env, app.role];
    assert parts[2..] == [app.name, app.env, app.role];
    assert parts[3..] == [app.env, app.role];
    assert parts[4..] == [app.role];
    assert Join(parts[3..], '/') == app.env + "/" + app.role;
    assert Join(parts[2..], '/') == app.name + "/" + app.env + "/" + app.role;
    assert Join(parts[1..], '/') == "ghost/" + app.name + "/" + app.env + "/" + app.role;
    assert Join(parts, '/') == AppPath(app);
    SplitJoin(parts, '/');
  }

  /** Six separator-free components joined by `/` split back into themselves. */
  lemma SplitSixComponents(a: string, b: string, c: string, d: string, e: string, f: string)
    requires '/' !in a && '/' !in b && '/' !in c && '/' !in d && '/' !in e && '/' !in f
    ensures Split(a + ['/'] + (b + ['/'] + (c + ['/'] + (d + ['/'] + (e + ['/'] + f)))), '/') == [a, b, c, d, e, f]
  {
    var parts := [a, b, c, d, e, f];
    assert parts[1..] == [b, c, d, e, f];
    assert parts[2..] == [c, d, e, f];
    assert parts[3..] == [d, e, f];
    assert parts[4..] == [e, f];
    assert parts[5..] == [f];
    assert Join(parts[4..], '/') == e + ['/'] + f;
    assert Join(parts[3..], '/') == d + ['/'] + (e + ['/'] + f);
    assert Join(parts[2..], '/') == c + ['/'] + (d + ['/'] + (e + ['/'] + f));
    assert Join(parts[1..], '/') == b + ['/'] + (c + ['/'] + (d + ['/'] + (e + ['/'] + f)));
    SplitJoin(parts, '/');
  }

  /** The manifest key is the environment path with one more component, `MANIFEST`. */
  lemma ManifestKeyComponents(app: App)
    requires PlainComponents(app)
    ensures Split(ManifestKey(app), '/') == ["", "ghost", app.name, app.env, app.role, "MANIFEST"]
  {
    ManifestKeyPieces(app);
    SplitSixComponents("", "ghost", app.name, app.env, app.role, "MANIFEST");
  }

  lemma ManifestKeyPieces(app: App)
    ensures ManifestKey(app)
            == "" + ['/'] + ("ghost" + ['/'] + (app.name + ['/'] + (app.env + ['/'] + (app.role + ['/'] + "MANIFEST"))))
  {
  }

  /** Two environments share a manifest only when they agree on name, env and role. */
  lemma ManifestKeyInjective(a: App, b: App)
    requires PlainComponents(a) && PlainComponents(b)
    requires ManifestKey(a) == ManifestKey(b)
    ensures a.name == b.name && a.env == b.env && a.role == b.role
  {
    ManifestKeyComponents(a);
    ManifestKeyComponents(b);
  }
}
