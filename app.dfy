/**
 * The route table of src/App.tsx with its two guards: `ProtectedRoute`
 * sends a signed-out visitor to `/login` and otherwise renders the page
 * inside the layout, `PublicRoute` sends a signed-in visitor from the login
 * page to `/simple`, and `/` and every unmatched path redirect to `/simple`.
 *
 * A path is matched exactly against the table's patterns; an `:id`
 * segment is any non-empty text without `/`.
 */
module App {
  import opened Wrappers
  import opened Text
  import opened Json
  import Layout
  import AuthContext
  import Storage

  const SIMPLE_PATH := "/simple"

  datatype Page =
    | LoginPage
    | TestPage
    | SimpleCharacterList
    | CharacterListPage
    | CharacterFormPage(id: Option<string>)
    | TemplateListPage
    | TemplateFormPage(id: Option<string>)
    | ConfigPage

  /** What the table matches a path to. */
  datatype Route =
    | LoginRoute           // `/login`, behind `PublicRoute`
    | RootRoute            // `/`
    | Protected(page: Page)
    | NoMatch              // `*`

  /** What is shown: a page, inside `Layout` or not, or a `<Navigate replace>`. */
  datatype Element = Render(page: Page, inLayout: bool) | Redirect(to: string)

  /** The `:id` of `path` under `prefix`, when the rest is one non-empty segment. */
  function Segment(path: string, prefix: string): (r: Option<string>)
    ensures r.Some? ==> path == prefix + r.value && r.value != "" && '/' !in r.value
  {
    if StartsWith(path, prefix) && |path| > |prefix| && '/' !in path[|prefix|..] then
      assert path == prefix + path[|prefix|..];
      Some(path[|prefix|..])
    else None
  }

  /** A segment appended to a prefix is found again. */
  lemma SegmentOfJoin(prefix: string, id: string)
    requires id != "" && '/' !in id
    ensures Segment(prefix + id, prefix) == Some(id)
  {
    assert (prefix + id)[..|prefix|] == prefix;
    assert (prefix + id)[|prefix|..] == id;
  }

  /** The route table. */
  function Match(path: string): (r: Route)
    ensures r == LoginRoute <==> path == "/login"
    ensures r == RootRoute <==> path == "/"
    ensures r == Protected(CharacterFormPage(None)) <==> path == "/characters/new"
    ensures r == Protected(TemplateFormPage(None)) <==> path == "/templates/new"
    ensures r.Protected? && r.page.CharacterFormPage? && r.page.id.Some? ==>
      path == "/characters/edit/" + r.page.id.value && r.page.id.value != "" && '/' !in r.page.id.value
    ensures r.Protected? && r.page.TemplateFormPage? && r.page.id.Some? ==>
      path == "/templates/edit/" + r.page.id.value && r.page.id.value != "" && '/' !in r.page.id.value
  {
    if path == "/login" then LoginRoute
    else if path == "/" then RootRoute
    else if path == "/test" then Protected(TestPage)
    else if path == "/simple" then Protected(SimpleCharacterList)
    else if path == "/characters" then Protected(CharacterListPage)
    else if path == "/characters/new" then Protected(CharacterFormPage(None))
    else if Segment(path, "/characters/edit/").Some? then Protected(CharacterFormPage(Segment(path, "/characters/edit/")))
    else if path == "/templates" then Protected(TemplateListPage)
    else if path == "/templates/new" then Protected(TemplateFormPage(None))
    else if Segment(path, "/templates/edit/").Some? then Protected(TemplateFormPage(Segment(path, "/templates/edit/")))
    else if path == "/config" then Protected(ConfigPage)
    else NoMatch
  }

  /** The element rendered for `path`, given `isAuthenticated`. */
  function Resolve(path: string, isAuthenticated: bool): (e: Element)
    ensures Match(path).Protected? ==>
      e == if isAuthenticated then Render(Match(path).page, true) else Redirect(Layout.LOGIN_PATH)
    ensures Match(path).LoginRoute? ==>
      e == if isAuthenticated then Redirect(SIMPLE_PATH) else Render(LoginPage, false)
    ensures Match(path).RootRoute? || Match(path).NoMatch? ==> e == Redirect(SIMPLE_PATH)
  {
    match Match(path)
    case LoginRoute => if !isAuthenticated then Render(LoginPage, false) else Redirect(SIMPLE_PATH)
    case RootRoute => Redirect(SIMPLE_PATH)
    case Protected(page) => if !isAuthenticated then Redirect(Layout.LOGIN_PATH) else Render(page, true)
    case NoMatch => Redirect(SIMPLE_PATH)
  }

  /** What is on screen after following at most `redirects` redirects from `path`. */
  function Navigate(path: string, isAuthenticated: bool, redirects: nat): (e: Element)
    ensures redirects == 0 || Resolve(path, isAuthenticated).Render? ==> e == Resolve(path, isAuthenticated)
    ensures e.Redirect? ==> e.to == Layout.LOGIN_PATH || e.to == SIMPLE_PATH
    decreases redirects
  {
    match Resolve(path, isAuthenticated)
    case Redirect(to) => if redirects == 0 then Redirect(to) else Navigate(to, isAuthenticated, redirects - 1)
    case r => r
  }

  lemma LoginAndSimpleRoutes()
    ensures Match(Layout.LOGIN_PATH) == LoginRoute
    ensures Match(SIMPLE_PATH) == Protected(SimpleCharacterList)
  {
  }

  /**
   * Every path shows a page after at most two redirects: the login page
   * when signed out, and otherwise the matched page in the layout, or the
   * simple list for `/`, `/login` and unmatched paths.
   */
  lemma EveryPathRenders(path: string, isAuthenticated: bool)
    ensures !isAuthenticated ==> Navigate(path, false, 2) == Render(LoginPage, false)
    ensures isAuthenticated ==>
      Navigate(path, true, 2) == if Match(path).Protected? then Render(Match(path).page, true) else Render(SimpleCharacterList, true)
  {
    LoginAndSimpleRoutes();
  }

  /** Whether the restore effect signs the visitor in, from what storage held at load. */
  predicate RestoresSession(savedUser: Option<string>, savedToken: Option<string>, codec: Codec) {
    AuthContext.RestoreDecision(savedUser, savedToken, codec).SignIn?
  }

  /**
   * A page load as the code runs it. The first render has
   * `isAuthenticated == false`, because `AuthProvider`'s restore effect has
   * not run yet. A redirect shown by that render is committed to the
   * location, and the next render sees the restored state there.
   */
  function LoadAsWritten(path: string, savedUser: Option<string>, savedToken: Option<string>, codec: Codec): (e: Element)
    ensures RestoresSession(savedUser, savedToken, codec) ==> e == Render(SimpleCharacterList, true)
    ensures !RestoresSession(savedUser, savedToken, codec) ==> e == Render(LoginPage, false)
  {
    var first := Resolve(path, false);
    var location := if first.Redirect? then first.to else path;
    EveryPathRenders(location, RestoresSession(savedUser, savedToken, codec));
    Navigate(location, RestoresSession(savedUser, savedToken, codec), 2)
  }

  /**
   * A page load that routes only once the saved session is restored: a
   * signed-in visitor lands on the page the path names.
   */
  function Load(path: string, savedUser: Option<string>, savedToken: Option<string>, codec: Codec): (e: Element)
    ensures RestoresSession(savedUser, savedToken, codec) && Match(path).Protected? ==> e == Render(Match(path).page, true)
    ensures RestoresSession(savedUser, savedToken, codec) && !Match(path).Protected? ==> e == Render(SimpleCharacterList, true)
    ensures !RestoresSession(savedUser, savedToken, codec) ==> e == Render(LoginPage, false)
  {
    EveryPathRenders(path, RestoresSession(savedUser, savedToken, codec));
    Navigate(path, RestoresSession(savedUser, savedToken, codec), 2)
  }

  /**
   * After a login, reloading `/characters` shows the simple list as
   * written, where routing after the restore shows the character list.
   */
  lemma ReloadLosesDeepLink(items: map<string, string>, codec: Codec, nowMillis: nat)
    requires codec.Faithful()
    ensures var m := AuthContext.LoginItems(items, codec, nowMillis);
      var user := Storage.Lookup(m, AuthContext.USER_KEY);
      var token := Storage.Lookup(m, AuthContext.TOKEN_KEY);
      LoadAsWritten("/characters", user, token, codec) == Render(SimpleCharacterList, true)
      && Load("/characters", user, token, codec) == Render(CharacterListPage, true)
  {
    AuthContext.RestoreAfterLogin(items, codec, nowMillis);
  }

  /** Two redirects are needed: a signed-out visitor to an unknown path goes through `/simple` to `/login`. */
  lemma TwoRedirectsAreNeeded()
    ensures Navigate("/nowhere", false, 1) == Redirect(Layout.LOGIN_PATH)
    ensures Navigate("/nowhere", false, 2) == Render(LoginPage, false)
  {
    LoginAndSimpleRoutes();
    assert Match("/nowhere") == NoMatch by {
      assert "/nowhere"[1] == 'n';
    }
  }

  /** Both character-form routes render the form; only the edit route passes an id. */
  lemma CharacterFormRoutes(id: string)
    requires id != "" && '/' !in id
    ensures Match("/characters/new") == Protected(CharacterFormPage(None))
    ensures Match("/characters/edit/" + id) == Protected(CharacterFormPage(Some(id)))
  {
    var p := "/characters/edit/" + id;
    SegmentOfJoin("/characters/edit/", id);
    assert p[1] == 'c' && p[11] == '/' && p[12] == 'e';
    assert |p| > |"/characters"|;
    assert p != "/characters/new" by {
      assert p[12] != "/characters/new"[12];
    }
  }

  /** Signing out from the layout lands on the login page without a redirect. */
  lemma LogoutShowsLogin()
    ensures Navigate(Layout.LOGIN_PATH, false, 0) == Render(LoginPage, false)
  {
    LoginAndSimpleRoutes();
  }

  /** Every page rendered in the layout for a path under a menu entry highlights that entry. */
  lemma CharacterPagesHighlightCharacters(id: string)
    requires id != "" && '/' !in id
    ensures Layout.SelectedKey("/characters/edit/" + id) == "characters"
    ensures Layout.SelectedKey("/characters/new") == "characters"
  {
    var p := "/characters/edit/" + id;
    assert p[..|"/characters"|] == "/characters";
    assert "/characters/new"[..|"/characters"|] == "/characters";
  }
}
