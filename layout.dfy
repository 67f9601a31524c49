/**
 * The shell of src/components/Layout.tsx: which menu entry the current path
 * highlights, where a menu click goes, and the logout action.
 */
module Layout {
  import opened Wrappers
  import opened Json
  import opened Text
  import Constants
  import Seqs
  import AuthContext

  const LOGIN_PATH := "/login"

  /** The keys of the three menu entries. */
  predicate IsMenuKey(k: string) {
    exists i :: 0 <= i < |Constants.MENU_ITEMS| && Constants.MENU_ITEMS[i].key == k
  }

  /**
   * `getSelectedKey()`: the prefixes `/characters`, `/templates` and
   * `/config` are tried in that order, and any other path selects the
   * characters entry.
   */
  function SelectedKey(path: string): (k: string)
    ensures IsMenuKey(k)
    ensures StartsWith(path, "/characters") ==> k == "characters"
    ensures !StartsWith(path, "/characters") && StartsWith(path, "/templates") ==> k == "templates"
    ensures !StartsWith(path, "/characters") && !StartsWith(path, "/templates") && StartsWith(path, "/config") ==> k == "config"
    ensures !StartsWith(path, "/characters") && !StartsWith(path, "/templates") && !StartsWith(path, "/config") ==> k == "characters"
  {
    assert Constants.MENU_ITEMS[0].key == "characters";
    assert Constants.MENU_ITEMS[1].key == "templates";
    assert Constants.MENU_ITEMS[2].key == "config";
    if StartsWith(path, "/characters") then "characters"
    else if StartsWith(path, "/templates") then "templates"
    else if StartsWith(path, "/config") then "config"
    else "characters"
  }

  /** `item.key === key`. */
  function KeyIs(key: string): Constants.MenuItem -> bool {
    (item: Constants.MenuItem) => item.key == key
  }

  /** `handleMenuClick({ key })`: the path of the entry with that key, or no navigation. */
  function MenuClick(key: string): (r: Option<string>)
    ensures r.Some? <==> IsMenuKey(key)
    ensures r.Some? ==> r.value == "/" + key
  {
    Constants.MenuItemsWellFormed();
    match Seqs.Find(Constants.MENU_ITEMS, KeyIs(key))
    case None => None
    case Some(item) => Some(item.path)
  }

  /** A path, and anything below it, highlights its own menu entry. */
  lemma SelectedKeyOfMenuPath(i: nat, rest: string)
    requires i < |Constants.MENU_ITEMS|
    ensures SelectedKey(Constants.MENU_ITEMS[i].path + rest) == Constants.MENU_ITEMS[i].key
  {
    var p := Constants.MENU_ITEMS[i].path + rest;
    assert p[..|Constants.MENU_ITEMS[i].path|] == Constants.MENU_ITEMS[i].path;
    if i == 1 {
      assert p[1] == 't';
    } else if i == 2 {
      assert p[1] == 'c' && p[2] == 'o';
    }
  }

  /** Clicking a menu entry leads to a page that highlights that entry. */
  lemma ClickHighlightsEntry(key: string)
    requires MenuClick(key).Some?
    ensures SelectedKey(MenuClick(key).value) == key
  {
    var i :| 0 <= i < |Constants.MENU_ITEMS| && Constants.MENU_ITEMS[i].key == key;
    Constants.MenuItemsWellFormed();
    assert MenuClick(key).value + "" == Constants.MENU_ITEMS[i].path;
    SelectedKeyOfMenuPath(i, "");
  }

  /** `handleLogout`: end the session, then go to the login page. */
  method HandleLogout(session: AuthContext.Session) returns (location: string)
    modifies session, session.storage
    ensures session.user == JNull && !session.isAuthenticated
    ensures session.storage.items == old(session.storage.items) - {AuthContext.USER_KEY, AuthContext.TOKEN_KEY}
    ensures location == LOGIN_PATH
  {
    session.Logout();
    location := LOGIN_PATH;
  }
}
