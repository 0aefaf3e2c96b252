/** `components/Navbar.tsx`: the page title per route, the persisted on/off switch for
    the navigation shortcuts, the shortcuts themselves and logout. */
module Navbar {
  import opened Options
  import opened Text
  import opened Storage
  import AuthToken

  const DefaultTitle: string := "Leaderflix | Entertainment Platform"

  /** The route-to-title table. */
  const Titles: map<string, string> := map[
    "/home" := "Viewcall | Home",
    "/favorites" := "Viewcall | Favorites",
    "/profile" := "Viewcall | User Profile",
    "/about" := "Viewcall | About",
    "/search" := "Viewcall | Search Results",
    "/sign_in" := "Viewcall | Sign In",
    "/sign_up" := "Viewcall | Create Account"]

  /** `titles[pathname] || default`: every listed title is a non-empty string, so the
      fallback applies exactly to the unlisted paths. */
  function RouteTitle(path: string): string {
    if path in Titles && Titles[path] != "" then Titles[path] else DefaultTitle
  }

  /** The document title names the route: listed routes get their own title,
      different routes get different titles, and no listed route falls back to the
      default title. */
  lemma RouteTitleIdentifiesRoute(p: string, q: string)
    ensures p in Titles ==> RouteTitle(p) == Titles[p] && RouteTitle(p) != DefaultTitle
    ensures p !in Titles ==> RouteTitle(p) == DefaultTitle
    ensures p in Titles && q in Titles && p != q ==> RouteTitle(p) != RouteTitle(q)
  {
    assert |DefaultTitle| == 35;
    assert forall k | k in Titles :: |Titles[k]| != 35;
    if p in Titles && q in Titles && p != q {
      TitlesDiffer(p, q);
    }
  }

  lemma TitlesDiffer(p: string, q: string)
    requires p in Titles && q in Titles && p != q
    ensures Titles[p] != Titles[q]
  {
    // Titles of equal length differ at the first character after "Viewcall | ".
    assert forall k | k in Titles :: |Titles[k]| > 11;
    assert Titles[p][11] != Titles[q][11] || |Titles[p]| != |Titles[q]|;
  }

  /** ASCII upper-casing. */
  function UpperAscii(s: string): (r: string)
    ensures |r| == |s|
    ensures forall i :: 0 <= i < |s| ==> r[i] == if IsAsciiLower(s[i]) then (s[i] as int - 32) as char else s[i]
  {
    if s == [] then [] else
    [if IsAsciiLower(s[0]) then (s[0] as int - 32) as char else s[0]] + UpperAscii(s[1..])
  }

  /** `navigator.platform.toUpperCase().includes("MAC")`. */
  predicate IsMacPlatform(platform: string) {
    exists i :: 0 <= i < |platform| && MacAt(UpperAscii(platform), i)
  }

  predicate MacAt(u: string, i: nat) {
    i + 3 <= |u| && u[i..i + 3] == "MAC"
  }

  /** A platform name with no letter m in either case is not macOS. */
  lemma WithoutMNotMac(platform: string)
    requires 'M' !in platform && 'm' !in platform
    ensures !IsMacPlatform(platform)
  {
    var u := UpperAscii(platform);
    forall i | 0 <= i < |platform| ensures !MacAt(u, i) {
      if i + 3 <= |u| {
        assert u[i..i + 3][0] == u[i];
        assert platform[i] != 'M' && platform[i] != 'm';
      }
    }
  }

  /** A platform name whose first three letters spell "mac" in any case is macOS. */
  lemma StartsWithMac(platform: string)
    requires |platform| >= 3
    requires platform[0] in "Mm" && platform[1] in "Aa" && platform[2] in "Cc"
    ensures IsMacPlatform(platform)
  {
    var u := UpperAscii(platform);
    assert u[0] == 'M' && u[1] == 'A' && u[2] == 'C';
    assert u[0..3] == "MAC";
    assert MacAt(u, 0);
  }

  /** `key.toLowerCase() === [letter]` for a lower-case ASCII letter: the key is that
      letter in either case. */
  predicate KeyIsLetter(key: string, letter: char)
    requires IsAsciiLower(letter)
  {
    key == [letter] || key == [(letter as int - 32) as char]
  }

  /** The fields of a `keydown` event that the handler reads. */
  datatype KeyEvent = KeyEvent(key: string, altKey: bool, metaKey: bool)

  /** The `if`/`else if` chain: with the platform's modifier held (Command on macOS,
      Alt elsewhere), H, P, A and M go to home, profile, about and favorites. */
  function ShortcutTarget(isMac: bool, e: KeyEvent): (r: Option<string>)
    ensures r.Some? ==> (if isMac then e.metaKey else e.altKey)
    ensures r == Some("/home") <==> (if isMac then e.metaKey else e.altKey) && KeyIsLetter(e.key, 'h')
    ensures r == Some("/profile") <==> (if isMac then e.metaKey else e.altKey) && KeyIsLetter(e.key, 'p')
    ensures r == Some("/about") <==> (if isMac then e.metaKey else e.altKey) && KeyIsLetter(e.key, 'a')
    ensures r == Some("/favorites") <==> (if isMac then e.metaKey else e.altKey) && KeyIsLetter(e.key, 'm')
    ensures r.None? <==> (!(if isMac then e.metaKey else e.altKey)
      || (!KeyIsLetter(e.key, 'h') && !KeyIsLetter(e.key, 'p') && !KeyIsLetter(e.key, 'a') && !KeyIsLetter(e.key, 'm')))
  {
    var modifier := if isMac then e.metaKey else e.altKey;
    var lower := LowerAscii(e.key);
    assert "/home" != "/profile" && "/home" != "/about" && "/home" != "/favorites";
    assert "/profile" != "/about" && "/profile" != "/favorites" && "/about" != "/favorites";
    if modifier && lower == "h" then Some("/home")
    else if modifier && lower == "p" then Some("/profile")
    else if modifier && lower == "a" then Some("/about")
    else if modifier && lower == "m" then Some("/favorites")
    else None
  }

  /** ASCII lower-casing. */
  function LowerAscii(s: string): (r: string)
    ensures |r| == |s|
    ensures forall i :: 0 <= i < |s| ==> r[i] == if IsAsciiUpper(s[i]) then (s[i] as int + 32) as char else s[i]
  {
    if s == [] then [] else
    [if IsAsciiUpper(s[0]) then (s[0] as int + 32) as char else s[0]] + LowerAscii(s[1..])
  }

  /** `String(bool)`. */
  function BoolString(b: bool): string {
    if b then "true" else "false"
  }

  /** The stored switch reads back as the value that was stored. */
  lemma BoolStringRoundTrip(b: bool)
    ensures (BoolString(b) == "true") == b
  {
    if !b {
      assert |BoolString(b)| != |"true"|;
    }
  }

  /** Logout removes the `token` key, not the key the token service writes: a token
      stored through the service survives the logout. */
  lemma LogoutKeepsServiceToken(items: map<string, string>)
    requires AuthToken.StorageKey in items
    ensures AuthToken.StorageKey in items - {"token"}
    ensures (items - {"token"})[AuthToken.StorageKey] == items[AuthToken.StorageKey]
  {
    assert AuthToken.StorageKey != "token" by { assert |AuthToken.StorageKey| != |"token"|; }
  }

  class NavbarState {
    const storage: LocalStorage
    var shortcutsEnabled: bool

    /** The switch starts from the stored `"true"`; anything else, or nothing, is off. */
    constructor (storage: LocalStorage)
      ensures this.storage == storage
      ensures shortcutsEnabled <==> storage.GetItem("shortcutsEnabled") == Some("true")
    {
      this.storage := storage;
      shortcutsEnabled := storage.GetItem("shortcutsEnabled") == Some("true");
    }

    /** `toggleShortcuts`: flips the switch and persists the new value. */
    method ToggleShortcuts()
      modifies this, storage
      ensures shortcutsEnabled == !old(shortcutsEnabled)
      ensures storage.items == old(storage.items)["shortcutsEnabled" := BoolString(shortcutsEnabled)]
    {
      var newState := !shortcutsEnabled;
      shortcutsEnabled := newState;
      storage.SetItem("shortcutsEnabled", BoolString(newState));
    }

    /** A key press: no listener is registered while the switch is off; a handled key
        also prevents the browser's default action. */
    method HandleKeyDown(platform: string, e: KeyEvent) returns (nav: Option<string>, prevented: bool)
      ensures !shortcutsEnabled ==> nav.None? && !prevented
      ensures shortcutsEnabled ==> nav == ShortcutTarget(IsMacPlatform(platform), e)
      ensures prevented <==> nav.Some?
    {
      if !shortcutsEnabled {
        return None, false;
      }
      nav := ShortcutTarget(IsMacPlatform(platform), e);
      prevented := nav.Some?;
    }

    /** `handleLogout`: removes `token` and goes to the sign-in page. */
    method HandleLogout() returns (nav: string)
      modifies storage
      ensures storage.items == old(storage.items) - {"token"}
      ensures nav == "/sign_in"
    {
      storage.RemoveItem("token");
      nav := "/sign_in";
    }
  }
}
