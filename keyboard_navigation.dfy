/** `hooks/useKeyboardNavigation.tsx`: Alt+H, Alt+P and Alt+A shortcuts, off until
    toggled on. */
module KeyboardNavigation {

  /** The fields of a `keydown` event that the handlers read. */
  datatype KeyEvent = KeyEvent(key: string, altKey: bool)

  /** The handler's three independent `if`s, each navigating when its key matches
      (case-sensitively, with Alt held). */
  function Navigations(e: KeyEvent): seq<string> {
    (if e.altKey && e.key == "h" then ["/home"] else [])
    + (if e.altKey && e.key == "p" then ["/profile"] else [])
    + (if e.altKey && e.key == "a" then ["/about"] else [])
  }

  /** At most one of the three `if`s fires, and exactly Alt with "h", "p" or "a"
      navigates, to home, profile and about. */
  lemma NavigationsAtMostOne(e: KeyEvent)
    ensures |Navigations(e)| <= 1
    ensures Navigations(e) == ["/home"] <==> e.altKey && e.key == "h"
    ensures Navigations(e) == ["/profile"] <==> e.altKey && e.key == "p"
    ensures Navigations(e) == ["/about"] <==> e.altKey && e.key == "a"
    ensures Navigations(e) == [] <==> !e.altKey || (e.key != "h" && e.key != "p" && e.key != "a")
  {
    assert "h" != "p" && "h" != "a" && "p" != "a";
    assert "/home" != "/profile" && "/home" != "/about" && "/profile" != "/about";
    assert ["/profile"][0] != ["/home"][0] && ["/about"][0] != ["/home"][0] && ["/about"][0] != ["/profile"][0];
  }

  class KeyboardNavigation {
    var enabled: bool

    constructor ()
      ensures !enabled
    {
      enabled := false;
    }

    /** `toggleNavigation`. */
    method ToggleNavigation()
      modifies this
      ensures enabled == !old(enabled)
    {
      enabled := !enabled;
    }

    /** A key press: no listener is registered while disabled. */
    method HandleKeyDown(e: KeyEvent) returns (navs: seq<string>)
      ensures !enabled ==> navs == []
      ensures enabled ==> navs == Navigations(e)
    {
      if !enabled {
        return [];
      }
      navs := [];
      if e.altKey && e.key == "h" { navs := navs + ["/home"]; }
      if e.altKey && e.key == "p" { navs := navs + ["/profile"]; }
      if e.altKey && e.key == "a" { navs := navs + ["/about"]; }
    }
  }
}
