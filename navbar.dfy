/** The navigation bar's view of the current path (src/components/navbar.tsx):
    the locale prefix is removed and the two main pages are recognised. */
module Navbar {

  import opened Strings

  /** `pathname.replace(/^\/(et|en)/, "") || "/"`. The prefix is matched as
      raw characters, not as a whole path segment. */
  function CleanPath(pathname: string): (r: string)
    ensures r != ""
    ensures (StartsWith(pathname, "/et") || StartsWith(pathname, "/en")) ==>
      r == (if |pathname| == 3 then "/" else pathname[3..])
    ensures !StartsWith(pathname, "/et") && !StartsWith(pathname, "/en") ==>
      r == (if pathname == "" then "/" else pathname)
  {
    var stripped := if StartsWith(pathname, "/et") || StartsWith(pathname, "/en") then pathname[3..] else pathname;
    if stripped == "" then "/" else stripped
  }

  predicate IsSearch(pathname: string) {
    CleanPath(pathname) == "/"
  }

  predicate IsDashboard(pathname: string) {
    CleanPath(pathname) == "/dashboard"
  }

  /** A locale-prefixed path and the same path without the prefix are the
      same page, for a path that does not itself begin with "/et" or "/en". */
  lemma LocalePrefixIgnored(locale: string, path: string)
    requires locale == "/et" || locale == "/en"
    requires path == "" || path[0] == '/'
    requires !StartsWith(path, "/et") && !StartsWith(path, "/en")
    ensures CleanPath(locale + path) == CleanPath(path)
  {
    var p := locale + path;
    assert StartsWith(p, locale) by { assert p[..3] == locale; }
    assert p[3..] == path;
  }

  /** Only one prefix is removed: "/en/etc" is the page "/etc", while
      "/etc" itself loses its first three characters. */
  lemma PrefixRemovedOnce()
    ensures CleanPath("/en/etc") == "/etc"
    ensures CleanPath("/etc") == "c"
  {
    assert StartsWith("/en/etc", "/en") by { assert "/en/etc"[..3] == "/en"; }
    assert "/en/etc"[3..] == "/etc";
    assert StartsWith("/etc", "/et") by { assert "/etc"[..3] == "/et"; }
    assert "/etc"[3..] == "c";
  }

  /** The search page is the root with or without a locale. */
  lemma SearchPages()
    ensures IsSearch("/") && IsSearch("/et") && IsSearch("/en") && IsSearch("")
    ensures IsSearch("/et/") && IsSearch("/en/")
  {
    assert StartsWith("/et", "/et") by { assert "/et"[..3] == "/et"; }
    assert StartsWith("/en", "/en") by { assert "/en"[..3] == "/en"; }
    assert StartsWith("/et/", "/et") by { assert "/et/"[..3] == "/et"; }
    assert StartsWith("/en/", "/en") by { assert "/en/"[..3] == "/en"; }
    assert !StartsWith("/", "/et") && !StartsWith("/", "/en");
    assert "/et/"[3..] == "/" && "/en/"[3..] == "/";
  }

  /** The dashboard is recognised with either locale or none. */
  lemma DashboardPages()
    ensures IsDashboard("/dashboard") && IsDashboard("/et/dashboard") && IsDashboard("/en/dashboard")
    ensures !IsSearch("/dashboard")
  {
    assert !StartsWith("/dashboard", "/et") by { assert "/dashboard"[1] == 'd'; }
    assert !StartsWith("/dashboard", "/en") by { assert "/dashboard"[1] == 'd'; }
    LocalePrefixIgnored("/et", "/dashboard");
    LocalePrefixIgnored("/en", "/dashboard");
  }

  /** The search page is exactly the root in its six spellings: with no
      locale, "/et" or "/en", each with or without the final slash. */
  lemma SearchPagesExactly(p: string)
    ensures IsSearch(p) <==>
      p == "" || p == "/" || p == "/et" || p == "/en" || p == "/et/" || p == "/en/"
  {
    SearchPages();
    if StartsWith(p, "/et") || StartsWith(p, "/en") {
      if IsSearch(p) && |p| != 3 {
        assert p[3..] == "/";
        assert p == p[..3] + p[3..];
      }
    }
  }

  /** The dashboard is exactly "/dashboard" with no locale, "/et" or "/en". */
  lemma DashboardPagesExactly(p: string)
    ensures IsDashboard(p) <==>
      p == "/dashboard" || p == "/et/dashboard" || p == "/en/dashboard"
  {
    DashboardPages();
    if StartsWith(p, "/et") || StartsWith(p, "/en") {
      if IsDashboard(p) {
        assert |p| != 3;
        assert p[3..] == "/dashboard";
        assert p == p[..3] + p[3..];
      }
    }
  }

  /** Because the prefix is raw characters, a path that merely starts with
      "/en" loses those characters: "/english" becomes "glish". */
  lemma RawPrefixMatch()
    ensures CleanPath("/english") == "glish"
  {
    assert StartsWith("/english", "/en") by { assert "/english"[..3] == "/en"; }
    assert "/english"[3..] == "glish";
  }
}
