/**
 * The admin side navigation (components/AdminShell.tsx): which link is
 * highlighted for the current path.
 */
module AdminShell {
  import opened Wrappers
  import opened Text

  /** `usePathname() ?? '/'`. */
  function Pathname(raw: Option<string>): (r: string)
    ensures raw.Some? ==> r == raw.value
    ensures raw.None? ==> r == "/"
  {
    raw.GetOr("/")
  }

  /** `isActive(path, exact)`: an empty path name highlights nothing; an
      exact link matches the path with or without one trailing slash; any
      other link matches the path or anything below it, at a `/` boundary. */
  function IsActive(pathname: string, path: string, exact: bool): (r: bool)
    ensures pathname == "" ==> !r
    ensures pathname != "" && pathname == path ==> r
    ensures exact ==> (r <==> pathname != "" && (pathname == path || pathname == path + "/"))
    ensures !exact ==> (r <==> pathname != "" && (pathname == path || BelowAt(pathname, path)))
  {
    if pathname == "" then false
    else if exact then pathname == path || pathname == path + "/"
    else
      SubtreePrefix(pathname, path);
      pathname == path || StartsWith(pathname, path + "/")
  }

  /** `pathname` continues `path` with a `/` right after it. */
  predicate BelowAt(pathname: string, path: string) {
    |pathname| > |path| && pathname[..|path|] == path && pathname[|path|] == '/'
  }

  /** `startsWith(path + '/')` is `path` followed by a `/`. */
  lemma SubtreePrefix(pathname: string, path: string)
    ensures StartsWith(pathname, path + "/") <==> BelowAt(pathname, path)
  {
    if |pathname| > |path| {
      var head := pathname[..|path| + 1];
      assert head == pathname[..|path|] + [pathname[|path|]];
      assert head == path + "/" ==> head[..|path|] == path && head[|path|] == '/';
    }
  }

  /** A navigation link: where it goes and whether it matches exactly. */
  datatype NavLink = NavLink(href: string, exact: bool)

  const Dashboard := NavLink("/admin", true)

  /** The five section links, each matching its subtree. */
  const Sections: seq<NavLink> := [
    NavLink("/admin/churches", false),
    NavLink("/admin/members", false),
    NavLink("/admin/donations", false),
    NavLink("/admin/audit", false),
    NavLink("/admin/settings", false)
  ]

  const Nav: seq<NavLink> := [Dashboard] + Sections

  predicate Highlighted(pathname: string, link: NavLink) {
    IsActive(pathname, link.href, link.exact)
  }

  /** An exact match is also a subtree match. */
  lemma ExactImpliesPrefix(pathname: string, path: string)
    ensures IsActive(pathname, path, true) ==> IsActive(pathname, path, false)
  {
    if pathname != "" && pathname == path + "/" {
      assert (path + "/")[..|path + "/"|] == path + "/";
    }
  }

  /** Two links whose paths differ at a position inside both are never
      highlighted together. */
  lemma {:induction false} DivergingPathsExclusive(pathname: string, a: string, b: string, k: nat)
    requires k < |a| && k < |b| && a[k] != b[k]
    ensures !(IsActive(pathname, a, false) && IsActive(pathname, b, false))
  {
    assert IsActive(pathname, a, false) ==> pathname[k] == a[k] by {
      if IsActive(pathname, a, false) && pathname != a {
        assert pathname[..|a| + 1] == a + "/";
        assert (a + "/")[k] == a[k];
      }
    }
    assert IsActive(pathname, b, false) ==> pathname[k] == b[k] by {
      if IsActive(pathname, b, false) && pathname != b {
        assert pathname[..|b| + 1] == b + "/";
        assert (b + "/")[k] == b[k];
      }
    }
  }

  /** Whatever the path, at most one link of the navigation is highlighted. */
  lemma AtMostOneHighlighted(raw: Option<string>)
    ensures forall i, j :: 0 <= i < j < |Nav| ==>
      !(Highlighted(Pathname(raw), Nav[i]) && Highlighted(Pathname(raw), Nav[j]))
  {
    var p := Pathname(raw);
    forall i, j | 0 <= i < j < |Nav|
      ensures !(Highlighted(p, Nav[i]) && Highlighted(p, Nav[j]))
    {
      if i == 0 {
        // every section path is longer than "/admin/"
        assert |Nav[j].href| > 7;
      } else {
        assert Nav[i].href[7] != Nav[j].href[7];
        DivergingPathsExclusive(p, Nav[i].href, Nav[j].href, 7);
      }
    }
  }

  /** On a section's page the section is highlighted and the dashboard is
      not; a longer name that merely starts with a section's path does not
      highlight that section. */
  lemma SectionPages()
    ensures Highlighted("/admin/churches", Sections[0])
    ensures !Highlighted("/admin/churches", Dashboard)
    ensures Highlighted("/admin/churches/42", Sections[0])
    ensures !Highlighted("/admin/churchesX", Sections[0])
    ensures Highlighted("/admin/", Dashboard)
  {
    assert "/admin/churchesX"[15] != '/';
    assert "/admin/churches/42"[..16] == "/admin/churches" + "/";
  }
}
