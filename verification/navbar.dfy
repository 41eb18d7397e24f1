/**
 * The navigation bar: where "Dashboard" leads, which link is highlighted, the link sets for
 * visitors and signed-in users, and the role's extra menu items.
 */
module Navbar {
  import opened Wrappers
  import opened Strings
  import opened Model

  /** A navigation link. */
  datatype Link = Link(href: string, text: string)

  /** `getDashboardLink`; the argument is the signed-in user's role, `None` for a visitor. */
  function DashboardLink(role: Option<string>): string
  {
    if role.None? then "/login"
    else
      match role.value
      case "ADMIN" => "/dashboard/admin"
      case "RECRUITER" => "/dashboard/recruiter"
      case "CANDIDATE" => "/dashboard/candidate"
      case _ => "/dashboard"
  }

  /**
   * A visitor is sent to the login page; each of the three roles to the dashboard named after
   * it in lower case; any other role to the bare dashboard path.
   */
  lemma DashboardLinkByRole(r: Role, other: string)
    ensures DashboardLink(None) == "/login"
    ensures DashboardLink(Some(RoleName(r))) == "/dashboard/" + ToLower(RoleName(r))
    ensures other !in {"ADMIN", "RECRUITER", "CANDIDATE"} ==> DashboardLink(Some(other)) == "/dashboard"
  {
    assert ToLower("ADMIN") == "admin";
    assert ToLower("RECRUITER") == "recruiter";
    assert ToLower("CANDIDATE") == "candidate";
  }

  /** `isActive`: the path is the link's own, or a path below it. */
  predicate IsActive(path: string, href: string)
  {
    path == href || StartsWith(path, href + "/")
  }

  /**
   * An active link is a prefix of the path, and every path below a link activates it; a path
   * that merely starts with the same letters does not, so "/jobs" is not active on "/jobsx",
   * and "Home" is active on "/" only, not on "/jobs".
   */
  lemma ActiveMeansBelow(path: string, href: string, rest: string)
    ensures IsActive(path, href) ==> StartsWith(path, href)
    ensures IsActive(href + "/" + rest, href)
    ensures IsActive("/jobs/42", "/jobs") && !IsActive("/jobsx", "/jobs")
    ensures IsActive("/", "/") && !IsActive("/jobs", "/")
  {
    if IsActive(path, href) && path != href {
      assert path[..|href|] == (href + "/")[..|href|];
    }
    assert (href + "/" + rest)[..|href + "/"|] == href + "/";
    assert "/jobsx"[5] != "/jobs/"[5];
    assert "/jobs"[1] != "//"[1];
  }

  const PublicLinks := [Link("/", "Home"), Link("/#features", "Features"), Link("/#about", "About"), Link("/#contact", "Contact")]

  function AuthLinks(role: string): seq<Link>
  {
    [Link(DashboardLink(Some(role)), "Dashboard"), Link("/jobs", "Browse Jobs")]
  }

  /** `navLinks`: the signed-in set for a user, the public set otherwise. */
  function NavLinks(role: Option<string>): seq<Link>
  {
    if role.Some? then AuthLinks(role.value) else PublicLinks
  }

  /** The role's extra items in the user menu. */
  function MenuItems(role: string): seq<Link>
  {
    if role == "CANDIDATE" then [Link("/dashboard/candidate", "My Applications")]
    else if role == "RECRUITER" then
      [Link("/dashboard/recruiter", "Post a Job"), Link("/dashboard/recruiter", "View Applications")]
    else []
  }

  /**
   * A signed-in user sees the dashboard of their role and the job board, never the public
   * links; a visitor sees the four public links. A candidate's menu has one extra item, a
   * recruiter's two, anyone else's none, and every extra item leads to the role's dashboard.
   */
  lemma LinkSets(role: Option<string>)
    ensures role.Some? ==> |NavLinks(role)| == 2 && NavLinks(role)[0].href == DashboardLink(role)
                           && NavLinks(role)[1].href == "/jobs"
    ensures role.Some? ==> forall l :: l in NavLinks(role) ==> l !in PublicLinks
    ensures role.None? ==> NavLinks(role) == PublicLinks
    ensures role.Some? ==>
      && |MenuItems(role.value)| == (if role.value == "CANDIDATE" then 1 else if role.value == "RECRUITER" then 2 else 0)
      && forall l :: l in MenuItems(role.value) ==> l.href == DashboardLink(role)
  {
  }
}
