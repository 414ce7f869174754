/** The layout's navigation sidebar: one link table per role, a link is
    highlighted only when the location is exactly its path, and a Logout
    button wired to the portal's logout handler. */
module Sidebar {

  import opened Types
  import opened Strings
  import opened App

  /** The icon drawn beside a link. */
  datatype Icon = LayoutDashboard | Users | BarChart2 | BookOpen | Video

  /** A navigation entry; its name is also its list key. */
  datatype NavLink = NavLink(name: string, icon: Icon, path: string)

  const StudentLinks: seq<NavLink> := [
    NavLink("Dashboard", LayoutDashboard, "/student/dashboard"),
    NavLink("Groups", Users, "/student/groups"),
    NavLink("Statistics", BarChart2, "/student/statistics")
  ]

  const FacultyLinks: seq<NavLink> := [
    NavLink("Dashboard", LayoutDashboard, "/faculty/dashboard"),
    NavLink("Groups", Users, "/faculty/groups"),
    NavLink("Schedule Lecture", BookOpen, "/faculty/schedule"),
    NavLink("Student Analytics", BarChart2, "/faculty/analytics"),
    NavLink("Live Monitor", Video, "/faculty/live")
  ]

  /** No two links of a list share a name (the list key) or a path. */
  predicate DistinctLinks(links: seq<NavLink>)
  {
    forall i, j :: 0 <= i < j < |links| ==>
      links[i].name != links[j].name && links[i].path != links[j].path
  }

  /** The links shown for a role: the student table for students, the
      faculty table for anyone else. */
  function Links(role: UserRole): (links: seq<NavLink>)
    ensures role == Student ==> |links| == 3
    ensures role == Faculty ==> |links| == 5
  {
    if role == Student then StudentLinks else FacultyLinks
  }

  /** Whether a link is highlighted: exact equality with the location. */
  predicate IsActive(pathname: string, path: string)
  {
    pathname == path
  }

  /** The highlighted links, in display order. */
  function ActiveLinks(links: seq<NavLink>, pathname: string): (active: seq<NavLink>)
    ensures forall l :: l in active <==> l in links && IsActive(pathname, l.path)
  {
    if links == [] then []
    else (if IsActive(pathname, links[0].path) then [links[0]] else [])
         + ActiveLinks(links[1..], pathname)
  }

  /** No link matches the location: nothing is highlighted. */
  lemma {:induction false} NoneActive(links: seq<NavLink>, pathname: string)
    requires forall k :: 0 <= k < |links| ==> !IsActive(pathname, links[k].path)
    ensures ActiveLinks(links, pathname) == []
  {
    if links != [] {
      NoneActive(links[1..], pathname);
    }
  }

  /** Both link tables have distinct names and paths. */
  lemma LinksDistinct(role: UserRole)
    ensures DistinctLinks(Links(role))
  {
  }

  /** With distinct paths, at most one link of a list is highlighted, and it
      is the one whose path is the location. */
  lemma {:induction false} AtMostOneActive(links: seq<NavLink>, pathname: string)
    requires DistinctLinks(links)
    ensures |ActiveLinks(links, pathname)| <= 1
  {
    if links != [] {
      var tail := links[1..];
      assert DistinctLinks(tail) by {
        forall i, j | 0 <= i < j < |tail|
          ensures tail[i].name != tail[j].name && tail[i].path != tail[j].path
        {
          assert tail[i] == links[i + 1] && tail[j] == links[j + 1];
        }
      }
      AtMostOneActive(tail, pathname);
      if IsActive(pathname, links[0].path) {
        forall k | 0 <= k < |tail|
          ensures !IsActive(pathname, tail[k].path)
        {
          assert tail[k] == links[k + 1];
        }
        NoneActive(tail, pathname);
      }
    }
  }

  /** Whatever the location, the sidebar of either role highlights at most
      one link. */
  lemma SidebarHighlightsAtMostOne(role: UserRole, pathname: string)
    ensures |ActiveLinks(Links(role), pathname)| <= 1
  {
    LinksDistinct(role);
    AtMostOneActive(Links(role), pathname);
  }

  /** Highlighting is not a prefix match: a group's detail page lies under
      no link of the student sidebar. */
  lemma NoPrefixHighlight()
    ensures ActiveLinks(Links(Student), "/student/group/1") == []
  {
    var links := Links(Student);
    forall l | l in links
      ensures !IsActive("/student/group/1", l.path)
    {
    }
    if ActiveLinks(links, "/student/group/1") != [] {
      assert ActiveLinks(links, "/student/group/1")[0] in ActiveLinks(links, "/student/group/1");
    }
  }

  /** The link paths, read as sub-paths of their role's area. */
  lemma StudentLinkPaths()
    ensures StudentLinks[0].path == AreaPath(Student, "dashboard")
    ensures StudentLinks[1].path == AreaPath(Student, "groups")
    ensures StudentLinks[2].path == AreaPath(Student, "statistics")
  {
  }

  lemma FacultyLinkPaths()
    ensures FacultyLinks[0].path == AreaPath(Faculty, "dashboard")
    ensures FacultyLinks[1].path == AreaPath(Faculty, "groups")
    ensures FacultyLinks[2].path == AreaPath(Faculty, "schedule")
  {
  }

  lemma FacultyMoreLinkPaths()
    ensures FacultyLinks[3].path == AreaPath(Faculty, "analytics")
    ensures FacultyLinks[4].path == AreaPath(Faculty, "live")
  {
  }

  lemma StudentLinksServed(i: nat, path: string)
    requires i < |StudentLinks| && path == StudentLinks[i].path
    ensures Route(Some(Student), path).Show?
    ensures PageRole(Route(Some(Student), path).page) == Some(Student)
  {
    StudentLinkPaths();
    if i == 0 { ServedAt(Student, path, "dashboard", StudentDashboard); }
    else if i == 1 { ServedAt(Student, path, "groups", StudentGroups); }
    else { ServedAt(Student, path, "statistics", StudentStatistics); }
  }

  lemma FacultyLinksServed(i: nat, path: string)
    requires i < |FacultyLinks| && path == FacultyLinks[i].path
    ensures Route(Some(Faculty), path).Show?
    ensures PageRole(Route(Some(Faculty), path).page) == Some(Faculty)
  {
    FacultyLinkPaths();
    FacultyMoreLinkPaths();
    if i == 0 { ServedAt(Faculty, path, "dashboard", FacultyDashboard); }
    else if i == 1 { ServedAt(Faculty, path, "groups", FacultyGroups); }
    else if i == 2 { ServedAt(Faculty, path, "schedule", FacultySchedule); }
    else if i == 3 { ServedAt(Faculty, path, "analytics", FacultyAnalytics); }
    else { ServedAt(Faculty, path, "live", LiveLecture); }
  }

  /** Every link of a role's sidebar leads to a page the router serves to
      that role; none leads to a redirect. */
  lemma LinksServed(role: UserRole, i: nat)
    requires i < |Links(role)|
    ensures Route(Some(role), Links(role)[i].path).Show?
    ensures PageRole(Route(Some(role), Links(role)[i].path).page) == Some(role)
  {
    if role == Student {
      StudentLinksServed(i, Links(role)[i].path);
    } else {
      FacultyLinksServed(i, Links(role)[i].path);
    }
  }
}
