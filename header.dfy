/** The layout's top bar: the breadcrumb derived from the location, the
    notification bell with its unread dropdown and badge, the "view all"
    modal, and the settings menu. */
module Header {

  import opened Types
  import opened Strings
  import opened App

  // ---------------------------------------------------------------------------
  // Breadcrumb

  /** The first breadcrumb element for a role. */
  function PortalName(role: UserRole): string
  {
    if role == Student then "Student Portal" else "Faculty Portal"
  }

  /** `parts.map(capitalize)`. */
  function CapitalizeAll(parts: seq<string>): (caps: seq<string>)
    ensures |caps| == |parts|
    ensures forall k :: 0 <= k < |parts| ==> caps[k] == Capitalize(parts[k])
  {
    if parts == [] then [] else [Capitalize(parts[0])] + CapitalizeAll(parts[1..])
  }

  /** The breadcrumb text: the path's segments are capitalised and joined
      with " / ", that string is split on " / " again, and its second piece
      (or "Dashboard" when there is none or it is empty) follows the role's
      portal name. A path without segments reads "Portal". */
  function Breadcrumb(role: UserRole, pathname: string): string
  {
    var parts := Segments(pathname);
    if |parts| == 0 then "Portal"
    else
      var formatted := Join(CapitalizeAll(parts), " / ");
      var pieces := Split(formatted, " / ");
      var second := if |pieces| > 1 && pieces[1] != [] then pieces[1] else "Dashboard";
      PortalName(role) + " / " + second
  }

  /** What the breadcrumb shows: "Portal" without segments, the dashboard for
      a single segment, and otherwise the second segment with its first
      character upper-cased; deeper segments never show. */
  lemma BreadcrumbShape(role: UserRole, pathname: string)
    ensures |Segments(pathname)| == 0 ==> Breadcrumb(role, pathname) == "Portal"
    ensures |Segments(pathname)| == 1 ==>
      Breadcrumb(role, pathname) == PortalName(role) + " / " + "Dashboard"
    ensures |Segments(pathname)| >= 2 ==>
      Breadcrumb(role, pathname) == PortalName(role) + " / " + Capitalize(Segments(pathname)[1])
  {
    var parts := Segments(pathname);
    if |parts| > 0 {
      var caps := CapitalizeAll(parts);
      SegmentsLackSlash(pathname);
      forall k, i | 0 <= k < |caps| && 0 <= i < |caps[k]|
        ensures caps[k][i] != '/'
      {
        if i == 0 {
          assert parts[k][0] != '/';
        } else {
          assert caps[k][i] == parts[k][i];
        }
      }
      SplitJoin(caps);
      if |parts| >= 2 {
        assert caps[1] != [];
      }
    }
  }

  /** Repeated and trailing slashes do not change the breadcrumb. */
  lemma BreadcrumbIgnoresExtraSlashes(role: UserRole, a: string, b: string)
    ensures Breadcrumb(role, a + "//" + b) == Breadcrumb(role, a + "/" + b)
    ensures Breadcrumb(role, a + "/") == Breadcrumb(role, a)
  {
    SegmentsDoubleSlash(a, b);
    SegmentsTrailingSlash(a);
  }

  // ---------------------------------------------------------------------------
  // Notifications

  /** The icon drawn beside a notification. */
  datatype NotificationIcon = Calendar | AlertTriangle | Check | Info | FileText | Users | BookOpen | BarChart2

  datatype Notification = Notification(
    id: nat,
    title: string,
    description: string,
    time: string,
    icon: NotificationIcon,
    color: string,
    unread: bool)

  const StudentNotifications: seq<Notification> := [
    Notification(1, "Lecture Scheduled", "Data Structures scheduled for tomorrow at 9:00 AM",
      "Today", Calendar, "bg-blue-50 text-blue-600", true),
    Notification(2, "Assignment Deadline", "Lab 4: Linked Lists due in 2 hours",
      "Today", AlertTriangle, "bg-orange-50 text-orange-600", true),
    Notification(3, "Attendance Update", "Your attendance in Algorithms is now 92%",
      "Yesterday", Check, "bg-green-50 text-green-600", false),
    Notification(4, "New Announcement", "Prof. Smith posted a new announcement in CS-301",
      "Yesterday", Info, "bg-purple-50 text-purple-600", true),
    Notification(5, "Faculty Feedback", "New feedback: Algorithm Quiz",
      "2 days ago", FileText, "bg-blue-50 text-blue-600", false)
  ]

  const FacultyNotifications: seq<Notification> := [
    Notification(1, "Lecture Reminder", "Your Data Structures lecture starts at 9:00 AM",
      "Today", Calendar, "bg-blue-50 text-blue-600", true),
    Notification(2, "Report Ready", "Attendance report for Algorithms is ready to download",
      "Today", FileText, "bg-purple-50 text-purple-600", true),
    Notification(3, "Engagement Alert", "Engagement dropped below 70% in CS-301",
      "Yesterday", AlertTriangle, "bg-red-50 text-red-600", true),
    Notification(4, "New Students", "5 new students joined CS-301",
      "Yesterday", Users, "bg-green-50 text-green-600", false),
    Notification(5, "Submission Summary", "45/50 students submitted Lab 3",
      "2 days ago", Check, "bg-orange-50 text-orange-600", false)
  ]

  /** The two older notifications only the "view all" modal lists. */
  const StudentExtras: seq<Notification> := [
    Notification(101, "Assignment Feedback", "Assignment feedback available for Database Systems",
      "3 days ago", FileText, "bg-indigo-50 text-indigo-600", false),
    Notification(102, "Class Material", "New class material uploaded for Operating Systems",
      "4 days ago", BookOpen, "bg-teal-50 text-teal-600", false)
  ]

  const FacultyExtras: seq<Notification> := [
    Notification(201, "Grading Completed", "Assignment grading completed for CS-101",
      "3 days ago", Check, "bg-green-50 text-green-600", false),
    Notification(202, "Analytics Report", "Lecture analytics report generated for last week",
      "4 days ago", BarChart2, "bg-blue-50 text-blue-600", false)
  ]

  /** The list the header installs for a role: the student list for
      students, the faculty list for anyone else. */
  function InitialNotifications(role: UserRole): seq<Notification>
  {
    if role == Student then StudentNotifications else FacultyNotifications
  }

  /** The dropdown's list: the unread notifications, in their original order. */
  function Unread(ns: seq<Notification>): (dropdown: seq<Notification>)
    ensures |dropdown| <= |ns|
    ensures forall n :: n in dropdown <==> n in ns && n.unread
  {
    if ns == [] then []
    else (if ns[0].unread then [ns[0]] else []) + Unread(ns[1..])
  }

  /** Filtering a concatenation filters each part and keeps them in order. */
  lemma {:induction false} UnreadAppend(a: seq<Notification>, b: seq<Notification>)
    ensures Unread(a + b) == Unread(a) + Unread(b)
  {
    if a == [] {
      assert a + b == b;
    } else {
      assert (a + b)[0] == a[0] && (a + b)[1..] == a[1..] + b;
      UnreadAppend(a[1..], b);
    }
  }

  /** The badge's number. */
  function UnreadCount(ns: seq<Notification>): nat
  {
    |Unread(ns)|
  }

  /** The badge is drawn only for a positive count. */
  predicate BadgeShown(ns: seq<Notification>)
  {
    UnreadCount(ns) > 0
  }

  /** The badge shows exactly when some notification is unread. */
  lemma BadgeIffUnread(ns: seq<Notification>)
    ensures BadgeShown(ns) <==> exists k :: 0 <= k < |ns| && ns[k].unread
  {
    if BadgeShown(ns) {
      assert Unread(ns)[0] in Unread(ns);
    }
  }

  /** Both roles start with five notifications, three of them unread. */
  lemma InitialCounts(role: UserRole)
    ensures |InitialNotifications(role)| == 5
    ensures UnreadCount(InitialNotifications(role)) == 3
  {
  }

  /** Mark-all-read: every notification becomes read; nothing else about it
      and nothing about the order changes. */
  function MarkRead(ns: seq<Notification>): (r: seq<Notification>)
    ensures |r| == |ns|
    ensures forall k :: 0 <= k < |ns| ==> !r[k].unread
    ensures forall k :: 0 <= k < |ns| ==>
      r[k].id == ns[k].id && r[k].title == ns[k].title && r[k].description == ns[k].description
      && r[k].time == ns[k].time && r[k].icon == ns[k].icon && r[k].color == ns[k].color
  {
    if ns == [] then [] else [ns[0].(unread := false)] + MarkRead(ns[1..])
  }

  /** Once everything is read the dropdown is empty, the badge disappears,
      and marking again changes nothing. */
  lemma MarkReadClears(ns: seq<Notification>)
    ensures Unread(MarkRead(ns)) == []
    ensures !BadgeShown(MarkRead(ns))
    ensures MarkRead(MarkRead(ns)) == MarkRead(ns)
  {
    var r := MarkRead(ns);
    if Unread(r) != [] {
      assert Unread(r)[0] in Unread(r);
    }
    assert MarkRead(r) == r by {
      assert forall k :: 0 <= k < |r| ==> MarkRead(r)[k] == r[k];
    }
  }

  /** The modal's list for a role's extras. */
  function Extras(role: UserRole): seq<Notification>
  {
    if role == Student then StudentExtras else FacultyExtras
  }

  /** The "view all" modal: the current notifications followed by the role's
      two older ones. */
  function ModalNotifications(role: UserRole, ns: seq<Notification>): (all: seq<Notification>)
    ensures |all| == |ns| + 2
    ensures all[..|ns|] == ns
    ensures all[|ns|..] == Extras(role)
  {
    ns + Extras(role)
  }

  /** The older notifications are all read, so the modal adds nothing to the
      badge. */
  lemma ModalAddsNoUnread(role: UserRole, ns: seq<Notification>)
    ensures Unread(ModalNotifications(role, ns)) == Unread(ns)
  {
    UnreadAppend(ns, Extras(role));
    var e := Extras(role);
    assert e == e[..1] + e[1..];
    UnreadAppend(e[..1], e[1..]);
  }

  // ---------------------------------------------------------------------------
  // Navigation from the header

  /** Where the avatar click goes. */
  function ProfilePath(role: UserRole): string
  {
    if role == Student then "/student/profile" else "/faculty/profile"
  }

  lemma ProfilePathInArea(role: UserRole)
    ensures ProfilePath(role) == AreaPath(role, "profile")
  {
  }

  /** The avatar leads to the role's own profile page. */
  lemma ProfileServed(role: UserRole)
    ensures Route(Some(role), ProfilePath(role))
      == Show(if role == Student then StudentProfile else FacultyProfile)
  {
    ProfilePathInArea(role);
    if role == Student {
      ServedAt(role, ProfilePath(role), "profile", StudentProfile);
    } else {
      ServedAt(role, ProfilePath(role), "profile", FacultyProfile);
    }
  }

  /** Where the settings menu's Logout goes. It only navigates: the portal's
      role is left as it is. */
  const SettingsLogoutTarget := "/"

  /** The settings menu's Logout shows the login page but keeps the session:
      the role's dashboard is still served afterwards. */
  lemma SettingsLogoutKeepsSession(role: UserRole, dashboard: string)
    requires dashboard == DashboardPath(role)
    ensures Route(Some(role), SettingsLogoutTarget) == Show(Login)
    ensures Route(Some(role), dashboard).Show?
  {
    RootIsLogin(Some(role), SettingsLogoutTarget);
    if role == Student {
      ServedAt(role, dashboard, "dashboard", StudentDashboard);
    } else {
      ServedAt(role, dashboard, "dashboard", FacultyDashboard);
    }
  }

  // ---------------------------------------------------------------------------
  // The header's state

  class HeaderBar {
    const role: UserRole
    var showNotifications: bool
    var showSettings: bool
    var showAllModal: bool
    var isClearing: bool
    var isModalClosing: bool
    var notifications: seq<Notification>

    /** At most one of the two dropdowns is open. */
    predicate Valid()
      reads this
    {
      !(showNotifications && showSettings)
    }

    /** The header after its role effect has run. */
    constructor (role: UserRole)
      ensures this.role == role && Valid()
      ensures notifications == InitialNotifications(role)
      ensures !showNotifications && !showSettings && !showAllModal && !isClearing && !isModalClosing
    {
      this.role := role;
      showNotifications := false;
      showSettings := false;
      showAllModal := false;
      isClearing := false;
      isModalClosing := false;
      notifications := InitialNotifications(role);
    }

    /** The dropdown's entries. */
    function Dropdown(): (dropdown: seq<Notification>)
      reads this
      ensures forall n :: n in dropdown <==> n in notifications && n.unread
    {
      Unread(notifications)
    }

    /** The "No new notifications." placeholder shows only when the dropdown is
        empty and no clearing animation runs. */
    predicate ShowsPlaceholder()
      reads this
    {
      Dropdown() == [] && !isClearing
    }

    /** The bell toggles the notifications dropdown and closes the settings menu. */
    method ClickBell()
      modifies this
      ensures showNotifications == !old(showNotifications) && !showSettings
      ensures Valid()
      ensures unchanged(this`notifications) && showAllModal == old(showAllModal)
      ensures isClearing == old(isClearing) && isModalClosing == old(isModalClosing)
    {
      showNotifications := !showNotifications;
      showSettings := false;
    }

    /** The gear toggles the settings menu and closes the notifications dropdown. */
    method ClickGear()
      modifies this
      ensures showSettings == !old(showSettings) && !showNotifications
      ensures Valid()
      ensures unchanged(this`notifications) && showAllModal == old(showAllModal)
      ensures isClearing == old(isClearing) && isModalClosing == old(isModalClosing)
    {
      showSettings := !showSettings;
      showNotifications := false;
    }

    /** A mouse press anywhere: each dropdown closes unless the press was
        inside it. */
    method MouseDown(insideNotifications: bool, insideSettings: bool)
      requires Valid()
      modifies this
      ensures showNotifications == (old(showNotifications) && insideNotifications)
      ensures showSettings == (old(showSettings) && insideSettings)
      ensures Valid()
      ensures unchanged(this`notifications) && showAllModal == old(showAllModal)
      ensures isClearing == old(isClearing) && isModalClosing == old(isModalClosing)
    {
      if !insideNotifications {
        showNotifications := false;
      }
      if !insideSettings {
        showSettings := false;
      }
    }

    /** "View all": the modal opens and the dropdown closes. */
    method ViewAll()
      requires Valid()
      modifies this
      ensures showAllModal && !showNotifications && showSettings == old(showSettings)
      ensures Valid()
      ensures unchanged(this`notifications)
      ensures isClearing == old(isClearing) && isModalClosing == old(isModalClosing)
    {
      showAllModal := true;
      showNotifications := false;
    }

    /** Closing the modal starts its exit animation. */
    method CloseModal()
      modifies this`isModalClosing
      ensures isModalClosing
    {
      isModalClosing := true;
    }

    /** The exit animation's timeout: the modal is gone. */
    method ModalClosed()
      modifies this`showAllModal, this`isModalClosing
      ensures !showAllModal && !isModalClosing
    {
      showAllModal := false;
      isModalClosing := false;
    }

    /** "Mark all as read" starts the clearing animation; the list itself is
        untouched until the animation's timeout. */
    method MarkAllRead()
      modifies this`isClearing
      ensures isClearing
    {
      isClearing := true;
    }

    /** The clearing animation's timeout: every notification is read. */
    method ClearingDone()
      modifies this`notifications, this`isClearing
      ensures notifications == MarkRead(old(notifications)) && !isClearing
      ensures Dropdown() == [] && ShowsPlaceholder()
    {
      notifications := MarkRead(notifications);
      isClearing := false;
      MarkReadClears(old(notifications));
    }

    /** The settings menu's Logout: a navigation to "/" and nothing else. */
    method SettingsLogout() returns (target: string)
      ensures target == SettingsLogoutTarget
    {
      target := SettingsLogoutTarget;
    }

    /** The avatar click: a navigation to the role's profile page. */
    method ProfileClick() returns (target: string)
      ensures target == ProfilePath(role)
    {
      target := ProfilePath(role);
    }
  }
}
