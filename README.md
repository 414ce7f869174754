# Jignasa portal — a verified model of its front-end core

Jignasa is a classroom portal with two roles. Students join live lectures
with their camera on; the join page is meant to sample frames for emotion
detection. As written, after a single click on "Join Session" its video
element never receives the stream, so no frame is posted; a double click
posts frames from the second stream. Faculty watch a live engagement monitor and manage lectures, students and attendance
from a dashboard. This project models the front end's decision logic in Dafny
and proves what that logic promises:

- the router's role guard and its sub-route tables, login and logout
  (`app.dfy`, module `App`);
- the sidebar's link tables and the exact-match highlighting rule
  (`sidebar.dfy`, module `Sidebar`);
- the header: its breadcrumb, its role-based notifications and unread badge,
  "mark all as read", the "view all" modal, its dropdowns and its profile and
  logout navigation (`header.dfy`, module `Header`);
- the faculty live monitor: the simulated mood scenarios, the engagement
  score and bands, the alert rule, the session clock and its controls, and
  the student thumbnails (`live_lecture.dfy`, module `LiveLecture`);
- the student join page: the camera and microphone request, the signalling
  socket, the sampling interval gated by three flags, the frame-capture
  guard with the video element that receives the stream only while on screen,
  and releasing everything on leave or unmount
  (`join_lecture.dfy`, module `JoinLecture`);
- the faculty dashboard: the card menus and their dispatch table, the
  fetches with their sample-data fallbacks, the add forms and their counters,
  the colour bands and the threshold inputs (`faculty_dashboard.dfy`,
  module `FacultyDashboard`).

`types.dfy` holds the user role and `Option`. `strings.dfy` models the
JavaScript string operations the core relies on: `split`,
`filter(Boolean)`, `join`, `padStart`, `parseInt`, `String(n)` and
`toUpperCase`.

State that a component changes in place becomes a class: `App.Portal`,
`Header.HeaderBar`, `LiveLecture.LiveSession`, `JoinLecture.JoinPage` and
`FacultyDashboard.Dashboard`. For the join page and the dashboard, each
handler is a method proved equal to a pure transition on a snapshot of the
state (`JoinLecture.Session`, `FacultyDashboard.Dash`). The lemmas about
those transitions carry the properties: an invariant kept by every step, and
the facts about each outcome. The browser's side is turned into parameters or
events: random numbers, timer ticks, media permission answers, socket
events, fetch results and the current date.

## Model

| member | source | states |
|---|---|---|
| `App.StudentRoute` | App.tsx:56-62 | every page the student layout's sub-route table yields is a student page |
| `App.FacultyRoute` | App.tsx:73-79 | every page the faculty layout's sub-route table yields is a faculty page |
| `App.SubRoute` | App.tsx:55-79 | the sub-route table of a role only yields pages of that role |
| `App.Resolve` | App.tsx:48-83 | the login page shows exactly at the root; any other page shows only to its own role, under its own area; every redirect goes to "/" or to the signed-in role's dashboard |
| `App.GuardRedirects` | App.tsx:52-83 | a path in an area whose role is not the signed-in one (or with nobody signed in) redirects to "/" whatever follows |
| `App.UnknownSubPathToDashboard` | App.tsx:62-79 | inside the signed-in role's own area, a sub-path its table does not know redirects to that role's dashboard |
| `App.RootIsLogin` | App.tsx:49 | "/" shows the login page whatever the role |
| `App.AreaPathSegments` | App.tsx:52-79 | an area path "/area/sub" splits into exactly the area and the sub-path |
| `App.ServedAt` | App.tsx:52-83 | a signed-in role is shown the page its table gives for a sub-path of its own area |
| `App.RedirectsSettle` | App.tsx:62-82 | following a redirect once lands on a page that is shown, so redirects never loop |
| `App.UserName` | App.tsx:26 | the header is always given a non-empty user name |
| `App.Portal.constructor` | App.tsx:36 | nobody is signed in at start |
| `App.Portal.HandleLogin` | App.tsx:38-40 | login stores the chosen role |
| `App.Portal.HandleLogout` | App.tsx:42-44 | logout clears the role, after which every student and faculty path redirects to "/" |
| `Sidebar.Links` | components/Sidebar.tsx:15-29 | a student sees three links and faculty five |
| `Sidebar.ActiveLinks` | components/Sidebar.tsx:13 | a link is highlighted exactly when the location equals its path |
| `Sidebar.LinksDistinct` | components/Sidebar.tsx:15-27 | the links of each table have distinct names (their list keys) and distinct paths |
| `Sidebar.AtMostOneActive` | components/Sidebar.tsx:39-47 | with distinct paths, at most one link of a list is highlighted |
| `Sidebar.SidebarHighlightsAtMostOne` | components/Sidebar.tsx:29-47 | for either role and any location, at most one sidebar link is highlighted |
| `Sidebar.NoPrefixHighlight` | components/Sidebar.tsx:44 | highlighting is not a prefix match: "/student/group/1" highlights no student link |
| `Sidebar.StudentLinkPaths` | components/Sidebar.tsx:16-18 | each student link's path is its sub-path under "/student" |
| `Sidebar.FacultyLinkPaths` | components/Sidebar.tsx:22-24 | the first three faculty links' paths are their sub-paths under "/faculty" |
| `Sidebar.FacultyMoreLinkPaths` | components/Sidebar.tsx:25-26 | the analytics and live-monitor links' paths are their sub-paths under "/faculty" |
| `Sidebar.StudentLinksServed` | components/Sidebar.tsx:15-19 | every student link leads to a student page, not a redirect |
| `Sidebar.FacultyLinksServed` | components/Sidebar.tsx:21-27 | every faculty link leads to a faculty page, not a redirect |
| `Sidebar.LinksServed` | components/Sidebar.tsx:29-42 | every link in a role's sidebar is served to that role |
| `Header.CapitalizeAll` | components/Header.tsx:183 | the parts are capitalised one for one, none added or lost |
| `Header.BreadcrumbShape` | components/Header.tsx:177-185 | the root gives "Portal"; a one-part path gives the role's portal name with "Dashboard"; otherwise the second part, capitalised |
| `Header.BreadcrumbIgnoresExtraSlashes` | components/Header.tsx:179 | empty parts from doubled slashes do not change the breadcrumb |
| `Header.Unread` | components/Header.tsx:218 | the dropdown holds exactly the unread notifications, and never more entries than the list |
| `Header.UnreadAppend` | components/Header.tsx:218 | filtering unread entries distributes over concatenation |
| `Header.BadgeIffUnread` | components/Header.tsx:324 | the red badge shows exactly when some notification is unread |
| `Header.InitialCounts` | components/Header.tsx:152-159 | each role starts with five notifications, three of them unread |
| `Header.MarkRead` | components/Header.tsx:199 | marking read keeps every entry and its fields except the unread flag, which drops |
| `Header.MarkReadClears` | components/Header.tsx:195-202 | after marking all read nothing is unread, the badge is gone, and marking again changes nothing |
| `Header.ModalNotifications` | components/Header.tsx:264-267 | the modal lists the current notifications followed by the role's two older ones |
| `Header.ModalAddsNoUnread` | components/Header.tsx:222-267 | the modal's extra entries are all read, so the modal has the same unread entries as the list |
| `Header.ProfilePathInArea` | components/Header.tsx:187-193 | the profile target is the "profile" sub-path of the role's own area |
| `Header.ProfileServed` | components/Header.tsx:187-193 | the profile target is served to the signed-in role |
| `Header.SettingsLogoutKeepsSession` | components/Header.tsx:400 | the settings menu's Logout shows the login page but keeps the role, so the dashboard is still served |
| `Header.HeaderBar.constructor` | components/Header.tsx:152-159 | the header starts with the role's notifications and everything closed |
| `Header.HeaderBar.Dropdown` | components/Header.tsx:218 | the dropdown holds exactly the unread notifications |
| `Header.HeaderBar.ClickBell` | components/Header.tsx:320 | the bell toggles the notifications and closes the settings, so at most one dropdown is open |
| `Header.HeaderBar.ClickGear` | components/Header.tsx:384 | the gear toggles the settings and closes the notifications |
| `Header.HeaderBar.MouseDown` | components/Header.tsx:161-175 | a press outside a dropdown closes it, and a press inside leaves it |
| `Header.HeaderBar.ViewAll` | components/Header.tsx:204-207 | "view all" opens the modal and closes the dropdown |
| `Header.HeaderBar.CloseModal` | components/Header.tsx:209-210 | closing starts the modal's exit animation |
| `Header.HeaderBar.ModalClosed` | components/Header.tsx:211-214 | after the animation the modal is gone |
| `Header.HeaderBar.MarkAllRead` | components/Header.tsx:195-196 | "mark all as read" starts the clearing animation and leaves the list alone |
| `Header.HeaderBar.ClearingDone` | components/Header.tsx:198-201 | after the animation every notification is read and the placeholder shows |
| `Header.HeaderBar.SettingsLogout` | components/Header.tsx:400 | the settings menu's Logout navigates to "/" |
| `Header.HeaderBar.ProfileClick` | components/Header.tsx:187-193 | the avatar navigates to the role's profile page |
| `LiveLecture.Scenario` | pages/LiveLecture.tsx:61-80 | every simulated distribution sums to 100% |
| `LiveLecture.EngagementScore` | pages/LiveLecture.tsx:91-92 | the score is focused plus half the confused plus a fifth of the bored, rounded half up |
| `LiveLecture.AlertFor` | pages/LiveLecture.tsx:95-112 | over 30% confused is critical with its fixed title, details and recommendation; otherwise over 20% confused or over 15% distracted is a warning; otherwise no alert |
| `LiveLecture.CriticalDetailsReadBack` | pages/LiveLecture.tsx:99 | the critical details start with the confused percentage, which reads back as that number |
| `LiveLecture.ScenarioOutcomes` | pages/LiveLecture.tsx:61-112 | the default, warning and critical scenarios score 71, 66 and 61 and raise no alert, a warning and a critical alert |
| `LiveLecture.BandOf` | pages/LiveLecture.tsx:261-262 | 70 and above is high, 40 and above moderate, below that low |
| `LiveLecture.BandMonotone` | pages/LiveLecture.tsx:261-262 | a higher engagement level never gets a lower band |
| `LiveLecture.BandsAgree` | pages/LiveLecture.tsx:261-267 | the label, the text colour and the bar colour use the same cut-offs |
| `LiveLecture.FormatTime` | pages/LiveLecture.tsx:131-135 | the clock has at least five characters, with the colon third from the end |
| `LiveLecture.FormatTimeReadBack` | pages/LiveLecture.tsx:131-135 | both fields are digits, the seconds below 60, 60 × minutes + seconds is the elapsed time, and the text is five characters exactly under 100 minutes |
| `LiveLecture.ClockField` | pages/LiveLecture.tsx:134 | a padded field reads back as its number and has two digits exactly below 100 |
| `LiveLecture.EmotionColorsDistinct` | pages/LiveLecture.tsx:137-145 | focused, confused and distracted get distinct tag colours, none of them the fallback grey |
| `LiveLecture.Relabel` | pages/LiveLecture.tsx:117 | a change draw of at most 0.6 keeps the label; above it the pick draw's quarter chooses focused, confused, bored or distracted, in that order |
| `LiveLecture.RefreshThumbnails` | pages/LiveLecture.tsx:115-118 | the refresh keeps the number of thumbnails and each one's id, name and activity; an emotion changes only on a draw above 0.6 |
| `LiveLecture.QuietDrawsKeepThumbnails` | pages/LiveLecture.tsx:117 | with no draw above 0.6 the thumbnails are unchanged |
| `LiveLecture.LiveSession.constructor` | pages/LiveLecture.tsx:13-42 | the monitor starts paused at 0:00 with its initial mood, 75% engagement, no alert and eight thumbnails |
| `LiveLecture.LiveSession.SetBanner` | pages/LiveLecture.tsx:95-112 | an alert fills the banner; no alert hides and empties it but keeps the last severity |
| `LiveLecture.LiveSession.UpdateAnalytics` | pages/LiveLecture.tsx:59-119 | a refresh sets the scenario's mood and score, the rule's banner and the refreshed thumbnails, and leaves the clock alone |
| `LiveLecture.LiveSession.Start` | pages/LiveLecture.tsx:121-124 | Start runs the session and refreshes the analytics at once: mood, engagement score, streams and alert banner follow the scenario's draw; starting a running session leaves every analytics field unchanged |
| `LiveLecture.LiveSession.Pause` | pages/LiveLecture.tsx:307 | Pause stops the session and keeps the clock |
| `LiveLecture.LiveSession.End` | pages/LiveLecture.tsx:313 | End stops the session and resets the clock to zero |
| `LiveLecture.LiveSession.Tick` | pages/LiveLecture.tsx:45-53 | the clock advances by exactly one per tick, and only while the session runs |
| `LiveLecture.LiveSession.Poll` | pages/LiveLecture.tsx:121-128 | a poll while the session runs refreshes mood, engagement score, streams and alert banner from the draw; a poll of a stopped session leaves every analytics field unchanged |
| `JoinLecture.SyncSampling` | pages/JoinLecture.tsx:29-42 | after a change of its flags the effect leaves an interval exactly when camera, detection and connection all hold |
| `JoinLecture.SyncSamplingValid` | pages/JoinLecture.tsx:29-42 | the effect's clear-then-restart keeps exactly one live interval while sampling, and none otherwise |
| `JoinLecture.InitialValid` | pages/JoinLecture.tsx:7-16 | the page starts with detection on and nothing acquired |
| `JoinLecture.StartKeepsValid` | pages/JoinLecture.tsx:44-48 | starting clears the permission error |
| `JoinLecture.GrantKeepsValid` | pages/JoinLecture.tsx:48-59 | the corrected grant keeps every resource owned by a ref; on a live page without a stream it turns the camera on, hands the stream to the video element and opens a socket; the connected flag is unchanged |
| `JoinLecture.DenyKeepsValid` | pages/JoinLecture.tsx:61-65 | a refusal shows the one fixed message, turns the camera off and opens no socket |
| `JoinLecture.ConnectedKeepsValid` | pages/JoinLecture.tsx:81-86 | a connect marks the page connected and sends one join request for the lecture as a student |
| `JoinLecture.LostKeepsValid` | pages/JoinLecture.tsx:88-96 | a disconnect or connection error marks the page disconnected and stops sampling |
| `JoinLecture.ToggleKeepsValid` | pages/JoinLecture.tsx:248 | the switch flips detection, and flipping twice restores the flags |
| `JoinLecture.StopReleasesAll` | pages/JoinLecture.tsx:99-120 | stopping releases the stream, the socket and the interval, empties every ref, and drops the camera and connection flags |
| `JoinLecture.StopIdempotent` | pages/JoinLecture.tsx:99-120 | a second stop changes nothing |
| `JoinLecture.UnmountReleasesAll` | pages/JoinLecture.tsx:22-26 | a page that goes away holds no stream, socket or interval |
| `JoinLecture.CaptureGuard` | pages/JoinLecture.tsx:122-162 | a frame is posted only with video, canvas, context, camera on, connection up, a stream attached to the video and a non-zero video size, at that size; the upload's outcome changes nothing |
| `JoinLecture.NoFramePosted` | pages/JoinLecture.tsx:49-56 | while the video element has no stream, capturing and every tick of the interval change nothing, whatever size the camera delivers |
| `JoinLecture.SingleJoinPostsNothing` | pages/JoinLecture.tsx:49-56 | as written, one click and a connect reach a sampling state with a live interval whose ticks post nothing, at any video size |
| `JoinLecture.SamplingPostsFrame` | pages/JoinLecture.tsx:122-162 | with the stream handed to the video on mount, every tick of a valid sampling page with video, canvas and context posts exactly one frame at the video's size |
| `JoinLecture.CorrectedJoinSamples` | pages/JoinLecture.tsx:48-59 | with the corrected grant, one click and a connect sample, and the first tick posts one frame for the lecture |
| `JoinLecture.DoubleGrantAttaches` | pages/JoinLecture.tsx:48-59 | as written, the first grant leaves the video without a stream; a second grant while the camera is on attaches the second stream, and after the connect a tick posts a frame from it |
| `JoinLecture.LateGrantLeaks` | pages/JoinLecture.tsx:48-59 | as written, a grant that arrives after the page is gone leaves a live stream and an open socket |
| `JoinLecture.DoubleGrantLeaks` | pages/JoinLecture.tsx:48-59 | as written, two grants from two clicks leave the first stream and socket live after a stop |
| `JoinLecture.CorrectedGrantReleases` | pages/JoinLecture.tsx:48-59 | with the corrected grant, both sequences leave nothing live |
| `JoinLecture.JoinPage.constructor` | pages/JoinLecture.tsx:7-16 | the page mounts in the initial state |
| `JoinLecture.JoinPage.RunSamplingEffect` | pages/JoinLecture.tsx:29-42 | the effect performs exactly the sampling transition |
| `JoinLecture.JoinPage.StartSession` | pages/JoinLecture.tsx:44-48 | the join or retry button performs the start transition |
| `JoinLecture.JoinPage.AcquireMedia` | pages/JoinLecture.tsx:49-59 | the stream and a new socket go into their refs, the camera is marked active, and the stream reaches the video only if the camera was already active |
| `JoinLecture.JoinPage.MediaGranted` | pages/JoinLecture.tsx:48-59 | a granted request performs the corrected grant transition, ending with the video element handed the stream |
| `JoinLecture.JoinPage.MediaDenied` | pages/JoinLecture.tsx:61-65 | a refused request performs the denial transition |
| `JoinLecture.JoinPage.VideoMounted` | pages/JoinLecture.tsx:190-197 | the video element mounting with the camera on receives the stream the ref holds |
| `JoinLecture.JoinPage.OnConnect` | pages/JoinLecture.tsx:81-86 | the socket's connect handler performs the connect transition |
| `JoinLecture.JoinPage.OnDisconnect` | pages/JoinLecture.tsx:88-91 | the disconnect handler performs the lost-connection transition |
| `JoinLecture.JoinPage.OnConnectError` | pages/JoinLecture.tsx:93-96 | the connection-error handler performs the same transition as a disconnect |
| `JoinLecture.JoinPage.ToggleDetection` | pages/JoinLecture.tsx:248 | the switch performs the toggle transition |
| `JoinLecture.JoinPage.ReleaseRefs` | pages/JoinLecture.tsx:100-117 | each resource a ref holds is released and the ref emptied, and nothing else changes |
| `JoinLecture.JoinPage.StopSession` | pages/JoinLecture.tsx:99-120 | stopping performs the stop transition |
| `JoinLecture.JoinPage.LeaveSession` | pages/JoinLecture.tsx:164-167 | leaving stops the session and navigates to "/student/dashboard" |
| `JoinLecture.JoinPage.UnmountPage` | pages/JoinLecture.tsx:22-26 | unmounting stops the session and marks the page gone |
| `JoinLecture.JoinPage.IntervalFired` | pages/JoinLecture.tsx:31-33 | a tick of a live interval runs the capture guard |
| `FacultyDashboard.MenuOptions` | pages/FacultyDashboard.tsx:401-426 | the three cards show two, two and one menu options |
| `FacultyDashboard.DispatchTable` | pages/FacultyDashboard.tsx:360-393 | exactly the displayed options open a modal, no two open the same one, and none opens a modal that is never shown |
| `FacultyDashboard.ToggleCard` | pages/FacultyDashboard.tsx:446 | a card's button closes its own open menu and otherwise opens its menu, so at most one menu is open |
| `FacultyDashboard.PressOutside` | pages/FacultyDashboard.tsx:119-124 | a press outside the open dropdown closes it, and a press inside keeps it |
| `FacultyDashboard.MenuButtonCannotClose` | pages/FacultyDashboard.tsx:119-124 | as written, pressing the open card's button closes the menu on mouse-down and reopens it on click |
| `FacultyDashboard.PressMenuButton` | pages/FacultyDashboard.tsx:446 | with the button counted as part of its menu, pressing the open card's button closes the menu, and pressing another card's button opens that card's |
| `FacultyDashboard.MenuButtonPressEvents` | pages/FacultyDashboard.tsx:119-124 | a mouse-down outside the dropdown followed by the click gives the as-written press; the click alone gives the intended one |
| `FacultyDashboard.StudentTone` | pages/FacultyDashboard.tsx:771-772 | a missing percentage counts as 0 and is red |
| `FacultyDashboard.ReportTone` | pages/FacultyDashboard.tsx:873 | report rows are green or red, never yellow |
| `FacultyDashboard.TonesMonotone` | pages/FacultyDashboard.tsx:771-1004 | in all three bandings, a higher figure never gets a lower tone |
| `FacultyDashboard.ListAndReportAgree` | pages/FacultyDashboard.tsx:771-873 | the student list and the report both mark red exactly the figures below 75 |
| `FacultyDashboard.MockTones` | pages/FacultyDashboard.tsx:196-201 | the sample students band green, yellow, red and green, and the report rows band as their percentages say |
| `FacultyDashboard.ParseThresholdKeeps` | pages/FacultyDashboard.tsx:903 | a typed integer is stored as it is, without clamping to 0-100, and a fractional part is dropped |
| `FacultyDashboard.ParseThresholdFallsBack` | pages/FacultyDashboard.tsx:1126 | an empty or non-numeric input stores 0 |
| `FacultyDashboard.StepKeepsQuiet` | pages/FacultyDashboard.tsx:66-71 | no event opens the attendance-settings or engagement modals, or changes the thresholds they hold |
| `FacultyDashboard.RunKeepsQuiet` | pages/FacultyDashboard.tsx:66-71 | after any sequence of events those four modals are still closed and the thresholds are still 75 and 60 |
| `FacultyDashboard.InitialQuiet` | pages/FacultyDashboard.tsx:57-118 | the dashboard starts with 3 lectures today, 142 students, everything closed and thresholds of 75 and 60 |
| `FacultyDashboard.ChoiceClosesMenu` | pages/FacultyDashboard.tsx:360-393 | a menu choice always closes the menu, opens exactly the modal its table entry names, and starts loading for a view |
| `FacultyDashboard.FetchOutcomes` | pages/FacultyDashboard.tsx:133-207 | a good answer replaces the list and its count; an error answer installs the sample rows and keeps the count; a thrown request changes nothing; loading always ends |
| `FacultyDashboard.LectureSubmitCounts` | pages/FacultyDashboard.tsx:156-182 | the response status is ignored; the count grows by one exactly for a lecture dated today; the modal closes and the form resets to today; a thrown request changes nothing |
| `FacultyDashboard.StudentSubmitCounts` | pages/FacultyDashboard.tsx:209-232 | adding a student adds exactly one to the total, resets the form and closes the modal; a thrown request changes nothing |
| `FacultyDashboard.BlockedSubmitChangesNothing` | pages/FacultyDashboard.tsx:637-828 | a submit with the modal closed, a request in flight or a required field empty changes nothing, and a freshly reset form cannot be submitted |
| `FacultyDashboard.Dashboard.constructor` | pages/FacultyDashboard.tsx:57-118 | the dashboard mounts in its initial state |
| `FacultyDashboard.Dashboard.PressMenu` | pages/FacultyDashboard.tsx:446 | its body is the button's click handler, the toggle of `FacultyDashboard.ToggleCard`; a physical press as written is `PressElsewhere(false)` followed by this click |
| `FacultyDashboard.Dashboard.PressElsewhere` | pages/FacultyDashboard.tsx:119-124 | a press elsewhere performs the outside-press transition |
| `FacultyDashboard.Dashboard.HandleMenuAction` | pages/FacultyDashboard.tsx:360-393 | a menu choice performs the dispatch transition |
| `FacultyDashboard.Dashboard.CloseModal` | pages/FacultyDashboard.tsx:572 | a modal's close or cancel button closes that modal and nothing else |
| `FacultyDashboard.Dashboard.TodaysLecturesSettled` | pages/FacultyDashboard.tsx:133-154 | the lecture fetch's outcome performs its transition |
| `FacultyDashboard.Dashboard.StudentListSettled` | pages/FacultyDashboard.tsx:185-207 | the student fetch's outcome performs its transition |
| `FacultyDashboard.Dashboard.AttendanceReportSettled` | pages/FacultyDashboard.tsx:235-256 | the report fetch's outcome performs its transition |
| `FacultyDashboard.Dashboard.EditNewLecture` | pages/FacultyDashboard.tsx:645-700 | editing the open add-lecture form replaces the draft |
| `FacultyDashboard.Dashboard.EditNewStudent` | pages/FacultyDashboard.tsx:811-823 | editing the open add-student form replaces the draft |
| `FacultyDashboard.Dashboard.HandleAddLectureSubmit` | pages/FacultyDashboard.tsx:156-182 | submitting a complete lecture form while nothing is loading performs the submission transition |
| `FacultyDashboard.Dashboard.HandleAddStudentSubmit` | pages/FacultyDashboard.tsx:209-232 | submitting a complete student form while nothing is loading performs the submission transition |
| `Strings.SplitJoin` | components/Header.tsx:183-184 | splitting the " / "-joined parts again gives back the parts, when no part contains a slash |
| `Strings.SegmentsAtSlash` | components/Header.tsx:179 | the non-empty parts of "a/b" are those of a followed by those of b |
| `Strings.ToUpper` | components/Header.tsx:183 | a lower-case ASCII letter becomes its upper-case partner and every other character is kept |
| `Strings.Capitalize` | components/Header.tsx:183 | the first character is upper-cased and the rest kept |
| `Strings.ToDecimal` | pages/LiveLecture.tsx:134 | a number's text is a non-empty run of digits with no leading zero |
| `Strings.PadStart2` | pages/LiveLecture.tsx:134 | padding gives at least two characters, keeps the text at the end and fills the front with zeros |
| `Strings.PadStart2Value` | pages/LiveLecture.tsx:134 | padding to two digits keeps the digits' value |
| `Strings.ToDecimalValue` | pages/LiveLecture.tsx:134 | a number's decimal text reads back as the number |
| `Strings.ParseIntToString` | pages/FacultyDashboard.tsx:903 | parseInt of an integer's text, followed by anything that does not start with a digit, gives back the integer |

## Findings

| source | as written | input that shows it | evidently intended | confidence | as-written member | corrected member |
|---|---|---|---|---|---|---|
| pages/JoinLecture.tsx:48-59 | a granted media request always stores its stream and opens a socket, even after the page is gone or while another stream is held | "Join Session", then leave before the browser answers, then the browser grants; or two clicks on "Join Session" before the answer | a late or extra grant is released on the spot, so leaving or stopping leaves no camera stream or socket open | medium, not executed | `JoinLecture.LateGrantLeaks` | `JoinLecture.CorrectedGrantReleases` |
| pages/FacultyDashboard.tsx:119-124 | the document's mouse-down handler treats the card's menu button as outside the dropdown | open card 1's menu, then press its button again: mouse-down closes the menu and the click, seeing it closed, reopens it | pressing the open card's button closes its menu | medium, not executed | `FacultyDashboard.MenuButtonCannotClose` | `FacultyDashboard.PressMenuButton` |
| pages/JoinLecture.tsx:49-56 | the stream is handed to the video element only if the element exists, and the element is rendered only while the camera is already marked active | one click on "Join Session", permission granted, socket connects: sampling runs, but the video has no stream, reports size 0, and no frame is posted | the video element picks up the stream when it mounts, so a sampling page posts a frame every five seconds | high, not executed | `JoinLecture.SingleJoinPostsNothing` | `JoinLecture.CorrectedJoinSamples` |

For the join page, `JoinLecture.GrantAsWritten` is the grant as written.
`JoinLecture.Grant`, the corrected grant, releases a late or extra grant and
hands the stream to the video element as it mounts (`JoinLecture.AttachStream`).
It drives `JoinLecture.JoinPage.MediaGranted`, and `JoinLecture.GrantKeepsValid`
proves that it keeps every resource owned by a ref and the video showing the
stream. For the dashboard, `FacultyDashboard.PressMenuButtonAsWritten` is the
press as written. The class's `FacultyDashboard.Dashboard.PressMenu` is the
button's click handler as written; a physical press, as written, is
`PressElsewhere(false)` followed by it (`FacultyDashboard.MenuButtonPressEvents`).
The press the design intends is the click alone, `FacultyDashboard.PressMenuButton`.

## Left out

- Rendering, styling, icons, charts and animation timing are not modelled. The
  exit animations of the header are two events: start, and the timeout firing.
- Randomness (`Math.random`) is a parameter: a `real` for the scenario and a
  list of draws for the thumbnails. Timers are events. The current date is a
  `today` string.
- The browser's media API, the socket library and `fetch` are outcomes passed
  in as events. The socket's URL and query options, the frame's JPEG encoding
  and the upload's body are not modelled, beyond the lecture id and the
  student id 1 that the upload carries.
- Floating point: the engagement score is computed exactly, in tenths over
  naturals. The percentages of the dashboard are Dafny `real`s.
- `Strings.ToUpper` covers ASCII letters only, not full Unicode case mapping.
- `Strings.ParseInt` leaves out hexadecimal prefixes, skips only ASCII white
  space where JavaScript also skips Unicode white space and line terminators,
  and returns an unbounded integer where JavaScript loses precision above
  2^53.
- Router details are left out: case-insensitive matching, trailing-slash
  handling beyond the empty segments that `Segments` drops, and the first
  render before the role effect has run.
- The React stale-closure semantics of the sampling interval are not
  modelled. A tick reads the current flags, and these equal the captured ones
  because the interval is recreated whenever they change.
- The dashboard's engagement-analytics, weekly-trends and settings fetches and
  saves (pages/FacultyDashboard.tsx:258-358) are not modelled. They are
  reachable only from the four modals that never open
  (`FacultyDashboard.RunKeepsQuiet`).
- The dashboard keeps its nine modal flags as the set of open modals.
- `FacultyDashboard.Dashboard.HandleAddLectureSubmit` and
  `FacultyDashboard.Dashboard.HandleAddStudentSubmit` model a submission and
  its answer as one step. The loading flag raised while the answer is pending
  is not visible, and the `alert` dialog is a message appended to a log.
- The browser's form validation is modelled as non-empty required fields. The
  e-mail input's format check is not modelled.
- Fetches that overlap share the single loading flag. The model treats each
  settled fetch on its own.
- App.UserName: the contract states only that the name is non-empty. The two names are constants the header only displays.
- The sidebar's Logout button calls `App.Portal.HandleLogout` and has no
  member of its own.
- The backend (backend/) and the static pages outside the core are not part of
  this model.
