/** The faculty dashboard: three statistic cards, each with a menu whose
    options open a modal (and start a fetch), the add-lecture and add-student
    forms that bump the card counters, the fetches that fall back to fixed
    sample data, and the colour bands of the attendance and engagement
    tables. The backend's answers and the current date are parameters. */
module FacultyDashboard {

  import opened Types
  import opened Strings

  // ---------------------------------------------------------------------------
  // Records shown by the modals

  datatype Lecture = Lecture(id: Option<nat>, title: string, groupName: string, lectureDate: string,
                             startTime: string, endTime: string, location: string)

  datatype Student = Student(id: Option<nat>, fullName: string, rollNumber: string, email: string,
                             classGroup: string, attendancePercentage: Option<real>)

  datatype AttendanceRecord = AttendanceRecord(studentName: string, rollNumber: string, classGroup: string,
                                               totalLectures: nat, attendedLectures: nat, percentage: real)

  /** A blank add-lecture form, dated `today`. */
  function EmptyLecture(today: string): Lecture
  {
    Lecture(None, "", "", today, "", "", "")
  }

  /** A blank add-student form. */
  const EmptyStudent := Student.Student(None, "", "", "", "", Some(0.0))

  /** The sample lectures shown when the backend answers with an error. */
  const MockLectures: seq<Lecture> := [
    Lecture(Some(101), "Data Structures", "CS-301", "2023-10-24", "09:00", "10:30", "Hall A"),
    Lecture(Some(102), "Advanced Algorithms", "CS-402", "2023-10-24", "11:00", "12:30", "Lab 3"),
    Lecture(Some(103), "Machine Learning", "CS-501", "2023-10-24", "14:00", "15:30", "Hall B")
  ]

  const MockStudents: seq<Student> := [
    Student.Student(Some(1), "Alice Johnson", "CS-2024-001", "alice@uni.edu", "CS-301", Some(95.0)),
    Student.Student(Some(2), "Bob Smith", "CS-2024-002", "bob@uni.edu", "CS-301", Some(88.0)),
    Student.Student(Some(3), "Charlie Davis", "CS-2024-003", "charlie@uni.edu", "CS-402", Some(72.0)),
    Student.Student(Some(4), "Diana Evans", "CS-2024-004", "diana@uni.edu", "CS-101", Some(91.0))
  ]

  const MockReport: seq<AttendanceRecord> := [
    AttendanceRecord("Alice Johnson", "CS-001", "CS-301", 40, 38, 95.0),
    AttendanceRecord("Bob Smith", "CS-002", "CS-301", 40, 35, 87.5),
    AttendanceRecord("Charlie Davis", "CS-003", "CS-301", 40, 28, 70.0),
    AttendanceRecord("Diana Evans", "CS-004", "CS-301", 40, 36, 90.0)
  ]

  /** How a fetch ended: a successful response with its rows, a response
      with an error status, or a request that threw. */
  datatype Fetched<T> = Ok(rows: seq<T>) | NotOk | Threw

  /** How a form submission ended. */
  datatype Posted = Answered(ok: bool) | PostThrew

  // ---------------------------------------------------------------------------
  // Cards, menus and modals

  datatype Modal =
    | ScheduleView | AddLecture | StudentList | AddStudent | AttendanceReport
    | AttendanceSettings | EngagementAnalytics | WeeklyTrends | EngagementSettings

  /** The modals nothing on the page ever opens. */
  const NeverShown: set<Modal> := {AttendanceSettings, EngagementAnalytics, WeeklyTrends, EngagementSettings}

  /** The menu options of each statistic card, by card id. */
  function MenuOptions(card: int): (options: seq<string>)
    ensures card == 1 || card == 2 ==> |options| == 2
    ensures card == 3 ==> |options| == 1
    ensures card !in {1, 2, 3} ==> options == []
  {
    if card == 1 then ["View Today’s Schedule", "Add New Lecture"]
    else if card == 2 then ["View Student List", "Add Students"]
    else if card == 3 then ["View Attendance Report"]
    else []
  }

  /** The modal a menu choice opens, if any. */
  function Dispatch(card: int, option: int): Option<Modal>
  {
    if card == 1 && option == 0 then Some(ScheduleView)
    else if card == 1 && option == 1 then Some(AddLecture)
    else if card == 2 && option == 0 then Some(StudentList)
    else if card == 2 && option == 1 then Some(AddStudent)
    else if card == 3 && option == 0 then Some(AttendanceReport)
    else None
  }

  /** The modals whose opening also starts a fetch. */
  predicate Fetches(m: Modal)
  {
    m == ScheduleView || m == StudentList || m == AttendanceReport
  }

  /** Exactly the options a card displays open a modal, no two options open
      the same one, and no choice opens a modal that is never shown. */
  lemma DispatchTable(card: int, option: int, card': int, option': int)
    ensures Dispatch(card, option).Some? <==> 0 <= option < |MenuOptions(card)|
    ensures Dispatch(card, option).Some? ==> Dispatch(card, option).value !in NeverShown
    ensures Dispatch(card, option).Some? && Dispatch(card, option) == Dispatch(card', option')
      ==> card == card' && option == option'
  {
  }

  /** The menu button of a card: it closes that card's open menu, and opens
      its own otherwise, so at most one menu is ever open. */
  function ToggleCard(active: Option<int>, card: int): (r: Option<int>)
    ensures r == Some(card) <==> active != Some(card)
    ensures r != Some(card) ==> r == None
  {
    if active == Some(card) then None else Some(card)
  }

  /** A mouse press on the document: outside the open dropdown it closes it. */
  function PressOutside(active: Option<int>, insideDropdown: bool): (r: Option<int>)
    ensures r == None || r == active
    ensures !insideDropdown ==> r == None
  {
    if active.Some? && !insideDropdown then None else active
  }

  /** Pressing a card's menu button, as written: the press reaches the
      document's handler first (the button lies outside the dropdown), and
      the click that follows toggles from the state that press left. */
  function PressMenuButtonAsWritten(active: Option<int>, card: int): Option<int>
  {
    ToggleCard(PressOutside(active, false), card)
  }

  /** As written, the button of the open card cannot close its menu. */
  lemma MenuButtonCannotClose(card: int)
    ensures PressMenuButtonAsWritten(Some(card), card) == Some(card)
  {
  }

  /** Pressing a card's menu button with the button counted as part of its
      menu: the toggle decides alone. */
  function PressMenuButton(active: Option<int>, card: int): (r: Option<int>)
    ensures active == Some(card) ==> r == None
    ensures active != Some(card) ==> r == Some(card)
  {
    ToggleCard(active, card)
  }

  // ---------------------------------------------------------------------------
  // Colour bands

  datatype Tone = Green | Yellow | Red

  function ToneRank(t: Tone): nat
  {
    match t
    case Green => 2
    case Yellow => 1
    case Red => 0
  }

  /** The student list's attendance colour; a missing percentage counts as 0. */
  function StudentTone(percentage: Option<real>): (t: Tone)
    ensures percentage.None? ==> t == Red
  {
    var p := if percentage.Some? then percentage.value else 0.0;
    if p >= 90.0 then Green else if p >= 75.0 then Yellow else Red
  }

  /** The attendance report's colour. */
  function ReportTone(percentage: real): (t: Tone)
    ensures t != Yellow
  {
    if percentage >= 75.0 then Green else Red
  }

  /** The colour of a class's average engagement bar. */
  function ClassTone(score: real): Tone
  {
    if score >= 75.0 then Green else if score >= 60.0 then Yellow else Red
  }

  /** Every band is monotone: a higher percentage never gets a lower tone. */
  lemma TonesMonotone(p: real, q: real)
    requires p <= q
    ensures ToneRank(StudentTone(Some(p))) <= ToneRank(StudentTone(Some(q)))
    ensures ToneRank(ReportTone(p)) <= ToneRank(ReportTone(q))
    ensures ToneRank(ClassTone(p)) <= ToneRank(ClassTone(q))
  {
  }

  /** The student list and the report agree on who is below 75%. */
  lemma ListAndReportAgree(p: real)
    ensures StudentTone(Some(p)) == Red <==> ReportTone(p) == Red
    ensures StudentTone(Some(p)) == Red <==> p < 75.0
  {
  }

  /** The sample rows: Bob's 88% is yellow in the list, Charlie's is red in
      both tables, the others are green. */
  lemma MockTones()
    ensures StudentTone(MockStudents[0].attendancePercentage) == Green
    ensures StudentTone(MockStudents[1].attendancePercentage) == Yellow
    ensures StudentTone(MockStudents[2].attendancePercentage) == Red
    ensures StudentTone(MockStudents[3].attendancePercentage) == Green
    ensures ReportTone(MockReport[1].percentage) == Green && ReportTone(MockReport[2].percentage) == Red
  {
  }

  // ---------------------------------------------------------------------------
  // Threshold inputs

  /** `parseInt(input) || 0`: the parsed integer, or 0 when nothing parses. */
  function ParseThreshold(input: string): int
  {
    match ParseInt(input)
    case Some(v) => v
    case None => 0
  }

  /** A typed number is stored as is, without clamping to 0..100, and a
      fractional part is dropped. */
  lemma ParseThresholdKeeps(v: int, rest: string)
    requires rest == [] || !IsDigit(rest[0])
    ensures ParseThreshold(IntToString(v) + rest) == v
  {
    ParseIntToString(v, rest);
  }

  /** An empty or non-numeric input stores 0. */
  lemma ParseThresholdFallsBack(input: string)
    requires input == [] || (!IsDigit(input[0]) && !IsSpace(input[0]) && input[0] != '-' && input[0] != '+')
    ensures ParseThreshold(input) == 0
  {
  }

  // ---------------------------------------------------------------------------
  // The page

  /** The dashboard's state; the nine modal flags are the set of open modals. */
  datatype Dash = Dash(
    activeCardId: Option<int>,
    open: set<Modal>,
    isLoading: bool,
    todaysLectures: seq<Lecture>,
    todaysCount: int,
    newLecture: Lecture,
    studentList: seq<Student>,
    totalStudentsCount: int,
    newStudent: Student,
    attendanceReport: seq<AttendanceRecord>,
    attendanceThreshold: int,
    engagementThreshold: int,
    alerts: seq<string>)

  function InitialDash(today: string): Dash
  {
    Dash(None, {}, false, [], 3, EmptyLecture(today), [], 142, EmptyStudent, [], 75, 60, [])
  }

  /** The browser submits the add-lecture form only with all six inputs
      filled, since each is `required`. */
  predicate LectureComplete(l: Lecture)
  {
    l.title != [] && l.groupName != [] && l.lectureDate != [] && l.startTime != []
    && l.endTime != [] && l.location != []
  }

  /** The add-student form's four `required` inputs. The browser's check of
      the e-mail address's format is not part of this model. */
  predicate StudentComplete(st: Student)
  {
    st.fullName != [] && st.rollNumber != [] && st.email != [] && st.classGroup != []
  }

  /** A form can be submitted: its modal is open, its submit button is not
      disabled by a pending request, and every required input is filled. */
  predicate CanSubmitLecture(d: Dash)
  {
    AddLecture in d.open && !d.isLoading && LectureComplete(d.newLecture)
  }

  predicate CanSubmitStudent(d: Dash)
  {
    AddStudent in d.open && !d.isLoading && StudentComplete(d.newStudent)
  }

  const LectureAdded := "Lecture scheduled successfully!"
  const StudentAdded := "Student added successfully!"

  datatype Event =
    | PressMenu(card: int)
    | PressElsewhere(insideDropdown: bool)
    | ChooseOption(card: int, option: int)
    | Close(modal: Modal)
    | LecturesFetched(lectures: Fetched<Lecture>)
    | StudentsFetched(students: Fetched<Student>)
    | ReportFetched(records: Fetched<AttendanceRecord>)
    | EditLecture(lecture: Lecture)
    | EditStudent(student: Student)
    | SubmitLecture(lecturePost: Posted, today: string)
    | SubmitStudent(studentPost: Posted)
    | EditAttendanceThreshold(attendanceInput: string)
    | EditEngagementThreshold(engagementInput: string)

  /** `handleMenuAction`: the menu closes, the chosen modal opens and, for a
      view, its fetch starts. */
  function ChooseMenuOption(d: Dash, card: int, option: int): Dash
  {
    match Dispatch(card, option)
    case None => d.(activeCardId := None)
    case Some(m) =>
      d.(activeCardId := None, open := d.open + {m}, isLoading := if Fetches(m) then true else d.isLoading)
  }

  /** `fetchTodaysLectures` once it settles. */
  function LecturesArrive(d: Dash, r: Fetched<Lecture>): Dash
  {
    match r
    case Ok(rows) => d.(todaysLectures := rows, todaysCount := |rows|, isLoading := false)
    case NotOk => d.(todaysLectures := MockLectures, isLoading := false)
    case Threw => d.(isLoading := false)
  }

  /** `fetchStudentList` once it settles. */
  function StudentsArrive(d: Dash, r: Fetched<Student>): Dash
  {
    match r
    case Ok(rows) => d.(studentList := rows, totalStudentsCount := |rows|, isLoading := false)
    case NotOk => d.(studentList := MockStudents, isLoading := false)
    case Threw => d.(isLoading := false)
  }

  /** `fetchAttendanceReport` once it settles. */
  function ReportArrives(d: Dash, r: Fetched<AttendanceRecord>): Dash
  {
    match r
    case Ok(rows) => d.(attendanceReport := rows, isLoading := false)
    case NotOk => d.(attendanceReport := MockReport, isLoading := false)
    case Threw => d.(isLoading := false)
  }

  /** `handleAddLectureSubmit`: any answer counts as success (the status is
      or-ed with true); the count grows when the lecture is for today, the
      modal closes and the form resets to today. */
  function LectureSubmitted(d: Dash, p: Posted, today: string): Dash
  {
    if p.PostThrew? then d.(isLoading := false)
    else d.(
      todaysCount := if d.newLecture.lectureDate == today then d.todaysCount + 1 else d.todaysCount,
      open := d.open - {AddLecture},
      newLecture := EmptyLecture(today),
      alerts := d.alerts + [LectureAdded],
      isLoading := false)
  }

  /** `handleAddStudentSubmit`: any answer counts as success. */
  function StudentSubmitted(d: Dash, p: Posted): Dash
  {
    if p.PostThrew? then d.(isLoading := false)
    else d.(
      totalStudentsCount := d.totalStudentsCount + 1,
      open := d.open - {AddStudent},
      newStudent := EmptyStudent,
      alerts := d.alerts + [StudentAdded],
      isLoading := false)
  }

  /** One event. Form inputs and buttons act only while their modal is open,
      since they are rendered only then; a form is submitted only when the
      browser lets it through. */
  function Step(d: Dash, e: Event): Dash
  {
    match e
    case PressMenu(card) => d.(activeCardId := PressMenuButton(d.activeCardId, card))
    case PressElsewhere(inside) => d.(activeCardId := PressOutside(d.activeCardId, inside))
    case ChooseOption(card, option) =>
      if d.activeCardId == Some(card) then ChooseMenuOption(d, card, option) else d
    case Close(m) => d.(open := d.open - {m})
    case LecturesFetched(r) => LecturesArrive(d, r)
    case StudentsFetched(r) => StudentsArrive(d, r)
    case ReportFetched(r) => ReportArrives(d, r)
    case EditLecture(l) => if AddLecture in d.open then d.(newLecture := l) else d
    case EditStudent(s) => if AddStudent in d.open then d.(newStudent := s) else d
    case SubmitLecture(p, today) => if CanSubmitLecture(d) then LectureSubmitted(d, p, today) else d
    case SubmitStudent(p) => if CanSubmitStudent(d) then StudentSubmitted(d, p) else d
    case EditAttendanceThreshold(input) =>
      if AttendanceSettings in d.open then d.(attendanceThreshold := ParseThreshold(input)) else d
    case EditEngagementThreshold(input) =>
      if EngagementSettings in d.open then d.(engagementThreshold := ParseThreshold(input)) else d
  }

  function Run(d: Dash, events: seq<Event>): Dash
    decreases |events|
  {
    if events == [] then d else Run(Step(d, events[0]), events[1..])
  }

  /** A physical press on a card's menu button is, as written, the document's
      mouse-down outside the dropdown followed by the button's click handler;
      with the button counted as part of its menu it is the click alone. */
  lemma MenuButtonPressEvents(d: Dash, card: int)
    ensures Run(d, [PressElsewhere(false), PressMenu(card)]).activeCardId
         == PressMenuButtonAsWritten(d.activeCardId, card)
    ensures Run(d, [PressMenu(card)]).activeCardId == PressMenuButton(d.activeCardId, card)
  {
    var d1 := Step(d, PressElsewhere(false));
    assert [PressElsewhere(false), PressMenu(card)][1..] == [PressMenu(card)];
    assert Run(d1, [PressMenu(card)]) == Run(Step(d1, PressMenu(card)), []);
    assert Run(d, [PressMenu(card)]) == Run(Step(d, PressMenu(card)), []);
  }

  /** The modals that nothing opens are closed, so the settings they hold
      keep their initial values. */
  predicate Quiet(d: Dash)
  {
    d.open !! NeverShown && d.attendanceThreshold == 75 && d.engagementThreshold == 60
  }

  lemma StepKeepsQuiet(d: Dash, e: Event)
    requires Quiet(d)
    ensures Quiet(Step(d, e))
  {
    match e
    case ChooseOption(card, option) =>
      DispatchTable(card, option, card, option);
    case _ =>
  }

  /** Whatever the faculty member does, the four settings and engagement
      modals stay closed and both thresholds stay at 75 and 60. */
  lemma {:induction false} RunKeepsQuiet(d: Dash, events: seq<Event>)
    requires Quiet(d)
    ensures Quiet(Run(d, events))
    decreases |events|
  {
    if events != [] {
      StepKeepsQuiet(d, events[0]);
      RunKeepsQuiet(Step(d, events[0]), events[1..]);
    }
  }

  lemma InitialQuiet(today: string)
    ensures Quiet(InitialDash(today))
    ensures InitialDash(today).todaysCount == 3 && InitialDash(today).totalStudentsCount == 142
  {
  }

  /** A menu choice always closes the menu, and opens exactly the modal the
      table names. */
  lemma ChoiceClosesMenu(d: Dash, card: int, option: int)
    ensures ChooseMenuOption(d, card, option).activeCardId == None
    ensures Dispatch(card, option).None? ==> ChooseMenuOption(d, card, option).open == d.open
    ensures Dispatch(card, option).Some? ==>
      ChooseMenuOption(d, card, option).open == d.open + {Dispatch(card, option).value}
    ensures ChooseMenuOption(d, card, option).isLoading
      <==> d.isLoading || (Dispatch(card, option).Some? && Fetches(Dispatch(card, option).value))
  {
  }

  /** A settled fetch always ends the loading state; a good answer replaces
      the list and its count, an error answer installs the sample rows and
      keeps the count, a thrown request changes nothing else. */
  lemma FetchOutcomes(d: Dash, rows: seq<Lecture>, students: seq<Student>)
    ensures !LecturesArrive(d, Ok(rows)).isLoading && !LecturesArrive(d, NotOk).isLoading
    ensures LecturesArrive(d, Ok(rows)).todaysLectures == rows
    ensures LecturesArrive(d, Ok(rows)).todaysCount == |rows|
    ensures LecturesArrive(d, NotOk).todaysLectures == MockLectures && |MockLectures| == 3
    ensures LecturesArrive(d, NotOk).todaysCount == d.todaysCount
    ensures LecturesArrive(d, Threw) == d.(isLoading := false)
    ensures StudentsArrive(d, Ok(students)).totalStudentsCount == |students|
    ensures StudentsArrive(d, NotOk).totalStudentsCount == d.totalStudentsCount && |MockStudents| == 4
    ensures StudentsArrive(d, Threw) == d.(isLoading := false)
  {
  }

  /** Adding a lecture ignores the response status, counts the lecture only
      when it is dated today, and a thrown request changes nothing else. */
  lemma LectureSubmitCounts(d: Dash, ok: bool, today: string)
    ensures LectureSubmitted(d, Answered(ok), today) == LectureSubmitted(d, Answered(true), today)
    ensures LectureSubmitted(d, Answered(ok), today).todaysCount - d.todaysCount
      == (if d.newLecture.lectureDate == today then 1 else 0)
    ensures AddLecture !in LectureSubmitted(d, Answered(ok), today).open
    ensures LectureSubmitted(d, Answered(ok), today).newLecture.lectureDate == today
    ensures LectureSubmitted(d, PostThrew, today) == d.(isLoading := false)
  {
  }

  /** Adding a student adds exactly one to the total, whatever the status. */
  lemma StudentSubmitCounts(d: Dash, ok: bool)
    ensures StudentSubmitted(d, Answered(ok)).totalStudentsCount == d.totalStudentsCount + 1
    ensures StudentSubmitted(d, Answered(ok)).newStudent == EmptyStudent
    ensures AddStudent !in StudentSubmitted(d, Answered(ok)).open
    ensures StudentSubmitted(d, PostThrew) == d.(isLoading := false)
  {
  }

  /** A form the browser holds back changes nothing: an empty required input
      or a pending request keeps the submission from happening. The blank
      add-lecture form, though dated today, does not count a lecture. */
  lemma BlockedSubmitChangesNothing(d: Dash, p: Posted, today: string)
    ensures !CanSubmitLecture(d) ==> Step(d, SubmitLecture(p, today)) == d
    ensures !CanSubmitStudent(d) ==> Step(d, SubmitStudent(p)) == d
    ensures !LectureComplete(EmptyLecture(today)) && !StudentComplete(EmptyStudent)
  {
  }

  class Dashboard {
    var activeCardId: Option<int>
    var open: set<Modal>
    var isLoading: bool
    var todaysLectures: seq<Lecture>
    var todaysCount: int
    var newLecture: Lecture
    var studentList: seq<Student>
    var totalStudentsCount: int
    var newStudent: Student
    var attendanceReport: seq<AttendanceRecord>
    var attendanceThreshold: int
    var engagementThreshold: int
    var alerts: seq<string>

    function State(): Dash
      reads this
    {
      Dash(activeCardId, open, isLoading, todaysLectures, todaysCount, newLecture, studentList,
        totalStudentsCount, newStudent, attendanceReport, attendanceThreshold, engagementThreshold, alerts)
    }

    constructor (today: string)
      ensures State() == InitialDash(today)
    {
      activeCardId := None;
      open := {};
      isLoading := false;
      todaysLectures := [];
      todaysCount := 3;
      newLecture := EmptyLecture(today);
      studentList := [];
      totalStudentsCount := 142;
      newStudent := EmptyStudent;
      attendanceReport := [];
      attendanceThreshold := 75;
      engagementThreshold := 60;
      alerts := [];
    }

    method PressMenu(card: int)
      modifies this
      ensures State() == Step(old(State()), Event.PressMenu(card))
    {
      if activeCardId == Some(card) {
        activeCardId := None;
      } else {
        activeCardId := Some(card);
      }
    }

    method PressElsewhere(insideDropdown: bool)
      modifies this
      ensures State() == Step(old(State()), Event.PressElsewhere(insideDropdown))
    {
      if activeCardId.Some? && !insideDropdown {
        activeCardId := None;
      }
    }

    /** `handleMenuAction`, reached from an open card's menu. */
    method HandleMenuAction(card: int, option: int)
      requires activeCardId == Some(card)
      modifies this
      ensures State() == ChooseMenuOption(old(State()), card, option)
    {
      activeCardId := None;
      if card == 1 {
        if option == 0 {
          isLoading := true;
          open := open + {ScheduleView};
        } else if option == 1 {
          open := open + {AddLecture};
        }
      } else if card == 2 {
        if option == 0 {
          isLoading := true;
          open := open + {StudentList};
        } else if option == 1 {
          open := open + {AddStudent};
        }
      } else if card == 3 {
        if option == 0 {
          isLoading := true;
          open := open + {AttendanceReport};
        }
      }
    }

    method CloseModal(m: Modal)
      modifies this
      ensures State() == Step(old(State()), Close(m))
    {
      open := open - {m};
    }

    method TodaysLecturesSettled(r: Fetched<Lecture>)
      modifies this
      ensures State() == Step(old(State()), LecturesFetched(r))
    {
      match r {
        case Ok(rows) =>
          todaysLectures := rows;
          todaysCount := |rows|;
        case NotOk =>
          todaysLectures := MockLectures;
        case Threw =>
      }
      isLoading := false;
    }

    method StudentListSettled(r: Fetched<Student>)
      modifies this
      ensures State() == Step(old(State()), StudentsFetched(r))
    {
      match r {
        case Ok(rows) =>
          studentList := rows;
          totalStudentsCount := |rows|;
        case NotOk =>
          studentList := MockStudents;
        case Threw =>
      }
      isLoading := false;
    }

    method AttendanceReportSettled(r: Fetched<AttendanceRecord>)
      modifies this
      ensures State() == Step(old(State()), ReportFetched(r))
    {
      match r {
        case Ok(rows) =>
          attendanceReport := rows;
        case NotOk =>
          attendanceReport := MockReport;
        case Threw =>
      }
      isLoading := false;
    }

    method EditNewLecture(l: Lecture)
      requires AddLecture in open
      modifies this
      ensures State() == Step(old(State()), EditLecture(l))
    {
      newLecture := l;
    }

    method EditNewStudent(s: Student)
      requires AddStudent in open
      modifies this
      ensures State() == Step(old(State()), EditStudent(s))
    {
      newStudent := s;
    }

    /** The submission and its answer as one step; the loading flag it
        raises while waiting is down again at the end. */
    method HandleAddLectureSubmit(p: Posted, today: string)
      requires AddLecture in open && !isLoading && LectureComplete(newLecture)
      modifies this
      ensures State() == LectureSubmitted(old(State()), p, today)
    {
      if p.Answered? {
        var count := if newLecture.lectureDate == today then todaysCount + 1 else todaysCount;
        todaysCount, open, newLecture, alerts := count, open - {AddLecture}, EmptyLecture(today), alerts + [LectureAdded];
      }
      isLoading := false;
    }

    method HandleAddStudentSubmit(p: Posted)
      requires AddStudent in open && !isLoading && StudentComplete(newStudent)
      modifies this
      ensures State() == StudentSubmitted(old(State()), p)
    {
      if p.Answered? {
        totalStudentsCount, open, newStudent, alerts :=
          totalStudentsCount + 1, open - {AddStudent}, EmptyStudent, alerts + [StudentAdded];
      }
      isLoading := false;
    }
  }
}
