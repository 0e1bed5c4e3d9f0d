/** `src/pages/admin/EnrollmentsManagement.tsx`: the admin's enrollment
    list, its search and filters, removal, and the add-enrollment dialog. */
module EnrollmentsManagement {
  import opened Common
  import opened Text
  import opened Lists

  datatype Student = Student(id: nat, name: string, email: string)
  datatype CourseRef = CourseRef(id: nat, title: string, instructor: string)
  datatype Enrollment = Enrollment(
    id: nat, student: Student, course: CourseRef, enrollmentDate: string,
    progress: nat, status: string, lastActivity: string)

  /** The dialog's form: the selected user id and course id, as strings. */
  datatype EnrollmentDraft = EnrollmentDraft(userId: string, courseId: string)

  const EmptyDraft := EnrollmentDraft("", "")

  const InitialEnrollments: seq<Enrollment> := [
    Enrollment(1, Student(1, "John Smith", "john.smith@example.com"),
      CourseRef(1, "Introduction to React", "David Rodriguez"), "Jan 18, 2023", 75, "In Progress", "2 days ago"),
    Enrollment(2, Student(2, "Emily Johnson", "emily.johnson@example.com"),
      CourseRef(1, "Introduction to React", "David Rodriguez"), "Feb 10, 2023", 45, "In Progress", "1 week ago"),
    Enrollment(3, Student(1, "John Smith", "john.smith@example.com"),
      CourseRef(2, "Advanced JavaScript", "Sarah Peterson"), "Mar 5, 2023", 20, "In Progress", "3 days ago"),
    Enrollment(4, Student(3, "Michael Williams", "michael.williams@example.com"),
      CourseRef(3, "UX Design Fundamentals", "Lisa Chen"), "Jan 5, 2023", 100, "Completed", "1 month ago")
  ]

  /** The predicate of `filteredEnrollments`; the course filter compares the
      decimal string of the course id. */
  predicate EnrollmentMatches(e: Enrollment, searchTerm: string, selectedCourse: Option<string>, selectedStatus: Option<string>)
  {
    (MatchesSearch(e.student.name, searchTerm) ||
     MatchesSearch(e.student.email, searchTerm) ||
     MatchesSearch(e.course.title, searchTerm)) &&
    PassesFilter(selectedCourse, NatToString(e.course.id)) &&
    PassesFilter(selectedStatus, e.status)
  }

  function KeepEnrollment(searchTerm: string, selectedCourse: Option<string>, selectedStatus: Option<string>): Enrollment -> bool
  {
    e => EnrollmentMatches(e, searchTerm, selectedCourse, selectedStatus)
  }

  /** `filteredEnrollments`: the matching enrollments in their original
      order, each kept as often as it occurs. */
  function FilteredEnrollments(enrollments: seq<Enrollment>, searchTerm: string, selectedCourse: Option<string>, selectedStatus: Option<string>): (r: seq<Enrollment>)
    ensures IsSubsequence(r, enrollments)
    ensures forall e :: e in r <==> e in enrollments && EnrollmentMatches(e, searchTerm, selectedCourse, selectedStatus)
    ensures forall e :: multiset(r)[e] == if EnrollmentMatches(e, searchTerm, selectedCourse, selectedStatus) then multiset(enrollments)[e] else 0
  {
    var p := KeepEnrollment(searchTerm, selectedCourse, selectedStatus);
    FilterIsSubsequence(enrollments, p);
    FilterMembership(enrollments, p);
    FilterCounts(enrollments, p);
    Filter(enrollments, p)
  }

  /** Selecting a course in the filter (its id printed in decimal) keeps
      exactly the enrollments in that course that also pass the search and
      the status filter, since distinct ids print differently. */
  lemma CourseFilterSelectsCourse(e: Enrollment, searchTerm: string, courseId: nat, selectedStatus: Option<string>)
    ensures EnrollmentMatches(e, searchTerm, Some(NatToString(courseId)), selectedStatus) <==>
              (MatchesSearch(e.student.name, searchTerm) ||
               MatchesSearch(e.student.email, searchTerm) ||
               MatchesSearch(e.course.title, searchTerm)) &&
              e.course.id == courseId && PassesFilter(selectedStatus, e.status)
  {
    if NatToString(e.course.id) == NatToString(courseId) {
      NatToStringInjective(e.course.id, courseId);
    }
  }

  function KeepOthers(id: nat): Enrollment -> bool
  {
    (e: Enrollment) => e.id != id
  }

  /** The new `enrollments` value of `handleDeleteEnrollment`: every
      enrollment with the id is gone and the rest stay, in order. */
  function DeleteEnrollment(enrollments: seq<Enrollment>, id: nat): (r: seq<Enrollment>)
    ensures IsSubsequence(r, enrollments)
    ensures forall e :: e in r ==> e.id != id
    ensures forall e :: multiset(r)[e] == if e.id != id then multiset(enrollments)[e] else 0
  {
    FilterIsSubsequence(enrollments, KeepOthers(id));
    FilterCounts(enrollments, KeepOthers(id));
    Filter(enrollments, KeepOthers(id))
  }

  /** Deleting the same id twice is deleting it once. */
  lemma DeleteEnrollmentIdempotent(enrollments: seq<Enrollment>, id: nat)
    ensures DeleteEnrollment(DeleteEnrollment(enrollments, id), id) == DeleteEnrollment(enrollments, id)
  {
    FilterIdempotent(enrollments, KeepOthers(id));
  }

  /** Deleting an id no enrollment has changes nothing. */
  lemma DeleteAbsentEnrollment(enrollments: seq<Enrollment>, id: nat)
    requires forall i :: 0 <= i < |enrollments| ==> enrollments[i].id != id
    ensures DeleteEnrollment(enrollments, id) == enrollments
  {
    FilterKeepsAll(enrollments, KeepOthers(id));
  }

  /** The "Enroll User" button is enabled only when both a user and a
      course have been selected. */
  function SubmitEnabled(draft: EnrollmentDraft): (enabled: bool)
    ensures enabled <==> |draft.userId| > 0 && |draft.courseId| > 0
  {
    draft.userId != "" && draft.courseId != ""
  }

  /** The page's state that its handlers change. */
  class EnrollmentsPage {
    var enrollments: seq<Enrollment>
    var isAddEnrollmentDialogOpen: bool
    var newEnrollment: EnrollmentDraft

    constructor()
      ensures enrollments == InitialEnrollments && !isAddEnrollmentDialogOpen && newEnrollment == EmptyDraft
    {
      enrollments := InitialEnrollments;
      isAddEnrollmentDialogOpen := false;
      newEnrollment := EmptyDraft;
    }

    /** The user select's `onValueChange`. */
    method SelectUser(value: string)
      modifies this
      ensures newEnrollment == old(newEnrollment).(userId := value)
      ensures enrollments == old(enrollments) && isAddEnrollmentDialogOpen == old(isAddEnrollmentDialogOpen)
    {
      newEnrollment := newEnrollment.(userId := value);
    }

    /** The course select's `onValueChange`. */
    method SelectCourse(value: string)
      modifies this
      ensures newEnrollment == old(newEnrollment).(courseId := value)
      ensures enrollments == old(enrollments) && isAddEnrollmentDialogOpen == old(isAddEnrollmentDialogOpen)
    {
      newEnrollment := newEnrollment.(courseId := value);
    }

    /** `handleAddEnrollment`: closes the dialog and clears the form; the
        list itself is not extended, and submitting is disabled again. */
    method HandleAddEnrollment()
      modifies this
      ensures enrollments == old(enrollments)
      ensures !isAddEnrollmentDialogOpen
      ensures newEnrollment == EmptyDraft && !SubmitEnabled(newEnrollment)
    {
      isAddEnrollmentDialogOpen := false;
      newEnrollment := EnrollmentDraft("", "");
    }

    /** `handleDeleteEnrollment` (the toast is left out). */
    method HandleDeleteEnrollment(id: nat)
      modifies this
      ensures enrollments == DeleteEnrollment(old(enrollments), id)
      ensures isAddEnrollmentDialogOpen == old(isAddEnrollmentDialogOpen) && newEnrollment == old(newEnrollment)
    {
      enrollments := Filter(enrollments, KeepOthers(id));
    }
  }
}
