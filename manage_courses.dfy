/** `src/pages/admin/ManageCourses.tsx`: the admin's course list, its search
    and filters, deletion, and the create-course dialog. */
module ManageCourses {
  import opened Common
  import opened Text
  import opened Lists

  datatype CourseRow = CourseRow(
    id: nat, title: string, instructor: string, description: string, duration: string,
    level: string, category: string, status: string, students: nat, created: string)

  const InitialCourses: seq<CourseRow> := [
    CourseRow(1, "Introduction to React", "John Smith",
      "Learn the fundamentals of React, including components, state, and props.",
      "6 hours", "Beginner", "Web Development", "Published", 245, "Jan 15, 2023"),
    CourseRow(2, "Advanced JavaScript", "Sarah Johnson",
      "Deep dive into JavaScript concepts like closures, promises, and ES6+ features.",
      "8 hours", "Intermediate", "Programming", "Published", 189, "Feb 3, 2023"),
    CourseRow(3, "UX Design Fundamentals", "Michael Chen",
      "Learn user experience design principles and practices for creating intuitive interfaces.",
      "5 hours", "Beginner", "Design", "Draft", 0, "Mar 10, 2023")
  ]

  /** The predicate of `filteredCourses`. */
  predicate CourseMatches(c: CourseRow, searchTerm: string, selectedCategory: Option<string>, selectedStatus: Option<string>)
  {
    (MatchesSearch(c.title, searchTerm) || MatchesSearch(c.instructor, searchTerm)) &&
    PassesFilter(selectedCategory, c.category) &&
    PassesFilter(selectedStatus, c.status)
  }

  function KeepCourse(searchTerm: string, selectedCategory: Option<string>, selectedStatus: Option<string>): CourseRow -> bool
  {
    c => CourseMatches(c, searchTerm, selectedCategory, selectedStatus)
  }

  /** `filteredCourses`: the matching courses in their original order, each
      kept as often as it occurs. */
  function FilteredCourses(courses: seq<CourseRow>, searchTerm: string, selectedCategory: Option<string>, selectedStatus: Option<string>): (r: seq<CourseRow>)
    ensures IsSubsequence(r, courses)
    ensures forall c :: c in r <==> c in courses && CourseMatches(c, searchTerm, selectedCategory, selectedStatus)
    ensures forall c :: multiset(r)[c] == if CourseMatches(c, searchTerm, selectedCategory, selectedStatus) then multiset(courses)[c] else 0
  {
    var p := KeepCourse(searchTerm, selectedCategory, selectedStatus);
    FilterIsSubsequence(courses, p);
    FilterMembership(courses, p);
    FilterCounts(courses, p);
    Filter(courses, p)
  }

  function KeepOthers(id: nat): CourseRow -> bool
  {
    (c: CourseRow) => c.id != id
  }

  /** The new `courses` value of `handleDeleteCourse`: every course with the
      id is gone and the rest stay, in order. */
  function DeleteCourse(courses: seq<CourseRow>, id: nat): (r: seq<CourseRow>)
    ensures IsSubsequence(r, courses)
    ensures forall c :: c in r ==> c.id != id
    ensures forall c :: multiset(r)[c] == if c.id != id then multiset(courses)[c] else 0
  {
    FilterIsSubsequence(courses, KeepOthers(id));
    FilterCounts(courses, KeepOthers(id));
    Filter(courses, KeepOthers(id))
  }

  /** Deleting the same id twice is deleting it once. */
  lemma DeleteCourseIdempotent(courses: seq<CourseRow>, id: nat)
    ensures DeleteCourse(DeleteCourse(courses, id), id) == DeleteCourse(courses, id)
  {
    FilterIdempotent(courses, KeepOthers(id));
  }

  /** Deleting an id no course has changes nothing. */
  lemma DeleteAbsentCourse(courses: seq<CourseRow>, id: nat)
    requires forall i :: 0 <= i < |courses| ==> courses[i].id != id
    ensures DeleteCourse(courses, id) == courses
  {
    FilterKeepsAll(courses, KeepOthers(id));
  }

  /** The page's state that its handlers change. */
  class ManageCoursesPage {
    var courses: seq<CourseRow>
    var isAddDialogOpen: bool

    constructor()
      ensures courses == InitialCourses && !isAddDialogOpen
    {
      courses := InitialCourses;
      isAddDialogOpen := false;
    }

    /** `handleAddCourse`: only closes the dialog; the list is not touched. */
    method HandleAddCourse()
      modifies this
      ensures courses == old(courses)
      ensures !isAddDialogOpen
    {
      isAddDialogOpen := false;
    }

    /** `handleDeleteCourse` (the toast is left out). */
    method HandleDeleteCourse(id: nat)
      modifies this
      ensures courses == DeleteCourse(old(courses), id)
      ensures isAddDialogOpen == old(isAddDialogOpen)
    {
      courses := Filter(courses, KeepOthers(id));
    }
  }
}
