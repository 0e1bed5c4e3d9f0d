/** `src/pages/user/Courses.tsx`: the student's course catalogue and its
    "Enroll Now" action. */
module CoursesPage {
  import opened Lists

  datatype CatalogCourse = CatalogCourse(
    id: nat, title: string, instructor: string, description: string, duration: string,
    level: string, category: string, enrolled: bool)

  const InitialCourses: seq<CatalogCourse> := [
    CatalogCourse(1, "Introduction to React", "John Smith",
      "Learn the fundamentals of React, including components, state, and props.",
      "6 hours", "Beginner", "Web Development", false),
    CatalogCourse(2, "Advanced JavaScript", "Sarah Johnson",
      "Deep dive into JavaScript concepts like closures, promises, and ES6+ features.",
      "8 hours", "Intermediate", "Programming", true),
    CatalogCourse(3, "UX Design Fundamentals", "Michael Chen",
      "Learn user experience design principles and practices for creating intuitive interfaces.",
      "5 hours", "Beginner", "Design", false),
    CatalogCourse(4, "Data Science with Python", "Lisa Wang",
      "Introduction to data analysis and visualization using Python libraries.",
      "10 hours", "Intermediate", "Data Science", false)
  ]

  /** The button in a course card's footer. */
  datatype CardAction = AlreadyEnrolled | EnrollNow(courseId: nat)

  /** A card offers "Enroll Now" for its own id exactly when the course is
      not yet enrolled. */
  function CardActionOf(c: CatalogCourse): (a: CardAction)
    ensures a.EnrollNow? <==> !c.enrolled
    ensures a.EnrollNow? ==> a.courseId == c.id
  {
    if c.enrolled then AlreadyEnrolled else EnrollNow(c.id)
  }

  function EnrollOne(courseId: nat): CatalogCourse -> CatalogCourse
  {
    (c: CatalogCourse) => if c.id == courseId then c.(enrolled := true) else c
  }

  /** The new `courses` value of `handleEnroll`: every course with the id is
      enrolled, every other course and every other field is kept, in the
      same order, and no course goes from enrolled to not enrolled. */
  function Enroll(courses: seq<CatalogCourse>, courseId: nat): (r: seq<CatalogCourse>)
    ensures |r| == |courses|
    ensures forall i :: 0 <= i < |courses| && courses[i].id == courseId ==> r[i] == courses[i].(enrolled := true)
    ensures forall i :: 0 <= i < |courses| && courses[i].id != courseId ==> r[i] == courses[i]
    ensures forall i :: 0 <= i < |courses| && courses[i].enrolled ==> r[i].enrolled
  {
    Map(courses, EnrollOne(courseId))
  }

  /** Enrolling twice in the same course is enrolling once. */
  lemma EnrollIdempotent(courses: seq<CatalogCourse>, courseId: nat)
    ensures Enroll(Enroll(courses, courseId), courseId) == Enroll(courses, courseId)
  {
    MapIdempotent(courses, EnrollOne(courseId));
  }

  /** Enrolling in an id that no course has changes nothing. */
  lemma EnrollAbsentId(courses: seq<CatalogCourse>, courseId: nat)
    requires forall i :: 0 <= i < |courses| ==> courses[i].id != courseId
    ensures Enroll(courses, courseId) == courses
  {
  }

  /** After clicking a card's "Enroll Now", that card offers no action any
      more. */
  lemma EnrollDisablesAction(courses: seq<CatalogCourse>, i: nat)
    requires i < |courses| && CardActionOf(courses[i]).EnrollNow?
    ensures CardActionOf(Enroll(courses, CardActionOf(courses[i]).courseId)[i]) == AlreadyEnrolled
  {
  }

  /** The page's state that its handler changes. */
  class CoursesView {
    var courses: seq<CatalogCourse>

    constructor()
      ensures courses == InitialCourses
    {
      courses := InitialCourses;
    }

    /** `handleEnroll` (the toast is left out). */
    method HandleEnroll(courseId: nat)
      modifies this
      ensures courses == Enroll(old(courses), courseId)
    {
      courses := Map(courses, EnrollOne(courseId));
    }
  }
}
