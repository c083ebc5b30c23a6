/** The course list hook (src/hooks/useCourses.ts): an in-memory list of courses that
    each operation overwrites, appends to, rewrites by id or filters by id, and leaves
    alone when the remote call fails. */
module Courses {
  import opened Common

  /** A course as the list holds it; the fields the hook never looks at are left out. */
  datatype Course = Course(courseId: int, title: string, description: string)

  /** What the mutating operations return: `{ success: true }` or
      `{ success: false, error }`. */
  datatype OpResult = Succeeded | FailedWith(error: string)

  const CreateFailedText := "과목 생성에 실패했습니다."
  const UpdateFailedText := "과목 수정에 실패했습니다."
  const DeleteFailedText := "과목 삭제에 실패했습니다."
  const EnrollFailedText := "수강 신청에 실패했습니다."

  /** The failure value of an operation whose default message is `fallback`. */
  function Failure(e: Thrown, fallback: string): (r: OpResult)
    ensures r.FailedWith?
    ensures e.ErrorObject? ==> r.error == e.message
    ensures e.OtherValue? ==> r.error == fallback
  {
    FailedWith(MessageOr(e, fallback))
  }

  /** `prev.map(c => c.courseId === id ? updated : c)` */
  function ReplaceById(s: seq<Course>, id: int, updated: Course): (r: seq<Course>)
    ensures |r| == |s|
    ensures forall i :: 0 <= i < |s| ==> r[i] == if s[i].courseId == id then updated else s[i]
  {
    if s == [] then []
    else [if s[0].courseId == id then updated else s[0]] + ReplaceById(s[1..], id, updated)
  }

  /** `prev.filter(c => c.courseId !== id)` */
  function RemoveById(s: seq<Course>, id: int): (r: seq<Course>)
    ensures |r| <= |s|
    ensures forall c :: c in r <==> c in s && c.courseId != id
  {
    if s == [] then []
    else if s[0].courseId == id then RemoveById(s[1..], id)
    else [s[0]] + RemoveById(s[1..], id)
  }

  /** The number of courses in `s` that carry `id`. */
  function CountId(s: seq<Course>, id: int): (n: nat)
    ensures n <= |s|
  {
    if s == [] then 0 else (if s[0].courseId == id then 1 else 0) + CountId(s[1..], id)
  }

  /** Removing by id removes exactly the courses with that id. */
  lemma {:induction false} RemoveCount(s: seq<Course>, id: int)
    ensures |RemoveById(s, id)| == |s| - CountId(s, id)
  {
    if s != [] {
      RemoveCount(s[1..], id);
    }
  }

  /** Filtering distributes over concatenation, so the kept courses stay in order. */
  lemma {:induction false} RemoveConcat(a: seq<Course>, b: seq<Course>, id: int)
    ensures RemoveById(a + b, id) == RemoveById(a, id) + RemoveById(b, id)
  {
    if a == [] {
      assert a + b == b;
    } else {
      assert (a + b)[1..] == a[1..] + b;
      RemoveConcat(a[1..], b, id);
    }
  }

  /** A list without the id is left as it is. */
  lemma {:induction false} RemoveAbsentId(s: seq<Course>, id: int)
    requires forall c :: c in s ==> c.courseId != id
    ensures RemoveById(s, id) == s
  {
    if s != [] {
      assert s == [s[0]] + s[1..];
      RemoveAbsentId(s[1..], id);
    }
  }

  /** Deleting the same id twice deletes nothing more. */
  lemma RemoveIdempotent(s: seq<Course>, id: int)
    ensures RemoveById(RemoveById(s, id), id) == RemoveById(s, id)
  {
    RemoveAbsentId(RemoveById(s, id), id);
  }

  /** A replacement that keeps the id keeps the ids of the whole list. */
  lemma {:induction false} ReplaceKeepsIds(s: seq<Course>, id: int, updated: Course)
    requires updated.courseId == id
    ensures forall i :: 0 <= i < |s| ==> ReplaceById(s, id, updated)[i].courseId == s[i].courseId
    ensures RemoveById(ReplaceById(s, id, updated), id) == RemoveById(s, id)
  {
    if s != [] {
      ReplaceKeepsIds(s[1..], id, updated);
      assert ReplaceById(s, id, updated)[1..] == ReplaceById(s[1..], id, updated);
    }
  }

  /** The state the hook keeps. */
  class CourseList {
    var courses: seq<Course>
    var isLoading: bool
    var error: Option<string>

    constructor ()
      ensures courses == [] && !isLoading && error == None
    {
      courses := [];
      isLoading := false;
      error := None;
    }

    /** fetchCourses: the list becomes the fetched one, or empty on a failure, which is
        not reported; loading is over either way. */
    method FetchCourses(reply: Remote<seq<Course>>)
      modifies this
      ensures courses == (if reply.Ok? then reply.value else [])
      ensures error == None && !isLoading
    {
      isLoading := true;
      error := None;
      match reply {
        case Ok(fetched) => courses := fetched;
        case Threw(_) => courses := [];
      }
      isLoading := false;
    }

    /** getCourseDetail: the detail, or null on a failure; the list is not touched. */
    method GetCourseDetail<D>(reply: Remote<D>) returns (detail: Option<D>)
      ensures reply.Ok? ==> detail == Some(reply.value)
      ensures reply.Threw? ==> detail == None
    {
      detail := if reply.Ok? then Some(reply.value) else None;
    }

    /** createCourse: the created course is appended; a failure leaves the list. */
    method CreateCourse(reply: Remote<Course>) returns (r: OpResult)
      modifies this`courses
      ensures reply.Ok? ==> courses == old(courses) + [reply.value] && r == Succeeded
      ensures reply.Threw? ==> courses == old(courses) && r == Failure(reply.error, CreateFailedText)
    {
      match reply {
        case Ok(created) =>
          courses := courses + [created];
          r := Succeeded;
        case Threw(e) =>
          r := Failure(e, CreateFailedText);
      }
    }

    /** updateCourse: every course with the id is replaced by the updated one. */
    method UpdateCourse(courseId: int, reply: Remote<Course>) returns (r: OpResult)
      modifies this`courses
      ensures reply.Ok? ==> courses == ReplaceById(old(courses), courseId, reply.value) && r == Succeeded
      ensures reply.Threw? ==> courses == old(courses) && r == Failure(reply.error, UpdateFailedText)
    {
      match reply {
        case Ok(updated) =>
          courses := ReplaceById(courses, courseId, updated);
          r := Succeeded;
        case Threw(e) =>
          r := Failure(e, UpdateFailedText);
      }
    }

    /** deleteCourse: the courses with the id are dropped, the others kept in order. */
    method DeleteCourse(courseId: int, reply: Remote<()>) returns (r: OpResult)
      modifies this`courses
      ensures reply.Ok? ==> courses == RemoveById(old(courses), courseId) && r == Succeeded
      ensures reply.Threw? ==> courses == old(courses) && r == Failure(reply.error, DeleteFailedText)
    {
      match reply {
        case Ok(_) =>
          courses := RemoveById(courses, courseId);
          r := Succeeded;
        case Threw(e) =>
          r := Failure(e, DeleteFailedText);
      }
    }

    /** enrollCourse: reports the outcome and never changes the list. */
    method EnrollCourse(reply: Remote<()>) returns (r: OpResult)
      ensures reply.Ok? <==> r == Succeeded
      ensures reply.Threw? ==> r == Failure(reply.error, EnrollFailedText)
    {
      r := if reply.Ok? then Succeeded else Failure(reply.error, EnrollFailedText);
    }
  }
}
