/** The journal bundle descriptor and the SKU-set reasoning of the bundle
    offer condition (ecommerce/journal/conditions.py).

    The descriptor is what the bundle catalogue returns: courses with their
    runs and seats, journals, and the seat types that may satisfy a course.
    Eligibility is a fold over a working set of basket SKUs: each course in
    turn must meet the set and then removes all of its eligible SKUs from
    it, so one SKU never serves two courses. */
module JournalBundles {
  import opened Wrappers

  type Sku = string

  datatype Seat = Seat(sku: Sku, seatType: string)
  datatype CourseRun = CourseRun(seats: seq<Seat>)
  datatype Course = Course(courseRuns: seq<CourseRun>)
  datatype Journal = Journal(sku: Sku)
  datatype Bundle = Bundle(courses: seq<Course>, journals: seq<Journal>, applicableSeatTypes: seq<string>)

  /** The SKUs of the seats of one run whose type is applicable. */
  function SeatSkus(seats: seq<Seat>, types: seq<string>): set<Sku>
  {
    set s | s in seats && s.seatType in types :: s.sku
  }

  /** The applicable-type seat SKUs over a list of course runs. */
  function RunsSkus(runs: seq<CourseRun>, types: seq<string>): set<Sku>
  {
    set r, s | r in runs && s in r.seats && s.seatType in types :: s.sku
  }

  /** The SKUs that can satisfy one course. */
  function CourseSkus(course: Course, types: seq<string>): set<Sku>
  {
    RunsSkus(course.courseRuns, types)
  }

  /** The SKUs that can satisfy any of the given courses. */
  function CoursesSkus(courses: seq<Course>, types: seq<string>): set<Sku>
  {
    set c, x | c in courses && x in CourseSkus(c, types) :: x
  }

  function JournalSkus(journals: seq<Journal>): set<Sku>
  {
    set j | j in journals :: j.sku
  }

  lemma RunsSkusSnoc(runs: seq<CourseRun>, types: seq<string>, j: nat)
    requires j < |runs|
    ensures RunsSkus(runs[..j + 1], types) == RunsSkus(runs[..j], types) + SeatSkus(runs[j].seats, types)
  {
    assert runs[..j + 1] == runs[..j] + [runs[j]];
  }

  lemma CoursesSkusSnoc(courses: seq<Course>, types: seq<string>, i: nat)
    requires i < |courses|
    ensures CoursesSkus(courses[..i + 1], types) == CoursesSkus(courses[..i], types) + CourseSkus(courses[i], types)
  {
    assert courses[..i + 1] == courses[..i] + [courses[i]];
  }

  lemma JournalSkusSnoc(journals: seq<Journal>, i: nat)
    requires i < |journals|
    ensures JournalSkus(journals[..i + 1]) == JournalSkus(journals[..i]) + {journals[i].sku}
  {
    assert journals[..i + 1] == journals[..i] + [journals[i]];
  }

  /** `get_applicable_skus`: every applicable-type seat SKU of every course
      run, plus every journal SKU; nothing for a falsy bundle (None). */
  function ApplicableSkus(bundle: Option<Bundle>): set<Sku>
  {
    match bundle
    case None => {}
    case Some(b) => CoursesSkus(b.courses, b.applicableSeatTypes) + JournalSkus(b.journals)
  }

  /** The bundle offers `sku`: as a seat of an applicable type in some run of
      some course, or as a journal. */
  ghost predicate Offers(b: Bundle, sku: Sku)
  {
    || (exists c, r, s :: c in b.courses && r in c.courseRuns && s in r.seats
                          && s.seatType in b.applicableSeatTypes && s.sku == sku)
    || (exists j :: j in b.journals && j.sku == sku)
  }

  lemma ApplicableSkusMembers(bundle: Option<Bundle>, sku: Sku)
    ensures sku in ApplicableSkus(bundle) <==> bundle.Some? && Offers(bundle.value, sku)
  {
    if bundle.Some? {
      var b := bundle.value;
      if sku in CoursesSkus(b.courses, b.applicableSeatTypes) {
        var c :| c in b.courses && sku in CourseSkus(c, b.applicableSeatTypes);
        var r, s :| r in c.courseRuns && s in r.seats && s.seatType in b.applicableSeatTypes && s.sku == sku;
      }
      if exists c, r, s :: c in b.courses && r in c.courseRuns && s in r.seats
                          && s.seatType in b.applicableSeatTypes && s.sku == sku {
        var c, r, s :| c in b.courses && r in c.courseRuns && s in r.seats
                          && s.seatType in b.applicableSeatTypes && s.sku == sku;
        assert sku in CourseSkus(c, b.applicableSeatTypes);
      }
    }
  }

  /** `basket_contains_all_required_courses` as a fold: whether every course
      is met, and the working set it leaves. A course fails when the set is
      already empty or when removing the course's SKUs removes nothing. */
  function ConsumeCourses(skus: set<Sku>, courses: seq<Course>, types: seq<string>): (r: (bool, set<Sku>))
    ensures !r.0 ==> courses != []
    ensures r.0 && skus == {} ==> courses == []
  {
    if courses == [] then (true, skus)
    else if skus == {} then (false, skus)
    else
      var diff := skus - CourseSkus(courses[0], types);
      if diff == skus then (false, skus)
      else ConsumeCourses(diff, courses[1..], types)
  }

  /** The working set left for course `i`: the basket minus every SKU that
      can satisfy an earlier course. */
  function LeftFor(skus: set<Sku>, courses: seq<Course>, types: seq<string>, i: nat): set<Sku>
    requires i <= |courses|
  {
    skus - CoursesSkus(courses[..i], types)
  }

  lemma CoursesSkusCons(courses: seq<Course>, types: seq<string>, i: nat)
    requires 0 < |courses| && i < |courses|
    ensures CoursesSkus(courses[..i + 1], types)
         == CourseSkus(courses[0], types) + CoursesSkus(courses[1..][..i], types)
  {
    assert courses[..i + 1] == [courses[0]] + courses[1..][..i];
  }

  /** Once the first course has taken its SKUs, the working set left for
      each later course is the one the remaining courses see. */
  lemma LeftForCons(skus: set<Sku>, courses: seq<Course>, types: seq<string>)
    requires courses != []
    ensures forall i :: 0 <= i < |courses| - 1 ==>
      LeftFor(skus, courses, types, i + 1) == LeftFor(skus - CourseSkus(courses[0], types), courses[1..], types, i)
  {
    forall i | 0 <= i < |courses| - 1
      ensures LeftFor(skus, courses, types, i + 1) == LeftFor(skus - CourseSkus(courses[0], types), courses[1..], types, i)
    {
      CoursesSkusCons(courses, types, i);
    }
  }

  /** The courses check succeeds exactly when every course meets the SKUs
      that earlier courses did not claim; when it succeeds, the working set
      left is the basket minus every course's eligible SKUs. */
  lemma {:induction false} ConsumeCoursesSucceedsIff(skus: set<Sku>, courses: seq<Course>, types: seq<string>)
    ensures ConsumeCourses(skus, courses, types).0
      <==> forall i :: 0 <= i < |courses| ==> LeftFor(skus, courses, types, i) * CourseSkus(courses[i], types) != {}
    ensures ConsumeCourses(skus, courses, types).0
      ==> ConsumeCourses(skus, courses, types).1 == skus - CoursesSkus(courses, types)
  {
    if courses == [] {
      assert CoursesSkus(courses, types) == {};
    } else {
      var e := CourseSkus(courses[0], types);
      var rest := courses[1..];
      assert courses[..0] == [];
      assert LeftFor(skus, courses, types, 0) == skus;
      if skus == {} || skus - e == skus {
        assert !ConsumeCourses(skus, courses, types).0;
        assert LeftFor(skus, courses, types, 0) * CourseSkus(courses[0], types) == {};
      } else {
        assert skus * e != {} by {
          var x :| x in skus && x !in skus - e;
          assert x in skus * e;
        }
        assert ConsumeCourses(skus, courses, types) == ConsumeCourses(skus - e, rest, types);
        ConsumeCoursesSucceedsIff(skus - e, rest, types);
        LeftForCons(skus, courses, types);
        if ConsumeCourses(skus, courses, types).0 {
          forall i | 0 <= i < |courses|
            ensures LeftFor(skus, courses, types, i) * CourseSkus(courses[i], types) != {}
          {
            if i > 0 {
              assert LeftFor(skus, courses, types, i) == LeftFor(skus - e, rest, types, i - 1);
              assert courses[i] == rest[i - 1];
            }
          }
          assert courses == [courses[0]] + rest;
          assert CoursesSkus(courses, types) == e + CoursesSkus(rest, types);
        } else {
          var i :| 0 <= i < |rest| && LeftFor(skus - e, rest, types, i) * CourseSkus(rest[i], types) == {};
          assert courses[i + 1] == rest[i];
          assert LeftFor(skus, courses, types, i + 1) * CourseSkus(courses[i + 1], types) == {};
        }
      }
    }
  }

  /** The working set only shrinks. */
  lemma {:induction false} ConsumeCoursesShrinks(skus: set<Sku>, courses: seq<Course>, types: seq<string>)
    ensures ConsumeCourses(skus, courses, types).1 <= skus
  {
    if courses != [] && skus != {} {
      var diff := skus - CourseSkus(courses[0], types);
      if diff != skus {
        ConsumeCoursesShrinks(diff, courses[1..], types);
      }
    }
  }

  /** A basket that meets every course holds at least one SKU per course
      beyond what is left over: each met course consumes at least one SKU. */
  lemma {:induction false} ConsumeCoursesCount(skus: set<Sku>, courses: seq<Course>, types: seq<string>)
    ensures ConsumeCourses(skus, courses, types).0
      ==> |ConsumeCourses(skus, courses, types).1| + |courses| <= |skus|
  {
    if courses != [] && skus != {} {
      var diff := skus - CourseSkus(courses[0], types);
      if diff != skus {
        ConsumeCoursesCount(diff, courses[1..], types);
        var met := skus * CourseSkus(courses[0], types);
        assert met != {} by {
          var x :| x in skus && x !in diff;
          assert x in met;
        }
        assert skus == diff + met && diff * met == {};
        assert |skus| == |diff| + |met|;
      }
    }
  }

  /** A course none of whose eligible SKUs is in the basket (in particular a
      course with no seat of an applicable type) makes the check fail. */
  lemma ConsumeCoursesMissingCourse(skus: set<Sku>, courses: seq<Course>, types: seq<string>, c: Course)
    requires c in courses && skus * CourseSkus(c, types) == {}
    ensures !ConsumeCourses(skus, courses, types).0
  {
    ConsumeCoursesSucceedsIff(skus, courses, types);
    var i :| 0 <= i < |courses| && courses[i] == c;
    assert LeftFor(skus, courses, types, i) * CourseSkus(courses[i], types) == {};
  }

  /** `basket_contains_all_journals` on a working set: each journal's SKU must
      be in it, and an emptied set fails while journals remain. */
  function JournalsPresent(skus: set<Sku>, journals: seq<Journal>): (r: bool)
    ensures r <==> forall j :: j in journals ==> j.sku in skus
  {
    if journals == [] then true
    else
      assert forall j :: j in journals <==> j == journals[0] || j in journals[1..];
      if skus == {} then false
      else if journals[0].sku !in skus then false
      else JournalsPresent(skus, journals[1..])
  }
}
