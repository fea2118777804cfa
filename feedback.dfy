/**
 * The two-teacher page of teacher-feedback/feedback.js: one form per
 * teacher (student details, three radio groups, a comment box), "next" posts
 * the form and moves on, "skip" moves on without posting, and the form's own
 * submit posts the form for the teacher on screen.
 *
 * The form's inputs are one `Answers` value; a post is the body handed to
 * `fetch`, appended to `posted`; an `alert` is its message, appended to
 * `alerts`.
 */
module Feedback {
  import opened FormData

  // Identifiers of the receiving form's fields.
  const EntryStudentName := "entry.1595149144"
  const EntryStudentClass := "entry.444093797"
  const EntryStudentSection := "entry.253041247"
  const EntryTeacherName := "entry.1611097108"
  const EntryRating := "entry.1604027573"
  const EntryClarity := "entry.373365873"
  const EntryBehaviour := "entry.1707014077"
  const EntryComments := "entry.1476556732"

  /** The eight keys of a posted body, in the order they are appended. */
  const PayloadKeys := [EntryStudentName, EntryStudentClass, EntryStudentSection, EntryTeacherName,
                        EntryRating, EntryClarity, EntryBehaviour, EntryComments]

  const NoMoreTeachers := "No more teachers left."
  const AllSubmitted := "All Teachers Feedback Submitted Successfully!"

  datatype Teacher = Teacher(name: string, photo: string)

  /** The roster the page ships with. */
  const Roster := [Teacher("Mrs. Anjali Sharma", "../assets/teachers/t1.jpg"),
                   Teacher("Mr. Rahul Verma", "../assets/teachers/t2.jpg")]

  /**
   * What the form holds: three text inputs, three radio groups (the checked
   * button's value, or `None` when none is checked) and the comment box.
   */
  datatype Answers = Answers(
    studentName: string, studentClass: string, studentSection: string,
    rating: Option<string>, clarity: Option<string>, behaviour: Option<string>,
    comments: string)

  /** The form after `form.reset()`: empty inputs, no radio button checked. */
  const BlankAnswers := Answers("", "", "", None, None, None, "")

  /** `document.querySelector('input[name=…]:checked')?.value || ""` */
  function RadioValue(checked: Option<string>): string {
    match checked
    case None => ""              // `?.value` is undefined, and `undefined || ""` is ""
    case Some(v) => if v != "" then v else ""
  }

  /** A radio group contributes "" exactly when nothing is checked or the checked value is empty. */
  lemma RadioValueEmpty(checked: Option<string>)
    ensures RadioValue(checked) == "" <==> (checked == None || checked == Some(""))
    ensures checked.Some? ==> RadioValue(checked) == checked.value
  {
  }

  /** The body `submitToGoogleForm` builds for teacher `teacherName`, one `append` per pair. */
  function BuildPayload(a: Answers, teacherName: string): Body {
    [(EntryStudentName, a.studentName),
     (EntryStudentClass, a.studentClass),
     (EntryStudentSection, a.studentSection),
     (EntryTeacherName, teacherName),
     (EntryRating, RadioValue(a.rating)),
     (EntryClarity, RadioValue(a.clarity)),
     (EntryBehaviour, RadioValue(a.behaviour)),
     (EntryComments, a.comments)]
  }

  lemma PayloadKeysDistinct()
    ensures DistinctKeys(PayloadKeys)
  {
  }

  /** A body's keys are the eight identifiers, in order. */
  lemma PayloadKeysOf(a: Answers, teacherName: string)
    ensures Keys(BuildPayload(a, teacherName)) == PayloadKeys
  {
  }

  /** The `k`-th key of a body reads back the `k`-th appended value. */
  lemma PayloadLookup(a: Answers, teacherName: string, k: nat)
    requires k < |PayloadKeys|
    ensures Lookup(BuildPayload(a, teacherName), PayloadKeys[k]) == Some(BuildPayload(a, teacherName)[k].1)
  {
    PayloadKeysOf(a, teacherName);
    PayloadKeysDistinct();
    LookupDistinct(BuildPayload(a, teacherName), k);
  }

  /**
   * A posted body has the eight keys in the fixed order, and the receiving
   * form reads back each input and the teacher's name; an unanswered radio
   * group reads as "".
   */
  lemma PayloadFields(a: Answers, teacherName: string)
    ensures Keys(BuildPayload(a, teacherName)) == PayloadKeys
    ensures Lookup(BuildPayload(a, teacherName), EntryStudentName) == Some(a.studentName)
    ensures Lookup(BuildPayload(a, teacherName), EntryStudentClass) == Some(a.studentClass)
    ensures Lookup(BuildPayload(a, teacherName), EntryStudentSection) == Some(a.studentSection)
    ensures Lookup(BuildPayload(a, teacherName), EntryTeacherName) == Some(teacherName)
    ensures Lookup(BuildPayload(a, teacherName), EntryRating) == Some(if a.rating.Some? then a.rating.value else "")
    ensures Lookup(BuildPayload(a, teacherName), EntryClarity) == Some(if a.clarity.Some? then a.clarity.value else "")
    ensures Lookup(BuildPayload(a, teacherName), EntryBehaviour) == Some(if a.behaviour.Some? then a.behaviour.value else "")
    ensures Lookup(BuildPayload(a, teacherName), EntryComments) == Some(a.comments)
  {
    PayloadKeysOf(a, teacherName);
    PayloadLookup(a, teacherName, 0);
    PayloadLookup(a, teacherName, 1);
    PayloadLookup(a, teacherName, 2);
    PayloadLookup(a, teacherName, 3);
    PayloadLookup(a, teacherName, 4);
    PayloadLookup(a, teacherName, 5);
    PayloadLookup(a, teacherName, 6);
    PayloadLookup(a, teacherName, 7);
  }

  // ---------------------------------------------------------------------------
  // A reference model of the buttons: where `current` goes and how many posts they make

  datatype Click = Next | Skip | Submit

  /** The teacher index after one click on a roster of `count` teachers. */
  function Step(count: nat, c: nat, k: Click): nat {
    match k
    case Next => if c < count - 1 then c + 1 else c
    case Skip => if c < count - 1 then c + 1 else c
    case Submit => c
  }

  /** The number of bodies one click posts. */
  function PostsOf(count: nat, c: nat, k: Click): nat {
    match k
    case Next => if c < count - 1 then 1 else 0
    case Skip => 0
    case Submit => 1
  }

  /** The teacher index after a sequence of clicks starting at `c`. */
  function IndexAfter(count: nat, c: nat, clicks: seq<Click>): nat
    decreases |clicks|
  {
    if clicks == [] then c else IndexAfter(count, Step(count, c, clicks[0]), clicks[1..])
  }

  /** The number of bodies a sequence of clicks starting at `c` posts. */
  function PostsAfter(count: nat, c: nat, clicks: seq<Click>): nat
    decreases |clicks|
  {
    if clicks == [] then 0 else PostsOf(count, c, clicks[0]) + PostsAfter(count, Step(count, c, clicks[0]), clicks[1..])
  }

  /** Whatever is clicked, the index never leaves the roster and never goes back. */
  lemma {:induction false} IndexAfterBounded(count: nat, c: nat, clicks: seq<Click>)
    requires c < count
    ensures c <= IndexAfter(count, c, clicks) < count
    decreases |clicks|
  {
    if clicks != [] {
      IndexAfterBounded(count, Step(count, c, clicks[0]), clicks[1..]);
    }
  }

  /** Skips are never posted: a post comes from each advancing "next" and each submit. */
  lemma {:induction false} PostsAtMostClicks(count: nat, c: nat, clicks: seq<Click>)
    ensures PostsAfter(count, c, clicks) <= |clicks|
    ensures (forall i :: 0 <= i < |clicks| ==> clicks[i] == Skip) ==> PostsAfter(count, c, clicks) == 0
    decreases |clicks|
  {
    if clicks != [] {
      PostsAtMostClicks(count, Step(count, c, clicks[0]), clicks[1..]);
      assert forall i :: 0 <= i < |clicks[1..]| ==> clicks[1..][i] == clicks[i + 1];
    }
  }

  /**
   * On the shipped two-teacher page, "next" on the first teacher posts once,
   * a second "next" and a "skip" on the last teacher neither move nor post,
   * and the form's submit posts once more.
   */
  lemma RosterClicks()
    ensures IndexAfter(|Roster|, 0, [Next, Next, Skip, Submit]) == 1
    ensures PostsAfter(|Roster|, 0, [Next, Next, Skip, Submit]) == 2
  {
    var clicks := [Next, Next, Skip, Submit];
    assert clicks[1..] == [Next, Skip, Submit];
    assert clicks[1..][1..] == [Skip, Submit];
    assert clicks[1..][1..][1..] == [Submit];
    assert clicks[1..][1..][1..][1..] == [];
  }

  // ---------------------------------------------------------------------------
  // The page

  class Session {
    const teachers: seq<Teacher>
    var current: nat
    var answers: Answers
    var nextVisible: bool
    var submitVisible: bool
    var posted: seq<Body>
    var alerts: seq<string>

    /** `current` is always the index of a teacher of the roster. */
    ghost predicate Valid()
      reads this
    {
      |teachers| >= 1 && current < |teachers|
    }

    /** What `loadTeacher` leaves behind: a blank form, and submit shown exactly on the last teacher. */
    ghost predicate Loaded()
      reads this
    {
      answers == BlankAnswers &&
      submitVisible == (current == |teachers| - 1) && nextVisible == !submitVisible
    }

    /** The script's top level: start at teacher 0 and load it. */
    constructor (teachers: seq<Teacher>)
      requires |teachers| >= 1
      ensures Valid() && Loaded() && this.teachers == teachers
      ensures current == 0 && posted == [] && alerts == []
    {
      this.teachers := teachers;
      current := 0;
      answers := BlankAnswers;
      nextVisible, submitVisible := true, false;
      posted, alerts := [], [];
      new;
      LoadTeacher();
    }

    /** `loadTeacher`: reset the form and show next or submit. */
    method LoadTeacher()
      requires Valid()
      modifies this`answers, this`nextVisible, this`submitVisible
      ensures Loaded()
    {
      answers := BlankAnswers;
      if current == |teachers| - 1 {
        nextVisible, submitVisible := false, true;
      } else {
        nextVisible, submitVisible := true, false;
      }
    }

    /** `submitToGoogleForm(skipped)`: post the form for the teacher on screen; `skipped` is not used. */
    method SubmitToGoogleForm(skipped: bool)
      requires Valid()
      modifies this`posted
      ensures posted == old(posted) + [BuildPayload(answers, teachers[current].name)]
    {
      var body := BuildPayload(answers, teachers[current].name);
      posted := posted + [body];
    }

    /** The "next" button: on any teacher but the last, post the form, then move on and load. */
    method OnNext()
      requires Valid()
      modifies this`current, this`posted, this`answers, this`nextVisible, this`submitVisible
      ensures Valid()
      ensures current == Step(|teachers|, old(current), Next)
      ensures posted == old(posted) + (if old(current) < |teachers| - 1
                                       then [BuildPayload(old(answers), teachers[old(current)].name)]
                                       else [])
      ensures old(current) < |teachers| - 1 ==> Loaded()
      ensures old(current) == |teachers| - 1 ==>
                answers == old(answers) && nextVisible == old(nextVisible) && submitVisible == old(submitVisible)
    {
      if current < |teachers| - 1 {
        SubmitToGoogleForm(false);
        current := current + 1;
        LoadTeacher();
      }
    }

    /** The "skip" button: move on without posting, or raise an alert on the last teacher. */
    method OnSkip()
      requires Valid()
      modifies this`current, this`alerts, this`answers, this`nextVisible, this`submitVisible
      ensures Valid()
      ensures current == Step(|teachers|, old(current), Skip)
      ensures alerts == old(alerts) + (if old(current) < |teachers| - 1 then [] else [NoMoreTeachers])
      ensures old(current) < |teachers| - 1 ==> Loaded()
      ensures old(current) == |teachers| - 1 ==>
                answers == old(answers) && nextVisible == old(nextVisible) && submitVisible == old(submitVisible)
    {
      if current < |teachers| - 1 {
        current := current + 1;
        LoadTeacher();
      } else {
        alerts := alerts + [NoMoreTeachers];
      }
    }

    /** The form's submit: post the form for the teacher on screen and confirm; `current` stays. */
    method OnSubmit()
      requires Valid()
      modifies this`posted, this`alerts
      ensures posted == old(posted) + [BuildPayload(answers, teachers[current].name)]
      ensures alerts == old(alerts) + [AllSubmitted]
    {
      SubmitToGoogleForm(false);
      alerts := alerts + [AllSubmitted];
    }

    /** Dispatch one click to its handler. */
    method Click(k: Click)
      requires Valid()
      modifies this`current, this`posted, this`alerts, this`answers, this`nextVisible, this`submitVisible
      ensures Valid()
      ensures current == Step(|teachers|, old(current), k)
      ensures |posted| == |old(posted)| + PostsOf(|teachers|, old(current), k)
    {
      match k
      case Next => OnNext();
      case Skip => OnSkip();
      case Submit => OnSubmit();
    }
  }

  /**
   * A page driven by any sequence of clicks: `current` ends where the
   * reference model says, inside the roster, and the page has posted exactly
   * as many bodies as the reference model counts.
   */
  method RunClicks(teachers: seq<Teacher>, clicks: seq<Click>) returns (current: nat, posts: nat)
    requires |teachers| >= 1
    ensures current == IndexAfter(|teachers|, 0, clicks) && current < |teachers|
    ensures posts == PostsAfter(|teachers|, 0, clicks)
  {
    var s := new Session(teachers);
    for i := 0 to |clicks|
      invariant s.Valid() && s.teachers == teachers
      invariant IndexAfter(|teachers|, 0, clicks) == IndexAfter(|teachers|, s.current, clicks[i..])
      invariant PostsAfter(|teachers|, 0, clicks) == |s.posted| + PostsAfter(|teachers|, s.current, clicks[i..])
    {
      assert clicks[i..][1..] == clicks[i + 1..];
      s.Click(clicks[i]);
    }
    IndexAfterBounded(|teachers|, 0, clicks);
    current, posts := s.current, |s.posted|;
  }
}
