/**
 * The multi-teacher flow of teacher-feedback/script.js: a welcome view, one
 * teacher at a time with a five-star widget and a comment box, a response
 * saved per teacher on "next" or "skip", and one form post per saved
 * response on the final submit.
 *
 * The page elements are plain fields of `Session`; a post is the body handed
 * to `fetch`, appended to `posted` (its outcome is never read by the source).
 */
module Script {
  import opened Text
  import opened FormData

  // Opaque identifiers of the receiving form's fields.
  const EntryTeacher := "entry.1111111111"
  const EntryRating := "entry.2222222222"
  const EntryComment := "entry.3333333333"
  const EntryStudent := "entry.4444444444"
  const EntryClass := "entry.5555555555"
  const EntrySubject := "entry.6666666666"

  /** The six keys of a posted body, in the order they are appended. */
  const PayloadKeys := [EntryTeacher, EntryRating, EntryComment, EntryStudent, EntryClass, EntrySubject]

  const STAR_COUNT: nat := 5

  /** The separator between subject and class in a teacher's `meta` line. */
  const Bullet: char := '\U{2022}'

  datatype Teacher = Teacher(name: string, meta: string, photo: string)

  /** The `meta` line of a roster entry: "<subject> \U{2022} Class 8A". */
  function ClassMeta(subject: string): string {
    subject + " " + [Bullet] + " Class 8A"
  }

  /** The roster the page ships with. */
  const Roster := [
    Teacher("Mrs. Anjali Sharma", ClassMeta("Mathematics"), "images/teacher1.jpg"),
    Teacher("Ms. Pooja Verma", ClassMeta("Science"), "images/teacher2.jpg"),
    Teacher("Mrs. Neha Singh", ClassMeta("English"), "images/teacher3.jpg")
  ]

  // ---------------------------------------------------------------------------
  // Star widget

  /** The `data-value` of each star button, in the order `buildStars` appends them. */
  function StarValues(): seq<int> {
    seq(STAR_COUNT, k => k + 1)
  }

  /** The "filled" flag of each star button when the widget holds `rating`. */
  function FillState(rating: int): seq<bool> {
    seq(STAR_COUNT, k => k + 1 <= rating)
  }

  /** For a rating the widget can hold, the filled stars are exactly the first `rating` ones. */
  lemma FillStatePrefix(rating: nat)
    requires rating <= STAR_COUNT
    ensures FillState(rating) == seq(rating, _ => true) + seq(STAR_COUNT - rating, _ => false)
  {
  }

  // ---------------------------------------------------------------------------
  // JavaScript values and the `||` operator, as far as the payload uses them

  /** A value held in a response object: a string, or a number (the star rating). */
  datatype JsVal = JStr(s: string) | JNum(n: nat)

  /** JavaScript truthiness: "" and 0 are falsy. */
  predicate Truthy(v: JsVal) {
    match v
    case JStr(s) => s != ""
    case JNum(n) => n != 0
  }

  /** `a || b` */
  function Or(a: JsVal, b: JsVal): JsVal {
    if Truthy(a) then a else b
  }

  /** `s || ""` is `s` for every string: an empty input is posted as itself. */
  lemma OrEmptyDefault(s: string)
    ensures Or(JStr(s), JStr("")) == JStr(s)
  {
  }

  /** A falsy value gives way to the default: `0 || b` and `"" || b` are both `b`. */
  lemma OrFalsy(b: JsVal)
    ensures Or(JNum(0), b) == b && Or(JStr(""), b) == b
  {
  }

  /** The string a value becomes when it is appended to a `FormData`. */
  function FormString(v: JsVal): (r: string)
    ensures v.JStr? ==> r == v.s
    ensures v.JNum? ==> |r| >= 1 && (forall k :: 0 <= k < |r| ==> IsDigit(r[k])) && (|r| > 1 ==> r[0] != '0')
    ensures v.JNum? ==> DecimalValue(r) == v.n
  {
    match v
    case JStr(s) => s
    case JNum(n) => DecimalRoundTrip(n); DecimalString(n)
  }

  // ---------------------------------------------------------------------------
  // Saved responses and their payloads

  /** One saved response (`class` in the source is `studentClass` here). */
  datatype Response = Response(
    teacher: string, rating: JsVal, comment: string, skipped: bool,
    student: string, studentClass: string, subject: string)

  /** The shape every response `saveResponse` builds has. */
  predicate Saved(r: Response) {
    if r.skipped then r.rating == JStr("") && r.comment == ""
    else r.rating.JNum? && r.rating.n <= STAR_COUNT
  }

  /** The object `saveResponse(skipped)` pushes for teacher `t`, given the widget and inputs. */
  function ResponseOf(t: Teacher, skipped: bool, rating: nat, comment: string,
                      student: string, studentClass: string, subject: string): (r: Response)
    requires rating <= STAR_COUNT
    ensures Saved(r) && r.teacher == t.name && r.skipped == skipped
  {
    Response(t.name,
             if skipped then JStr("") else JNum(rating),
             if skipped then "" else comment,
             skipped, student, studentClass, subject)
  }

  /** A skipped response does not depend on what the star widget or the comment box hold. */
  lemma SkipIgnoresWidget(t: Teacher, r1: nat, c1: string, r2: nat, c2: string,
                          student: string, studentClass: string, subject: string)
    requires r1 <= STAR_COUNT && r2 <= STAR_COUNT
    ensures ResponseOf(t, true, r1, c1, student, studentClass, subject)
         == ResponseOf(t, true, r2, c2, student, studentClass, subject)
    ensures ResponseOf(t, true, r1, c1, student, studentClass, subject).rating == JStr("")
    ensures ResponseOf(t, true, r1, c1, student, studentClass, subject).comment == ""
  {
  }

  /** A response that is not skipped keeps the widget's rating and the comment text. */
  lemma KeepsWidget(t: Teacher, rating: nat, comment: string,
                    student: string, studentClass: string, subject: string)
    requires rating <= STAR_COUNT
    ensures ResponseOf(t, false, rating, comment, student, studentClass, subject).rating == JNum(rating)
    ensures ResponseOf(t, false, rating, comment, student, studentClass, subject).comment == comment
  {
  }

  /** The body posted for one response: six pairs built with the source's `||` fallbacks. */
  function Payload(r: Response): Body {
    [(EntryTeacher, r.teacher),
     (EntryRating, FormString(Or(r.rating, JStr(if r.skipped then "Not Taught" else "0")))),
     (EntryComment, FormString(Or(JStr(r.comment), JStr(if r.skipped then "Not Taught" else "")))),
     (EntryStudent, FormString(Or(JStr(r.student), JStr("")))),
     (EntryClass, FormString(Or(JStr(r.studentClass), JStr("")))),
     (EntrySubject, FormString(Or(JStr(r.subject), JStr(""))))]
  }

  /** One body per response, in order: what `submitFeedback` posts. */
  function Payloads(rs: seq<Response>): seq<Body> {
    if rs == [] then [] else [Payload(rs[0])] + Payloads(rs[1..])
  }

  /** `Payloads` posts exactly one body per response, the `i`-th for the `i`-th response. */
  lemma {:induction false} PayloadsSpec(rs: seq<Response>)
    ensures |Payloads(rs)| == |rs|
    ensures forall i :: 0 <= i < |rs| ==> Payloads(rs)[i] == Payload(rs[i])
  {
    if rs != [] {
      PayloadsSpec(rs[1..]);
      assert forall i :: 1 <= i < |rs| ==> Payloads(rs)[i] == Payloads(rs[1..])[i - 1];
    }
  }

  /** Two responses are posted as their two bodies, in order. */
  lemma PayloadsPair(x: Response, y: Response)
    ensures Payloads([x] + [y]) == [Payload(x), Payload(y)]
  {
    assert [y][1..] == [];
    assert Payloads([y]) == [Payload(y)];
    assert ([x] + [y])[1..] == [y];
  }

  /** A response saved last is posted last. */
  lemma {:induction false} PayloadsSnoc(rs: seq<Response>, r: Response)
    ensures Payloads(rs + [r]) == Payloads(rs) + [Payload(r)]
  {
    if rs == [] {
      assert [r][1..] == [];
    } else {
      assert (rs + [r])[1..] == rs[1..] + [r];
      PayloadsSnoc(rs[1..], r);
    }
  }

  /** The rating text the receiving form gets for a saved response. */
  function RatingText(r: Response): string
    requires Saved(r)
  {
    if r.skipped then "Not Taught"
    else if r.rating.n == 0 then "0"
    else DecimalString(r.rating.n)
  }

  lemma PayloadKeysDistinct()
    ensures DistinctKeys(PayloadKeys)
  {
  }

  /** A body's keys are the six identifiers, in order. */
  lemma PayloadKeysOf(r: Response)
    ensures Keys(Payload(r)) == PayloadKeys
  {
  }

  /** The `k`-th key of a body reads back the `k`-th appended value. */
  lemma PayloadLookup(r: Response, k: nat)
    requires k < |PayloadKeys|
    ensures Lookup(Payload(r), PayloadKeys[k]) == Some(Payload(r)[k].1)
  {
    PayloadKeysOf(r);
    PayloadKeysDistinct();
    LookupDistinct(Payload(r), k);
  }

  /**
   * Every posted body has the six keys in the fixed order, and the receiving
   * form reads back: the teacher's name; "Not Taught" for a skipped teacher,
   * "0" for an unrated one and the rating's numeral otherwise; "Not Taught"
   * or the comment; and the student, class and subject as typed.
   */
  lemma PayloadFields(r: Response)
    requires Saved(r)
    ensures Keys(Payload(r)) == PayloadKeys
    ensures Lookup(Payload(r), EntryTeacher) == Some(r.teacher)
    ensures Lookup(Payload(r), EntryRating) == Some(RatingText(r))
    ensures Lookup(Payload(r), EntryComment) == Some(if r.skipped then "Not Taught" else r.comment)
    ensures Lookup(Payload(r), EntryStudent) == Some(r.student)
    ensures Lookup(Payload(r), EntryClass) == Some(r.studentClass)
    ensures Lookup(Payload(r), EntrySubject) == Some(r.subject)
  {
    PayloadKeysOf(r);
    PayloadLookup(r, 0);
    PayloadLookup(r, 1);
    PayloadLookup(r, 2);
    PayloadLookup(r, 3);
    PayloadLookup(r, 4);
    PayloadLookup(r, 5);
  }

  /** A rating of 1 to 5 is posted as its single decimal digit. */
  lemma RatingDigit(r: Response)
    requires Saved(r) && !r.skipped && 1 <= r.rating.n
    ensures |RatingText(r)| == 1 && DecimalValue(RatingText(r)) == r.rating.n
  {
    DecimalRoundTrip(r.rating.n);
  }

  // ---------------------------------------------------------------------------
  // Subject prefill

  /** `meta.split("•")[0].trim()` */
  function SubjectPrefill(meta: string): string {
    Trim(BeforeFirst(meta, Bullet))
  }

  /**
   * `meta[..h]` is the text before the first bullet (`h` is the bullet's
   * position, or the end of `meta`), and the prefill is the piece
   * `meta[i..j]` of it left after the whitespace `meta[..i]` and
   * `meta[j..h]` is cut off; it holds no bullet and has no whitespace at
   * either end.
   */
  lemma SubjectPrefillSpec(meta: string) returns (h: nat, i: nat, j: nat)
    ensures h == |BeforeFirst(meta, Bullet)| <= |meta|
    ensures Bullet !in meta[..h] && (h == |meta| || meta[h] == Bullet)
    ensures i <= j <= h && SubjectPrefill(meta) == meta[i..j]
    ensures forall k :: 0 <= k < i ==> IsSpace(meta[k])
    ensures forall k :: j <= k < h ==> IsSpace(meta[k])
    ensures Bullet !in meta[..j] && Bullet !in SubjectPrefill(meta)
    ensures SubjectPrefill(meta) == [] ||
            (!IsSpace(SubjectPrefill(meta)[0]) && !IsSpace(SubjectPrefill(meta)[|SubjectPrefill(meta)| - 1]))
  {
    var head := BeforeFirst(meta, Bullet);
    BeforeFirstSpec(meta, Bullet);
    h := |head|;
    i := TrimSpec(head);
    j := i + |SubjectPrefill(meta)|;
    assert head == meta[..h];
    assert meta[..j] == head[..j];
    assert meta[i..j] == head[i..j];
    forall k | 0 <= k < i ensures IsSpace(meta[k]) {
      assert meta[k] == head[k];
    }
    forall k | j <= k < h ensures IsSpace(meta[k]) {
      assert meta[k] == head[k];
    }
  }

  /** A `meta` line of the form "<subject> • <rest>" prefills `<subject>`. */
  lemma PrefillOfMeta(subject: string, rest: string)
    requires Bullet !in subject
    requires subject != [] && !IsSpace(subject[0]) && !IsSpace(subject[|subject| - 1])
    ensures SubjectPrefill(subject + " " + [Bullet] + rest) == subject
  {
    assert Bullet !in subject + " ";
    BeforeFirstOf(subject + " ", Bullet, rest);
    TrimAround("", subject, " ");
    assert "" + subject + " " == subject + " ";
  }

  /** The subject each roster entry prefills, in roster order. */
  const RosterSubjectNames := ["Mathematics", "Science", "English"]

  /** The roster's subject prefills: "Mathematics", "Science" and "English". */
  lemma RosterSubjects(i: nat)
    requires i < |Roster|
    ensures SubjectPrefill(Roster[i].meta) == RosterSubjectNames[i]
  {
    var subject := RosterSubjectNames[i];
    assert Roster[i].meta == ClassMeta(subject);
    PrefillOfMeta(subject, " Class 8A");
  }

  /**
   * The posting loop of `submitFeedback`: one body per response, in order.
   * The outcome of each post is never read: a failed post is caught and the
   * loop goes on.
   */
  method PostEach(rs: seq<Response>) returns (bodies: seq<Body>)
    ensures bodies == Payloads(rs)
  {
    bodies := [];
    for i := 0 to |rs|
      invariant bodies == Payloads(rs[..i])
    {
      assert rs[..i + 1] == rs[..i] + [rs[i]];
      PayloadsSnoc(rs[..i], rs[i]);
      bodies := bodies + [Payload(rs[i])];
    }
    assert rs[..|rs|] == rs;
  }

  // ---------------------------------------------------------------------------
  // The session

  datatype View = Welcome | Form | ThankYou

  class Session {
    const teachers: seq<Teacher>
    var current: nat
    var currentRating: nat
    var starValues: seq<int>
    var filled: seq<bool>
    var comment: string
    var studentName: string
    var studentClass: string
    var subject: string
    var responses: seq<Response>
    var nextVisible: bool
    var submitVisible: bool
    var view: View
    var posted: seq<Body>

    ghost predicate Valid()
      reads this
    {
      |teachers| >= 1 && current <= |teachers| &&
      currentRating <= STAR_COUNT &&
      starValues == StarValues() && filled == FillState(currentRating) &&
      forall i :: 0 <= i < |responses| ==> Saved(responses[i])
    }

    /** What `loadTeacher` leaves behind for teacher `current`. */
    ghost predicate Loaded()
      reads this
    {
      current < |teachers| &&
      submitVisible == (current == |teachers| - 1) && nextVisible == !submitVisible &&
      currentRating == 0 && filled == FillState(0) && comment == "" &&
      subject == SubjectPrefill(teachers[current].meta)
    }

    /** The flow invariant from `openForm` on: one response per teacher already passed, in roster order. */
    ghost predicate InFlow()
      reads this
    {
      view == Form && current <= |teachers| && |responses| == current &&
      forall i :: 0 <= i < current ==> responses[i].teacher == teachers[i].name
    }

    /** The script's top level: state initialised, the stars built, the welcome view shown. */
    constructor (teachers: seq<Teacher>)
      requires |teachers| >= 1
      ensures Valid() && this.teachers == teachers
      ensures view == Welcome && current == 0 && currentRating == 0 && responses == [] && posted == []
    {
      this.teachers := teachers;
      current, currentRating := 0, 0;
      comment, studentName, studentClass, subject := "", "", "", "";
      responses, posted := [], [];
      nextVisible, submitVisible := true, false;
      view := Welcome;
      new;
      BuildStars();
    }

    /** `buildStars`: one button per value 1..STAR_COUNT, then their fill state. */
    method BuildStars()
      modifies this`starValues, this`filled
      ensures starValues == StarValues() && filled == FillState(currentRating)
    {
      var vs: seq<int> := [];
      for i := 1 to STAR_COUNT + 1
        invariant vs == StarValues()[..i - 1]
      {
        vs := vs + [i];
      }
      starValues := vs;
      UpdateStars();
    }

    /** `updateStars`: a button is filled exactly when its value is at most the current rating. */
    method UpdateStars()
      modifies this`filled
      ensures |filled| == |starValues|
      ensures forall k :: 0 <= k < |starValues| ==> filled[k] == (starValues[k] <= currentRating)
    {
      var f: seq<bool> := [];
      for k := 0 to |starValues|
        invariant |f| == k
        invariant forall m :: 0 <= m < k ==> f[m] == (starValues[m] <= currentRating)
      {
        f := f + [starValues[k] <= currentRating];
      }
      filled := f;
    }

    /** `setRating(n)`: the fill state afterwards depends on `n` alone, not on any earlier rating. */
    method SetRating(n: nat)
      requires Valid() && n <= STAR_COUNT
      modifies this`currentRating, this`filled
      ensures Valid() && currentRating == n && filled == FillState(n)
    {
      currentRating := n;
      UpdateStars();
    }

    /** `openForm`: back to teacher 0 with no responses and empty student fields. */
    method OpenForm()
      requires Valid()
      modifies this`view, this`current, this`responses, this`studentName, this`studentClass,
               this`subject, this`starValues, this`filled, this`currentRating,
               this`nextVisible, this`submitVisible, this`comment
      ensures Valid() && InFlow() && Loaded()
      ensures view == Form && current == 0 && responses == []
      ensures studentName == "" && studentClass == ""
    {
      view := Form;
      current := 0;
      responses := [];
      studentName, studentClass, subject := "", "", "";
      BuildStars();
      LoadTeacher();
    }

    /** `loadTeacher`: reset the widget and the comment, prefill the subject, show next or submit. */
    method LoadTeacher()
      requires Valid() && current < |teachers|
      modifies this`nextVisible, this`submitVisible, this`currentRating, this`filled,
               this`comment, this`subject
      ensures Valid() && Loaded()
    {
      if current == |teachers| - 1 {
        nextVisible, submitVisible := false, true;
      } else {
        nextVisible, submitVisible := true, false;
      }
      SetRating(0);
      comment := "";
      subject := SubjectPrefill(teachers[current].meta);
    }

    /** `saveResponse(skipped)`: push the response for teacher `current`. */
    method SaveResponse(skipped: bool)
      requires Valid() && current < |teachers|
      modifies this`responses
      ensures Valid()
      ensures responses == old(responses) + [ResponseOf(teachers[current], skipped, currentRating,
                                                        comment, studentName, studentClass, subject)]
    {
      var r := ResponseOf(teachers[current], skipped, currentRating, comment,
                          studentName, studentClass, subject);
      responses := responses + [r];
    }

    /** `nextTeacher`: save a rated response, move on, and load the next teacher if there is one. */
    method NextTeacher()
      requires Valid() && current < |teachers|
      modifies this`responses, this`current, this`nextVisible, this`submitVisible,
               this`currentRating, this`filled, this`comment, this`subject
      ensures Valid()
      ensures responses == old(responses) + [ResponseOf(teachers[old(current)], false, old(currentRating),
                                                        old(comment), studentName, studentClass, old(subject))]
      ensures current == old(current) + 1
      ensures current < |teachers| ==> Loaded()
      ensures current == |teachers| ==>
                nextVisible == old(nextVisible) && submitVisible == old(submitVisible) &&
                currentRating == old(currentRating) && comment == old(comment) && subject == old(subject)
      ensures old(InFlow()) ==> InFlow()
    {
      SaveResponse(false);
      current := current + 1;
      if current < |teachers| {
        LoadTeacher();
      }
    }

    /** `skipTeacher`: save a "not taught" response, move on, and load the next teacher if there is one. */
    method SkipTeacher()
      requires Valid() && current < |teachers|
      modifies this`responses, this`current, this`nextVisible, this`submitVisible,
               this`currentRating, this`filled, this`comment, this`subject
      ensures Valid()
      ensures responses == old(responses) + [ResponseOf(teachers[old(current)], true, old(currentRating),
                                                        old(comment), studentName, studentClass, old(subject))]
      ensures current == old(current) + 1
      ensures current < |teachers| ==> Loaded()
      ensures current == |teachers| ==>
                nextVisible == old(nextVisible) && submitVisible == old(submitVisible) &&
                currentRating == old(currentRating) && comment == old(comment) && subject == old(subject)
      ensures old(InFlow()) ==> InFlow()
    {
      SaveResponse(true);
      current := current + 1;
      if current < |teachers| {
        LoadTeacher();
      }
    }

    /**
     * `submitFeedback`: save the current teacher (without moving on), then
     * post one body per saved response, in order, whatever becomes of each
     * post, and only then show the thank-you view.
     */
    method SubmitFeedback()
      requires Valid() && current < |teachers|
      modifies this`responses, this`posted, this`view
      ensures Valid()
      ensures responses == old(responses) + [ResponseOf(teachers[current], false, currentRating,
                                                        comment, studentName, studentClass, subject)]
      ensures posted == old(posted) + Payloads(responses)
      ensures view == ThankYou
      ensures old(InFlow()) ==>
                |responses| == current + 1 &&
                forall i :: 0 <= i <= current ==> responses[i].teacher == teachers[i].name
    {
      SaveResponse(false);
      var bodies := PostEach(responses);
      posted := posted + bodies;
      view := ThankYou;
    }

    /** `restart`: back to the welcome view with no responses; `current` is left as it was. */
    method Restart()
      requires Valid()
      modifies this`view, this`responses
      ensures Valid() && view == Welcome && responses == []
    {
      view := Welcome;
      responses := [];
    }
  }

  /**
   * Two teachers: the first rated 4 with comment "Good" and passed with
   * "next", the second left unrated and submitted. Two bodies are posted,
   * in roster order, and the thank-you view is shown.
   */
  method TwoTeacherScenario(a: Teacher, b: Teacher) returns (posts: seq<Body>, view: View)
    ensures posts == [Payload(Response(a.name, JNum(4), "Good", false, "", "", SubjectPrefill(a.meta))),
                      Payload(Response(b.name, JNum(0), "", false, "", "", SubjectPrefill(b.meta)))]
    ensures view == ThankYou
  {
    var s := new Session([a, b]);
    s.OpenForm();
    s.SetRating(4);
    s.comment := "Good";
    s.NextTeacher();
    ghost var ra := Response(a.name, JNum(4), "Good", false, "", "", SubjectPrefill(a.meta));
    assert s.responses == [ra] && s.posted == [];
    ghost var rb := Response(b.name, JNum(0), "", false, "", "", SubjectPrefill(b.meta));
    assert ResponseOf(s.teachers[s.current], false, s.currentRating, s.comment,
                      s.studentName, s.studentClass, s.subject) == rb;
    s.SubmitFeedback();
    assert s.responses == [ra] + [rb];
    PayloadsPair(ra, rb);
    posts, view := s.posted, s.view;
  }
}
