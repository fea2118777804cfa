# Teacher feedback form, modelled in Dafny

The repository is a browser form that walks a student through rating
teachers one at a time and relays each answer to a Google Form by a
response-blind POST. It has two scripts with two divergent flows, and both
are modelled here:

- `teacher-feedback/script.js`: a welcome view, then one teacher at a time
  with a five-star widget and a comment box. "Next" or "skip" saves one
  response per teacher. The final submit saves the teacher on screen and
  then posts one six-field body per saved response. The subject input is
  prefilled from the text of the teacher's `meta` line before the first "•".
- `teacher-feedback/feedback.js`: a two-teacher page with one HTML form
  (student details, three radio groups, comments). "Next" posts the form and
  moves on; "skip" moves on without posting; the form's submit posts the
  form for the teacher on screen. Every move of the teacher index is
  guarded, so it never leaves the roster.

Files:

- `text.dfy` (module `Text`): `trim`, `split(sep)[0]` and the decimal
  numeral a number becomes in a form body, with their properties as lemmas.
- `form_data.dfy` (module `FormData`): a form body as an ordered list of
  key/value pairs, and reading a field back by its key.
- `script.dfy` (module `Script`): the star widget, the response record,
  JavaScript's `||` as the payload uses it, the six-pair payload, the subject
  prefill, and the page state as the class `Session`, one method per handler.
- `feedback.dfy` (module `Feedback`): the eight-pair payload, the page state
  as the class `Session` with the guarded handlers, and a reference model of
  where the teacher index goes under any sequence of clicks.

Page elements are plain fields. A post is the body handed to `fetch`,
appended to the `posted` field. An `alert` in `feedback.js` is its message,
appended to the `alerts` field. The view of `script.js` (welcome, form,
thank-you) is one field `view`. The flags `nextVisible` and `submitVisible`
stand for the two buttons' `hidden` class or `display` style.

Behaviour of the code worth knowing:

- `restart` in `script.js` empties `responses` but leaves `current`
  unchanged. Only `openForm` sets it back to 0.
- A skipped teacher's comment is always posted as "Not Taught". Its rating,
  stored as "", is posted as "Not Taught" too.
- `nextTeacher` and `skipTeacher` have no bounds guard. Advancing from the
  last teacher does not start the submission. It leaves `current` one past
  the roster with nothing loaded.
- In `script.js`, nothing after `current` has reached the end of the roster
  is modelled. The source would throw on `teachers[current].name`, so
  `SaveResponse`, `NextTeacher`, `SkipTeacher` and `SubmitFeedback` require
  `current < |teachers|`.

## Model

| member | source | states |
|---|---|---|
| `Text.TrimStart` | teacher-feedback/script.js:131 | the leading half of `trim()`; its property is stated by `Text.TrimStartSpec` |
| `Text.TrimEnd` | teacher-feedback/script.js:131 | the trailing half of `trim()`; its property is stated by `Text.TrimEndSpec` |
| `Text.Trim` | teacher-feedback/script.js:131 | `trim()`; its properties are stated by `Text.TrimSpec`, `Text.TrimAround` and `Text.TrimIdempotent` |
| `Text.BeforeFirst` | teacher-feedback/script.js:131 | `split(sep)[0]`; its properties are stated by `Text.BeforeFirstSpec` and `Text.BeforeFirstOf` |
| `Text.TrimStartSpec` | teacher-feedback/script.js:131 | leading-trim keeps a suffix, drops only whitespace, and stops at a non-space character |
| `Text.TrimEndSpec` | teacher-feedback/script.js:131 | trailing-trim keeps a prefix, drops only whitespace, and stops at a non-space character |
| `Text.TrimSpec` | teacher-feedback/script.js:131 | `trim()` keeps one contiguous piece of the input with no whitespace at either end; all it removes is whitespace |
| `Text.TrimAround` | teacher-feedback/script.js:131 | trimming whitespace around a core with non-space ends gives exactly that core |
| `Text.TrimIdempotent` | teacher-feedback/script.js:131 | trimming twice is trimming once |
| `Text.BeforeFirstSpec` | teacher-feedback/script.js:131 | `split(sep)[0]` is a prefix without `sep`, followed by `sep` or by the end of the string |
| `Text.BeforeFirstOf` | teacher-feedback/script.js:131 | for `p + sep + rest` with no `sep` in `p`, `split(sep)[0]` is `p` |
| `Text.DecimalString` | teacher-feedback/script.js:174 | the numeral a number becomes when appended to a form is non-empty, all digits, and has no leading zero |
| `Text.DecimalRoundTrip` | teacher-feedback/script.js:174 | reading the numeral back gives the number |
| `Text.DecimalInjective` | teacher-feedback/script.js:174 | different ratings are posted as different numerals |
| `Script.FillState` | teacher-feedback/script.js:84-90 | the fill flag of each star for a rating; its property is stated by `Script.FillStatePrefix` |
| `Script.FillStatePrefix` | teacher-feedback/script.js:84-90 | for a rating 0..5, the filled stars are exactly the first `rating` stars and the rest are unfilled |
| `Script.OrEmptyDefault` | teacher-feedback/script.js:176-178 | `s \|\| ""` is `s` for every string, the empty one included, so student, class and subject are posted as typed |
| `Script.OrFalsy` | teacher-feedback/script.js:174-175 | `0 \|\| b` and `"" \|\| b` are `b`: an unrated or skipped rating and an empty comment give way to the default |
| `Script.FormString` | teacher-feedback/script.js:173-178 | a string is appended as itself. A number is appended as a canonical numeral: non-empty, all digits, no leading zero, and it reads back as that number |
| `Script.ResponseOf` | teacher-feedback/script.js:135-145 | a saved response names its teacher, keeps the skip flag, and has the saved shape: rating "" and comment "" when skipped, a rating 0..5 otherwise |
| `Script.SkipIgnoresWidget` | teacher-feedback/script.js:139-140 | a skipped response is the same whatever the widget and the comment box hold, with rating "" and comment "" |
| `Script.KeepsWidget` | teacher-feedback/script.js:139-140 | a response that is not skipped stores the widget's rating and the comment text |
| `Script.Payload` | teacher-feedback/script.js:172-178 | the six-pair body for one response; its properties are stated by `Script.PayloadFields` and `Script.RatingDigit` |
| `Script.Payloads` | teacher-feedback/script.js:171-190 | the bodies for a list of responses; its property is stated by `Script.PayloadsSpec` |
| `Script.PayloadKeysDistinct` | teacher-feedback/script.js:26-31 | the six field identifiers are distinct |
| `Script.PayloadFields` | teacher-feedback/script.js:171-178 | each body has the keys teacher, rating, comment, student, class, subject in that order. The rating reads back as "Not Taught" if skipped, "0" if unrated, else the rating's numeral. The comment reads back as "Not Taught" if skipped, else the comment. Student, class and subject read back as typed |
| `Script.RatingDigit` | teacher-feedback/script.js:174 | a rating of 1 to 5 is posted as one digit that reads back as the rating |
| `Script.PayloadsSpec` | teacher-feedback/script.js:171-190 | the posting loop's bodies are one per response, the `i`-th being the `i`-th response's body |
| `Script.PostEach` | teacher-feedback/script.js:171-190 | the loop posts, in response order, exactly the bodies `Payloads(responses)` |
| `Script.SubjectPrefill` | teacher-feedback/script.js:131 | `meta.split("•")[0].trim()`; its properties are stated by `Script.SubjectPrefillSpec`, `Script.PrefillOfMeta` and `Script.RosterSubjects` |
| `Script.SubjectPrefillSpec` | teacher-feedback/script.js:131 | `meta[..h]` is the text before the first "•" (`h` is the position of that "•", or the end of `meta`). The prefill is `meta[i..j]` with `i <= j <= h`, where `meta[..i]` and `meta[j..h]` are whitespace and the prefill has no whitespace at either end. So it is exactly the text before the first "•", trimmed, and contains no "•" |
| `Script.PrefillOfMeta` | teacher-feedback/script.js:131 | a `meta` of the form "<subject> • <rest>" prefills `<subject>` |
| `Script.RosterSubjects` | teacher-feedback/script.js:34-38 | the shipped roster prefills "Mathematics", "Science" and "English" |
| `Script.Session.constructor` | teacher-feedback/script.js:92-94 | at load time: `current` = 0, rating 0 (`let currentRating = 0`, line 65), no responses, nothing posted, the stars built (the top-level `buildStars()`, line 210), the welcome view |
| `Script.Session.BuildStars` | teacher-feedback/script.js:64-78 | the buttons carry the values 1 to `STAR_COUNT` = 5 in order (`StarValues()`), and their fill state matches the current rating |
| `Script.Session.UpdateStars` | teacher-feedback/script.js:84-90 | each button is filled exactly when its value is at most `currentRating`; nothing else changes |
| `Script.Session.SetRating` | teacher-feedback/script.js:79-83 | the rating becomes `n` and the fill state becomes `FillState(n)`, a function of `n` alone. So `setRating(n)` then `setRating(m)` leaves the same stars as `setRating(m)` |
| `Script.Session.OpenForm` | teacher-feedback/script.js:98-108 | the form view is shown, `current` = 0, no responses, student name and class cleared, teacher 0 loaded, and the flow invariant holds |
| `Script.Session.LoadTeacher` | teacher-feedback/script.js:111-132 | rating 0, all stars unfilled, comment "", subject prefilled from the teacher's `meta`. Submit is shown and next hidden exactly when `current` is the last index |
| `Script.Session.SaveResponse` | teacher-feedback/script.js:135-147 | exactly one response is appended, built from teacher `current` and the widget and inputs; nothing else changes |
| `Script.Session.NextTeacher` | teacher-feedback/script.js:150-154 | one non-skipped response is appended and `current` rises by one. The next teacher is loaded if there is one, otherwise the widget is left as it was. `\|responses\| == current` and `responses[i].teacher == teachers[i].name` are preserved |
| `Script.Session.SkipTeacher` | teacher-feedback/script.js:155-159 | as `NextTeacher`, with a skipped response (rating "" and comment "") |
| `Script.Session.SubmitFeedback` | teacher-feedback/script.js:162-198 | the current teacher is saved without moving `current`. Then `Payloads(responses)` is posted after the earlier posts: exactly one body per response, in order, and only then is the thank-you view shown. In the flow, the responses then cover teachers 0..current |
| `Script.Session.Restart` | teacher-feedback/script.js:201-207 | the welcome view is shown and `responses` emptied; `current` and everything else are left unchanged |
| `Script.TwoTeacherScenario` | teacher-feedback/script.js:98-194 | two teachers, the first rated 4 with comment "Good" then "next", the second unrated then submit. This posts exactly the two bodies for (A, 4, "Good") and (B, 0, ""), in that order, and ends on the thank-you view |
| `Feedback.RadioValue` | teacher-feedback/feedback.js:95-106 | `?.value \|\| ""` for one radio group; its property is stated by `Feedback.RadioValueEmpty` |
| `Feedback.BuildPayload` | teacher-feedback/feedback.js:72-112 | the eight-pair body; its properties are stated by `Feedback.PayloadFields` |
| `Feedback.RadioValueEmpty` | teacher-feedback/feedback.js:95-106 | a radio group contributes "" exactly when nothing is checked or the checked value is ""; otherwise it contributes the checked value |
| `Feedback.PayloadKeysDistinct` | teacher-feedback/feedback.js:75-111 | the eight field identifiers are distinct |
| `Feedback.PayloadFields` | teacher-feedback/feedback.js:72-112 | each body has the keys student name, class, section, teacher name, rating, clarity, behaviour, comments in that order. Each reads back as its input, with `t.name` under `entry.1611097108` and "" for an unanswered radio group. The `skipped` flag is not an input |
| `Feedback.RosterClicks` | teacher-feedback/feedback.js:1-63 | on the shipped two-teacher page, next, next, skip, submit ends on teacher 1 with two posts: the second next and the skip on the last teacher neither move nor post |
| `Feedback.IndexAfterBounded` | teacher-feedback/feedback.js:40-56 | under any sequence of clicks the index never decreases and never leaves `[0, \|teachers\| - 1]` |
| `Feedback.PostsAtMostClicks` | teacher-feedback/feedback.js:40-63 | a sequence of clicks posts at most one body per click, and a sequence of skips posts nothing |
| `Feedback.Session.constructor` | teacher-feedback/feedback.js:12-37 | at load time: `current` = 0, teacher 0 loaded (blank form, buttons set), nothing posted, no alert |
| `Feedback.Session.LoadTeacher` | teacher-feedback/feedback.js:23-37 | the form is reset. Submit is shown and next hidden exactly when `current` is the last index, and the reverse otherwise |
| `Feedback.Session.SubmitToGoogleForm` | teacher-feedback/feedback.js:66-119 | exactly one body, for the teacher on screen and the form as it is, is posted; `skipped` has no effect |
| `Feedback.Session.OnNext` | teacher-feedback/feedback.js:40-46 | on a teacher before the last: the form is posted for that teacher, then `current` rises by one and the next teacher is loaded. On the last teacher nothing changes and nothing is posted |
| `Feedback.Session.OnSkip` | teacher-feedback/feedback.js:49-56 | on a teacher before the last: `current` rises by one and the next teacher is loaded, with no post. On the last teacher `current` stays and the "No more teachers left." alert is raised |
| `Feedback.Session.OnSubmit` | teacher-feedback/feedback.js:59-63 | one body is posted for the current teacher and the confirmation alert raised; `current` is unchanged |
| `Feedback.Session.Click` | teacher-feedback/feedback.js:40-63 | each click moves `current` and posts as the reference step says, keeping `current` inside the roster |
| `Feedback.RunClicks` | teacher-feedback/feedback.js:12-63 | after any sequence of clicks from page load, `current` is where the reference model puts it and inside the roster. The page has posted exactly the reference model's count of bodies |

## Left out

- Rendering: photos, names, the `meta` line, the progress text,
  `ratingValue.innerText`, the submit button's disabled state and label,
  and the `hidden` classes beyond the `view` field and the two button flags.
- Event wiring: `script.js` binds the start button to `openForm` and each
  star to `setRating(i)`. Its next, "not taught" and submit buttons are
  bound outside the script, so its handlers are modelled as directly
  callable methods.
- The network: `fetch` with `no-cors`, `FormData` and `URLSearchParams`
  encoding, and the form URLs. A post is modelled as an attempt recorded in
  `posted`. Its result is never read, and a caught failure changes nothing.
- Timing and `async`/`await`: the 200 ms pause between posts, and the event
  loop. Posts are modelled as sequential, in order.
- `console.warn`. Each `alert` in `feedback.js` is recorded by its message
  only.
- `form.reset()` restores HTML defaults that lie outside the scripts. The
  model takes them to be empty inputs and no radio button checked.
- `Script.Session.SaveResponse`, `Script.Session.NextTeacher`,
  `Script.Session.SkipTeacher`, `Script.Session.SubmitFeedback`: calls with
  `current == |teachers|` are not modelled, because the source would throw
  on `teachers[current].name`.
- `Text.TrimSpec`: whitespace is space, tab, line feed and carriage return.
  JavaScript's `trim` also removes other Unicode spaces and line terminators.
- `Script.FormString`: numbers are the non-negative integers a rating can
  be. Other JavaScript numbers (NaN, fractions, negatives) cannot occur here.
- `Script.Session.SetRating`: the calls in the source pass 0 (on load) or a
  star's value 1..5, and the model requires exactly that range.
