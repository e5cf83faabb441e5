# Festival site: submission forms and hash routing

This project models the logic at the core of a film festival's single-page site, written in
Dafny. It covers three parts:

- **The shared field validators** (`src/utils/formValidation.ts`): the email pattern, the age
  and duration range checks, the file size and type checks, the generic required check and
  the word count. It also covers the messages the forms report; messages are tags standing
  for the localised strings.
- **The Youth and World submission forms** (`src/components/pages/YouthSubmissionForm.tsx`,
  `src/components/pages/WorldSubmissionForm.tsx`):
  - each form's state cells are a class whose methods are the change handlers and the
    submit handler;
  - `validateMainForm` is a pure function from a snapshot of the form to the error
    dictionary it builds;
  - the document handed to the `submissions` collection is a pure function of the snapshot.
- **The hash router** (`src/App.tsx`): `handleHashChange` keeps the page state in step with
  the location hash, and `renderPage` picks what to show.

The JavaScript built-ins these parts lean on have their own module, `JsText`:

- `String.prototype.trim` and its whitespace set;
- `split(/\s+/)` followed by `filter(nonEmpty)`;
- `indexOf` and the first-match `replace` with a one-character pattern;
- `parseInt` with no radix.

Modules:

| module | file | models |
|---|---|---|
| `Wrappers` | `wrappers.dfy` | `Option`, used for `NaN`, `null` and absent dictionary entries |
| `JsText` | `js_text.dfy` | the string built-ins above |
| `FormValidation` | `form_validation.dfy` | `formValidation.ts` |
| `FormCommon` | `form_common.dfy` | what both forms share: file slots, agreement flags, the checks run in turn on an error dictionary, clearing an entry, `value \|\| null` |
| `YouthSubmission` | `youth_submission_form.dfy` | the Youth form |
| `WorldSubmission` | `world_submission_form.dfy` | the World form |
| `Routing` | `app.dfy` | `App.tsx` |

How the forms' error dictionaries are modelled:

- `validateMainForm` runs its checks in order on an empty dictionary. Check `j` writes its
  message under `MainFormKeys[j]` when it fails.
- `Outcome(d, isThai, limits, k)` says what the check under key `k` reports.
- `MainFormEntry` proves that the finished dictionary holds exactly that outcome under each
  key.
- The entry lemmas then state each key's rule in the source's own terms. Together they give
  the submit gate: the dictionary is empty exactly when the snapshot is `Submittable`.

## Model

| member | source | states |
|---|---|---|
| `JsText.Trim` | src/utils/formValidation.ts:37 | `trim()` returns a slice of the input with only whitespace cut before and after it; the result is empty exactly when the input is all whitespace, the falsy value the forms' `!value.trim()` tests; otherwise it starts and ends with a non-whitespace character |
| `JsText.IndexOf` | src/App.tsx:29 | the index found holds the character and no earlier index does; the length of the string means absent |
| `JsText.NonEmpty` | src/utils/formValidation.ts:53 | `filter(word => word.length > 0)` keeps every non-empty piece as often as it occurs and drops only the empty ones (equal multisets once the empty piece is removed) |
| `JsText.ParseInt` | src/components/pages/YouthSubmissionForm.tsx:156 | `parseInt` reads a number only where the first non-whitespace character is a decimal digit, or a sign followed by one; otherwise it gives `NaN` |
| `JsText.SplitYieldsWords` | src/utils/formValidation.ts:53 | `split(/\s+/)` followed by the non-empty filter yields exactly the maximal runs of non-whitespace characters |
| `JsText.WordsOfTrim` | src/utils/formValidation.ts:53 | trimming before splitting does not change the words |
| `JsText.WordsOfConcat` | src/utils/formValidation.ts:53 | cutting a text just before a whitespace character splits its words into the words of the two parts |
| `JsText.WordsOfBlank` | src/utils/formValidation.ts:53 | whitespace-only text has no words |
| `JsText.WordsIgnoreTrailing` | src/utils/formValidation.ts:53 | trailing whitespace does not change the words |
| `JsText.ParseIntReadsDecimal` | src/components/pages/YouthSubmissionForm.tsx:156 | `parseInt` reads back every decimal numeral, negative ones included, after leading whitespace and before any character that cannot continue the numeral |
| `JsText.ParseIntOfBlank` | src/components/pages/YouthSubmissionForm.tsx:156 | with nothing but whitespace `parseInt` gives `NaN` |
| `JsText.TrimStartSkips` | src/utils/formValidation.ts:37 | the left half of `trim` removes exactly a leading whitespace run |
| `FormValidation.ValidateEmail` | src/utils/formValidation.ts:8-11 | any address the pattern accepts has at least five characters (`a@b.c`) |
| `FormValidation.ValidateAge` | src/utils/formValidation.ts:14-17 | an age passes exactly when it is a number inside the category's inclusive range, the range the category's `invalidAge` message names (lines 62-67); `NaN` fails |
| `FormValidation.ValidateDuration` | src/utils/formValidation.ts:20-22 | a duration passes exactly when it is a number inside the inclusive range the `invalidDuration` message names (lines 68-70); `NaN` fails |
| `FormValidation.ValidateFileSizeInclusive` | src/utils/formValidation.ts:25-27 | the size limit is inclusive: a file passes a limit equal to its size and fails one byte less; passing a limit means passing every larger one |
| `FormValidation.ValidateFileTypeIff` | src/utils/formValidation.ts:30-32 | the type check passes exactly when the MIME type is among the allowed types; allowing more types never rejects a file that passed |
| `FormValidation.ValidateRequiredOtherKinds` | src/utils/formValidation.ts:39-47 | a number passes exactly when it is greater than zero (`NaN`, zero, negatives and negative infinity fail); a boolean exactly when `true`; a list exactly when it has an item |
| `FormValidation.ValidateEmailIff` | src/utils/formValidation.ts:8-11 | `validateEmail` accepts exactly the strings with one `@`, no whitespace, a non-empty part before the `@`, and a `.` after it with a character on each side |
| `FormValidation.ValidEmailIsNotBlank` | src/utils/formValidation.ts:8-11 | an address the pattern accepts is never blank |
| `FormValidation.ValidateEmailExamples` | src/utils/formValidation.ts:9 | `a@b.co` passes; `a@b` (no dot) and `a b@c.com` (whitespace) fail |
| `FormValidation.ValidateAgeOfNumeral` | src/utils/formValidation.ts:14-17 | an age typed as a numeral, after any whitespace, passes exactly when its number lies in the category's range, the range the `invalidAge` message for that category names (lines 62-67) |
| `FormValidation.ValidateDurationOfNumeral` | src/utils/formValidation.ts:20-22 | a duration typed as a numeral, after any whitespace, passes exactly when its number lies in the range the `invalidDuration` message names (lines 68-70) |
| `FormValidation.RangeChecksAtBounds` | src/utils/formValidation.ts:14-22 | `NaN` fails both range checks; both bounds pass; the values just outside fail |
| `FormValidation.ValidateRequiredString` | src/utils/formValidation.ts:35-38 | a required string passes exactly when it holds a non-whitespace character |
| `FormValidation.WordCountCountsWords` | src/utils/formValidation.ts:53 | the word count is the number of maximal non-whitespace runs |
| `FormValidation.ValidateWordCountIff` | src/utils/formValidation.ts:52-55 | `validateWordCount` holds exactly when the number of words is at most the ceiling |
| `FormValidation.BlankTextHasNoWords` | src/utils/formValidation.ts:52-55 | whitespace-only text counts zero words and passes any non-negative ceiling |
| `FormValidation.WordCountOfJoin` | src/utils/formValidation.ts:53 | two texts joined by whitespace count as many words as the two together |
| `FormCommon.DurationOutcomeEntry` | src/components/pages/YouthSubmissionForm.tsx:153-158 | the duration check leaves `required` for an empty value, `invalidDuration` for one that fails the range, and nothing when it passes |
| `FormCommon.AgeOutcomeEntry` | src/components/pages/WorldSubmissionForm.tsx:151-156 | the age check works the same way against the category's limits |
| `FormCommon.EmailOutcomeEntry` | src/components/pages/YouthSubmissionForm.tsx:172-176 | the email check leaves `required` for a blank value, `invalidEmail` for any other value the pattern refuses, and nothing otherwise |
| `FormCommon.RunChecksEntry` | src/components/pages/YouthSubmissionForm.tsx:146-198 | with distinct keys, the dictionary built by the checks holds each check's message under its key when it fails, and the old entry otherwise |
| `FormCommon.RunChecksAddsOnlyTheirKeys` | src/components/pages/YouthSubmissionForm.tsx:146-198 | the checks add no key but their own |
| `FormCommon.ClearError` | src/components/pages/YouthSubmissionForm.tsx:211-213 | a truthy entry becomes `''`; the key set and every other entry stay; afterwards the entry is falsy |
| `FormCommon.ClearErrorIdempotent` | src/components/pages/YouthSubmissionForm.tsx:211-213 | clearing an entry twice is clearing it once |
| `FormCommon.NullIfEmpty` | src/components/pages/YouthSubmissionForm.tsx:303 | `value \|\| null` is null exactly for the empty string and the value otherwise |
| `YouthSubmission.WithText` | src/components/pages/YouthSubmissionForm.tsx:207 | `{ ...prev, [name]: value }` sets that input and keeps every other input, upload, checkbox, the nationality, the genres and the crew |
| `YouthSubmission.WithFile` | src/components/pages/YouthSubmissionForm.tsx:262 | sets that upload slot and keeps everything else |
| `YouthSubmission.WithAgreement` | src/components/pages/YouthSubmissionForm.tsx:231 | sets that checkbox and keeps everything else |
| `YouthSubmission.ClearThaiFields` | src/components/pages/YouthSubmissionForm.tsx:248-256 | both Thai-only inputs become empty and every crew member loses its Thai name and keeps the rest; nothing else changes |
| `YouthSubmission.MainFormKeysIndexed` | src/components/pages/YouthSubmissionForm.tsx:146-198 | every error key is checked, and each exactly once |
| `YouthSubmission.MainFormEntry` | src/components/pages/YouthSubmissionForm.tsx:146-198 | the entry of `validateMainForm` under every key is what that key's check reports |
| `YouthSubmission.ValidateMainFormReportsMessages` | src/components/pages/YouthSubmissionForm.tsx:146-198 | every entry `validateMainForm` leaves is a message, never the empty string |
| `YouthSubmission.FilmEntries` | src/components/pages/YouthSubmissionForm.tsx:150-160 | title, genres, synopsis and connection are required; the Thai title is required in Thai mode only; duration is `required` when empty and `invalidDuration` when out of range |
| `YouthSubmission.SubmitterEntries` | src/components/pages/YouthSubmissionForm.tsx:163-171 | name and phone are required; the Thai name is required in Thai mode only |
| `YouthSubmission.AgeEntry` | src/components/pages/YouthSubmissionForm.tsx:165-170 | the age is `required` when empty and `invalidAge('YOUTH')` when outside the YOUTH range |
| `YouthSubmission.EmailEntry` | src/components/pages/YouthSubmissionForm.tsx:172-176 | a blank email is `required`; any other address the pattern refuses is `invalidEmail` |
| `YouthSubmission.SchoolEntries` | src/components/pages/YouthSubmissionForm.tsx:177-182 | role, school and student id are required; the custom role is required exactly when the role is `Other` |
| `YouthSubmission.OtherEntries` | src/components/pages/YouthSubmissionForm.tsx:185-195 | an empty crew reports `minCrewMembers`; each missing upload is `required` under its own key; any unticked box gives the one `agreements` entry |
| `YouthSubmission.ValidateMainFormEmptyIff` | src/components/pages/YouthSubmissionForm.tsx:273-282 | the submit gate lets a snapshot through exactly when every field is acceptable on its own terms |
| `YouthSubmission.ThaiFieldsRequiredOnlyInThaiMode` | src/components/pages/YouthSubmissionForm.tsx:151 | the Thai title and the Thai name have an entry exactly in Thai mode when blank (line 164 for the name) |
| `YouthSubmission.InternationalErrorsIgnoreThaiFields` | src/components/pages/YouthSubmissionForm.tsx:146-198 | in international mode the Thai-only values do not affect validation, and of the crew only its size does |
| `YouthSubmission.ClearingThaiFieldsKeepsInternationalErrors` | src/components/pages/YouthSubmissionForm.tsx:243-258 | switching to international and clearing the Thai fields changes no error |
| `YouthSubmission.ClearedThaiFieldsRequiredInThaiMode` | src/components/pages/YouthSubmissionForm.tsx:243-258 | after the Thai fields were cleared, Thai mode reports both as `required` |
| `YouthSubmission.BuildRecord` | src/components/pages/YouthSubmissionForm.tsx:288-315 | the record carries: category `youth`; status `submitted`; each text input in its own field; duration and age as `parseInt` reads them; the Thai title and name only in Thai mode (null otherwise); the custom role as null exactly when empty; the nationality, genres and crew unchanged; the four checkboxes as copyright, terms, promotional and final decision |
| `YouthSubmission.AcceptedRecordIsWellFormed` | src/components/pages/YouthSubmissionForm.tsx:288-315 | a record the gate lets through has: duration and age in range; a valid email; genres and a crew; all four agreements; the Thai values exactly in Thai mode and not blank; a custom role whenever the role is `Other`, null exactly when empty; category `youth`; status `submitted` |
| `YouthSubmission.YouthSubmissionForm.constructor` | src/components/pages/YouthSubmissionForm.tsx:23-63 | the initial state: empty snapshot, no errors, Thai mode, not submitting, no success |
| `YouthSubmission.YouthSubmissionForm.HandleInputChange` | src/components/pages/YouthSubmissionForm.tsx:200-214 | sets the input and clears its entry, nothing else |
| `YouthSubmission.YouthSubmissionForm.HandleGenreChange` | src/components/pages/YouthSubmissionForm.tsx:216-221 | sets the genres and clears the `genres` entry |
| `YouthSubmission.YouthSubmissionForm.HandleCrewMembersChange` | src/components/pages/YouthSubmissionForm.tsx:223-228 | sets the crew and clears the `crewMembers` entry |
| `YouthSubmission.YouthSubmissionForm.HandleAgreementChange` | src/components/pages/YouthSubmissionForm.tsx:230-235 | sets the checkbox and clears the `agreements` entry |
| `YouthSubmission.YouthSubmissionForm.HandleNationalityChange` | src/components/pages/YouthSubmissionForm.tsx:238-240 | stores the nationality and nothing else |
| `YouthSubmission.YouthSubmissionForm.HandleNationalityTypeChange` | src/components/pages/YouthSubmissionForm.tsx:243-258 | sets the mode; switching to international clears the Thai fields; errors stay |
| `YouthSubmission.YouthSubmissionForm.HandleFileChange` | src/components/pages/YouthSubmissionForm.tsx:261-268 | sets the upload and clears its entry |
| `YouthSubmission.YouthSubmissionForm.HandleSubmit` | src/components/pages/YouthSubmissionForm.tsx:270-327 | a snapshot with errors has them stored and nothing is handed to the store; otherwise the record is handed to the store, submitting ends false, and success is recorded only when the write succeeds; a document is handed to the store exactly when the snapshot is acceptable |
| `WorldSubmission.WithText` | src/components/pages/WorldSubmissionForm.tsx:184 | sets that input and keeps every other input, upload, checkbox and the genres |
| `WorldSubmission.WithFile` | src/components/pages/WorldSubmissionForm.tsx:208 | sets that upload slot and keeps everything else |
| `WorldSubmission.WithAgreement` | src/components/pages/WorldSubmissionForm.tsx:201 | sets that checkbox and keeps everything else |
| `WorldSubmission.MainFormKeysIndexed` | src/components/pages/WorldSubmissionForm.tsx:133-175 | each checked key is checked once; the occupation and the team are not checked |
| `WorldSubmission.MainFormEntry` | src/components/pages/WorldSubmissionForm.tsx:133-175 | the entry of `validateMainForm` under every key is what that key's check reports |
| `WorldSubmission.ValidateMainFormReportsMessages` | src/components/pages/WorldSubmissionForm.tsx:133-175 | every entry `validateMainForm` leaves is a message, and only checked keys get one |
| `WorldSubmission.FilmEntries` | src/components/pages/WorldSubmissionForm.tsx:137-147 | the same film rules as the Youth form |
| `WorldSubmission.DirectorEntries` | src/components/pages/WorldSubmissionForm.tsx:150-157 | the director's name and phone are required |
| `WorldSubmission.AgeEntry` | src/components/pages/WorldSubmissionForm.tsx:151-156 | the age is `required` when empty and `invalidAge('WORLD')` when outside the WORLD range |
| `WorldSubmission.EmailEntry` | src/components/pages/WorldSubmissionForm.tsx:158-162 | a blank email is `required`; any other address the pattern refuses is `invalidEmail` |
| `WorldSubmission.OtherEntries` | src/components/pages/WorldSubmissionForm.tsx:164-172 | each missing upload is `required` under its own key; any unticked box gives the one `agreements` entry |
| `WorldSubmission.OptionalFieldsNeverReported` | src/components/pages/WorldSubmissionForm.tsx:133-175 | the occupation and the team never have an entry |
| `WorldSubmission.ValidateMainFormEmptyIff` | src/components/pages/WorldSubmissionForm.tsx:235-244 | the submit gate lets a snapshot through exactly when every checked field is acceptable |
| `WorldSubmission.ThaiTitleRequiredOnlyInThaiMode` | src/components/pages/WorldSubmissionForm.tsx:138 | the Thai title has an entry exactly in Thai mode when blank |
| `WorldSubmission.ClearingThaiTitleKeepsInternationalErrors` | src/components/pages/WorldSubmissionForm.tsx:220-230 | switching to international and clearing the Thai title changes no error |
| `WorldSubmission.ClearedThaiTitleRequiredInThaiMode` | src/components/pages/WorldSubmissionForm.tsx:220-230 | after the Thai title was cleared, Thai mode reports it as `required` |
| `WorldSubmission.BuildRecord` | src/components/pages/WorldSubmissionForm.tsx:250-272 | the record carries: category `world`; status `submitted`; each text input in its own field; duration and age as `parseInt` reads them; the Thai title only in Thai mode (null otherwise); occupation and team as null exactly when empty; the genres unchanged; the four checkboxes as copyright, terms, promotional and final decision |
| `WorldSubmission.AcceptedRecordIsWellFormed` | src/components/pages/WorldSubmissionForm.tsx:250-272 | a record the gate lets through has: duration and age in range; a valid email; genres; all four agreements; the Thai title exactly in Thai mode and not blank; occupation and team null exactly when empty; category `world`; status `submitted` |
| `WorldSubmission.WorldSubmissionForm.constructor` | src/components/pages/WorldSubmissionForm.tsx:22-56 | the initial state: empty snapshot, no errors, Thai mode, not submitting, no success |
| `WorldSubmission.WorldSubmissionForm.HandleInputChange` | src/components/pages/WorldSubmissionForm.tsx:177-191 | sets the input and clears its entry, nothing else |
| `WorldSubmission.WorldSubmissionForm.HandleGenreChange` | src/components/pages/WorldSubmissionForm.tsx:193-198 | sets the genres and clears the `genres` entry |
| `WorldSubmission.WorldSubmissionForm.HandleAgreementChange` | src/components/pages/WorldSubmissionForm.tsx:200-205 | sets the checkbox and clears the `agreements` entry |
| `WorldSubmission.WorldSubmissionForm.HandleFileChange` | src/components/pages/WorldSubmissionForm.tsx:207-212 | sets the upload and clears its entry |
| `WorldSubmission.WorldSubmissionForm.HandleNationalityChange` | src/components/pages/WorldSubmissionForm.tsx:215-217 | the selected nationality is not stored: nothing changes |
| `WorldSubmission.WorldSubmissionForm.HandleNationalityTypeChange` | src/components/pages/WorldSubmissionForm.tsx:220-230 | sets the mode; switching to international clears only the Thai title; errors stay |
| `WorldSubmission.WorldSubmissionForm.HandleSubmit` | src/components/pages/WorldSubmissionForm.tsx:232-284 | as for the Youth form: errors are stored and nothing is handed to the store, or the record is handed to the store and success is recorded only when the write succeeds; a document is handed to the store exactly when the snapshot is acceptable |
| `Routing.RemoveFirst` | src/App.tsx:29 | `replace('#', '')` removes only the first `#`: the result is one character shorter and keeps no `#` before the cut; a string without `#` is unchanged |
| `Routing.RemoveFirstKeepsTheRest` | src/App.tsx:29 | after `replace('#', '')` every character before the first `#` stays at its index and every character after it moves one place left |
| `Routing.PageKey` | src/App.tsx:29-30 | the key is never empty; for a hash `#rest` it is `rest`, any later `#` included, or `home` when `rest` is empty; a hash with no `#` is its own key |
| `Routing.RenderPage` | src/App.tsx:39-64 | a named page is shown only for its own key |
| `Routing.RenderPageOfKey` | src/App.tsx:39-50 | each page's key selects that page, and no two pages share a key |
| `Routing.RenderPageIff` | src/App.tsx:39-64 | a named page is shown exactly for its key; the home sections are shown exactly for every other key |
| `Routing.LinkSelectsItsPage` | src/App.tsx:28-31 | `#name` selects the key `name` for every name, `#` characters inside it included, and the bare `#` selects `home`; a name without `#` selects the same key given bare, and the empty hash selects `home` |
| `Routing.HashOfPageShowsIt` | src/App.tsx:28-50 | round trip: the hash of each page's link shows that page |
| `Routing.DoubleHashShowsHome` | src/App.tsx:29 | only the first `#` goes, so `##name` keeps a `#` and shows the home sections |
| `Routing.App.constructor` | src/App.tsx:24-34 | the state starts at `home` and the mount effect applies the current hash at once |
| `Routing.App.HandleHashChange` | src/App.tsx:28-31 | the page state becomes the key of the new hash |

## Left out

- Localised message strings: messages are tags that carry the numbers the strings show.
  `fileTooLarge` carries the byte limit, and its rounding to megabytes is not modelled.
- The limits come from the constants module, which is not part of this model. The forms
  take them as a `Limits` value.
- JavaScript numbers: `parseInt` is modelled on unbounded integers. The loss of precision
  above 2^53 is not modelled, and `-0` is read as `0`.
- `validateRequired` on numbers models a number as `NaN`, a finite real or an infinity. It
  does not model floating-point arithmetic.
- The `submittedAt` server timestamp and the store itself: `HandleSubmit` takes the store's
  answer as `writeSucceeds` and returns the document handed to it.
- The `alert` and console output on failure, the scroll to the first error, and the disabled
  button while submitting.
- HandleSubmit: the `await` is not modelled. The method runs the whole handler in one step,
  so a second submit while a write is pending cannot occur in the model.
- HandleInputChange: the checkbox branch of the generic change handler is not modelled,
  because the forms wire their checkboxes to `handleAgreementChange`. The handler takes a
  text field name, not an arbitrary string.
- The forms' upload pipeline: neither form uploads files or stores file references, and the
  record models exactly what is written.
- The genre selector hands over a single string where the forms declare a string array.
  Genres are modelled as the declared `seq<string>`.
- The crew member's Thai name is set to `undefined` on switching to international. The model
  writes this as `None`. The remaining crew fields are kept together as one map from field name to string.
- Rendering, the other pages and sections, and the Future form's own logic.
- The event-listener cleanup in `App`: the effect runs once on mount, and the model applies
  the initial hash in the constructor.
