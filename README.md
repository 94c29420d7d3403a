# Claon admin server: centre request validation and the review service

This project models two parts of the Claon admin server, the back office
where climbing-centre owners run their centre.

The first part is the **request validation** of centre registration. The
request model checks:

- each operating time: the day of week and an `HH:MM` start and end;
- each fee: the length of its name, and that its price and count are not negative;
- each hold: the lengths of its difficulty and its name;
- each wall: the length of its name;
- the centre name, the telephone number, the Instagram handle and the YouTube channel code;
- the sizes of the image, fee-image, operating-time and proof lists.

Each validator becomes a total function from the submitted value to either
the value it hands on or the violation it raises (`CenterModel`). The
request as a whole collects every field's errors in declaration order and is
built only when there are none. An empty YouTube code is indexed at `[0]`,
and that aborts the whole validation instead of yielding a field error.

The second part is the **review service** of an owner (`ReviewService`).
The owner can:

- list the centre's reviews in a date window;
- answer a review once;
- edit the answer;
- withdraw the answer;
- read a summary of the centre's reviews.

Every operation first checks that the centre exists and then that the
requester owns it. Listing the reviews then checks the date window; the
summary needs nothing more. Creating, editing and withdrawing an answer go on
to check that the review belongs to that centre, and that the answer is
absent (create) or present (edit, withdraw). Only after the whole chain
passes does one of these three make its one change. The three repositories become the
fields of a `ReviewStore` class:

- centre id to owner id;
- the review table;
- the answer table, keyed by the review each answer belongs to.

The summary is a loop over the centre's reviews followed by two
`collections.Counter` tallies. The tally of the answered flags is read
through `Occurrences` of `true` and `false`; the tally of the tag words,
with its first-occurrence order, is what `Tally` models.

Modules:

- `wrappers.dfy`: `Option` and `Result`.
- `text.dfy`: ASCII digits, occurrence counts, and `str.split` / `str.join` with what they satisfy.
- `center.dfy`: the validators of `claon_admin/model/center.py` and how the request composes them.
- `tally.dfy`: `Counter(...).items()` over a list of words.
- `review.dfy`: the guards, the store and the service methods of `claon_admin/service/review.py`.

## Model

| member | source | states |
|---|---|---|
| CenterModel.ValidateDayOfWeek | claon_admin/model/center.py:16-20 | A day of week is accepted if and only if it is one of the eight strings 월 화 수 목 금 토 일 공휴일; an accepted value is passed on unchanged, and every other value is rejected as a bad day of week |
| CenterModel.TimeBodyIsFormatTime | claon_admin/model/center.py:24 | The pattern `(0\d\|1\d\|2[0-3]):(0[1-9]\|[0-5]\d)` covers a string exactly when the string is some hour 0..23 and some minute 0..59 written as two digits each with a colon; minute 00 is included |
| CenterModel.TimeMatchIsFormatTime | claon_admin/model/center.py:24 | `re.match` with `^…$` accepts exactly those times, and each of them followed by one newline |
| CenterModel.ValidateTimeOfDay | claon_admin/model/center.py:22-32 | Start and end time share one rule: accepted if and only if the value is `HH:MM` with HH in 00..23 and MM in 00..59, optionally followed by a newline; the value goes through unchanged, otherwise a time-format error is raised |
| CenterModel.ValidateFeeName | claon_admin/model/center.py:40-44 | A fee name is accepted if and only if its length is between 2 and 50 |
| CenterModel.ValidateNonNegative | claon_admin/model/center.py:46-56 | Price and count are accepted if and only if they are at least 0, unchanged; otherwise the given violation is raised |
| CenterModel.FeeErrors | claon_admin/model/center.py:40-56 | A fee has no error if and only if its name has 2..50 characters, its price is at least 0 and its count is at least 0; a negative price, and a negative count, each show up as their own field error exactly when they occur |
| CenterModel.ValidateHoldDifficulty | claon_admin/model/center.py:63-67 | A hold difficulty is accepted if and only if its length is between 2 and 10; a one-character value is rejected, although the message says 1 character is allowed; every rejection is a difficulty-length error |
| CenterModel.ValidateHoldName | claon_admin/model/center.py:69-73 | A hold name is accepted if and only if its length is between 2 and 10; a one-character name is rejected, although the message says 1 character is allowed; every rejection is a name-length error |
| CenterModel.HoldErrors | claon_admin/model/center.py:63-73 | A hold has no error if and only if both its difficulty and its name have 2..10 characters |
| CenterModel.ValidateWallName | claon_admin/model/center.py:80-84 | A wall name is accepted if and only if its length is between 2 and 20 |
| CenterModel.WallErrors | claon_admin/model/center.py:76-84 | A wall has no error if and only if its name has 2..20 characters |
| CenterModel.OperatingTimeErrors | claon_admin/model/center.py:11-32 | An operating time has no error if and only if its day is one of the eight days and both its times pass the time rule; it carries at most three errors, no two of them at the same field |
| CenterModel.AllNameChars | claon_admin/model/center.py:132-135 | The character scan finishes without raising if and only if every character is an ASCII letter, a code point in the Korean range, or a digit |
| CenterModel.ValidateCenterName | claon_admin/model/center.py:130-138 | A centre name is accepted if and only if every character is allowed and the length is 2..50; a bad character is reported exactly when there is one, whatever the length; a length error is reported exactly when every character is allowed and the length is outside 2..50 |
| CenterModel.TelShapeGroups | claon_admin/model/center.py:142 | A string of the form `0`, 1–2 digits, `-`, 3–4 digits, `-`, 4 digits splits at `-` into exactly three digit groups of those sizes, the first starting with `0` |
| CenterModel.GroupsTelShape | claon_admin/model/center.py:142 | Conversely, three such dash-separated groups form a string that the pattern covers |
| CenterModel.TelBodyIsGroups | claon_admin/model/center.py:142 | The telephone pattern covers a string if and only if the string splits at `-` into digit groups of sizes 2–3 starting with `0`, then 3–4, then 4 |
| CenterModel.TelBodyLengthAndDashes | claon_admin/model/center.py:142 | A string the pattern covers has 11 to 13 characters and exactly two dashes, and begins with `0` |
| CenterModel.TelMatchIsGroups | claon_admin/model/center.py:142 | `re.match` accepts a telephone number exactly when its dash groups have the shape above, with or without one trailing newline |
| CenterModel.ValidateTel | claon_admin/model/center.py:140-144 | A telephone number is accepted if and only if its dash groups have the shape above, optionally with one trailing newline; an accepted number without that newline has 11..13 characters and two dashes; the value goes through unchanged |
| CenterModel.ValidateInstagramName | claon_admin/model/center.py:146-157 | No handle is accepted as no handle; a given handle is accepted if and only if every character is allowed and its length is 3..30, with the character error reported exactly when a character is not allowed, and the length error exactly when all characters are allowed but the length is outside 3..30 |
| CenterModel.ValidateYoutubeCode | claon_admin/model/center.py:159-165 | No code is accepted; a code is accepted if and only if it starts with `@`; on success the validator returns nothing, so the value passed on is always `None`; an empty code fails on `value[0]` and on no other input; the prefix error is raised exactly for a non-empty code not starting with `@` |
| CenterModel.ValidateCount | claon_admin/model/center.py:167-189 | A list size is accepted if and only if it is at most its cap; an accepted size goes through unchanged, and a rejected one raises the given violation |
| CenterModel.FeeImageCapIsFive | claon_admin/model/center.py:173-177 | The fee-image cap is 5: five fee images pass and six are rejected, although the message says 10 |
| CenterModel.Check | claon_admin/model/center.py:111-128 | A field reports no error if and only if its validator accepted it; otherwise exactly one error, at that field |
| CenterModel.ItemErrors | claon_admin/model/center.py:124-127 | The items of a list field report no error if and only if every item from the given index on is valid |
| CenterModel.ListErrors | claon_admin/model/center.py:121-128 | A list field reports no error if and only if every item is valid and, when the field has a cap, its size is within the cap |
| CenterModel.ScalarErrorsEmpty | claon_admin/model/center.py:130-165 | The name, telephone, Instagram and YouTube fields report no error if and only if each of them passes its validator |
| CenterModel.ListFieldErrorsEmpty | claon_admin/model/center.py:121-128 | The list fields report no error if and only if every operating time, fee, hold and wall is valid and the image, fee-image, operating-time and proof lists are within their caps |
| CenterModel.ValidateCenterRequest | claon_admin/model/center.py:111-189 | The request is aborted if and only if the YouTube code is the empty string; it is accepted if and only if every field passes its validator; an accepted request carries the submitted values except the YouTube code, which becomes `None`; a rejected request carries at least one error |
| Tally.FirstOccurrencesDistinct | claon_admin/service/review.py:212 | The first-occurrence order of a list contains each of its elements exactly once and nothing else |
| Tally.Counter | claon_admin/service/review.py:207-212 | `Counter(words).items()` lists the distinct words in order of first occurrence; each word's count is its number of occurrences; the counts sum to the number of words |
| Tally.CountOfEntry | claon_admin/service/review.py:212 | In a tally with distinct tags, the count stored at each entry is the count looked up for that entry's tag |
| Tally.CounterEntries | claon_admin/service/review.py:207-212 | The tags of the summary are distinct; a word is a tag if and only if it occurs among the tag words; each tag's count equals its occurrences and is at least 1 |
| ReviewService.FindReview | claon_admin/service/review.py:86-91 | The review lookup finds a review if and only if the table holds one with that id in that centre, and the review it finds has that id and centre |
| ReviewService.CenterReviews | claon_admin/service/review.py:200 | A centre's reviews are the table's reviews that belong to that centre, and no others |
| ReviewService.CenterReviewsMultiplicity | claon_admin/service/review.py:200 | Each review of the centre appears in the centre's list as often as in the table, and no review of another centre appears, so the list has each of the centre's reviews once when the table does |
| ReviewService.CenterGuard | claon_admin/service/review.py:35-46 | The centre guards pass if and only if the centre exists and the requester owns it; a missing centre gives NotFound / DATA_DOES_NOT_EXIST, and otherwise a non-owner gives Unauthorized / NOT_ACCESSIBLE |
| ReviewService.ReviewGuard | claon_admin/service/review.py:73-91 | After the centre guards, the review guard passes if and only if the review belongs to the centre; otherwise NotFound / DATA_DOES_NOT_EXIST; an earlier failure is reported unchanged |
| ReviewService.CreateGuard | claon_admin/service/review.py:73-98 | The guards of a new answer pass if and only if the earlier guards pass and the review has no answer yet; an existing answer gives NotFound / ROW_ALREADY_EXIST |
| ReviewService.AnsweredGuard | claon_admin/service/review.py:116-141 | The guards of edit and withdraw pass if and only if the earlier guards pass and the review has an answer; a missing answer gives NotFound / DATA_DOES_NOT_EXIST |
| ReviewService.DateRangeGuard | claon_admin/service/review.py:48-52 | The date window is accepted if and only if `end - start` is between 0 and 365 days, inclusive; otherwise BadRequest / WRONG_DATE_RANGE |
| ReviewService.GuardErrorsAreNotFoundOrUnauthorized | claon_admin/service/review.py:73-98 | Each guard failure is one of NotFound / DATA_DOES_NOT_EXIST, Unauthorized / NOT_ACCESSIBLE or NotFound / ROW_ALREADY_EXIST, and the ownership error arises exactly when the centre exists and is someone else's |
| ReviewService.ReviewOfOtherCenterIsMissing | claon_admin/service/review.py:129-134 | A review that exists but belongs to another centre is reported to the owner as NotFound / DATA_DOES_NOT_EXIST |
| ReviewService.CreateTwiceFails | claon_admin/service/review.py:93-98 | Once a review has been answered, a second answer is refused with ROW_ALREADY_EXIST |
| ReviewService.CreateEnablesUpdateAndDelete | claon_admin/service/review.py:136-141 | After an answer was created, editing and withdrawing it pass their guards |
| ReviewService.DeleteEnablesCreate | claon_admin/service/review.py:173-180 | After an answer is withdrawn, a new answer to that review passes its guards |
| ReviewService.InsertKeepsWellFiled | claon_admin/service/review.py:100-105 | Filing a fresh row under an unanswered review keeps every row under its own review with unique row ids, and adds exactly one row |
| ReviewService.AnsweredFlags | claon_admin/service/review.py:204 | The flag of each review is true exactly when the review has an answer |
| ReviewService.TagLists | claon_admin/service/review.py:205 | The tag list of each review, in review order |
| ReviewService.TrueFalseCounts | claon_admin/service/review.py:211 | The true and false counts of the answered flags add up to the number of flags |
| ReviewService.FlattenLength | claon_admin/service/review.py:207 | The flattened tag words number as many as the tag lists hold in total |
| ReviewService.ReviewStore.constructor | claon_admin/service/review.py:17-23 | A store over the given centres and reviews with an empty answer table satisfies the store invariant |
| ReviewService.ReviewStore.FindReviewsByCenter | claon_admin/service/review.py:35-62 | Listing a centre's reviews fails with the missing-centre error, then the ownership error, then WRONG_DATE_RANGE exactly when the window is below 0 or above 365 days; otherwise it hands the unchanged filter to the repository |
| ReviewService.ReviewStore.CreateReviewAnswer | claon_admin/service/review.py:66-107 | A failing guard returns its error and changes nothing; otherwise the review had no answer and receives exactly one new row, with a fresh id, for that review and carrying the given content; no other review's answer changes, and the store invariant (one answer per review) is kept |
| ReviewService.ReviewStore.UpdateReviewAnswer | claon_admin/service/review.py:109-145 | A failing guard returns its error and changes nothing; otherwise only that review's answer changes, getting the new content and keeping its id |
| ReviewService.ReviewStore.DeleteReviewAnswer | claon_admin/service/review.py:147-180 | A failing guard returns its error and changes nothing; otherwise exactly that review's answer is removed, leaving the review unanswered |
| ReviewService.ReviewStore.FindReviewsSummaryByCenter | claon_admin/service/review.py:182-212 | A failing centre guard returns its error; otherwise the answered and unanswered counts are the true and false counts of the centre's answered flags and add up to the number of its reviews; the tag counts are the Counter tally of the flattened tag words, whose counts sum to the number of tag words |

## Left out

- Transactions (`@transactional`), sessions, async/await and the SQLAlchemy repositories: the model replaces them with in-memory fields of `ReviewStore`.
- Pagination (`paginate`, `Params`) and the filtering done inside the repository's `find_reviews_by_center`: that is a database query. `FindReviewsByCenter` stops at the guards and returns the filter it would pass on.
- The DTO mapping (`from_entity`) and the Korean message texts: errors keep only their kind and `ErrorCode`, and answers and summaries are returned as model values.
- `answer.update`, which also touches timestamps that are not visible here: the model updates only the content.
- `center.is_owner` is defined in a schema module that is not part of this model: it is taken to mean that the centre's owner id equals the requester's id.
- `review.answer_id`: the summary reads a review as answered when the answer table holds a row for it, which is the store's only record of answers.
- `find_all_by_center` is a repository query: the model returns the table's reviews of the centre, in table order and each as often as the table holds it.
- Dates are day numbers, so `(end - start).days` is a subtraction. Calendar arithmetic is left out.
- Digits are ASCII only: Python's Unicode `\d` and `str.isdigit` accept more characters.
- `KOR_BEGIN_CODE` and `KOR_END_CODE`: `claon_admin/config/consts.py` is not part of this model, so they are the parameters `korBegin` and `korEnd`.
- The `profile` field of the request (`UserProfileDto`): `claon_admin/model/user.py` is not part of this model.
- The response DTOs (`CenterNameResponseDto`, `CenterResponseDto`, `UploadFileResponseDto`) have no validators.
- `validate_tel` runs with `pre=True`, before type coercion: only string inputs are modelled.
- Request validation follows pydantic version 1. Every field's errors are collected in declaration order, and a list field's own validator runs only when its items parsed without error. The IndexError of `value[0]` on an empty YouTube code is not a ValueError, so it escapes the whole validation (the `Aborted` outcome).
- `tests/service/test_center.py` exercises `CenterService.find_posts_by_center`, whose source is not part of this model.
- The answer test calls `create_review_answer` on `CenterService`. The model follows `ReviewService`, whose guard order the test asserts.
