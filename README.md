# AsphaltAid front end: client rules, verified

AsphaltAid is a Next.js front end. Citizens use it to report road damage (potholes, cracks, road sinks) to a backend. This project models, in Dafny, the rule code of that front end:

- **`ApiService`** (`src/lib/api.ts`), the client for the backend. It holds the session token and keeps it in local storage. It builds the headers, URL and body of every request, and it turns every response into a value or an error message.
- **The report listing page** (`src/app/reports/page.tsx`):
  - filtering by search text, type, status and severity;
  - sorting by a key comparator, ascending or descending;
  - pages of twelve;
  - the pager with its window of page buttons;
  - the state the filter controls and pager buttons change.
- **The four form pages**: sign-up, sign-in, report creation and contact. For each: its `validateForm`, its change handlers, its submit gate, and what it does after a successful or failed call.

The network is an input. Each call to the backend receives an `Exchange`, which is what `fetch` would have produced. `Outcome` turns it into the value or the error message that the page sees. Local storage is a ghost map on `ApiService`. A navigation (`router.push`) is returned as a path.

Modules, one per file:

| file | module | models |
|---|---|---|
| `wrappers.dfy` | `Wrappers` | `Option`, `Result` |
| `js_text.dfy` | `JsText` | the JavaScript string built-ins the pages use: `trim`, `\s`, `toLowerCase`, `includes`, `startsWith`, `<` on strings, decimal `toString` |
| `forms.dfy` | `Forms` | what the form pages share: the error dictionary, the `validateForm` fold, modals, the e-mail pattern, the required / trimmed-length / e-mail field checks |
| `api.dfy` | `Api` | the wire types and the `ApiService` class |
| `reports_pipeline.dfy` | `ReportsPipeline` | filter, comparator, stable sort (as a function and in place on an array), pages, pager, badge colours |
| `reports_page.dfy` | `ReportsPage` | the state of the listing page as a class |
| `signup.dfy`, `signin.dfy`, `create_report.dfy`, `contact.dfy` | one module per form page | field checks, validation and the page class |

## Model

| member | source | states |
|---|---|---|
| JsText.TrimStartSuffix | src/app/auth/signup/page.tsx:65 | `trimStart` leaves a suffix of the input that does not start with white space, and everything it drops is white space |
| JsText.TrimEndPrefix | src/app/auth/signup/page.tsx:65 | `trimEnd` leaves a prefix that does not end with white space, and everything it drops is white space |
| JsText.TrimSlice | src/app/auth/signup/page.tsx:65-67 | `trim` returns a contiguous slice of the input. Only white space is dropped before and after it, and a non-empty result neither starts nor ends with white space |
| JsText.BlankIffAllWhiteSpace | src/app/auth/signup/page.tsx:65 | `!s.trim()` holds exactly when every character of `s` is white space |
| JsText.ToLower | src/app/reports/page.tsx:99-101 | lower-casing keeps the length |
| JsText.IncludesEmpty | src/app/reports/page.tsx:98-101 | the empty search text is included in every string |
| JsText.LessIrreflexive | src/app/reports/page.tsx:135-136 | no string is `<` itself |
| JsText.LessAsymmetric | src/app/reports/page.tsx:135-136 | `a < b` and `b < a` never both hold |
| JsText.LessTransitive | src/app/reports/page.tsx:135-136 | `<` on strings is transitive |
| JsText.LessTotal | src/app/reports/page.tsx:135-136 | of two different strings, one is `<` the other |
| JsText.NatToString | src/app/reports/page.tsx:87 | the decimal rendering is non-empty, has two or more digits from 10 on, and never starts with `-` |
| JsText.IntToString | src/app/reports/page.tsx:105 | `String(n)` is never empty |
| JsText.NatToStringInjective | src/app/reports/create/page.tsx:172 | different non-negative numbers render differently |
| JsText.IntToStringInjective | src/app/reports/create/page.tsx:172 | different integers render differently |
| JsText.SingleDigitRendering | src/app/reports/page.tsx:105 | the one-character string `"d"` of a digit is the rendering of that digit and of no other integer |
| Forms.ClearError | src/app/auth/signup/page.tsx:37-39 | after an edit the field has no truthy message. Its key stays, every other entry is unchanged, and a map without a truthy message for the field is returned as it was |
| Forms.ErrorsOverPrefix | src/app/auth/signup/page.tsx:62-105 | testing one more field adds exactly one `if (...) newErrors[f] = ...` step |
| Forms.ErrorsOverKeyed | src/app/auth/signup/page.tsx:62-105 | the built dictionary has a key exactly for each tested field that fails, and that key holds the field's one message |
| Forms.ErrorsOverEmpty | src/app/auth/signup/page.tsx:113-114 | the dictionary is empty (`Object.keys(...).length === 0`) exactly when every tested field passes |
| Forms.ErrorsOverFourEmpty | src/app/contact/page.tsx:58-59 | the same for a form with four tested fields, stated field by field |
| Forms.SplitShape | src/app/auth/signup/page.tsx:79 | a cut of the text that matches `[^\s@]+@[^\s@]+\.[^\s@]+` puts the only `@` at the cut, leaves no white space, and has a dot inside the domain |
| Forms.ShapeSplit | src/app/auth/signup/page.tsx:79 | text with no white space, one `@` that is not first, and a dot inside the domain has a cut that matches |
| Forms.EmailPatternShape | src/app/auth/signup/page.tsx:79 | `^[^\s@]+@[^\s@]+\.[^\s@]+$` matches exactly when the text has no white space and exactly one `@`, with something before the `@` and, after it, a dot that is neither the first nor the last character of the domain |
| Forms.MatchedEmailNotBlank | src/app/auth/signup/page.tsx:77-80 | an address that matches the pattern is never blank |
| Forms.RunOfSlice | src/app/auth/signup/page.tsx:79 | a non-empty slice of characters outside `\s` and `@` matches `[^\s@]+` |
| Forms.RequiredError | src/app/contact/page.tsx:30-32 | a required field fails exactly when its text is blank, and then with the "required" message |
| Forms.TrimmedLengthError | src/app/reports/create/page.tsx:96-100 | passes exactly when the trimmed text has `min` characters. A blank text gets the "required" message; any other short text gets the "too short" message |
| Forms.EmailError | src/app/contact/page.tsx:34-38 | passes exactly when the untrimmed text matches the pattern. A blank text gets the "required" message; any other non-match gets the "invalid" message |
| Forms.PlainAddressAccepted | src/app/auth/signup/page.tsx:79 | `jo@x.io` matches |
| Forms.SecondAtSignRejected | src/app/auth/signup/page.tsx:79 | `jo@x@y.io` does not match |
| Forms.DotAfterAtSignRejected | src/app/auth/signup/page.tsx:79 | `jo@.io` does not match |
| Api.JsonHeaders | src/lib/api.ts:76-87 | `Content-Type: application/json` is always present. `Authorization: Token <token>` is present exactly when the token is truthy. There is no other header |
| Api.FailureMessage | src/lib/api.ts:90-98 | the message is `body.message` if truthy, else `body.detail` if truthy, else `Request failed`. If the body does not parse, it is `HTTP <status>: <statusText>`. It is never empty |
| Api.HandleResponse | src/lib/api.ts:89-101 | an ok response with a parsable body yields that body. A response that is not ok throws `FailureMessage`. An ok response whose body does not parse rejects with the parse error |
| Api.Outcome | src/lib/api.ts:105-112 | a rejected `fetch` propagates its own error; otherwise the result is `handleResponse` of the response |
| Api.ReportParts | src/lib/api.ts:192-200 | the multipart fields are `name`, `description`, `address`, `report_type` in that order, and then `image` exactly when an image is supplied |
| Api.ApiService.constructor | src/lib/api.ts:68-74 | the client starts with the token that local storage holds under `asphaltaid_token` |
| Api.ApiService.GetHeaders | src/lib/api.ts:76-87 | the successive assignments build `JsonHeaders(token)` |
| Api.ApiService.StoreToken | src/lib/api.ts:115-118 | the new token is held in memory and in storage, and the two stay in step |
| Api.ApiService.SignIn | src/lib/api.ts:104-124 | posts the credentials to `/users/auth/signin/` with the session's headers. On success the returned token becomes the session's, and a non-empty token makes `isAuthenticated()` true and `getToken()` return it. On any failure the token and storage are unchanged |
| Api.ApiService.SignUp | src/lib/api.ts:126-146 | the same for the six registration fields posted to `/users/auth/signup/` |
| Api.ApiService.SignOut | src/lib/api.ts:148-157 | from any prior state, the token is gone from memory and storage and `isAuthenticated()` is false. Repeating it changes nothing more |
| Api.ApiService.GetReports | src/lib/api.ts:164-175 | a GET of `baseURL + /reports/reports/` with the session's headers |
| Api.ApiService.GetReport | src/lib/api.ts:177-188 | a GET of `baseURL + /reports/reports/ + id + /` |
| Api.ApiService.CreateReport | src/lib/api.ts:190-218 | a multipart POST of `ReportParts`. The headers never hold `Content-Type`, and hold `Authorization` exactly when the session is authenticated |
| ReportsPipeline.FilterReports | src/app/reports/page.tsx:97-108 | a report is kept exactly when it matches all four tests, and every copy of a matching report is kept: each report occurs in the result as often as in the input if it matches, and not at all otherwise |
| ReportsPipeline.FilterIsSubsequence | src/app/reports/page.tsx:97-108 | the filtered list is a subsequence of the fetched one |
| ReportsPipeline.EmptyFilterKeepsAll | src/app/reports/page.tsx:98-105 | with all four filter fields empty, every report is kept, in order |
| ReportsPipeline.FilterTwice | src/app/reports/page.tsx:107 | filtering by `f` and then by `g` is filtering by their conjunction |
| ReportsPipeline.TypeAndStatusCommute | src/app/reports/page.tsx:103-107 | for a fixed search and severity, type-then-status, status-then-type and both at once give the same list |
| ReportsPipeline.SeverityOptionSelects | src/app/reports/page.tsx:105 | the severity options `"0"` to `"3"` keep exactly the reports of that severity |
| ReportsPipeline.KeyLessAsymmetric | src/app/reports/page.tsx:114-135 | a key never compares below in both directions |
| ReportsPipeline.StringLessSplits | src/app/reports/page.tsx:135 | if `a < c` on strings, then every `b` is above `a` or below `c` |
| ReportsPipeline.KeyLessSplits | src/app/reports/page.tsx:114-135 | the same for every sort key |
| ReportsPipeline.CompareAntisymmetric | src/app/reports/page.tsx:111-138 | `compare(a, b) == -compare(b, a)` |
| ReportsPipeline.CompareTransitive | src/app/reports/page.tsx:111-138 | `compare(a, b) <= 0` and `compare(b, c) <= 0` give `compare(a, c) <= 0` |
| ReportsPipeline.InsertPermutes | src/app/reports/page.tsx:111 | inserting adds exactly the one element |
| ReportsPipeline.SortPermutes | src/app/reports/page.tsx:111 | sorting yields a permutation of its input |
| ReportsPipeline.SortedAppend | src/app/reports/page.tsx:111 | appending an element that nothing before it exceeds keeps a list sorted |
| ReportsPipeline.InsertSorted | src/app/reports/page.tsx:111 | inserting into a sorted list keeps it sorted |
| ReportsPipeline.SortSorted | src/app/reports/page.tsx:111 | the sorted list is sorted by the comparator |
| ReportsPipeline.SortOrdersByKey | src/app/reports/page.tsx:111-138 | for a known key, the result is a permutation that is non-decreasing in the key for `asc` and non-increasing for any other order |
| ReportsPipeline.SeverityAscending | src/app/reports/page.tsx:119-122 | sorted by severity ascending, severities never decrease down the list |
| ReportsPipeline.UnknownKeyKeepsOrder | src/app/reports/page.tsx:131-132 | an unknown sort key compares everything equal, and the list keeps its filtered order |
| ReportsPipeline.InsertAfterGreater | src/app/reports/page.tsx:111 | the insertion puts `x` right after the last element that does not compare greater than it |
| ReportsPipeline.ShiftHole | src/app/reports/page.tsx:111 | moving the element in front of the hole one place right moves the hole one place left |
| ReportsPipeline.FillHole | src/app/reports/page.tsx:111 | writing `x` into the hole gives the sorted prefix with `x` inserted, followed by the untouched rest |
| ReportsPipeline.ShiftGreater | src/app/reports/page.tsx:111 | the inner loop shifts up exactly the elements of the sorted prefix that compare greater than `x`, and stops at the first that does not |
| ReportsPipeline.InsertInPlace | src/app/reports/page.tsx:111 | in place, `a[..i+1]` becomes `Insert(old a[..i], old a[i])`, and the rest of the array is untouched |
| ReportsPipeline.SortInPlace | src/app/reports/page.tsx:111 | the in-place sort of the fresh filtered array leaves exactly `SortReports` of its old contents |
| ReportsPipeline.TotalPages | src/app/reports/page.tsx:148 | `ceil(n / 12)`: the pages hold all `n` reports with no page left empty, and there are no pages exactly when there are no reports |
| ReportsPipeline.TotalPagesMonotone | src/app/reports/page.tsx:148 | more reports never give fewer pages |
| ReportsPipeline.PageItems | src/app/reports/page.tsx:143-146 | page `p` is the slice `[(p-1)*12, min(p*12, n))`: its items are the input's from `(p-1)*12` on, and it ends at `min(p*12, n)` for every page up to the last. It has at most 12 items, exactly 12 before the last page and at least one on each page. Pages beyond the last are empty |
| ReportsPipeline.PagesUpToIsPrefix | src/app/reports/page.tsx:143-146 | pages `1..k` laid end to end are the first `min(12k, n)` reports |
| ReportsPipeline.PagesCoverList | src/app/reports/page.tsx:143-148 | pages `1..totalPages` laid end to end are exactly the sorted list |
| ReportsPipeline.PagerFromContents | src/app/reports/page.tsx:433-463 | the pager from page `from` onwards holds exactly the cells of its pages |
| ReportsPipeline.PageButtonsShown | src/app/reports/page.tsx:433-463 | a page has a button exactly when it is 1, the last page, or within one of the current page. The button is marked current exactly for the current page |
| ReportsPipeline.EllipsesShown | src/app/reports/page.tsx:444-447 | an ellipsis appears exactly at the current page ± 2, when that page is a page without a button |
| ReportsPipeline.SeverityColor | src/app/reports/page.tsx:155-163 | severities 1, 2 and 3 have their own badge, and every other value has the neutral one |
| ReportsPipeline.SeverityColorsDistinct | src/app/reports/page.tsx:155-163 | the badges of severities 1, 2 and 3 differ from each other |
| ReportsPipeline.StatusColor | src/app/reports/page.tsx:165-172 | `pending`, `in_progress` and `resolved` have their own badge, and every other status has the neutral one |
| ReportsPipeline.StatusColorsDistinct | src/app/reports/page.tsx:165-172 | the badges of `pending`, `in_progress` and `resolved` differ from each other |
| ReportsPage.WithFilter | src/app/reports/page.tsx:150-151 | the update changes only the member named by the key |
| ReportsPage.ToggledOrder | src/app/reports/page.tsx:311 | the order button always yields `asc` or `desc`, and always changes either of them |
| ReportsPage.ToggleTwice | src/app/reports/page.tsx:311 | pressing the order button twice restores `asc` or `desc` |
| ReportsPage.FilterReadsSelectors | src/app/reports/page.tsx:97-108 | the filter reads only the search text and the three selectors |
| ReportsPage.SortChangeKeepsFiltered | src/app/reports/page.tsx:300-311 | changing the sort key or the order changes which reports are shown only in their order |
| ReportsPage.PreviousPage | src/app/reports/page.tsx:426 | `Math.max(1, current - 1)`: one back, but never below page 1 |
| ReportsPage.NextPage | src/app/reports/page.tsx:467 | `Math.min(totalPages, current + 1)`: one on, but never past the last page |
| ReportsPage.PreviousUndoesNext | src/app/reports/page.tsx:426-467 | Next then Previous returns to any page before the last |
| ReportsPage.NextUndoesPrevious | src/app/reports/page.tsx:426-467 | Previous then Next returns to any page after the first |
| ReportsPage.ReportsPage.constructor | src/app/reports/page.tsx:50-62 | the page starts loading, with no reports, on page 1 and with the default filters, and its invariant holds |
| ReportsPage.ReportsPage.FetchReports | src/app/reports/page.tsx:78-94 | on success the page holds the fetched reports and count, and the count is stored under `asphaltaid_reports_count`. On failure nothing changes. The spinner always stops, and `1 <= currentPage <= max(1, totalPages)` is kept |
| ReportsPage.ReportsPage.Mount | src/app/reports/page.tsx:64-76 | an unauthenticated visitor is sent to `/auth/signin`: nothing is fetched and the list, count and storage are unchanged. Otherwise a GET of `baseURL + /reports/reports/` is sent with the JSON headers. Success stores the list and the count, in the page and under the count key; failure changes neither. The page and the filters never change |
| ReportsPage.ReportsPage.SignOut | src/app/reports/page.tsx:215-218 | the session is gone and the visitor is sent to `/` |
| ReportsPage.ReportsPage.HandleFilterChange | src/app/reports/page.tsx:150-153 | only the named filter changes, and the page goes back to 1 |
| ReportsPage.ReportsPage.ClearFilters | src/app/reports/page.tsx:323-330 | the filters become the defaults, which keep every report. The current page is not reset, yet it remains a page |
| ReportsPage.ReportsPage.Previous | src/app/reports/page.tsx:426 | the page becomes `PreviousPage(current)` and the invariant is kept. The list, count, filters and `loading` are unchanged |
| ReportsPage.ReportsPage.Next | src/app/reports/page.tsx:467 | the page becomes `NextPage(current, totalPages)` and the invariant is kept. The list, count, filters and `loading` are unchanged |
| ReportsPage.ReportsPage.GoToPage | src/app/reports/page.tsx:454 | a shown page button goes to its page, which is a page. The list, count, filters and `loading` are unchanged |
| ReportsPage.ReportsPage.VisibleReports | src/app/reports/page.tsx:143-146 | the cards shown are the current page of the sorted, filtered list. The page is empty (the "No reports found" panel) exactly when no report matches, and every card is a fetched report that matches |
| SignUpPage.WithValue | src/app/auth/signup/page.tsx:34 | the one field takes the value and every other field is unchanged |
| SignUpPage.Strength | src/app/auth/signup/page.tsx:52-60 | 25 for each condition met (length ≥ 8, lower, upper, digit, other), capped at 100, so always one of 0, 25, 50, 75, 100 |
| SignUpPage.PasswordStrength | src/app/auth/signup/page.tsx:52-60 | the accumulating computation yields `Strength(password)` |
| SignUpPage.StrongIffTwoClasses | src/app/auth/signup/page.tsx:54-58 | a password of eight or more characters reaches 75 exactly when it uses at least two character classes |
| SignUpPage.EightLowercaseIsTooWeak | src/app/auth/signup/page.tsx:95-96 | `abcdefgh` scores 50 and gets "Please choose a stronger password" |
| SignUpPage.StrengthText | src/app/auth/signup/page.tsx:169-174 | Weak below 25, Fair below 50, Good below 75, otherwise Strong, each band exactly |
| SignUpPage.StrengthColor | src/app/auth/signup/page.tsx:162-167 | the colour bands coincide with the text bands |
| SignUpPage.WordCharsNotBlank | src/app/auth/signup/page.tsx:83-87 | a non-empty username of word characters is never blank |
| SignUpPage.UsernameError | src/app/auth/signup/page.tsx:83-89 | passes exactly when it has three characters (untrimmed) and only `[a-zA-Z0-9_]`. Required comes before too short, and too short before the character test: a non-blank text of three characters with another character gets the "only letters, numbers and underscores" message |
| SignUpPage.PasswordError | src/app/auth/signup/page.tsx:91-97 | passes exactly when it has eight characters and strength ≥ 75. Required comes before too short; eight characters with strength below 75 get the "stronger password" message |
| SignUpPage.ConfirmError | src/app/auth/signup/page.tsx:99-103 | fails exactly when the confirmation is empty or differs from the password. Empty gets the "confirm" message; a non-empty one that differs gets "Passwords do not match" |
| SignUpPage.ValidationErrorsKeyed | src/app/auth/signup/page.tsx:62-105 | a key exactly for each failing field, holding that field's one message |
| SignUpPage.ValidationPasses | src/app/auth/signup/page.tsx:62-114 | the dictionary is empty exactly when no field has a message |
| SignUpPage.FieldsPass | src/app/auth/signup/page.tsx:65-103 | every field passes exactly when each field's own condition holds |
| SignUpPage.ValidationAccepts | src/app/auth/signup/page.tsx:62-114 | with the meter in step, the form passes exactly when it is acceptable: trimmed names of 2, a matching address, a username of 3 word characters, a password of 8 using two classes, and a matching confirmation |
| SignUpPage.SignUpPage.constructor | src/app/auth/signup/page.tsx:12-30 | empty form, no errors, meter 0, both modals closed |
| SignUpPage.SignUpPage.ValidateForm | src/app/auth/signup/page.tsx:62-106 | the dictionary built step by step is `ValidationErrors` |
| SignUpPage.SignUpPage.HandleChange | src/app/auth/signup/page.tsx:32-50 | the field takes the value and loses its message, and the meter follows the password. A confirmation is checked at once against the password as it was, and has an error exactly when it differs |
| SignUpPage.SignUpPage.HandleSubmit | src/app/auth/signup/page.tsx:108-150 | any validation error means `signUp` is not called and no request is sent: the messages are shown and the session and modals are unchanged. A valid form is posted as typed: the request sent is a POST of `baseURL + /users/auth/signup/` with the JSON headers of the session before the call and `SignUpBody` of the six fields, untrimmed. Success opens the welcome, leaves the error modal as it was, and sets the token in memory and storage; failure opens the error modal with the message and leaves the welcome, the token and storage as they were. `loading` ends false |
| SignUpPage.SignUpPage.SignUp | src/app/auth/signup/page.tsx:120-145 | the `try` block: the request sent is the POST of `SignUpBody(userData)` with the session's JSON headers; the outcome opens the welcome or the error modal, and only a success changes the token and storage |
| SignUpPage.SignUpPage.CloseSuccessModal | src/app/auth/signup/page.tsx:152-156 | the modal closes and the page goes to `/dashboard` |
| SignUpPage.SignUpPage.CloseErrorModal | src/app/auth/signup/page.tsx:158-160 | the error modal closes and nothing else changes |
| SignInPage.WithValue | src/app/auth/signin/page.tsx:29 | the one input takes the value and the other is unchanged |
| SignInPage.UsernameError | src/app/auth/signin/page.tsx:44-48 | passes exactly when it is not blank and has three characters counted untrimmed. Blank gets "Please enter your username" |
| SignInPage.PasswordError | src/app/auth/signin/page.tsx:50-54 | passes exactly when it has three characters. Empty gets "Password is required" |
| SignInPage.ValidationErrorsKeyed | src/app/auth/signin/page.tsx:41-57 | a key exactly for each failing input, and never a `general` key |
| SignInPage.ValidationAccepts | src/app/auth/signin/page.tsx:41-65 | the form passes exactly when the username is not blank and has 3 characters and the password has 3 |
| SignInPage.PaddedUsername | src/app/auth/signin/page.tsx:44-48 | `" ab"` passes because the length counts the space, while `"   "` is blank |
| SignInPage.DisplayName | src/app/auth/signin/page.tsx:82 | `first_name` when non-empty, otherwise `username` |
| SignInPage.SignInPage.constructor | src/app/auth/signin/page.tsx:12-25 | empty form, no errors, both modals closed |
| SignInPage.SignInPage.ValidateForm | src/app/auth/signin/page.tsx:41-57 | the dictionary built step by step is `ValidationErrors` |
| SignInPage.SignInPage.HandleChange | src/app/auth/signin/page.tsx:27-39 | the input takes the value. Its own message and the general message are blanked, and other messages are untouched |
| SignInPage.SignInPage.HandleSubmit | src/app/auth/signin/page.tsx:59-97 | any validation error means `signIn` is not called, no request is sent and the session is unchanged. The credentials are posted exactly as typed: the request sent is a POST of `baseURL + /users/auth/signin/` with the JSON headers of the session before the call and `SignInBody` of the untrimmed username and password. Success greets the user and sets the token in memory and storage; failure shows the message and leaves the token and storage as they were. `loading` ends false |
| SignInPage.SignInPage.SignIn | src/app/auth/signin/page.tsx:71-92 | the `try` block: the request sent is the POST of `SignInBody(credentials)` with the session's JSON headers; the outcome opens the greeting or the error modal, and only a success changes the token and storage |
| SignInPage.SignInPage.CloseSuccessModal | src/app/auth/signin/page.tsx:99-103 | the modal closes and the page goes to `/dashboard` |
| SignInPage.SignInPage.CloseErrorModal | src/app/auth/signin/page.tsx:105-107 | the error modal closes and nothing else changes |
| CreateReportPage.WithValue | src/app/reports/create/page.tsx:46 | the one input takes the value and the others are unchanged |
| CreateReportPage.TypeError | src/app/reports/create/page.tsx:114-116 | the type fails exactly when it is empty |
| CreateReportPage.ValidationErrorsKeyed | src/app/reports/create/page.tsx:93-119 | a key exactly for each failing field, and never an `image` key |
| CreateReportPage.ValidationAccepts | src/app/reports/create/page.tsx:93-127 | the form passes exactly when the trimmed name, description and address reach 3, 10 and 5 characters and a type is selected |
| CreateReportPage.ImageError | src/app/reports/create/page.tsx:57-67 | a file is accepted exactly when its MIME type starts with `image/` and it has at most 10·1024·1024 bytes. The type is tested first |
| CreateReportPage.CloseTarget | src/app/reports/create/page.tsx:171-175 | `/reports/<id>` for a truthy id. A missing id and id 0 both go to `/reports` |
| CreateReportPage.CloseTargetDistinguishes | src/app/reports/create/page.tsx:171-172 | two different truthy ids lead to two different pages |
| CreateReportPage.CreateReportPage.constructor | src/app/reports/create/page.tsx:18-36 | empty texts with type `pothole`, no image, no errors, modals closed; the page invariant (a selected image passed the type and size checks) holds |
| CreateReportPage.CreateReportPage.Mount | src/app/reports/create/page.tsx:38-42 | redirects to `/auth/signin` exactly when unauthenticated |
| CreateReportPage.CreateReportPage.HandleChange | src/app/reports/create/page.tsx:44-52 | only that input changes, and only its message is blanked; the page invariant is kept |
| CreateReportPage.CreateReportPage.HandleImageChange | src/app/reports/create/page.tsx:54-79 | a rejected file only sets the image message, and the image already selected stays. An accepted file becomes the image and its message is blanked. No file changes nothing. So the selected image has always passed the type and size checks (the page invariant is kept) |
| CreateReportPage.CreateReportPage.RemoveImage | src/app/reports/create/page.tsx:81-84 | no file, no preview, and no image message; the page invariant is kept |
| CreateReportPage.CreateReportPage.ValidateForm | src/app/reports/create/page.tsx:93-119 | the dictionary built step by step is `ValidationErrors` |
| CreateReportPage.CreateReportPage.ReportData | src/app/reports/create/page.tsx:134-143 | the trimmed name, description and address, the type as selected, and the image exactly when one is selected |
| CreateReportPage.CreateReportPage.HandleSubmit | src/app/reports/create/page.tsx:121-166 | any validation error means `createReport` is not called. A valid form posts `ReportData` as multipart to `/reports/reports/`, with no `Content-Type` header and `Authorization` exactly when signed in. An image that is posted passed the type and size checks. Success opens the modal with the report's name and id; failure shows the message. `loading` ends false |
| CreateReportPage.CreateReportPage.Submit | src/app/reports/create/page.tsx:133-162 | the `try` block: a POST of `baseURL + /reports/reports/` with the multipart body and no `Content-Type` header; the outcome opens one of the two modals. The form, image and preview are unchanged |
| CreateReportPage.CreateReportPage.CloseSuccessModal | src/app/reports/create/page.tsx:168-176 | the modal closes and the path is `CloseTarget` of the id it held. The form, image, preview and error modal are unchanged |
| CreateReportPage.CreateReportPage.CloseErrorModal | src/app/reports/create/page.tsx:178-180 | the error modal closes and nothing else changes |
| ContactPage.WithValue | src/app/contact/page.tsx:20 | the one input takes the value and the others are unchanged |
| ContactPage.ValidationErrorsKeyed | src/app/contact/page.tsx:27-51 | a key exactly for each failing field, and never a `general` key |
| ContactPage.ValidationPasses | src/app/contact/page.tsx:27-59 | the dictionary is empty exactly when all four fields pass |
| ContactPage.FieldsPass | src/app/contact/page.tsx:30-48 | all four pass exactly when name and subject are not blank, the e-mail matches, and the trimmed message has 10 characters |
| ContactPage.ValidationAccepts | src/app/contact/page.tsx:27-59 | the form passes exactly under those four conditions |
| ContactPage.ContactPage.constructor | src/app/contact/page.tsx:8-16 | empty form, no errors, not submitted |
| ContactPage.ContactPage.HandleChange | src/app/contact/page.tsx:18-25 | only that input changes, and only its message is blanked |
| ContactPage.ContactPage.ValidateForm | src/app/contact/page.tsx:27-51 | the dictionary built step by step is `ValidationErrors` |
| ContactPage.ContactPage.HandleSubmit | src/app/contact/page.tsx:53-78 | an invalid form shows its messages, is not submitted, and `submitted` is unchanged. A valid form is sent, `submitted` becomes true and all four fields are reset to empty. `loading` ends false |
| ContactPage.ContactPage.SendAnother | src/app/contact/page.tsx:221 | the form is shown again and nothing else changes |

## Left out

- **Unicode case mapping.** `toLowerCase` is modelled on the ASCII letters only.
- **UTF-16.** Strings are sequences of code points, and `length` counts them. JavaScript counts UTF-16 code units, so the two differ only for characters outside the Basic Multilingual Plane.
- **Server-side rendering.** The `typeof window !== 'undefined'` guards are taken to be true: the model is of the browser.
- **Networking.** `fetch`, `response.json()` and `FormData` are not modelled. Their effect is an `Exchange` input, and a request is returned as a `Request` value.
- **Local storage.** It is a ghost map; only the keys the core writes are modelled.
- **Dates.** `created_at` is taken to be the instant that `new Date(...)` parses, as an integer. Date parsing, `formatDate` and `toLocaleDateString` are not part of this model.
- **The engine's sort.** `Array.prototype.sort` is modelled as a stable insertion sort. ECMAScript requires a stable sort, and any stable sort with a consistent comparator gives the same list.
- **JSON shapes.** A parsed body is taken to have the declared shape, and `message`/`detail` are optional strings. `null` members and other JSON values are not modelled.
- **Unreachable fallbacks.** The `error instanceof Error ? ... : 'Failed to ...'` fallbacks cannot be reached, since every rejection the model produces is an `Error` with a message. The contact page's `catch` branch and its `general` message cannot be reached either, since the page calls nothing that can throw.
- **Asynchronous browser work.** These are left out:
  - the simulated two-second delay of the contact page (`setTimeout`);
  - the `FileReader` preview of the create page, so `HandleImageChange` does not set `imagePreview`;
  - the reset of the DOM file input in `removeImage`.
- **Geolocation** on the create page (`getLocationHelp`) is left out: it is a browser API with floating-point coordinates.
- **Logging and rendering.** `console.log`/`console.error` and all JSX rendering are left out. Navigation by `router.push` is returned as a path.
- **React state.** State updates are modelled as applied in order, within the handler. Each handler computes its validation result from the state it started with, so the order of the setters does not change the result.
- ReportsPage.ReportsPage.Previous, Next and GoToPage: the requirement that the pager is shown (`totalPages > 1`, and the page is not loading) reflects where the buttons exist. The button's `disabled` state is not modelled; the clamped handlers make it immaterial.
- Api.HandleResponse: an ok response whose body is not JSON rejects with the parse error. So "an ok response never throws" holds only for bodies that parse; the model follows the code.
- **Numbers.** JavaScript numbers (ids, severities, counts, HTTP status codes, `File.size`) are modelled as unbounded integers. Fractions, `NaN`, the infinities and the 2^53 limit of exact integers are not modelled; for example `Number(params.id)` in `src/app/reports/[id]/page.tsx` can give `NaN`, which no `int` can.
- The dashboard page, which reads the count stored by `FetchReports`, is not part of this model.
