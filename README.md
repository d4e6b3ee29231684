# Lead-to-form bookmarklet: a verified model

The bookmarklet (`bookmarklet-minified.js`) opens an overlay on a CRM lead page. It reads the
lead from the page: the lead number from the `Lead #` heading, the customer's name, e-mail,
phones and verbatim from labelled fields, and the received date from the timeline. It shows
what it read. The operator completes a short form: line of business, brand, customer type,
product, language, BAN/CID and an optional note for the agent. The overlay then builds a
Google Forms pre-fill URL from both, opens it, or copies it.

Three timers keep the overlay in step with the page:
- lead detection, every second for up to a minute while the page has no lead number;
- a continuous monitor, which re-extracts when another lead is opened;
- a next-lead watch, started by the "Next" button after it has filled in the CRM's
  status dialog.

The model has six modules:

- `Wrappers` holds `Option`.
- `Strings` holds the JavaScript string operations the code relies on: `trim`, `includes`,
  `toLowerCase`, digit filtering, `String(n)` / `parseInt` on decimal numerals, `padStart`
  and maximal character-class runs.
- `Dates` holds `parseDateString`. Its regular expression is modelled as a parse at each
  start position plus a leftmost search; the month table, the 12-hour conversion and
  `formatDate` are here too.
- `Extraction` holds the page, given as plain data:
  - headings;
  - label/value elements;
  - subtitles;
  - timeline items;
  - whether "Assign to me" and "Change Status" are on the page.

  It also holds the extraction loops `getLeadNumber`, `getTID`, `getTextByLabel` and
  `getReceivedDate`, plus `cleanPhone`, `extractSourceData` and `truncateText`.
- `Payload` holds `validateForm`, `buildVerbatimWithAgentNote`, the ordered list of
  query parameters `generateFormURL` and the copy-URL handler append, and the
  `checkAssignToMeButton` guard.
- `Session` holds the globals `currentLeadNumber` and `userOverrodeLanguage`, the
  overlay's form, buttons and data panel, and the three timers. This is a `class
  Session` on a virtual clock.
  - Each handler and timer callback is a method. It is given the time it runs at and
    the page it sees.
  - Each method is specified by a function on a `SessionState` value.
  - The properties of the session are lemmas about those functions.

  `class ElementWait` models the promise of `waitForElement`.

Where the code and its documentation disagree, the model follows the code:
- A pm time is folded back by the unconditional "hour above 12 loses 12" step, so
  "1:02 pm" gives hour 1, not 13.
- The French label variants are used exactly as the file stores them. They are
  mis-encoded, with "√©" where "é" was meant.

## Model

| member | source | states |
|---|---|---|
| Extraction.GetLeadNumber | bookmarklet-minified.js:24-35 | the loop over headings returns exactly `LeadNumber`: the token of the first heading that yields one, "" when none does |
| Extraction.LeadTokenIsLeftmostMatch | bookmarklet-minified.js:27-31 | a heading yields no token iff `Lead #` followed by an `[A-Z0-9]` character occurs nowhere; otherwise the token sits right after the leftmost such occurrence and is a maximal run of `[A-Z0-9]` |
| Extraction.LeadFrom | bookmarklet-minified.js:27-31 | the search returns the leftmost position from `from` where `Lead #` is followed by `[A-Z0-9]`, or reports that there is none |
| Extraction.LeadToken | bookmarklet-minified.js:27-31 | a token found is non-empty and made of upper-case letters and digits only |
| Extraction.IncludesGuardRedundant | bookmarklet-minified.js:27-28 | a heading without `Lead #` never yields a token, so the `includes` test only skips work |
| Extraction.LeadNumberEmptyIff | bookmarklet-minified.js:24-35 | the lead number is "" iff no heading yields a token (headings mentioning `Lead #` without a match are skipped) |
| Extraction.LeadNumberSource | bookmarklet-minified.js:24-35 | a non-empty lead number is the token of some heading, and every earlier heading yields none |
| Extraction.LeadNumberShape | bookmarklet-minified.js:29 | every character of a lead number is an upper-case letter or a digit |
| Extraction.FirstFoundNoneIff | bookmarklet-minified.js:26-33 | a first-match loop finds nothing iff every element fails |
| Extraction.FirstFoundSource | bookmarklet-minified.js:26-33 | what a first-match loop finds comes from one element, and all earlier elements fail |
| Extraction.GetTid | bookmarklet-minified.js:38-50 | the loop over subtitles returns `Tid`: the trimmed value after the first "Assigned to" subtitle that has a value, else "" |
| Payload.TidSource | bookmarklet-minified.js:38-50 | a non-empty TID is the trimmed value of one "Assigned to" subtitle |
| Extraction.GetTextByLabel | bookmarklet-minified.js:53-69 | the loop over label elements returns exactly `TextByLabel` |
| Extraction.TextByLabelIsFirstQualifying | bookmarklet-minified.js:53-69 | the result is the trimmed value of the first element, in document order, that mentions a variant and has a container and a value element; it is "" when none qualifies; it is always trimmed, and no case fails |
| Extraction.TextByLabelNone | bookmarklet-minified.js:68 | with no qualifying element the result is "" |
| Extraction.TextByLabelFirst | bookmarklet-minified.js:59-64 | the first qualifying element decides the result |
| Extraction.TextByLabelTrimmed | bookmarklet-minified.js:62 | the result is its own trim |
| Extraction.LastN | bookmarklet-minified.js:75 | `slice(-n)` for a positive `n` (the code uses 10): the result is the last `min(n, length)` characters, a suffix of the input |
| Extraction.CleanPhone | bookmarklet-minified.js:72-76 | "" for an empty input; otherwise only digits, at most 10, exactly `min(10, digit count)` of them, and a suffix of the input's digits |
| Extraction.CleanPhoneKeepsShortNumber | bookmarklet-minified.js:72-76 | ten digits or fewer come back unchanged and unpadded |
| Extraction.CleanPhoneDropsPrefix | bookmarklet-minified.js:72-76 | any prefix before a ten-digit number (a country code, for one) is dropped |
| Extraction.CleanPhoneIdempotent | bookmarklet-minified.js:72-76 | cleaning a cleaned number changes nothing |
| Extraction.GetReceivedDate | bookmarklet-minified.js:79-91 | the loop returns exactly `ReceivedDate` |
| Extraction.ReceivedDateFirst | bookmarklet-minified.js:81-88 | when item `k` is the first "New lead:" item with a date element, the result is the parse of its trimmed caption |
| Extraction.ReceivedDateNone | bookmarklet-minified.js:90 | with no "New lead:" item that has a date element, the result is null |
| Extraction.ReceivedDateSource | bookmarklet-minified.js:79-91 | a received date is the parse of the trimmed caption of the first "New lead:" item with a date element; every earlier item lacks the marker or the caption |
| Extraction.ReceivedDateNoneIff | bookmarklet-minified.js:79-91 | the result is null exactly when no item is dated or the first dated item's caption does not parse |
| Extraction.ExtractSourceData | bookmarklet-minified.js:124-136 | the record built field by field equals `SourceData(page)` |
| Extraction.SourceDataIsNormalised | bookmarklet-minified.js:124-136 | in every extracted record, the lead number is `[A-Z0-9]*`, the text fields are trimmed, and both phones are at most ten digits |
| Extraction.TruncateText | bookmarklet-minified.js:307-311 | a text within the limit is returned as is; a longer one becomes its first `maxLength` characters followed by "..." |
| Dates.FirstMatch | bookmarklet-minified.js:96-97 | the regular-expression search finds nothing iff the pattern matches at no start position, and otherwise returns the match at the leftmost start position where the pattern matches |
| Dates.MonthNumber | bookmarklet-minified.js:99-100 | defined exactly for the twelve case-sensitive abbreviations, giving their 1-based position in the table |
| Dates.ConvertClockHour | bookmarklet-minified.js:108-115 | for an hour in 1..12: 12 am gives 0, every other hour is returned unchanged after the fold, and the result is at most 12 |
| Dates.ParseDateString | bookmarklet-minified.js:94-121 | null iff the pattern matches nowhere; otherwise the fields come from the match at the leftmost start position where it matches |
| Dates.ParseDateText | bookmarklet-minified.js:94-121 | a text laid out as the pattern expects parses to its year, month number, day, converted hour and minute |
| Dates.MatchDateText | bookmarklet-minified.js:96 | the pattern captures the six groups of such a text |
| Dates.ParseMorningExample | bookmarklet-minified.js:94-121 | "Feb 05, 2026 11:04 am" parses to 2026-02-05 11:04 |
| Dates.ParseAfternoonExample | bookmarklet-minified.js:108-115 | "Feb 05, 2026 1:02 pm" parses to hour 1 (the fold undoes the pm shift) |
| Dates.ParseMidnightExample | bookmarklet-minified.js:108-115 | "12:30 am" parses to hour 0 |
| Dates.FormatDateInjective | bookmarklet-minified.js:302-304 | two dates with the same display text are the same date (the display loses nothing) |
| Strings.TrimIsMiddle | bookmarklet-minified.js:62 | `trim` returns the middle slice of its input, and only spaces lie outside it |
| Strings.TrimIdempotent | bookmarklet-minified.js:62 | trimming twice is trimming once |
| Strings.IncludesIff | bookmarklet-minified.js:1126 | `includes` holds iff the substring occurs at some position |
| Strings.DecimalValueOfNatToString | bookmarklet-minified.js:1084-1088 | a number written in decimal reads back as itself |
| Payload.FormValidIff | bookmarklet-minified.js:814-828 | the form is valid iff all three radio groups are checked, brand and product are non-empty, and the trimmed BAN/CID has 1 to 9 characters |
| Payload.ReadSelections | bookmarklet-minified.js:1066-1073 | reading the form fails (a `TypeError`) iff a radio group is unchecked, and the BAN/CID read is trimmed |
| Payload.BlankInputInvalid | bookmarklet-minified.js:486-519 | a reset form never validates |
| Payload.VerbatimWithAgentNote | bookmarklet-minified.js:139-149 | with a blank note the verbatim is unchanged; otherwise the result starts with `[NOTE FOR AGENT: ` and ends with the verbatim |
| Payload.AgentNoteRoundTrip | bookmarklet-minified.js:139-149 | the trimmed note and the verbatim can be split back out of the combined text (for a note without `]`) |
| Payload.BuildVerbatimWithAgentNote | bookmarklet-minified.js:139-149 | the handler combines the typed note with the page's extracted verbatim |
| Payload.EntryIdsDistinct | bookmarklet-minified.js:1084-1106 | the fifteen form entry ids are pairwise distinct |
| Payload.LookupFinds | bookmarklet-minified.js:1080 | looking up a key in the parameter list finds nothing iff no pair has that key, and whatever it finds is a pair of the list |
| Payload.AppendParams | bookmarklet-minified.js:1083-1106 | the step-by-step appends build exactly `Query`, the list of parameters |
| Payload.QueryParts | bookmarklet-minified.js:1083-1106 | the query is: the date pairs, then the six selections, then name, primary phone, preferred phone and verbatim, each of these four only when non-empty |
| Payload.QueryStartsWithDate | bookmarklet-minified.js:1083-1097 | with a date, the five date pairs come first and the six selection pairs next; without one, the selections come first |
| Payload.QueryDateContents | bookmarklet-minified.js:1083-1089 | with no date no date key is present; with a date the five keys carry year, month, day, hour and minute |
| Payload.QuerySelectionContents | bookmarklet-minified.js:1092-1097 | the six selection keys are always present, with the operator's values |
| Payload.QueryDetailContents | bookmarklet-minified.js:1100-1106 | name, phones and verbatim are present exactly when non-empty, with their values |
| Payload.QueryOrder | bookmarklet-minified.js:1083-1106 | the keys appear in the fixed field order, each at most once |
| Payload.CheckAssignToMeButton | bookmarklet-minified.js:1016-1037 | warns exactly when `NeedsAssignment` holds: the "Assign to me" button is there and no subtitle names an assignee |
| Payload.TidSuppressesAssignWarning | bookmarklet-minified.js:1016-1037 | a lead with a TID never needs assignment |
| Payload.GenerateFormUrl | bookmarklet-minified.js:1061-1112 | when assignment is needed, the warning and nothing else; otherwise a `TypeError` when a radio group is unchecked, or the request built from the fresh page data and the form |
| Payload.CopyFormUrl | bookmarklet-minified.js:876-915 | the same request without the assignment guard; a `TypeError` exactly when a radio group is unchecked |
| Payload.BuildRequest | bookmarklet-minified.js:876-915 | the request shared by both builders |
| Payload.ValidFormSends | bookmarklet-minified.js:814-828 | a valid form reads without error, and its query carries the trimmed 1-to-9-character BAN/CID and the non-empty brand and product |
| Session.AfterReset | bookmarklet-minified.js:486-519 | the form is blank, the lead binding and the override flag are dropped, submit is off and the panel is empty; the timers and Next are untouched |
| Session.LanguageFor | bookmarklet-minified.js:1119-1145 | the language chosen is FR or EN |
| Session.LanguageForIff | bookmarklet-minified.js:1123-1141 | FR exactly when the lower-cased confirmation e-mail contains `fr`, EN otherwise (an empty e-mail included) |
| Session.LanguageForIgnoresCase | bookmarklet-minified.js:1123-1126 | lower-casing makes the test case-insensitive: FR exactly when the e-mail as typed has `fr`, `fR`, `Fr` or `FR` somewhere |
| Session.ExtractAndUpdateResult | bookmarklet-minified.js:521-536 | afterwards, `currentLeadNumber` is the freshly extracted lead number ("" if none), the override flag is false, the form is blank but for the auto-chosen language, submit is off, and detection runs exactly when there is no lead number |
| Session.ExtractIgnoresOverride | bookmarklet-minified.js:1121 | on this path the override check never takes effect, because the reset has just lowered the flag |
| Session.DetectionChecked | bookmarklet-minified.js:548-574 | a new lead is shown and bound and stops the retries; otherwise a retry is scheduled one second later, notice unchanged, exactly while less than 60000 ms have elapsed; at the ceiling detection stops and a waiting message turns into the timed-out one; the operator's input is untouched |
| Session.MonitorTickEffect | bookmarklet-minified.js:583-600 | a tick re-syncs exactly when the page's lead number is non-empty and differs from `currentLeadNumber`; otherwise only Next can change, turned off when "Change Status" is missing |
| Session.MonitorTickIdempotent | bookmarklet-minified.js:583-600 | a second tick on the same page changes nothing |
| Session.WatchChecked | bookmarklet-minified.js:745-760 | a lead other than the one compared against re-extracts and ends the watch; otherwise the watch fires again a second later while under 60000 ms and then gives up with the timed-out message |
| Session.LaunchBindsLead | bookmarklet-minified.js:1160-1170 | launching binds the page's lead number, starts the monitor, and leaves a detection run pending exactly when the page has no lead number |
| Session.AsWrittenWatchTakesWorkedLead | bookmarklet-minified.js:688-741 | as written, the watch compares against "", so its first tick treats the lead still on screen as new |
| Session.MonitorRebindsWorkedLead | bookmarklet-minified.js:583-600 | when a monitor tick lands between the reset and the start of the watch, it re-binds the lead on screen, and the watch then waits past that lead |
| Session.CorrectedWatchWaitsForNewLead | bookmarklet-minified.js:739-760 | with the worked lead captured before the reset, the watch keeps waiting while that lead is on screen |
| Session.ValidFormReads | bookmarklet-minified.js:814-828 | a form that validates has every radio group checked |
| Session.Session.constructor | bookmarklet-minified.js:1160-1170 | the main sequence reaches `Launched` for the page it runs on |
| Session.Session.ValidateForm | bookmarklet-minified.js:814-845 | the submit button follows `FormValid` |
| Session.Session.UpdateExtractedDataDisplay | bookmarklet-minified.js:369-398 | the panel shows the record; a lead number is bound and clears the notice, and a missing one raises the waiting message |
| Session.Session.ResetModal | bookmarklet-minified.js:486-519 | the new state is `AfterReset` of the old |
| Session.Session.AutoSetLanguage | bookmarklet-minified.js:1119-1145 | leaves the form alone after an override, and otherwise checks the language radio for the e-mail |
| Session.Session.ExtractAndUpdate | bookmarklet-minified.js:521-536 | the new state is `AfterExtract` of the old, for the page's fresh record |
| Session.Session.StartLeadDetection | bookmarklet-minified.js:542-575 | cancels the pending check and checks at once |
| Session.Session.DetectionTick | bookmarklet-minified.js:548-571 | a due check moves the state by `DetectionChecked`; the run makes at most 61 checks |
| Session.Session.CheckForLead | bookmarklet-minified.js:548-571 | one check: the new state is `DetectionChecked` of the old |
| Session.Session.MonitorTick | bookmarklet-minified.js:583-600 | the new state is `MonitorTicked` of the old |
| Session.Session.Close | bookmarklet-minified.js:940-943 | stops the monitor and closes the overlay, and changes nothing else |
| Session.Session.OperatorEdits | bookmarklet-minified.js:986-991 | the form takes the operator's values (a checked radio group stays checked), submit is revalidated, and changing the language sets the override flag |
| Session.Session.SubmitClicked | bookmarklet-minified.js:994-1003 | does nothing while disabled; otherwise never meets an unchecked radio group, warns exactly when assignment is needed, sends the request built from the page and the form, and enables Next |
| Session.Session.CopyUrlClicked | bookmarklet-minified.js:876-930 | never warns about assignment, fails exactly when a radio group is unchecked, otherwise copies the request built from the page and the form (the same `RequestFor` as the submit button), and enables Next only when the URL was built |
| Session.Session.NextCase | bookmarklet-minified.js:688-737 | runs only while Next is enabled (the button is created disabled at line 265 and only its click handler reaches it); resets the overlay; reports a missing "Change Status" button or status dialog; otherwise starts a watch against the lead bound before the reset (the corrected capture, see Findings and Left out) |
| Session.Session.NextLeadTick | bookmarklet-minified.js:745-760 | the new state is `WatchChecked` of the old |
| Session.ElementWait.constructor | bookmarklet-minified.js:791-808 | polls at once: resolves when the element is present, rejects at once for a non-positive timeout, and otherwise polls again in 100 ms |
| Session.ElementWait.Poll | bookmarklet-minified.js:795-806 | resolves when the element is present, rejects once the elapsed time reaches the timeout, and otherwise polls again in 100 ms |
| Session.ElementWait.Tick | bookmarklet-minified.js:795-806 | a due poll, with the same outcomes; fewer than `timeout / 100 + 2` polls are ever made |

## Left out

- The overlay's HTML and CSS, dragging, collapsing, expanding and moving it, the dropdown's placement, the copy buttons and the verbatim expander: these are presentation only.
- Clipboard writes, `window.open`, the translate popup, `alert` and console logging are output to the browser. The model returns the request, or an outcome naming the alert.
- `setReactField` and the three status-dialog writes in `handleNextCase`, including its use of `getTID`, belong to the page's framework. Whether the "Change Status" button and the dialog appear are inputs to `NextCase`. The `sleep` pauses between the writes are not modelled.
- Percent-encoding by `URLSearchParams` is a fixed encoder, so the query is kept as its ordered list of key/value pairs.
- Lengths are counted in characters, not UTF-16 code units. This affects `truncateText` and the BAN/CID length check only for characters outside the Basic Multilingual Plane.
- `parseInt` is modelled on digit strings only, with unbounded integers; JavaScript's number precision on very long digit runs is not modelled.
- A month name such as `toString`, which the object literal inherits from its prototype, is treated like any other unknown name: undefined.
- Strings.LowerChar lowers ASCII letters only. This is exact for the `fr` test, because no other character lower-cases to `f` or `r`.
- The page does not change while one callback runs; DOM queries become fields of `Page`.
- The monitor's 3-second period is not modelled: `MonitorTick` may be called at any time while monitoring.
- Closing the overlay stops only the monitor, as in the code. The model does not track that pending detection or watch callbacks then write to a removed overlay.
- Session.Session.NextCase: captures the lead being worked on before the reset, which is the corrected behaviour of the finding below. The code reads `currentLeadNumber` only after `resetModal` has emptied it. The code as written is `NextCaseStartedAsWritten`, and the two interleavings are covered by `AsWrittenWatchTakesWorkedLead` and `MonitorRebindsWorkedLead`.
- Session.Session.NextCase: a second Next click before the first watch ends starts a second, concurrent interval in the code; the model keeps a single watch.
- `isChangeStatusButtonAvailable` is the input `page.changeStatusAvailable`.
- The validation listeners are attached to inputs and selects only, so typing in the agent-note textarea does not revalidate. `OperatorEdits` revalidates on every edit; the two agree, because the note is not part of `FormValid`.
- `resetModal`'s empty record has no confirmation e-mail field. The model's `EmptyRecord` uses "", which nothing distinguishes from the missing field.

## Findings

| source | as written | input that shows it | evidently intended | confidence | as-written member | corrected member |
|---|---|---|---|---|---|---|
| bookmarklet-minified.js:688-741 | `handleNextCase` calls `resetModal`, which sets `currentLeadNumber` to "" before `monitorForNewLead` reads it as the lead to wait past, so the watch compares against "" | the page still shows lead X, the lead that was bound before Next was clicked, and no 3-second monitor tick lands during the handler's awaits (the dialog wait and at least 1.3 s of pauses); the watch's first tick sees X, takes it for a new lead and re-extracts X without waiting for the next lead (when a tick does land there, it re-binds X and the watch waits correctly: `Session.MonitorRebindsWorkedLead`) | the watch waits for a lead different from the one being worked on when Next was clicked | not executed | Session.AsWrittenWatchTakesWorkedLead | Session.CorrectedWatchWaitsForNewLead |
