# Sai Vista aarti nomination form — a Dafny model

The form runs in the browser. A resident of the Sai Vista society nominates themselves to perform
one aarti: they enter their full name, flat number and WhatsApp number, pick a day in the festival
window and a morning or evening slot, and say whether they bring their own thali. The page checks
the inputs field by field. It writes a valid nomination to a Firestore collection once. After a
successful write it resets the form; if the write is refused it keeps the form, with a message. It
also draws a bar graph of how many nominations each day's morning and evening slots already have.

This project models that core:

- `strings.dfy` (module `Strings`): the JavaScript string operations the form relies on. These are
  `trim` with ECMAScript's white-space set, `toUpperCase` and `split` on one character.
- `numerals.dfy` (module `Numerals`): decimal numerals and their values. They are an independent
  reference for the WhatsApp pattern.
- `domain.dfy` (module `Domain`):
  - the value of a date field or a stored date: empty, a day, or other text;
  - the nomination window, as a first and a last day number, both included;
  - the stored nomination record.
- `validation.dfy` (module `Validation`):
  - the two regular expressions as predicates, each proved equal to an independent description of
    the numbers it is meant to accept;
  - the five field rules, the error map `validateForm` builds, and its emptiness;
  - the messages, exactly as they appear in the source.
- `submission.dfy` (module `Submission`):
  - the submit handler as the class `NominationForm`, whose fields are the component's state
    variables (`useState`);
  - the record a valid form is written as;
  - the replacement of the records when a snapshot arrives.
- `tally.dfy` (module `Tally`):
  - `getSlotCounts` as a method with its two loops, proved against a specification function
    `Tally`;
  - order independence and the total of the tally;
  - the width of a graph bar.

The window (`START_DATE` and `END_DATE`, 27 August to 6 September 2025) is a parameter, a `Window`
value, and not a constant. The store's answer to a write and the clock's reading are parameters of
the submit handler.

## Model

| member | source | states |
|---|---|---|
| Strings.TrimEmptyIff | index.js:179-185 | `!s.trim()` holds exactly when every character of `s` is ECMAScript white space |
| Strings.TrimIsSlice | index.js:226-229 | the trim of a string is its middle, with only white space cut away on each side |
| Strings.TrimNoSpace | index.js:229 | a string without white space trims to itself |
| Strings.TrimIdempotent | index.js:226 | trimming twice is trimming once |
| Strings.UpperChangesOnlyLowercase | index.js:182 | `toUpperCase` keeps the length, turns each letter a to z into its capital and leaves every other character as it is |
| Strings.UpperIdempotent | index.js:222 | upper-casing twice is upper-casing once |
| Strings.JoinSplit | index.js:222 | joining the pieces of `split` with the separator gives back the original string |
| Strings.SplitOnce | index.js:222 | a string with exactly one hyphen splits into the part before it and the part after it |
| Validation.FlatLabelMatches | index.js:148-150 | every label of an existing flat (wing A to F, floor 1 to 13, flat 1 to 4) matches the flat pattern and reads back as the same wing, floor and flat |
| Validation.MatchIsFlatLabel | index.js:150 | every string the flat pattern accepts is the label of an existing flat |
| Validation.WhatsappIsNumeral | index.js:151-152 | every string the WhatsApp pattern accepts is the ten-digit numeral of a number from 6000000000 to 9999999999 |
| Validation.NumeralIsWhatsapp | index.js:152 | the numeral of each number from 6000000000 to 9999999999 matches the WhatsApp pattern |
| Validation.NameRule | index.js:179 | the name is accepted exactly when it is not all white space; otherwise the message is "Full Name is required." |
| Validation.FlatNoRule | index.js:180-184 | the flat number is accepted exactly when its upper-cased form matches the pattern |
| Validation.FlatNoAcceptsLabels | index.js:180-184 | a flat number is accepted exactly when, up to case, it is the label of one of the 6 * 13 * 4 flats |
| Validation.WhatsappNoRule | index.js:185-189 | the WhatsApp number is accepted exactly when it matches the pattern as typed |
| Validation.RequiredBeforeFormat | index.js:180-189 | blank input gets the "required" message and never the format message; the "required" message is given only for blank input |
| Validation.FlatNoFormat | index.js:183-184 | a flat number that is not blank and does not match gets the format message |
| Validation.WhatsappNoFormat | index.js:187-188 | a WhatsApp number that is not blank and does not match gets the format message |
| Validation.SpacesAreRejected | index.js:180-189 | white space anywhere in a flat or WhatsApp number makes it fail, because only the required check trims |
| Validation.DateRule | index.js:190-197 | an empty date is required; a day is accepted exactly when it lies in the window, both ends included; text the parser rejects passes |
| Validation.FormErrorsEntries | index.js:178-198 | the error map has an entry for a field exactly when that field's rule fails, and the entry is that rule's message |
| Validation.EntriesAreIndependent | index.js:178-198 | each field's entry depends on that field's input alone |
| Validation.NoErrorsIffNoFieldFails | index.js:200-201 | the error map is empty exactly when no field's rule fails |
| Validation.NoErrorsIffValid | index.js:177-202 | the error map is empty exactly when every input meets its rule, stated directly on the inputs |
| Validation.NoKeysIffValid | index.js:201 | the error map has no keys exactly when the form is valid |
| Validation.FlatNoAcceptedExamples | index.js:148-150 | the hint's examples A-101, B-902, F-1002 and F-1304 are accepted, lower-case b-902 included |
| Validation.FlatNoOutOfRangeExamples | index.js:150 | flat 00, a fifth flat on floor 13 and floor 14 are rejected with the format message |
| Validation.FlatNoMalformedExamples | index.js:180-184 | wing G and a leading space are rejected with the format message; empty input is required |
| Validation.WhatsappNoAcceptedExample | index.js:152 | a ten-digit number starting with 9 is accepted |
| Validation.WhatsappNoRejectedExamples | index.js:185-189 | a number starting with 5 and a nine-digit number get the format message; empty input is required |
| Submission.MakeNomination | index.js:222-234 | the record holds the trimmed name and WhatsApp number; the upper-cased flat number is split at its hyphen into the wing and the part behind it, and gluing them back gives it again; the other fields are copied |
| Submission.ValidFormGivesWellFormedRecord | index.js:222-234 | a record built from a valid form is well formed, and its WhatsApp number is stored exactly as typed |
| Submission.RecordNamesExistingFlat | index.js:222-227 | the wing and flat number of a stored record name an existing flat |
| Submission.AddError | index.js:179-198 | setting one field's entry leaves the other entries as they were |
| Submission.ErrorMapFromEntries | index.js:178-198 | a map that agrees with every field's rule is the error map |
| Submission.NominationForm.constructor | index.js:136-146 | the component's initial state: empty inputs, no errors, not loading, no success, no records, no message |
| Submission.NominationForm.ReceiveSnapshot | index.js:164-167 | a snapshot replaces the records wholesale |
| Submission.NominationForm.ValidateForm | index.js:177-202 | stores the error map of the current inputs, and answers true exactly when the form is valid |
| Submission.NominationForm.HandleSubmit | index.js:205-250 | the message is cleared first. An invalid form shows its errors and changes nothing else. A valid form makes exactly one write of the record, unless the SDK is missing. A successful write resets the form. A failed write or a missing SDK keeps the inputs and shows the matching message; loading ends false |
| Submission.NominationForm.Store | index.js:212-250 | the try/finally part: loading ends false; the record is written unless the SDK is missing; success resets every input and the errors; failure keeps the inputs and sets the retry or SDK message |
| Tally.GetSlotCounts | index.js:253-274 | lists every day of the window once, in order, each with a bucket; the buckets equal `Tally` of the records: for each day, the number of morning and of evening records naming it |
| Tally.EmptyTally | index.js:256-260 | empty buckets for exactly the window's days are the tally of no records |
| Tally.TallyStep | index.js:262-271 | one more record bumps the counter of its slot in its day's bucket if it has a bucket and one of the two slots, and otherwise changes nothing |
| Tally.CountSlotIsMatchingPositions | index.js:262-271 | a counter equals the number of positions that hold a record for that day and slot |
| Tally.CountSlotAppend | index.js:262-271 | the counter of two lists put together is the sum of their counters |
| Tally.CountSlotPermutation | index.js:262-271 | reordering the records changes no counter |
| Tally.TallyPermutation | index.js:262-271 | the tally does not depend on the order in which the records arrive |
| Tally.TallyTotal | index.js:262-271 | the counters add up to the number of records that land in a bucket, which is at most the number of records |
| Tally.BarWidth | index.js:417 | the width of a bar, for the morning bar here and the evening bar at line 426, is at most 100, is 10 * count for counts up to 10, and is 100 from 10 on |
| Tally.BarWidthMonotone | index.js:426 | a larger count never draws a shorter bar |

## Left out

- Firebase initialisation, sign-in and the `userId` it yields (index.js:34-132) are not modelled. The user id is a constructor parameter of `NominationForm`.
- The snapshot subscription and its error callback (index.js:154-174) are left out; only the replacement of the records (`ReceiveSnapshot`) is modelled. The collection path and the `addDoc` call are the `store` parameter of `HandleSubmit`.
- `HandleSubmit` runs as one atomic step. The `await` is not modelled, nor a second submit or a snapshot arriving while a write is pending, nor reads of `loading` in between.
- `HandleSubmit` models the "SDK not loaded" branch (index.js:215-219) as its own outcome with its own message, so it is not folded into the failed write.
- `HandleSubmit` builds the record before `Store` checks for the SDK. The source checks for the SDK first (index.js:215-219) and splits the flat number after that (index.js:222). The record is a pure value and is written only when the SDK is present, so the order changes nothing.
- `ValidateForm` builds the error map with one `AddError` call per field instead of the source's inline `if` statements. The entries and the messages are the same.
- `DateRule`: dates are day numbers, with the window's ends included. Three things are left out: the conversion from `YYYY-MM-DD` text through `new Date`, which parses it as UTC midnight; the local-time window; and the drift between them in time zones west of UTC.
- `GetSlotCounts`: the bucket keys are day numbers. `toISOString` (index.js:257) is UTC, so in time zones east of UTC, such as India's, the source's keys are one day earlier than the window's days. The model does not capture that shift.
- `GetSlotCounts`: `counts` is a map over the window's days only. A stored date such as `"constructor"` finds an inherited property of a JavaScript object (index.js:264) and is not modelled.
- Text in the date field that the parser rejects is `Other(text)`. Every comparison with an invalid date is false, so validation lets it through, and the tally never counts it.
- `Strings.Upper`: only the ASCII letters a to z are upper-cased. Full Unicode case mapping is not modelled.
- The range message uses the two window labels, which stand for `formatDate` of the window's ends (index.js:29-31). Locale formatting is not modelled.
- `HandleSubmit` models the handler as if it were called on any input. Several things in the markup are not modelled:
  - the browser's constraint validation. The inputs carry `required` (index.js:297, 314, 331, 350, 369, 381), so in the page an empty field blocks the submit before the handler runs, and the "required" messages appear only for text that is all white space;
  - `maxLength="10"` on the WhatsApp input (index.js:332);
  - the date input's `min` and `max` (index.js:348-349). They are computed with `toISOString`, so in time zones east of UTC they lie a day early;
  - the form disappearing once `success` is true (index.js:278-282), after which no further submit can happen.
- The rest of the JSX rendering, the success screen, the WhatsApp link, the input handlers and console logging are left out. They are display and event wiring around the modelled state.
