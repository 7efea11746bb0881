# Task manager: reminder scheduling, account checks and the task form

This project is a Dafny model of the core of a small task-manager web application. It covers three source files:

- **Task handlers** (`backend/controllers/taskControllers.js`):
  - `postTask`, `putTask`, `markTaskComplete` and `deleteTask`;
  - the reminders they schedule;
  - the queue worker that sends those reminders.

  A task has a due date (`tillDate`) and a time of day (`"HH:MM"`), which together resolve to one deadline. `postTask` queues a delayed e-mail job only when the deadline is still ahead. `putTask` arms a `setTimeout` timer with whatever delay the deadline gives. Neither completing nor deleting a task cancels anything.
- **Account handlers** (`backend/controllers/authControllers.js`):
  - `signup`, with its ordered input checks and its six-digit one-time code;
  - `login`;
  - `otp`, which moves an account from unverified to verified.
- **Add/edit task page** (`frontend/src/pages/Task.jsx`):
  - the add/update mode;
  - the `year-MM-DD` date formatter;
  - the form-state handlers;
  - the request a submit sends.

Files:

- `wrappers.dfy`: `Option`.
- `decimal.dfy`: decimal numerals as JavaScript prints and reads them. This covers `toString`, `padStart(2, "0")`, and the digit-string part of `Number` and `parseInt`.
- `deadline.dfy`: resolving `tillDate` and `"HH:MM"` to an instant, the timeout, and Node's timer clamp.
- `task_controllers.dfy`: the task store, the delayed queue, the armed timers and the sent mail. Each handler is written twice:
  - a function from one `World` to the next, which carries the properties;
  - a method of the `TaskController` class, which updates its fields in place.

  Each method's postcondition ties it to its function.
- `auth_controllers.dfy`: the user collection and the handlers, in the same two layers (`AuthController`).
- `task_page.dfy`: the page state as the `TaskForm` class, with the pure helpers it uses.

Instants are integer milliseconds since the epoch on one canonical local clock. The `NaN` time value is `None`.

Code that this model does not contain is passed in as a parameter:

- `validateObjectId`, `validateEmail`, bcrypt's `hash` and `compare`, and the owners' e-mail addresses (`User.findById`) are fixed when a controller object is built;
- the result of the page's validators (`validateManyFields`) is an argument of each `HandleSubmit` call.

Each handler call also receives the current time, the random draw and the id the database assigns.

## Model

| member | source | states |
|---|---|---|
| Decimal.ShowNat | frontend/src/pages/Task.jsx:47-48 | `toString()` of a natural number is a non-empty digit string with no leading zero. It is one character long exactly when the number is below 10. |
| Decimal.ShowInt | frontend/src/pages/Task.jsx:46-49 | `toString()` of an integer starts with a minus sign exactly when the integer is negative. |
| Decimal.PadStart2 | frontend/src/pages/Task.jsx:47-48 | `padStart(2, "0")` gives length 2 for shorter strings and keeps longer ones. The original text is the suffix, and everything before it is `'0'`. |
| Decimal.ParseShowNat | frontend/src/pages/Task.jsx:47-48 | Reading the digits `toString` prints gives back the number. |
| Decimal.ParseLeadingZero | frontend/src/pages/Task.jsx:47-48 | A leading zero added by padding does not change the value read. |
| Decimal.TwoDigitRoundTrip | frontend/src/pages/Task.jsx:47-48 | Any number below 100, printed and padded, is exactly two digits that read back as the number. |
| Decimal.DigitRun | backend/controllers/authControllers.js:122 | `parseInt` reads the longest digit prefix: every character before the stop is a digit, and the character at the stop is not. |
| Decimal.TrimStart | backend/controllers/authControllers.js:122 | `parseInt` skips leading white space, as ECMAScript defines it (tab, vertical tab, form feed, the byte-order mark, every Zs space, LF, CR, LS and PS). Exactly that prefix is dropped: what remains is a suffix of the input that does not start with white space, and everything before it is white space. |
| Decimal.Unsigned | backend/controllers/authControllers.js:122 | At most one leading sign is dropped; what remains is a suffix of the input. |
| Decimal.ParseNumeral | backend/controllers/authControllers.js:122 | After white space, a value is read exactly when a digit follows the optional sign, and a negative value only after a minus sign. |
| Decimal.ParseInt | backend/controllers/authControllers.js:122 | `parseInt(s)` is a number exactly when a digit follows the leading white space and optional sign, and negative only after a minus sign; otherwise it is `NaN`. |
| Decimal.TrimSpaces | backend/controllers/authControllers.js:122 | White space before a string that does not start with white space is exactly what is skipped. |
| Decimal.DigitRunPrefix | backend/controllers/authControllers.js:122 | The digit run of digits followed by a non-digit ends exactly where the digits do. |
| Decimal.ParseNumeralPrefix | backend/controllers/authControllers.js:122 | Digits followed by any text that does not start with a digit read as the value of the digits. |
| Decimal.ParseNumeralNegatedPrefix | backend/controllers/authControllers.js:122 | The same after a minus sign gives the negated value. |
| Decimal.ParseNumeralShowInt | backend/controllers/authControllers.js:122 | A printed integer followed by non-digit text reads back as the integer. |
| Decimal.ParseIntPadded | backend/controllers/authControllers.js:122 | `parseInt` reads back every integer `toString` prints, with any white space before it and any non-digit text after it. |
| Decimal.ParseIntShowInt | backend/controllers/authControllers.js:122 | `parseInt` reads back every integer `toString` prints. |
| Deadline.DayStart | backend/controllers/taskControllers.js:74-76 | The midnight `setHours` starts from is a whole-day instant at or before the date, less than one day earlier. |
| Deadline.Split | backend/controllers/taskControllers.js:75 | `split(":")` gives at least one piece, and no piece contains the separator. |
| Deadline.JoinSplit | backend/controllers/taskControllers.js:75 | Joining the pieces of `split` with the separator gives back the string. |
| Deadline.SplitJoin | backend/controllers/taskControllers.js:75 | Splitting pieces that do not contain the separator, once they are joined, gives back the pieces. |
| Deadline.SplitWhole | backend/controllers/taskControllers.js:75 | A string without `":"` splits into itself alone. |
| Deadline.NumberOf | backend/controllers/taskControllers.js:75 | `Number(piece)` is a value exactly when the piece is all digits (the empty piece reads as 0), and that value is never negative. Otherwise it is `NaN`. |
| Deadline.ParseClock | backend/controllers/taskControllers.js:75 | `atWhatTime.split(":").map(Number)` destructured: without a colon the hour is `Number` of the whole text and the minute is `undefined` (`NaN`); each number read is non-negative. |
| Deadline.ResolveDeadline | backend/controllers/taskControllers.js:74-76 | The deadline exists exactly when both the hour piece and the minute piece of `"HH:MM"` are numbers. It always falls on a whole minute (seconds and milliseconds 0). |
| Deadline.ParseClockText | backend/controllers/taskControllers.js:75 | A time printed as `"HH:MM"` splits and converts back to its hour and minute. |
| Deadline.ResolvedInstant | backend/controllers/taskControllers.js:74-76 | For an hour below 24 and a minute below 60, the instant lies on the same calendar day as `tillDate`, at that hour and minute. |
| Deadline.ResolveClockText | backend/controllers/taskControllers.js:74-76 | End to end: `tillDate` with `"HH:MM"` resolves to that day at that hour and minute. |
| Deadline.Timeout | backend/controllers/taskControllers.js:78-79 | The timeout is defined exactly when the deadline is, and then deadline = now + timeout. |
| Deadline.TimerDelay | backend/controllers/taskControllers.js:151-154 | The delay `setTimeout` waits is always between 1 and 2^31 - 1 ms. It equals the requested timeout exactly when that timeout is in that range. |
| TaskControllers.OwnershipGate | backend/controllers/taskControllers.js:114-132 | The id/ownership chain passes exactly for a valid id of an existing task owned by the caller. An invalid id is 400, a missing task 404, and a foreign task exactly 403. |
| TaskControllers.PostTaskEffect | backend/controllers/taskControllers.js:56-98 | A falsy field (an empty description or time, or no date) gives 400 and changes nothing. A taken id gives 500 and changes nothing. Otherwise the task is stored, whatever happens next, and the reply is 200 exactly when the timeout is not strictly positive or the owner's user record exists; it is 500 otherwise. The queue gains at most one job, and only at its end. A job is added exactly when the task is created, the owner's record exists and the timeout is strictly positive. The job's delay is deadline - now, so it fires at the deadline. Its payload is the owner's e-mail, `description + " Pending"` and the pending body. Timers and sent mail are untouched, and positive queue delays are preserved. |
| TaskControllers.PutTaskEffect | backend/controllers/taskControllers.js:101-166 | The checks run in order: a falsy field (line 105), invalid id, not found, foreign owner. Any failure leaves the world as it was. When the checks pass but the owner's user record is missing, the reply is 500 and nothing changes. The reply is 200 exactly when the checks pass and the record exists; then the three fields are overwritten. Exactly one timer is appended, whatever the sign of the delay, and nothing is cancelled. The timer carries the owner's e-mail, the subject and `"<html></html>"`, with Node's clamped delay. |
| TaskControllers.MarkTaskCompleteEffect | backend/controllers/taskControllers.js:168-201 | The reply is the ownership gate's. On success only the status changes, to completed. Queue, timers and mail are untouched. |
| TaskControllers.DeleteTaskEffect | backend/controllers/taskControllers.js:204-234 | The reply is the ownership gate's. On success only that task is removed. Queue, timers and mail are untouched. |
| TaskControllers.FirstDue | backend/controllers/taskControllers.js:9-13 | The reminder picked is due, and every reminder armed before it is not. `None` means no reminder is due. |
| TaskControllers.RemoveAt | backend/controllers/taskControllers.js:9-13 | Taking one job out of the queue leaves exactly the other jobs. |
| TaskControllers.ProcessQueue | backend/controllers/taskControllers.js:9-13 | The worker takes out exactly one due job and sends exactly the e-mail, subject and body stored in it. Tasks and timers are untouched, and nothing happens when no job is due. |
| TaskControllers.FireTimer | backend/controllers/taskControllers.js:151-154 | A due timer is removed and sends its captured payload, or nothing when the captured e-mail is empty. |
| TaskControllers.WorkerIgnoresTaskStore | backend/controllers/taskControllers.js:9-13 | What the worker sends and keeps does not depend on the task store. |
| TaskControllers.FinishedTaskKeepsReminder | backend/controllers/taskControllers.js:168-234 | After a successful `postTask` queued a job, completing or deleting that task succeeds and the job stays queued. |
| TaskControllers.UpdateAddsSecondReminder | backend/controllers/taskControllers.js:138-154 | Updating a task whose creation queued a job keeps the job and adds a timer: two reminders in total. |
| TaskControllers.PastUpdateFiresAtOnce | backend/controllers/taskControllers.js:146-154 | An update whose deadline is not in the future still arms a timer, which fires 1 ms later. |
| TaskControllers.FarUpdateFiresEarly | backend/controllers/taskControllers.js:146-154 | An update whose deadline is more than 2^31 - 1 ms away gets a timer that fires 1 ms later, before the deadline. |
| TaskControllers.DeletedTaskStillReminded | backend/controllers/taskControllers.js:9-13 | A task created, then deleted before its deadline, still has its reminder mail sent once the deadline passes. |
| TaskControllers.TaskController.constructor | backend/controllers/taskControllers.js:5-6 | The store, queue, timers and mail start empty. |
| TaskControllers.TaskController.PostTask | backend/controllers/taskControllers.js:56-98 | The new fields and the reply are exactly `PostTaskEffect` of the old state. Positive queue delays and clamped timer delays are kept. |
| TaskControllers.TaskController.PutTask | backend/controllers/taskControllers.js:101-166 | The new fields and the reply are exactly `PutTaskEffect` of the old state, and the delay invariant is kept. |
| TaskControllers.TaskController.MarkTaskComplete | backend/controllers/taskControllers.js:168-201 | The new fields and the reply are exactly `MarkTaskCompleteEffect` of the old state. |
| TaskControllers.TaskController.DeleteTask | backend/controllers/taskControllers.js:204-234 | The new fields and the reply are exactly `DeleteTaskEffect` of the old state. |
| TaskControllers.TaskController.ProcessDueJob | backend/controllers/taskControllers.js:9-13 | One worker step: the state becomes `ProcessQueue` of the old state, and the mail returned is the removed job's stored payload. |
| TaskControllers.TaskController.FireDueTimer | backend/controllers/taskControllers.js:151-154 | One timer callback: the state becomes `FireTimer` of the old state, and the mail returned is the timer's payload, if its e-mail is not empty. |
| AuthControllers.OtpCode | backend/controllers/authControllers.js:16 | The code drawn is a six-digit integer in [100000, 999999]. |
| AuthControllers.OtpCodeReaches | backend/controllers/authControllers.js:16 | Every code in [100000, 999999] is drawn by some random value in [0, 1). |
| AuthControllers.Utf16Length | backend/controllers/authControllers.js:26 | `password.length` counts UTF-16 code units: between one and two per character, exactly one per character when none lies outside the Basic Multilingual Plane, exactly two when all do. |
| AuthControllers.SignupCheck | backend/controllers/authControllers.js:18-37 | The checks run in order: a missing field, then a non-string field, then a password shorter than 4 UTF-16 units (4 is accepted), then an invalid e-mail, then a registered e-mail. Each failure is reported exactly when its own test fails and every earlier test passed; `None` exactly when all pass. |
| AuthControllers.SignupEffect | backend/controllers/authControllers.js:13-63 | The account is created exactly when every check passes. A failure changes nothing and sends nothing. The new user has the hashed password, the drawn code, no expiry and is unverified. Exactly one mail carrying the code is sent. |
| AuthControllers.LoginEffect | backend/controllers/authControllers.js:66-105 | A token is issued exactly when both fields are given, the e-mail is registered and the password matches its hash. The token is the user's id, and a login alert is sent. Every failure changes nothing. The reply is "missing fields" exactly when a field is empty, "not registered" exactly when both are given and the e-mail is unknown, and "wrong password" exactly when the e-mail is known and the hash does not match. |
| AuthControllers.CodeMatches | backend/controllers/authControllers.js:122 | A null stored code never matches, nor does a typed code that reads as `NaN`; otherwise the code matches exactly when it reads as the stored value. |
| AuthControllers.Expired | backend/controllers/authControllers.js:126 | A code whose expiry was never set never expires. |
| AuthControllers.PaddedCodeMatches | backend/controllers/authControllers.js:122 | The stored code typed with white space before it or non-digit text after it still matches. |
| AuthControllers.VerifyOtpEffect | backend/controllers/authControllers.js:107-140 | Each reply is stated as an if-and-only-if over the checks in order. Missing fields, then an unknown e-mail, are rejected with the user records unchanged. A wrong code is "Invalid OTP" whatever the expiry. "OTP has expired" exactly for a matching code past its expiry. Success clears the code and sets `isverified`, and changes nothing else. |
| AuthControllers.VerificationNotReplayable | backend/controllers/authControllers.js:122-133 | After a successful verification, any later attempt with any non-empty code is rejected as invalid. |
| AuthControllers.MailedCodeVerifies | backend/controllers/authControllers.js:40-57 | The code mailed at sign-up, typed back as printed, verifies the new account at any later time. |
| AuthControllers.VerifiedStaysVerified | backend/controllers/authControllers.js:107-140 | No handler turns a verified user back into an unverified one. |
| AuthControllers.LoginIgnoresVerification | backend/controllers/authControllers.js:74-80 | Login gives the same reply whether or not the account has been verified. |
| AuthControllers.AuthController.constructor | backend/controllers/authControllers.js:1-5 | No users and no mail at start. |
| AuthControllers.AuthController.Signup | backend/controllers/authControllers.js:13-63 | The new users, mail and reply are exactly `SignupEffect` of the old state. |
| AuthControllers.AuthController.Login | backend/controllers/authControllers.js:66-105 | The new users, mail and reply are exactly `LoginEffect` of the old state. |
| AuthControllers.AuthController.VerifyOtp | backend/controllers/authControllers.js:107-140 | The new users, mail and reply are exactly `VerifyOtpEffect` of the old state. |
| TaskPage.ModeOf | frontend/src/pages/Task.jsx:17 | The mode is add exactly when there is no task id, and update exactly when there is one. |
| TaskPage.FormatDate | frontend/src/pages/Task.jsx:44-50 | An Invalid Date prints as `"NaN-NaN-NaN"`. |
| TaskPage.FormatDateFields | frontend/src/pages/Task.jsx:44-50 | A valid date prints as the year and two dashes. The month is two digits reading the 0-based month + 1, and the day is two digits reading the day. |
| TaskPage.FormatDateRoundTrip | frontend/src/pages/Task.jsx:44-50 | Reading a formatted date back gives the year, 0-based month and day it was printed from. |
| TaskPage.InvalidDateRoundTrip | frontend/src/pages/Task.jsx:44-50 | The text of an Invalid Date reads back as no date. |
| TaskPage.ParseSignedShowInt | frontend/src/pages/Task.jsx:46-49 | The year printed by `toString` reads back, with its sign. |
| TaskPage.FormOf | frontend/src/pages/Task.jsx:35-39 | The form holds exactly `description`, `tillDate` and `atWhatTime`, with the task's values. |
| TaskPage.SubmitRequest | frontend/src/pages/Task.jsx:78-88 | The request carries the form data. It is a POST exactly in add mode, and then goes to `/tasks`. Otherwise it is a PUT whose URL addresses exactly the page's task id. |
| TaskPage.ErrorMap | frontend/src/pages/Task.jsx:74 | The error map has one key per failing field. Each field holds its last error, so a later error for a field overwrites an earlier one. |
| TaskPage.ErrorMapStep | frontend/src/pages/Task.jsx:74 | Adding one more error to the map of the errors before it keeps both facts above. |
| TaskPage.LastForInit | frontend/src/pages/Task.jsx:74 | An error that is the last for its field, other than the final one, names a different field from the final one and is the last for its field among the earlier errors. |
| TaskPage.TaskForm.constructor | frontend/src/pages/Task.jsx:15-24 | The page starts with no task loaded, an empty three-field form and no errors. |
| TaskPage.TaskForm.Loaded | frontend/src/pages/Task.jsx:30-42 | The fetched task is stored and the form takes its three fields. |
| TaskPage.TaskForm.HandleChange | frontend/src/pages/Task.jsx:52-57 | The named field takes the value. Every other field keeps its value, and the key set gains only that name. |
| TaskPage.TaskForm.HandleReset | frontend/src/pages/Task.jsx:59-66 | With a task loaded, the form becomes the task's three fields. Before loading, nothing changes. |
| TaskPage.TaskForm.HandleSubmit | frontend/src/pages/Task.jsx:68-89 | With errors, no request is made and the shown errors are `ErrorMap` of them. Without errors, the shown errors are cleared and the request is `SubmitRequest` of the current form. The form is unchanged in both cases. |

## Left out

- Database calls (`Task.create`, `findById`, `save`, `findByIdAndDelete`, `findOne`, `User.create`) are modelled as maps that are read and updated. Database failures, and so the 500 replies they cause, are not modelled.
- The 500 replies the model does keep:
  - a task id that is already taken;
  - an owner whose user record is missing, where the source reads `.email` of `null`.
- Parsing a `tillDate` string into an instant with `new Date(...)` is left out. The request carries the instant, or `None` when the field is absent or empty. An unparseable but non-empty date string is therefore not modelled.
- Time zones and daylight-saving shifts are not modelled. Every day is 86 400 000 ms on one local clock.
- The `Date` range limit (±8.64e15 ms) is not modelled.
- `Deadline.NumberOf`: only digit strings and the empty string are numbers. `Number`'s acceptance of surrounding white space, signs, decimals, hexadecimal and exponents is not modelled. Every such piece is `NaN` here.
- `Decimal.ParseInt`: base ten only. The `0x` prefix and the radix argument are not modelled.
- `Decimal.ShowNat` and `Decimal.ShowInt` print every integer as plain digits. JavaScript numbers are doubles: from 1e21 up `toString` prints exponent form (`"1e+21"`, which `parseInt` reads as 1), and above 2^53 integers are inexact. The pages and handlers print only a year, a month, a day and a six-digit code, far below these limits.
- `Decimal.ParseIntShowInt` and `Decimal.ParseIntPadded` hold for every integer only because of the line above; for JavaScript numbers they hold below 2^53.
- `TaskControllers.TaskBody` takes `description` and `atWhatTime` as strings. A non-string `atWhatTime` that is truthy (a number, say) passes the field test and then throws at `.split`: in `postTask` the reply is 500 after `Task.create` has stored the task, in `putTask` it is 500 before `save`. Non-string descriptions, which Mongoose casts, are not modelled either.
- `TaskControllers.PostTaskEffect` and `TaskControllers.PutTaskEffect` arm the job or timer at the `now` the handler reads. The source reads `Date.now()` before awaiting `User.findById` and arms afterwards, so the reminder really fires at the deadline plus the lookup time. The model's `job.FireAt() == target` ignores that lookup time.
- `getTasks` and `getTask` only read the store and are not modelled.
- Bull's Redis-backed queue and Node's timers are modelled as in-memory lists. The worker fires the first due reminder in arming order. Persistence, retries, concurrency and the real ordering among simultaneously due jobs are not modelled.
- E-mail delivery (`sendMail`, which swallows its own errors) is recorded as an entry in a sent-mail list. Transport failures are not modelled.
- The HTML bodies of the sign-up and login mails are recorded as notices holding the recipient, the name and the code.
- The user schema is not part of this model. `isverified` is taken to start false, and `otpExpires` to stay unset, because `signup` never writes it.
  - Consequently a code never expires. The sign-up mail nevertheless tells the user it is valid for five minutes.
  - The user schema (`models/User.js`) is outside this model, so whether it supplies a default expiry is open.
  - `AuthControllers.MailedCodeVerifies` assumes the schema stores `otp` as a Number. The test `user.otp !== parseInt(otp)` (backend/controllers/authControllers.js line 122) can only pass then: with a String field, or with the field undeclared and dropped by strict mode, every code would be "Invalid OTP".
- `Math.random` is modelled as an exact real number in [0, 1). Floating-point rounding in `Math.floor(100000 + Math.random() * 900000)` is not modelled.
- `createAccessToken` is not part of this model: the token is the user's id. `delete user.password` on the returned document is not modelled.
- `login` and `otp` take their fields as strings, with the empty string for a missing one. The non-string request bodies that `signup` distinguishes are not modelled there.
- `validateObjectId`, `validateEmail`, bcrypt and the page's `validateManyFields` are not part of this model. They are parameters: a predicate, a function, and the list of errors handed to `HandleSubmit`.
- The page's network calls (`fetchData`), navigation, `document.title`, the rendered JSX and the redux token are left out. `TaskPage.TaskForm.Loaded` stands for the fetch completing, and `HandleSubmit` returns the request instead of sending it.
- `TaskPage.FormatDate` takes the calendar fields a `Date` reports, not the date string. The conversion from a string to local calendar fields is the time-zone behaviour left out above.
- `TaskPage.TaskForm.HandleReset`: reading the fields of a task that has not loaded yet throws in the page. Here the call returns `false` and changes nothing.
