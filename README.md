# School ledger: student balances, payments and term jobs

This project models the student financial ledger of a school management
back end written in Python with Flask and SQLAlchemy, and proves properties
of that model in Dafny. It covers:

- the `Student` row and its in-place ledger methods: the opening balance
  (`initialize_balance`) and the clamped bus payment (`update_bus_balance`);
- the unclamped tuition payment `Payment.record_payment` and the balance
  effect of constructing a `BusPayment`;
- the two scheduled jobs of `app/jobs.py`. Term rollover carries every
  student's net balance into arrears. Grade promotion moves every grade one
  step on 31 December;
- the request handlers that change balances or the bus assignment:
  `add_student`, `update_student`, `update_balance`, `add_payment` and
  `assign_student_to_bus`.

Layout:

- `wrappers.dfy` (module `Wrappers`) holds Option, Result and Outcome. It
  also holds `First`, the first-match search that stands for every
  `query...first()` and for `Grade.query.get` and `BusDestination.query.get`.
  `Student.query.get` is `Models.FindStudent`, a separate search over the
  student rows.
- `numerals.dfy` (module `Numerals`) holds the three Python built-ins the
  grade logic uses: `int()`, `str()` and `str.lower()`.
- `models.dfy` (module `Models`) holds the records and the `Student` class.
  Its fields are updated in place, and `Record()` gives their value. It also
  holds `Db`, the database session, with its student rows, its appended
  payment ledgers and a read-only fee catalog.
- `jobs.dfy` (module `Jobs`) holds rollover and promotion. Each job is a loop
  over the student rows, with a prefix/suffix invariant: rows before the
  cursor are transformed, rows after it are untouched.
- `routes.dfy` (module `Routes`) holds the handlers. A request body is a
  map from field names to JSON scalars. A reply is a status code and a
  message.

Money is an unbounded integer. Dates are passed in as parameters.
`db.session.commit()` is a no-op. An exception that escapes a handler
becomes the 500 reply Flask sends, and any uncommitted change is discarded.

The model follows the code as written, including:

- `record_payment` has no clamp, so an overpayment leaves a negative
  balance.
- A boarding student whose grade name is not an integer makes
  `initialize_balance` raise. It is not treated as "below 5".
- Rollover has no watermark and is not idempotent.
- Promotion has no `force` flag; the 31 December test is in the job.
- The bus payment built by the `BusPayment` constructor has no clamp and no
  `use_bus` check.
- `add_payment` accepts negative amounts; a zero amount is refused as missing.

Arrears that `initialize_balance` folded into the balance are carried into
arrears a second time by the next rollover. `Jobs.RolloverRecountsOpeningArrears`
states the exact amount. The model keeps this behaviour as written.

## Model

| member | source | states |
|---|---|---|
| Wrappers.First | backEnd-main/app/models.py:84 | The index returned is the first row that satisfies the filter. None is returned exactly when no row does. |
| Numerals.ParseIntOfIntToString | backEnd-main/app/jobs.py:46-47 | `int(str(n)) == n` for every integer n. |
| Numerals.ParseIntRejectsLeadingLetter | backEnd-main/app/models.py:91 | `int()` raises on a name that starts with a character other than a digit or a sign. |
| Numerals.ParseIntRejectsNonDigit | backEnd-main/app/jobs.py:46 | `int()` raises on any text that has a non-digit after its first character. |
| Numerals.LowerOfIntToString | backEnd-main/app/jobs.py:41 | Lower-casing leaves a numeral unchanged. |
| Numerals.IntToStringAlphabet | backEnd-main/app/jobs.py:47 | `str(n)` is non-empty and holds only digits and '-'. |
| Models.Student.constructor | backEnd-main/app/routes.py:57-68 | A new row carries the given fields, with balance, prepayment and bus arrears 0 and no bus destinations. |
| Models.Student.InitializeBalance | backEnd-main/app/models.py:79-100 | Success sets only `balance`, to the first fee row of the grade (any term) plus the boarding surcharge plus arrears. With no fee row it fails with "Fee structure not set for this grade." and changes nothing. A boarder whose grade name is not an integer gets the ValueError, and the fee amount has already been written. |
| Models.Student.UpdateBusBalance | backEnd-main/app/models.py:102-113 | A student off the bus gets "Student does not use the bus." and nothing changes. Otherwise only `bus_balance` changes, to `max(0, old - amount)`. |
| Models.FindStudent | backEnd-main/app/models.py:132 | The index returned holds the given id. None means no row has it. |
| Models.Db.RecordPayment | backEnd-main/app/models.py:128-152 | Unknown student: "Student not found", no entry, no row changes. Known student: the balance drops by exactly `amount` with no clamp, and arrears become 0 exactly when the new balance is at most 0. One entry is appended whose `balance_after_payment` is the new balance. Every other row is unchanged. |
| Models.Db.NewBusPayment | backEnd-main/app/models.py:233-241 | An existing student's `bus_balance` drops by `amount`, with no clamp and no `use_bus` check. Every other row, and every row when the student is missing, is unchanged. |
| Models.DayScholarGradeNameIgnored | backEnd-main/app/models.py:91 | For a day scholar the grade name never matters. The only possible error is the missing fee row, and the balance is fee plus arrears. |
| Models.NonNumericBoarderFails | backEnd-main/app/models.py:91 | A boarder with a fee row whose grade name is not an integer makes the computation raise the `int()` error. |
| Models.LetterGradeBoarderFails | backEnd-main/app/models.py:91 | In particular a boarder whose grade name starts with neither a digit nor a sign ("pp1", "PP1") gets that error. |
| Models.BoarderSurcharge | backEnd-main/app/models.py:89-94 | For a boarder in numeric grade n, the surcharge is the first boarding fee exactly when n < 5 and such a row exists. |
| Models.FeeIgnoresTerm | backEnd-main/app/models.py:84 | The fee is the first row for the grade, whatever its term: the balance is that row's amount plus surcharge plus arrears. |
| Models.OpeningBalanceAddsArrears | backEnd-main/app/models.py:97-98 | Raising arrears by d raises the opening balance by d and never changes whether it succeeds. |
| Models.OverpaymentGoesNegative | backEnd-main/app/models.py:136-138 | A payment above the balance leaves a negative balance and clears arrears. |
| Models.PaymentsCompose | backEnd-main/app/models.py:136-138 | Two non-negative payments in a row equal one payment of their total. |
| Models.PaymentsSum | backEnd-main/app/models.py:136-138 | Any non-empty run of non-negative payments acts as one payment of their sum, so no payment is lost or counted twice. |
| Models.EqualSharesSettle | backEnd-main/app/models.py:136-138 | n payments of a against a balance of n * a leave balance 0 and arrears 0. |
| Models.BusClamp | backEnd-main/app/models.py:109-111 | The clamped bus balance is never negative. It is 0 exactly when the payment covers the balance, and `old - amount` exactly when it does not exceed it. |
| Models.ClampedPaymentsCompose | backEnd-main/app/models.py:109-111 | Two clamped bus payments equal one clamped payment of their total when the second payment is not negative. |
| Jobs.ProcessTermRollover | backEnd-main/app/jobs.py:12-34 | The outcome is "no current term" exactly when no term has ended, "no next term" exactly when one has ended but none starts after today, and a rollover exactly when both exist. Without a rollover no student changes. With one, every student is rolled over into the first term starting after today, each from its own old record and the fee table. |
| Jobs.RollOverStudent | backEnd-main/app/jobs.py:24-31 | One loop step: the row becomes its rolled-over record. |
| Jobs.RolloverExample | backEnd-main/app/jobs.py:24-29 | Balance 1000, prepayment 200 and next fee 500 give arrears 800, prepayment 0 and balance 1300. |
| Jobs.RolloverCarriesNetBalance | backEnd-main/app/jobs.py:24-29 | Arrears grow by balance minus prepayment, signed, so they fall when prepayment exceeds balance. With a fee row for the new term the balance is arrears plus that fee, with no surcharge. Without one the balance is unchanged. |
| Jobs.RolloverNotIdempotent | backEnd-main/app/jobs.py:24 | A second rollover adds the post-rollover balance to arrears again, and changes the record whenever that balance is not 0. |
| Jobs.RolloverRecountsOpeningArrears | backEnd-main/app/jobs.py:24-29 | After an opening balance with arrears A, a rollover leaves arrears of 2 * A plus fee plus surcharge minus prepayment. |
| Jobs.BusArrearsAccumulate | backEnd-main/app/jobs.py:31 | After n rollovers the bus balance is unchanged and bus arrears have grown by n times it. |
| Jobs.RolloverKeepsIdentity | backEnd-main/app/jobs.py:22-31 | Any number of rollovers leave id, grade, grade id, flags and bus destinations unchanged. |
| Jobs.PromoteStudents | backEnd-main/app/jobs.py:36-52 | On any day but 31 December no student changes. On 31 December every student's grade, and nothing else, becomes its promoted grade. |
| Jobs.PromoteStudent | backEnd-main/app/jobs.py:41-49 | One loop step: only the grade changes, to its promoted value. |
| Jobs.NumeralNotInTable | backEnd-main/app/jobs.py:6-10 | No numeral is a key of the promotion table. |
| Jobs.PromoteNumeral | backEnd-main/app/jobs.py:44-47 | A numeric grade n becomes `str(n + 1)`. |
| Jobs.PromoteLadder | backEnd-main/app/jobs.py:6-10 | "baby class" becomes "pp1", "pp1" becomes "pp2", "pp2" becomes "1", "PP1" becomes "pp2" and "3" becomes "4". |
| Jobs.PromoteLeavesUnknown | backEnd-main/app/jobs.py:44-49 | "baby" and "xyz" are left exactly as they were. |
| Jobs.PromoteChangesExactlyPromotable | backEnd-main/app/jobs.py:41-49 | A grade changes if and only if its lower-cased name is in the table or parses as an integer. |
| Jobs.PromotePreservesPromotable | backEnd-main/app/jobs.py:41-49 | A promoted grade can be promoted again. |
| Routes.FirstMissingField | backEnd-main/app/routes.py:46-48 | It returns None exactly when every field is present and truthy. Otherwise it returns the first field that is absent or falsy. |
| Routes.RegisteredStudentRidesAndBoards | backEnd-main/app/routes.py:43-48 | Falsy values are refused, so every accepted registration has `use_bus`, `is_boarding` and a non-zero term fee. |
| Routes.AddStudent | backEnd-main/app/routes.py:41-84 | Refusals, in order: "<field> is required" for the first missing or falsy field, "Invalid grade ID", the ValueError message, then "Admission number must be unique". A refusal adds no student. Success appends one fresh student whose balance is its opening balance. Payments are never touched. |
| Routes.Enroll | backEnd-main/app/routes.py:55-84 | The student is created and initialised, then appended with reply 201, unless initialisation fails or the admission number is taken. |
| Routes.NewStudent | backEnd-main/app/routes.py:57-73 | The constructed row's record is the request's row with its opening balance, or the initialisation error. |
| Routes.UpdateStudent | backEnd-main/app/routes.py:94-118 | An unknown id gives 404 and changes nothing. Otherwise only the supplied fields change. The balance is recomputed exactly when `is_boarding` or `arrears` was sent. A failed recomputation gives 500 and leaves the row unchanged. Other rows never change. |
| Routes.EditedTouchesOnlySupplied | backEnd-main/app/routes.py:102-113 | Only name, phone, use_bus, is_boarding and arrears can change, and each only when present in the request. Arrears keep their old value when only `is_boarding` was sent. |
| Routes.ApplyEdits | backEnd-main/app/routes.py:102-113 | The row becomes the edited record. |
| Routes.RollBackEdits | backEnd-main/app/routes.py:114 | The row is restored to its value before the handler's edits. |
| Routes.UpdateBalance | backEnd-main/app/routes.py:135-155 | Unknown student: 404. A missing, falsy or non-positive amount: 400, before any change. Success appends exactly one payment of that amount, sets the balance to `max(0, balance - amount)` and leaves arrears and every other field and row untouched. |
| Routes.AddPayment | backEnd-main/app/routes.py:240-266 | If any of student_id, amount, method or term_id is falsy: 400 "Missing required fields". The reply is 404 "Student not found" exactly when all four are truthy and the student does not exist. For four truthy fields, an integer id and an existing student, the reply is 201 when the amount is numeric and 500 otherwise. On 201 the student's record and the ledger are those of `record_payment`. Anything but 201 changes nothing. |
| Routes.AssignStudentToBus | backEnd-main/app/routes.py:443-466 | A missing id, student or destination changes nothing. Otherwise only the student's destination list changes: the destination is appended unless already present. The "already assigned" message is sent exactly when it was present, and "Student assigned to bus destination successfully" otherwise. |
| Routes.AssignIdempotent | backEnd-main/app/routes.py:455-459 | Assigning the same destination twice is the same as assigning it once. |
| Routes.AssignKeepsListDuplicateFree | backEnd-main/app/routes.py:455-459 | A duplicate-free list stays duplicate-free and holds exactly its old entries plus the new one. |

## Left out

- Flask routing, JSON rendering and SQLAlchemy sessions are out of scope. Queries are first-match searches over in-memory sequences, and `commit()` is a no-op.
- Password hashing (`set_password`, `check_password`, `login`) wraps werkzeug, which is not part of this model.
- Money columns are floats in the source. The model uses unbounded integers and makes no claim about float rounding.
- Concurrency and transaction atomicity (lost updates between concurrent payments, all-or-nothing batch commits) depend on the database and are not modelled.
- Clock reads (`date.today()`, `datetime.utcnow()`) are parameters, or are dropped where only a timestamp column receives them.
- Python `int()` is modelled as an optional sign followed by ASCII digits, without surrounding whitespace or underscores. `str.lower()` folds only ASCII letters.
- A value of the wrong JSON type for a stored column is answered 400 "Malformed request". This covers the `add_student` columns (checked after the grade lookup) and the five editable fields of `update_student`. The source would store such a value or fail inside the database, and that is not modelled.
- A non-integer `student_id`, `grade_id` or `destination_id` is treated as an unknown id. So a text `grade_id` gets 400 "Invalid grade ID", and a text `student_id` or `destination_id` gets 404. The source passes the text key on to `query.get`, and what the database makes of it is not modelled.
- The source's import and schema crashes are not reproduced; the model gives the evidently intended behaviour:
  - `Grade` is not imported in `app/routes.py`, and the `Event` it does import does not exist in `app/models.py`;
  - `record_payment` imports `Student` from a top-level `models` module that does not exist inside the package;
  - `add_student` passes a `created_at` keyword that is not a column;
  - `prepayment` and `bus_arrears` are not declared columns;
  - `phone` at `app/models.py:57` lacks a closing parenthesis;
  - `update_balance` builds a `Payment` without its NOT NULL `method`, `term_id` and `balance_after_payment`.
- `grade` is a relationship in `app/models.py` but a string in `app/jobs.py`. The model keeps one string field, the grade's name, for both uses. In `add_student` the model reads the name of the grade looked up by `grade_id`, where the source reads an unflushed relationship.
- The jobs' `print` messages are not modelled. `Jobs.ProcessTermRollover` returns an outcome in their place.
- The `create_bus_payment` route and its call to a missing `update_student_bus_balance` are not part of this model. Neither are the other routes (staff, fees, terms, events, gallery, notifications, the read-only GETs).
- `backEnd-main/seed.py` and the React front end are not part of this model.
- The code has none of the following, and the model does not add them:
  - a rollover watermark with an "already rolled over" error;
  - a bus-enabled guard on the `BusPayment` path;
  - a clamp in `record_payment`;
  - a positive-amount check in `add_payment`.
