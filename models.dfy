/**
 * The student ledger of app/models.py: the records the database holds, the
 * `Student` row whose fields the ledger methods update in place, and the
 * session (`Db`) through which payments are appended.
 */
module Models {
  import opened Wrappers
  import opened Numerals

  /** A calendar date, compared year first, then month, then day. */
  datatype Date = Date(year: int, month: int, day: int)

  predicate Before(a: Date, b: Date)
  {
    a.year < b.year ||
    (a.year == b.year && (a.month < b.month || (a.month == b.month && a.day < b.day)))
  }

  datatype Term = Term(id: int, name: string, startDate: Date, endDate: Date)

  datatype Grade = Grade(id: int, name: string)

  /** Tuition for one grade in one term (money as whole units). */
  datatype Fee = Fee(termId: int, gradeId: int, amount: int)

  datatype BoardingFee = BoardingFee(extraFee: int)

  datatype BusDestination = BusDestination(id: int, name: string, charge: int)

  /** The configuration tables the ledger reads and never writes. */
  datatype Catalog = Catalog(
    grades: seq<Grade>,
    fees: seq<Fee>,
    boardingFees: seq<BoardingFee>,
    terms: seq<Term>,
    destinations: seq<BusDestination>)

  /** A tuition ledger entry; the optional columns are those a caller may leave unset. */
  datatype Payment = Payment(
    studentId: int,
    amount: int,
    payMethod: Option<string>,
    termId: Option<string>,
    balanceAfterPayment: Option<int>,
    description: Option<string>,
    notes: Option<string>)

  datatype BusPayment = BusPayment(studentId: int, termId: int, amount: int, destinationId: Option<int>)

  /** The value of one `Student` row. `grade` is the name of the student's grade. */
  datatype StudentRecord = StudentRecord(
    id: int,
    name: string,
    admissionNumber: string,
    gradeId: int,
    grade: string,
    phone: string,
    termFee: int,
    balance: int,
    arrears: int,
    prepayment: int,
    busBalance: int,
    busArrears: int,
    useBus: bool,
    isBoarding: bool,
    busDestinations: seq<int>)

  /** The ValueErrors the ledger raises. */
  datatype Error = FeeNotSet | GradeNotInteger(grade: string) | NotUsingBus | StudentNotFound

  function Message(e: Error): string
  {
    match e
    case FeeNotSet => "Fee structure not set for this grade."
    case GradeNotInteger(g) => "invalid literal for int() with base 10: '" + g + "'"
    case NotUsingBus => "Student does not use the bus."
    case StudentNotFound => "Student not found"
  }

  /** `Fee.query.filter_by(grade_id=g).first()`: whatever the term. */
  function FeeOfGrade(fees: seq<Fee>, gradeId: int): Option<nat>
  {
    First(fees, (f: Fee) => f.gradeId == gradeId)
  }

  /** `Fee.query.filter_by(grade_id=g, term_id=t).first()`. */
  function FeeOfGradeInTerm(fees: seq<Fee>, gradeId: int, termId: int): Option<nat>
  {
    First(fees, (f: Fee) => f.gradeId == gradeId && f.termId == termId)
  }

  /**
   * The boarding surcharge: the first boarding fee row, for a boarding
   * student whose grade name reads as an integer below 5; else nothing.
   */
  function Surcharge(r: StudentRecord, boardingFees: seq<BoardingFee>): int
    requires r.isBoarding ==> ParseInt(r.grade).Some?
  {
    if r.isBoarding && ParseInt(r.grade).value < 5 && |boardingFees| > 0
    then boardingFees[0].extraFee else 0
  }

  /** The balance `initialize_balance` computes for `r`, or the error it raises. */
  function OpeningBalance(r: StudentRecord, fees: seq<Fee>, boardingFees: seq<BoardingFee>): Result<int, Error>
  {
    match FeeOfGrade(fees, r.gradeId)
    case None => Failure(FeeNotSet)
    case Some(i) =>
      if r.isBoarding && ParseInt(r.grade).None? then Failure(GradeNotInteger(r.grade))
      else Success(fees[i].amount + Surcharge(r, boardingFees) + r.arrears)
  }

  /** `max(0, owed - paid)`: a balance reduced by a payment and clamped at zero. */
  function ClampedSubtract(owed: int, paid: int): int
  {
    if owed - paid < 0 then 0 else owed - paid
  }

  /** The effect of `record_payment` on the paying student. */
  function AfterPayment(r: StudentRecord, amount: int): StudentRecord
  {
    var balance := r.balance - amount;
    r.(balance := balance, arrears := if balance <= 0 then 0 else r.arrears)
  }

  /** Payments recorded one after the other, first to last. */
  function AfterPayments(r: StudentRecord, amounts: seq<int>): StudentRecord
    decreases |amounts|
  {
    if amounts == [] then r else AfterPayments(AfterPayment(r, amounts[0]), amounts[1..])
  }

  function Sum(amounts: seq<int>): int
  {
    if amounts == [] then 0 else amounts[0] + Sum(amounts[1..])
  }

  /** A row of the `student` table; its methods update it in place. */
  class Student {
    var id: int
    var name: string
    var admissionNumber: string
    var gradeId: int
    var grade: string
    var phone: string
    var termFee: int
    var balance: int
    var arrears: int
    var prepayment: int
    var busBalance: int
    var busArrears: int
    var useBus: bool
    var isBoarding: bool
    var busDestinations: seq<int>

    function Record(): StudentRecord
      reads this
    {
      StudentRecord(id, name, admissionNumber, gradeId, grade, phone, termFee, balance, arrears,
                    prepayment, busBalance, busArrears, useBus, isBoarding, busDestinations)
    }

    /** A new row: balance, prepayment and bus arrears start at 0, no bus destinations. */
    constructor (id: int, name: string, admissionNumber: string, gradeId: int, grade: string, phone: string,
                 termFee: int, useBus: bool, isBoarding: bool, arrears: int, busBalance: int)
      ensures Record() == StudentRecord(id, name, admissionNumber, gradeId, grade, phone, termFee, 0, arrears,
                                        0, busBalance, 0, useBus, isBoarding, [])
    {
      this.id, this.name, this.admissionNumber := id, name, admissionNumber;
      this.gradeId, this.grade, this.phone, this.termFee := gradeId, grade, phone, termFee;
      this.balance, this.arrears, this.prepayment := 0, arrears, 0;
      this.busBalance, this.busArrears := busBalance, 0;
      this.useBus, this.isBoarding, this.busDestinations := useBus, isBoarding, [];
    }

    /**
     * `initialize_balance`: only `balance` is written. With no fee row for
     * the grade nothing changes; when `int()` of a boarding student's grade
     * name fails, the fee amount has already been written.
     */
    method InitializeBalance(fees: seq<Fee>, boardingFees: seq<BoardingFee>) returns (r: Outcome<Error>)
      modifies this
      ensures match OpeningBalance(old(Record()), fees, boardingFees)
        case Success(b) => r == Pass && Record() == old(Record()).(balance := b)
        case Failure(e) => r == Fail(e)
      ensures r == Fail(FeeNotSet) ==> Record() == old(Record())
      ensures r.Fail? && r.error.GradeNotInteger? ==>
        && FeeOfGrade(fees, gradeId).Some?
        && Record() == old(Record()).(balance := fees[FeeOfGrade(fees, gradeId).value].amount)
    {
      var fee := FeeOfGrade(fees, gradeId);
      if fee.None? {
        return Fail(FeeNotSet);
      }
      balance := fees[fee.value].amount;
      if isBoarding {
        var n := ParseInt(grade);
        if n.None? {
          return Fail(GradeNotInteger(grade));
        }
        if n.value < 5 && |boardingFees| > 0 {
          balance := balance + boardingFees[0].extraFee;
        }
      }
      if arrears != 0 {
        balance := balance + arrears;
      }
      return Pass;
    }

    /** `update_bus_balance`: refused for a student off the bus, else clamped at zero. */
    method UpdateBusBalance(amount: int) returns (r: Outcome<Error>)
      modifies this
      ensures !old(useBus) ==> r == Fail(NotUsingBus) && Record() == old(Record())
      ensures old(useBus) ==> r == Pass && Record() == old(Record()).(busBalance := ClampedSubtract(old(busBalance), amount))
    {
      if !useBus {
        return Fail(NotUsingBus);
      }
      busBalance := busBalance - amount;
      if busBalance < 0 {
        busBalance := 0;
      }
      return Pass;
    }
  }

  /** Position of the student with id `id` in `ss`, as `Student.query.get(id)` finds it. */
  function FindStudent(ss: seq<Student>, id: int): (r: Option<nat>)
    reads ss
    ensures r.Some? ==> r.value < |ss| && ss[r.value].id == id
    ensures r.None? ==> forall k :: 0 <= k < |ss| ==> ss[k].id != id
  {
    if ss == [] then None
    else if ss[0].id == id then Some(0)
    else match FindStudent(ss[1..], id)
      case None => None
      case Some(k) => Some(k + 1)
  }

  /**
   * The database session: the student rows, the appended ledgers and the
   * fixed catalog. `busPayments` is the bus payment table; of the writers
   * of that table only the balance effect of the constructor is modelled
   * (`NewBusPayment`), so the modelled operations never append to it.
   */
  class Db {
    const catalog: Catalog
    var students: seq<Student>
    var payments: seq<Payment>
    var busPayments: seq<BusPayment>
    var nextStudentId: int

    /**
     * Every row is a distinct object. Distinct ids are not part of it: the
     * primary key is the database's concern, and `FindStudent` returns the
     * first row with the id.
     */
    ghost predicate Valid()
      reads this
    {
      forall i, j :: 0 <= i < j < |students| ==> students[i] != students[j]
    }

    constructor (catalog: Catalog)
      ensures Valid() && this.catalog == catalog
      ensures students == [] && payments == [] && busPayments == [] && nextStudentId == 1
    {
      this.catalog := catalog;
      students, payments, busPayments, nextStudentId := [], [], [], 1;
    }

    /**
     * `Payment.record_payment`: an unknown student raises and nothing is
     * recorded; otherwise the balance drops by exactly `amount`, unclamped,
     * arrears are cleared when the new balance is not positive, and one
     * entry carrying the new balance is appended.
     */
    method RecordPayment(studentId: int, amount: int, payMethod: string, termId: string,
                         description: Option<string>, notes: Option<string>) returns (r: Result<Payment, Error>)
      modifies this`payments, students
      ensures old(FindStudent(students, studentId)).None? ==>
        && r == Failure(StudentNotFound)
        && payments == old(payments)
        && forall k :: 0 <= k < |students| ==> students[k].Record() == old(students[k].Record())
      ensures old(FindStudent(students, studentId)).Some? ==>
        var s := students[old(FindStudent(students, studentId)).value];
        && s.Record() == AfterPayment(old(s.Record()), amount)
        && r == Success(Payment(studentId, amount, Some(payMethod), Some(termId), Some(s.balance), description, notes))
        && payments == old(payments) + [r.value]
        && forall k :: 0 <= k < |students| && students[k] != s ==> students[k].Record() == old(students[k].Record())
    {
      var found := FindStudent(students, studentId);
      if found.None? {
        return Failure(StudentNotFound);
      }
      var student := students[found.value];
      student.balance := student.balance - amount;
      if student.balance <= 0 {
        student.arrears := 0;
      }
      var payment := Payment(studentId, amount, Some(payMethod), Some(termId), Some(student.balance), description, notes);
      payments := payments + [payment];
      return Success(payment);
    }

    /**
     * The balance effect of constructing a `BusPayment`: an existing
     * student's bus balance drops by `amount`, with no clamp and no check
     * that the student uses the bus; a missing student changes nothing.
     */
    method NewBusPayment(studentId: int, termId: int, amount: int, destinationId: Option<int>) returns (p: BusPayment)
      modifies students
      ensures p == BusPayment(studentId, termId, amount, destinationId)
      ensures old(FindStudent(students, studentId)).None? ==>
        forall k :: 0 <= k < |students| ==> students[k].Record() == old(students[k].Record())
      ensures old(FindStudent(students, studentId)).Some? ==>
        var s := students[old(FindStudent(students, studentId)).value];
        && s.Record() == old(s.Record()).(busBalance := old(s.busBalance) - amount)
        && forall k :: 0 <= k < |students| && students[k] != s ==> students[k].Record() == old(students[k].Record())
    {
      p := BusPayment(studentId, termId, amount, destinationId);
      var found := FindStudent(students, studentId);
      if found.Some? {
        var student := students[found.value];
        student.busBalance := student.busBalance - amount;
      }
    }
  }

  // ---- Facts about the opening balance ----

  /** The only error a day scholar can meet is a missing fee row, and the grade name is never read. */
  lemma DayScholarGradeNameIgnored(r: StudentRecord, fees: seq<Fee>, boardingFees: seq<BoardingFee>, otherName: string)
    requires !r.isBoarding
    ensures OpeningBalance(r.(grade := otherName), fees, boardingFees) == OpeningBalance(r, fees, boardingFees)
    ensures OpeningBalance(r, fees, boardingFees).Failure? ==> OpeningBalance(r, fees, boardingFees).error == FeeNotSet
    ensures FeeOfGrade(fees, r.gradeId).Some? ==>
      OpeningBalance(r, fees, boardingFees) == Success(fees[FeeOfGrade(fees, r.gradeId).value].amount + r.arrears)
  {
  }

  /** A boarder whose grade name is not an integer makes the computation raise. */
  lemma NonNumericBoarderFails(r: StudentRecord, fees: seq<Fee>, boardingFees: seq<BoardingFee>)
    requires r.isBoarding && ParseInt(r.grade).None?
    requires FeeOfGrade(fees, r.gradeId).Some?
    ensures OpeningBalance(r, fees, boardingFees) == Failure(GradeNotInteger(r.grade))
  {
  }

  /** "pp1", or any name starting with a letter, is such a name. */
  lemma LetterGradeBoarderFails(r: StudentRecord, fees: seq<Fee>, boardingFees: seq<BoardingFee>)
    requires r.isBoarding && |r.grade| > 0 && !IsDigit(r.grade[0]) && r.grade[0] != '+' && r.grade[0] != '-'
    requires FeeOfGrade(fees, r.gradeId).Some?
    ensures OpeningBalance(r, fees, boardingFees) == Failure(GradeNotInteger(r.grade))
  {
    ParseIntRejectsLeadingLetter(r.grade);
    NonNumericBoarderFails(r, fees, boardingFees);
  }

  /**
   * For a boarder in grade n, the surcharge (the first boarding fee row)
   * applies exactly when n < 5 and such a row exists.
   */
  lemma BoarderSurcharge(r: StudentRecord, fees: seq<Fee>, boardingFees: seq<BoardingFee>, n: int)
    requires r.isBoarding && r.grade == IntToString(n)
    requires FeeOfGrade(fees, r.gradeId).Some?
    ensures OpeningBalance(r, fees, boardingFees) ==
      Success(fees[FeeOfGrade(fees, r.gradeId).value].amount
              + (if n < 5 && |boardingFees| > 0 then boardingFees[0].extraFee else 0)
              + r.arrears)
  {
    ParseIntOfIntToString(n);
  }

  /** The fee is the first row for the grade, whatever term it belongs to. */
  lemma FeeIgnoresTerm(r: StudentRecord, fee: Fee, later: seq<Fee>, boardingFees: seq<BoardingFee>)
    requires fee.gradeId == r.gradeId
    requires !r.isBoarding || ParseInt(r.grade).Some?
    ensures OpeningBalance(r, [fee] + later, boardingFees) == Success(fee.amount + Surcharge(r, boardingFees) + r.arrears)
  {
    assert ([fee] + later)[0] == fee;
  }

  /** Arrears are added on top of the fee: raising them by d raises the balance by d. */
  lemma OpeningBalanceAddsArrears(r: StudentRecord, fees: seq<Fee>, boardingFees: seq<BoardingFee>, d: int)
    ensures OpeningBalance(r.(arrears := r.arrears + d), fees, boardingFees).Success?
            == OpeningBalance(r, fees, boardingFees).Success?
    ensures OpeningBalance(r, fees, boardingFees).Success? ==>
      OpeningBalance(r.(arrears := r.arrears + d), fees, boardingFees).value
      == OpeningBalance(r, fees, boardingFees).value + d
  {
  }

  // ---- Facts about payments ----

  /** record_payment has no clamp: an overpayment leaves a negative balance and clears arrears. */
  lemma OverpaymentGoesNegative(r: StudentRecord, amount: int)
    requires amount > r.balance
    ensures AfterPayment(r, amount).balance == r.balance - amount < 0
    ensures AfterPayment(r, amount).arrears == 0
  {
  }

  /** Two payments in a row have the same effect as one payment of their total. */
  lemma PaymentsCompose(r: StudentRecord, a: int, b: int)
    requires a >= 0 && b >= 0
    ensures AfterPayment(AfterPayment(r, a), b) == AfterPayment(r, a + b)
  {
  }

  /** No payment is lost or counted twice: any run of payments acts as one payment of their sum. */
  lemma {:induction false} PaymentsSum(r: StudentRecord, amounts: seq<int>)
    requires |amounts| > 0
    requires forall k :: 0 <= k < |amounts| ==> amounts[k] >= 0
    ensures Sum(amounts) >= 0
    ensures AfterPayments(r, amounts) == AfterPayment(r, Sum(amounts))
    decreases |amounts|
  {
    var rest := amounts[1..];
    if rest == [] {
      assert Sum(amounts) == amounts[0] + Sum(rest);
    } else {
      PaymentsSum(AfterPayment(r, amounts[0]), rest);
      PaymentsCompose(r, amounts[0], Sum(rest));
    }
  }

  lemma {:induction false} SumOfShares(n: nat, a: int)
    ensures Sum(seq(n, _ => a)) == n * a
  {
    if n > 0 {
      var shares := seq(n, _ => a);
      assert shares[1..] == seq(n - 1, _ => a);
      SumOfShares(n - 1, a);
    }
  }

  /** n payments of a against a balance of n * a settle it exactly and clear the arrears. */
  lemma EqualSharesSettle(r: StudentRecord, n: nat, a: int)
    requires n > 0 && a >= 0 && r.balance == n * a
    ensures AfterPayments(r, seq(n, _ => a)).balance == 0
    ensures AfterPayments(r, seq(n, _ => a)).arrears == 0
  {
    PaymentsSum(r, seq(n, _ => a));
    SumOfShares(n, a);
  }

  // ---- Facts about the bus balance ----

  /** update_bus_balance never leaves a negative balance, and settles exactly when the payment covers it. */
  lemma BusClamp(owed: int, paid: int)
    ensures ClampedSubtract(owed, paid) >= 0
    ensures ClampedSubtract(owed, paid) == 0 <==> paid >= owed
    ensures ClampedSubtract(owed, paid) == owed - paid <==> paid <= owed
  {
  }

  /** Two clamped payments equal one clamped payment of their total. */
  lemma ClampedPaymentsCompose(owed: int, a: int, b: int)
    requires b >= 0
    ensures ClampedSubtract(ClampedSubtract(owed, a), b) == ClampedSubtract(owed, a + b)
  {
  }
}
