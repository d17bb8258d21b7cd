/**
 * The scheduled jobs of app/jobs.py: term rollover, which carries every
 * student's outstanding balance into arrears, and grade promotion, which
 * moves every student up one grade on 31 December.
 */
module Jobs {
  import opened Wrappers
  import opened Numerals
  import opened Models

  // ---- Term rollover ----

  /** `Term.query.filter(Term.end_date < today).first()`. */
  function CurrentTerm(terms: seq<Term>, today: Date): Option<nat>
  {
    First(terms, (t: Term) => Before(t.endDate, today))
  }

  /** `Term.query.filter(Term.start_date > today).first()`. */
  function NextTerm(terms: seq<Term>, today: Date): Option<nat>
  {
    First(terms, (t: Term) => Before(today, t.startDate))
  }

  /**
   * One student's rollover into the term `newTermId`: the balance net of
   * prepayment is added to arrears, prepayment is reset, the balance is
   * re-based on the new term's fee when one is configured, and the bus
   * balance is added to the bus arrears.
   */
  function RolledOver(r: StudentRecord, fees: seq<Fee>, newTermId: int): StudentRecord
  {
    var arrears := r.arrears + r.balance - r.prepayment;
    var balance := match FeeOfGradeInTerm(fees, r.gradeId, newTermId)
      case Some(i) => arrears + fees[i].amount
      case None => r.balance;
    r.(arrears := arrears, prepayment := 0, balance := balance, busArrears := r.busArrears + r.busBalance)
  }

  /** What the rollover job reports. */
  datatype RolloverOutcome = NoCurrentTerm | NoNextTerm | RolledOverInto(term: Term)

  /**
   * `process_term_rollover`: nothing happens until some term has ended;
   * with no term starting after today no student is touched; otherwise
   * every student, on its own, is rolled over into the first such term.
   */
  method ProcessTermRollover(db: Db, today: Date) returns (outcome: RolloverOutcome)
    requires db.Valid()
    modifies db.students
    ensures outcome == NoCurrentTerm <==> CurrentTerm(db.catalog.terms, today).None?
    ensures outcome == NoNextTerm <==>
      CurrentTerm(db.catalog.terms, today).Some? && NextTerm(db.catalog.terms, today).None?
    ensures outcome.RolledOverInto? <==>
      CurrentTerm(db.catalog.terms, today).Some? && NextTerm(db.catalog.terms, today).Some?
    ensures outcome.RolledOverInto? ==>
      outcome.term == db.catalog.terms[NextTerm(db.catalog.terms, today).value]
    ensures forall k :: 0 <= k < |db.students| ==>
      db.students[k].Record() == if outcome.RolledOverInto?
                                 then RolledOver(old(db.students[k].Record()), db.catalog.fees, outcome.term.id)
                                 else old(db.students[k].Record())
  {
    var current := CurrentTerm(db.catalog.terms, today);
    if current.None? {
      return NoCurrentTerm;
    }
    var next := NextTerm(db.catalog.terms, today);
    if next.None? {
      return NoNextTerm;
    }
    var newTerm := db.catalog.terms[next.value];
    var students := db.students;
    for i := 0 to |students|
      invariant forall k :: 0 <= k < i ==>
        students[k].Record() == RolledOver(old(students[k].Record()), db.catalog.fees, newTerm.id)
      invariant forall k :: i <= k < |students| ==> students[k].Record() == old(students[k].Record())
    {
      RollOverStudent(students[i], db.catalog.fees, newTerm.id);
    }
    return RolledOverInto(newTerm);
  }

  /** The body of the rollover loop, for one student. */
  method RollOverStudent(student: Student, fees: seq<Fee>, newTermId: int)
    modifies student
    ensures student.Record() == RolledOver(old(student.Record()), fees, newTermId)
  {
    student.arrears := student.arrears + student.balance - student.prepayment;
    student.prepayment := 0;
    var fee := FeeOfGradeInTerm(fees, student.gradeId, newTermId);
    if fee.Some? {
      student.balance := student.arrears + fees[fee.value].amount;
    }
    student.busArrears := student.busArrears + student.busBalance;
  }

  /** `n` rollovers into the same term, one after the other. */
  function RolledOverTimes(r: StudentRecord, fees: seq<Fee>, newTermId: int, n: nat): StudentRecord
    decreases n
  {
    if n == 0 then r else RolledOverTimes(RolledOver(r, fees, newTermId), fees, newTermId, n - 1)
  }

  /** Example: balance 1000, prepayment 200, next fee 500 gives arrears 800, balance 1300. */
  lemma RolloverExample(r: StudentRecord, fees: seq<Fee>, newTermId: int)
    requires r.balance == 1000 && r.prepayment == 200 && r.arrears == 0
    requires fees == [Fee(newTermId, r.gradeId, 500)]
    ensures RolledOver(r, fees, newTermId).arrears == 800
    ensures RolledOver(r, fees, newTermId).prepayment == 0
    ensures RolledOver(r, fees, newTermId).balance == 1300
  {
    assert FeeOfGradeInTerm(fees, r.gradeId, newTermId) == Some(0);
  }

  /**
   * The carried amount is signed: a prepayment larger than the balance
   * lowers the arrears. Without a fee row for the new term the balance
   * is left as it was, and no boarding surcharge is ever added.
   */
  lemma RolloverCarriesNetBalance(r: StudentRecord, fees: seq<Fee>, newTermId: int)
    ensures RolledOver(r, fees, newTermId).arrears - r.arrears == r.balance - r.prepayment
    ensures r.prepayment > r.balance ==> RolledOver(r, fees, newTermId).arrears < r.arrears
    ensures FeeOfGradeInTerm(fees, r.gradeId, newTermId).None? ==> RolledOver(r, fees, newTermId).balance == r.balance
    ensures FeeOfGradeInTerm(fees, r.gradeId, newTermId).Some? ==>
      RolledOver(r, fees, newTermId).balance
      == RolledOver(r, fees, newTermId).arrears + fees[FeeOfGradeInTerm(fees, r.gradeId, newTermId).value].amount
  {
  }

  /** Rollover is not idempotent: a second run adds the post-rollover balance to arrears again. */
  lemma RolloverNotIdempotent(r: StudentRecord, fees: seq<Fee>, newTermId: int)
    ensures var once := RolledOver(r, fees, newTermId);
      RolledOver(once, fees, newTermId).arrears == once.arrears + once.balance
    ensures var once := RolledOver(r, fees, newTermId);
      once.balance != 0 ==> RolledOver(once, fees, newTermId) != once
  {
  }

  /**
   * Arrears that the opening balance already folded in are carried a second
   * time: after initialisation with arrears A and a rollover, the arrears
   * are 2 * A plus the fee and surcharge, less the prepayment.
   */
  lemma RolloverRecountsOpeningArrears(r: StudentRecord, fees: seq<Fee>, boardingFees: seq<BoardingFee>, newTermId: int)
    requires OpeningBalance(r, fees, boardingFees).Success?
    ensures var start := r.(balance := OpeningBalance(r, fees, boardingFees).value);
      RolledOver(start, fees, newTermId).arrears
      == 2 * r.arrears + fees[FeeOfGrade(fees, r.gradeId).value].amount + Surcharge(r, boardingFees) - r.prepayment
  {
  }

  /** Bus debt only accumulates: after n rollovers the bus arrears grew by n times the bus balance. */
  lemma {:induction false} BusArrearsAccumulate(r: StudentRecord, fees: seq<Fee>, newTermId: int, n: nat)
    ensures RolledOverTimes(r, fees, newTermId, n).busBalance == r.busBalance
    ensures RolledOverTimes(r, fees, newTermId, n).busArrears == r.busArrears + n * r.busBalance
    decreases n
  {
    if n > 0 {
      BusArrearsAccumulate(RolledOver(r, fees, newTermId), fees, newTermId, n - 1);
    }
  }

  /** Rollover never touches the classification fields, the identity or the bus destinations. */
  lemma RolloverKeepsIdentity(r: StudentRecord, fees: seq<Fee>, newTermId: int, n: nat)
    ensures var after := RolledOverTimes(r, fees, newTermId, n);
      && after.id == r.id && after.grade == r.grade && after.gradeId == r.gradeId
      && after.isBoarding == r.isBoarding && after.useBus == r.useBus
      && after.busDestinations == r.busDestinations
    decreases n
  {
    if n > 0 {
      RolloverKeepsIdentity(RolledOver(r, fees, newTermId), fees, newTermId, n - 1);
    }
  }

  // ---- Grade promotion ----

  /** `GRADE_PROMOTION`: the pre-primary ladder; numeric grades use the fallback. */
  const GradePromotion: map<string, string> := map["baby class" := "pp1", "pp1" := "pp2", "pp2" := "1"]

  predicate IsPromotionDay(d: Date) { d.month == 12 && d.day == 31 }

  /**
   * The next grade: the mapped value of the lower-cased name, else the
   * successor of its integer value, else the name itself, unchanged.
   */
  function Promote(grade: string): string
  {
    var key := Lower(grade);
    if key in GradePromotion then GradePromotion[key]
    else match ParseInt(key)
      case Some(n) => IntToString(n + 1)
      case None => grade
  }

  /** A grade the promotion rule can move. */
  predicate Promotable(grade: string)
  {
    Lower(grade) in GradePromotion || ParseInt(Lower(grade)).Some?
  }

  /**
   * `promote_students`: on 31 December every student's grade advances one
   * step; on any other day nothing changes.
   */
  method PromoteStudents(db: Db, today: Date)
    requires db.Valid()
    modifies db.students
    ensures forall k :: 0 <= k < |db.students| ==>
      db.students[k].Record() == if IsPromotionDay(today)
                                 then old(db.students[k].Record()).(grade := Promote(old(db.students[k].grade)))
                                 else old(db.students[k].Record())
  {
    if !(today.month == 12 && today.day == 31) {
      return;
    }
    var students := db.students;
    for i := 0 to |students|
      invariant forall k :: 0 <= k < i ==>
        students[k].Record() == old(students[k].Record()).(grade := Promote(old(students[k].grade)))
      invariant forall k :: i <= k < |students| ==> students[k].Record() == old(students[k].Record())
    {
      PromoteStudent(students[i]);
    }
  }

  /** The body of the promotion loop, for one student. */
  method PromoteStudent(student: Student)
    modifies student
    ensures student.Record() == old(student.Record()).(grade := Promote(old(student.grade)))
  {
    var current := Lower(student.grade);
    if current in GradePromotion {
      student.grade := GradePromotion[current];
    } else {
      var numeric := ParseInt(current);
      if numeric.Some? {
        student.grade := IntToString(numeric.value + 1);
      }
    }
  }

  /** The keys of the promotion table are not numerals. */
  lemma NumeralNotInTable(n: int)
    ensures IntToString(n) !in GradePromotion
  {
    IntToStringAlphabet(n);
    var s := IntToString(n);
    assert s[0] != 'b' && s[0] != 'p';
    assert "baby class"[0] == 'b' && "pp1"[0] == 'p' && "pp2"[0] == 'p';
  }

  /** Numeric grades advance by one: "3" becomes "4". */
  lemma PromoteNumeral(n: int)
    ensures Promote(IntToString(n)) == IntToString(n + 1)
  {
    LowerOfIntToString(n);
    NumeralNotInTable(n);
    ParseIntOfIntToString(n);
  }

  /** The pre-primary ladder, looked up case-insensitively. */
  lemma PromoteLadder()
    ensures Promote("baby class") == "pp1"
    ensures Promote("pp1") == "pp2"
    ensures Promote("pp2") == "1"
    ensures Promote("PP1") == "pp2"
    ensures Promote("3") == "4"
  {
    assert Lower("baby class") == "baby class";
    assert Lower("pp1") == "pp1";
    assert Lower("pp2") == "pp2";
    assert Lower("PP1") == "pp1";
    PromoteNumeral(3);
    assert IntToString(3) == "3" && IntToString(4) == "4";
  }

  /** Unmapped names that are not integers stay exactly as they were: "baby" is not promoted. */
  lemma PromoteLeavesUnknown()
    ensures Promote("baby") == "baby"
    ensures Promote("xyz") == "xyz"
  {
    assert Lower("baby") == "baby";
    ParseIntRejectsLeadingLetter("baby");
    assert Lower("xyz") == "xyz";
    ParseIntRejectsLeadingLetter("xyz");
  }

  /** Promotion changes a grade exactly when the grade is promotable. */
  lemma PromoteChangesExactlyPromotable(grade: string)
    ensures Promote(grade) != grade <==> Promotable(grade)
  {
    var key := Lower(grade);
    if key == "pp1" {
      // only an upper-case letter is folded, so the last character of grade is '1', not '2'
      assert LowerChar(grade[2]) == key[2] == '1';
      assert grade[2] == '1';
    } else if key !in GradePromotion && ParseInt(key).Some? {
      var n := ParseInt(key).value;
      if IntToString(n + 1) == grade {
        LowerOfIntToString(n + 1);
        ParseIntOfIntToString(n + 1);
      }
    }
  }

  /** A promoted grade can be promoted again: students on the ladder stay on it. */
  lemma PromotePreservesPromotable(grade: string)
    requires Promotable(grade)
    ensures Promotable(Promote(grade))
  {
    var key := Lower(grade);
    if key in GradePromotion {
      assert Lower("pp1") == "pp1";
      assert Lower("pp2") == "pp2";
      assert Lower("1") == "1";
      assert ParseInt("1") == Some(1);
    } else {
      var n := ParseInt(key).value;
      LowerOfIntToString(n + 1);
      ParseIntOfIntToString(n + 1);
    }
  }
}
