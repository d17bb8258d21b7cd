/**
 * The ledger-changing request handlers of app/routes.py. A request body is
 * a map from field names to JSON scalars; a handler answers with a status
 * code and a message.
 */
module Routes {
  import opened Wrappers
  import opened Numerals
  import opened Models

  /** A JSON scalar of a request body. */
  datatype Value = VNull | VBool(b: bool) | VInt(i: int) | VStr(s: string)

  type Request = map<string, Value>

  /** The status code and the message of a JSON reply. */
  datatype Reply = Reply(status: int, message: string)

  /** Python truthiness of a JSON scalar. */
  predicate Truthy(v: Value)
  {
    match v
    case VNull => false
    case VBool(b) => b
    case VInt(i) => i != 0
    case VStr(s) => s != ""
  }

  /** `field in data and data[field]`. */
  predicate Supplied(data: Request, field: string)
  {
    field in data && Truthy(data[field])
  }

  /** `data.get(key)`. */
  function Get(data: Request, key: string): Value
  {
    if key in data then data[key] else VNull
  }

  /** Python `str()` of a scalar, as a text column receives it. */
  function Text(v: Value): string
  {
    match v
    case VNull => "None"
    case VBool(b) => if b then "True" else "False"
    case VInt(i) => IntToString(i)
    case VStr(s) => s
  }

  /** A scalar as Python arithmetic sees it: booleans are 0 and 1, text is not a number. */
  function Number(v: Value): Option<int>
  {
    match v
    case VInt(i) => Some(i)
    case VBool(b) => Some(if b then 1 else 0)
    case _ => None
  }

  /** An optional text column: null or absent is None. */
  function OptionalText(data: Request, key: string): Option<string>
  {
    if Get(data, key) == VNull then None else Some(Text(Get(data, key)))
  }

  /** A value of the wrong JSON type for its column. */
  const MalformedRequest := Reply(400, "Malformed request")

  /** What Flask answers when a handler raises. */
  const ServerError := Reply(500, "Internal Server Error")

  // ---- add_student ----

  const RequiredFields: seq<string> :=
    ["name", "admission_number", "grade_id", "phone", "term_fee", "use_bus", "is_boarding"]

  /** The validation loop of add_student: the first field that is absent or falsy. */
  method FirstMissingField(data: Request, fields: seq<string>) returns (missing: Option<string>)
    ensures missing.None? <==> forall k :: 0 <= k < |fields| ==> Supplied(data, fields[k])
    ensures missing.Some? ==>
      exists k :: 0 <= k < |fields| && fields[k] == missing.value && !Supplied(data, fields[k]) &&
        forall j :: 0 <= j < k ==> Supplied(data, fields[j])
  {
    for i := 0 to |fields|
      invariant forall j :: 0 <= j < i ==> Supplied(data, fields[j])
    {
      if !Supplied(data, fields[i]) {
        return Some(fields[i]);
      }
    }
    return None;
  }

  /** `Grade.query.get(grade_id)`. */
  function GradeIndex(grades: seq<Grade>, id: Value): Option<nat>
  {
    match id
    case VInt(g) => First(grades, (gr: Grade) => gr.id == g)
    case _ => None
  }

  /** An integer column with a default: absent means the default. */
  function IntOr(data: Request, key: string, default: int): Option<int>
  {
    if key !in data then Some(default)
    else match data[key]
      case VInt(i) => Some(i)
      case _ => None
  }

  /** The row a registration request describes, before its balance is initialised. */
  function NewStudentRecord(data: Request, id: int, gradeName: string): Option<StudentRecord>
  {
    if "name" in data && data["name"].VStr?
       && "admission_number" in data && data["admission_number"].VStr?
       && "grade_id" in data && data["grade_id"].VInt?
       && "phone" in data && data["phone"].VStr?
       && "term_fee" in data && data["term_fee"].VInt?
       && "use_bus" in data && data["use_bus"].VBool?
       && "is_boarding" in data && data["is_boarding"].VBool?
       && IntOr(data, "arrears", 0).Some? && IntOr(data, "bus_balance", 0).Some?
    then Some(StudentRecord(id, data["name"].s, data["admission_number"].s, data["grade_id"].i, gradeName,
                            data["phone"].s, data["term_fee"].i, 0, IntOr(data, "arrears", 0).value, 0,
                            IntOr(data, "bus_balance", 0).value, 0, data["use_bus"].b, data["is_boarding"].b, []))
    else None
  }

  /**
   * Falsy values are refused, so every request that passes validation
   * describes a student who rides the bus, boards and has a non-zero term fee.
   */
  lemma RegisteredStudentRidesAndBoards(data: Request, id: int, gradeName: string)
    requires forall k :: 0 <= k < |RequiredFields| ==> Supplied(data, RequiredFields[k])
    requires NewStudentRecord(data, id, gradeName).Some?
    ensures NewStudentRecord(data, id, gradeName).value.useBus
    ensures NewStudentRecord(data, id, gradeName).value.isBoarding
    ensures NewStudentRecord(data, id, gradeName).value.termFee != 0
  {
    assert RequiredFields[4] == "term_fee" && RequiredFields[5] == "use_bus" && RequiredFields[6] == "is_boarding";
    assert Supplied(data, RequiredFields[4]) && Supplied(data, RequiredFields[5]) && Supplied(data, RequiredFields[6]);
  }

  /** Some registered student already has this admission number. */
  predicate AdmissionTaken(students: seq<Student>, admissionNumber: string)
    reads students
  {
    exists k :: 0 <= k < |students| && students[k].admissionNumber == admissionNumber
  }

  /**
   * `add_student`: the request is refused at the first absent or falsy
   * required field, for an unknown grade, when the opening balance cannot
   * be computed, or for a taken admission number; otherwise one student is
   * appended whose balance is its opening balance.
   */
  method AddStudent(db: Db, data: Request) returns (reply: Reply)
    requires db.Valid()
    modifies db
    ensures db.Valid()
    ensures db.payments == old(db.payments) && db.busPayments == old(db.busPayments)
    ensures reply.status == 201 || reply.status == 400
    ensures reply.status == 400 ==> db.students == old(db.students)
    ensures !(forall k :: 0 <= k < |RequiredFields| ==> Supplied(data, RequiredFields[k])) ==>
      exists k :: 0 <= k < |RequiredFields| && !Supplied(data, RequiredFields[k]) &&
        (forall j :: 0 <= j < k ==> Supplied(data, RequiredFields[j])) &&
        reply == Reply(400, RequiredFields[k] + " is required")
    ensures (forall k :: 0 <= k < |RequiredFields| ==> Supplied(data, RequiredFields[k])) &&
            GradeIndex(db.catalog.grades, Get(data, "grade_id")).None? ==>
      reply == Reply(400, "Invalid grade ID")
    ensures reply.status == 201 ==> forall k :: 0 <= k < |RequiredFields| ==> Supplied(data, RequiredFields[k])
    ensures (forall k :: 0 <= k < |RequiredFields| ==> Supplied(data, RequiredFields[k])) &&
            GradeIndex(db.catalog.grades, Get(data, "grade_id")).Some? ==>
      var grade := db.catalog.grades[GradeIndex(db.catalog.grades, Get(data, "grade_id")).value];
      var form := NewStudentRecord(data, old(db.nextStudentId), grade.name);
      if form.None? then reply == MalformedRequest
      else match OpeningBalance(form.value, db.catalog.fees, db.catalog.boardingFees)
        case Failure(e) => reply == Reply(400, Message(e))
        case Success(b) =>
          if old(AdmissionTaken(db.students, form.value.admissionNumber))
          then reply == Reply(400, "Admission number must be unique")
          else
            && reply == Reply(201, "Student added successfully")
            && |db.students| == |old(db.students)| + 1
            && db.students[..|old(db.students)|] == old(db.students)
            && fresh(db.students[|old(db.students)|])
            && db.students[|old(db.students)|].Record() == form.value.(balance := b)
  {
    var missing := FirstMissingField(data, RequiredFields);
    if missing.Some? {
      return Reply(400, missing.value + " is required");
    }
    var gradeIx := GradeIndex(db.catalog.grades, Get(data, "grade_id"));
    if gradeIx.None? {
      return Reply(400, "Invalid grade ID");
    }
    var form := NewStudentRecord(data, db.nextStudentId, db.catalog.grades[gradeIx.value].name);
    if form.None? {
      return MalformedRequest;
    }
    reply := Enroll(db, form.value);
  }

  /**
   * The second half of add_student: the row is created and its balance
   * initialised; it is appended unless that fails or the admission number
   * is taken.
   */
  method Enroll(db: Db, f: StudentRecord) returns (reply: Reply)
    requires db.Valid()
    requires f.id == db.nextStudentId
    requires f.balance == 0 && f.prepayment == 0 && f.busArrears == 0 && f.busDestinations == []
    modifies db
    ensures db.Valid()
    ensures db.payments == old(db.payments) && db.busPayments == old(db.busPayments)
    ensures reply.status == 400 ==> db.students == old(db.students)
    ensures match OpeningBalance(f, db.catalog.fees, db.catalog.boardingFees)
      case Failure(e) => reply == Reply(400, Message(e))
      case Success(b) =>
        if old(AdmissionTaken(db.students, f.admissionNumber))
        then reply == Reply(400, "Admission number must be unique")
        else
          && reply == Reply(201, "Student added successfully")
          && |db.students| == |old(db.students)| + 1
          && db.students[..|old(db.students)|] == old(db.students)
          && fresh(db.students[|old(db.students)|])
          && db.students[|old(db.students)|].Record() == f.(balance := b)
  {
    var student, init := NewStudent(f, db.catalog);
    if init.Fail? {
      return Reply(400, Message(init.error));
    }
    if AdmissionTaken(db.students, f.admissionNumber) {
      return Reply(400, "Admission number must be unique");
    }
    db.students := db.students + [student];
    db.nextStudentId := db.nextStudentId + 1;
    return Reply(201, "Student added successfully");
  }

  /** `Student(...)` followed by `initialize_balance()`, for a row built from a request. */
  method NewStudent(f: StudentRecord, catalog: Catalog) returns (student: Student, r: Outcome<Error>)
    requires f.balance == 0 && f.prepayment == 0 && f.busArrears == 0 && f.busDestinations == []
    ensures fresh(student)
    ensures match OpeningBalance(f, catalog.fees, catalog.boardingFees)
      case Success(b) => r == Pass && student.Record() == f.(balance := b)
      case Failure(e) => r == Fail(e)
  {
    student := new Student(f.id, f.name, f.admissionNumber, f.gradeId, f.grade, f.phone, f.termFee,
                           f.useBus, f.isBoarding, f.arrears, f.busBalance);
    r := student.InitializeBalance(catalog.fees, catalog.boardingFees);
  }

  // ---- update_student ----

  /** Whether the request makes update_student recompute the balance. */
  predicate Reinitializes(data: Request)
  {
    "is_boarding" in data || "arrears" in data
  }

  /**
   * The row after update_student's field assignments, before any balance
   * recomputation; None when a supplied value has the wrong type.
   */
  function Edited(r: StudentRecord, data: Request): Option<StudentRecord>
  {
    if ("name" in data ==> data["name"].VStr?) && ("phone" in data ==> data["phone"].VStr?)
       && ("use_bus" in data ==> data["use_bus"].VBool?) && ("is_boarding" in data ==> data["is_boarding"].VBool?)
       && ("arrears" in data ==> data["arrears"].VInt?)
    then Some(r.(name := if "name" in data then data["name"].s else r.name,
                 phone := if "phone" in data then data["phone"].s else r.phone,
                 useBus := if "use_bus" in data then data["use_bus"].b else r.useBus,
                 isBoarding := if "is_boarding" in data then data["is_boarding"].b else r.isBoarding,
                 arrears := if "arrears" in data then data["arrears"].i else r.arrears))
    else None
  }

  /**
   * `update_student`: an unknown id is not found; the supplied fields are
   * overwritten and, exactly when boarding status or arrears were sent, the
   * balance is recomputed from the edited row. A failed recomputation
   * raises, and the uncommitted session is discarded.
   */
  method UpdateStudent(db: Db, studentId: int, data: Request) returns (reply: Reply)
    modifies db.students
    ensures old(FindStudent(db.students, studentId)).None? ==>
      && reply == Reply(404, "Student not found")
      && forall k :: 0 <= k < |db.students| ==> db.students[k].Record() == old(db.students[k].Record())
    ensures old(FindStudent(db.students, studentId)).Some? ==>
      var s := db.students[old(FindStudent(db.students, studentId)).value];
      && (forall k :: 0 <= k < |db.students| && db.students[k] != s ==>
            db.students[k].Record() == old(db.students[k].Record()))
      && match Edited(old(s.Record()), data)
         case None => reply == MalformedRequest && s.Record() == old(s.Record())
         case Some(e) =>
           if !Reinitializes(data) then reply == Reply(200, "Student updated successfully") && s.Record() == e
           else match OpeningBalance(e, db.catalog.fees, db.catalog.boardingFees)
             case Success(b) => reply == Reply(200, "Student updated successfully") && s.Record() == e.(balance := b)
             case Failure(_) => reply == ServerError && s.Record() == old(s.Record())
  {
    var found := FindStudent(db.students, studentId);
    if found.None? {
      return Reply(404, "Student not found");
    }
    var student := db.students[found.value];
    if Edited(student.Record(), data).None? {
      return MalformedRequest;
    }
    var saved := student.Record();
    ApplyEdits(student, data);
    if Reinitializes(data) {
      var init := student.InitializeBalance(db.catalog.fees, db.catalog.boardingFees);
      if init.Fail? {
        // the exception escapes the handler and the session is rolled back
        RollBackEdits(student, saved);
        return ServerError;
      }
    }
    return Reply(200, "Student updated successfully");
  }

  /**
   * update_student writes only the editable fields the request names: the
   * ledger fields, the grade and the identity are never touched.
   */
  lemma EditedTouchesOnlySupplied(r: StudentRecord, data: Request)
    requires Edited(r, data).Some?
    ensures var e := Edited(r, data).value;
      && e == r.(name := e.name, phone := e.phone, useBus := e.useBus, isBoarding := e.isBoarding, arrears := e.arrears)
      && ("name" !in data ==> e.name == r.name)
      && ("phone" !in data ==> e.phone == r.phone)
      && ("use_bus" !in data ==> e.useBus == r.useBus)
      && ("is_boarding" !in data ==> e.isBoarding == r.isBoarding)
      && ("arrears" !in data ==> e.arrears == r.arrears)
  {
  }

  /** update_student's field assignments, in the handler's order. */
  method ApplyEdits(student: Student, data: Request)
    requires Edited(student.Record(), data).Some?
    modifies student
    ensures student.Record() == Edited(old(student.Record()), data).value
  {
    if "name" in data {
      student.name := data["name"].s;
    }
    if "phone" in data {
      student.phone := data["phone"].s;
    }
    if "use_bus" in data {
      student.useBus := data["use_bus"].b;
    }
    if "is_boarding" in data {
      student.isBoarding := data["is_boarding"].b;
    }
    if "is_boarding" in data || "arrears" in data {
      student.arrears := if "arrears" in data then data["arrears"].i else student.arrears;
    }
  }

  /** Discarding the uncommitted edits and balance of a row. */
  method RollBackEdits(student: Student, saved: StudentRecord)
    requires student.Record() == saved.(name := student.name, phone := student.phone, useBus := student.useBus,
                                        isBoarding := student.isBoarding, arrears := student.arrears,
                                        balance := student.balance)
    modifies student
    ensures student.Record() == saved
  {
    student.name, student.phone, student.useBus := saved.name, saved.phone, saved.useBus;
    student.isBoarding, student.arrears, student.balance := saved.isBoarding, saved.arrears, saved.balance;
  }

  // ---- update_balance ----

  /**
   * `update_balance`: an unknown student is not found; a missing,
   * non-positive or non-numeric payment amount is refused before any
   * change; otherwise one payment of that amount is appended and the
   * balance drops by it, clamped at zero, with arrears untouched.
   */
  method UpdateBalance(db: Db, studentId: int, data: Request) returns (reply: Reply)
    modifies db, db.students
    ensures db.students == old(db.students) && db.busPayments == old(db.busPayments)
    ensures db.nextStudentId == old(db.nextStudentId)
    ensures reply.status != 200 ==>
      && db.payments == old(db.payments)
      && forall k :: 0 <= k < |db.students| ==> db.students[k].Record() == old(db.students[k].Record())
    ensures old(FindStudent(db.students, studentId)).None? ==> reply == Reply(404, "Student not found")
    ensures old(FindStudent(db.students, studentId)).Some? ==>
      var amount := Get(data, "payment_amount");
      var s := db.students[old(FindStudent(db.students, studentId)).value];
      && (!Truthy(amount) || (Number(amount).Some? && Number(amount).value <= 0) ==>
            reply == Reply(400, "Valid payment amount is required"))
      && (Truthy(amount) && Number(amount).None? ==> reply == ServerError)
      && (Number(amount).Some? && Number(amount).value > 0 ==>
            && reply == Reply(200, "Student balance updated successfully")
            && db.payments == old(db.payments) + [Payment(studentId, Number(amount).value, None, None, None, None, None)]
            && s.Record() == old(s.Record()).(balance := ClampedSubtract(old(s.balance), Number(amount).value))
            && forall k :: 0 <= k < |db.students| && db.students[k] != s ==>
                 db.students[k].Record() == old(db.students[k].Record()))
  {
    var found := FindStudent(db.students, studentId);
    if found.None? {
      return Reply(404, "Student not found");
    }
    var student := db.students[found.value];
    var amount := Get(data, "payment_amount");
    if !Truthy(amount) {
      return Reply(400, "Valid payment amount is required");
    }
    var paid := Number(amount);
    if paid.None? {
      // comparing text with 0 raises TypeError
      return ServerError;
    }
    if paid.value <= 0 {
      return Reply(400, "Valid payment amount is required");
    }
    db.payments := db.payments + [Payment(studentId, paid.value, None, None, None, None, None)];
    student.balance := student.balance - paid.value;
    if student.balance < 0 {
      student.balance := 0;
    }
    return Reply(200, "Student balance updated successfully");
  }

  // ---- add_payment ----

  /**
   * `add_payment`: refused unless student_id, amount, method and term_id
   * are all truthy; otherwise delegated to record_payment, whose "Student
   * not found" becomes a 404. A non-numeric amount raises TypeError inside
   * record_payment, which the handler reports as a 500.
   */
  method AddPayment(db: Db, data: Request) returns (reply: Reply)
    modifies db, db.students
    ensures db.students == old(db.students) && db.busPayments == old(db.busPayments)
    ensures db.nextStudentId == old(db.nextStudentId)
    ensures reply.status != 201 ==>
      && db.payments == old(db.payments)
      && forall k :: 0 <= k < |db.students| ==> db.students[k].Record() == old(db.students[k].Record())
    ensures !(Truthy(Get(data, "student_id")) && Truthy(Get(data, "amount")) &&
              Truthy(Get(data, "method")) && Truthy(Get(data, "term_id"))) ==>
      reply == Reply(400, "Missing required fields")
    ensures reply.status == 201 ==>
      && Get(data, "student_id").VInt?
      && Number(Get(data, "amount")).Some?
      && var studentId := Get(data, "student_id").i;
         var amount := Number(Get(data, "amount")).value;
      && old(FindStudent(db.students, studentId)).Some?
      && var s := db.students[old(FindStudent(db.students, studentId)).value];
      && s.Record() == AfterPayment(old(s.Record()), amount)
      && db.payments == old(db.payments) +
           [Payment(studentId, amount, Some(Text(Get(data, "method"))), Some(Text(Get(data, "term_id"))),
                    Some(s.balance), OptionalText(data, "description"), OptionalText(data, "notes"))]
      && forall k :: 0 <= k < |db.students| && db.students[k] != s ==>
           db.students[k].Record() == old(db.students[k].Record())
    ensures reply.status == 404 <==>
      && Truthy(Get(data, "student_id")) && Truthy(Get(data, "amount"))
      && Truthy(Get(data, "method")) && Truthy(Get(data, "term_id"))
      && !(Get(data, "student_id").VInt? && old(FindStudent(db.students, Get(data, "student_id").i)).Some?)
    ensures reply.status == 404 ==> reply == Reply(404, Message(StudentNotFound))
    ensures Truthy(Get(data, "student_id")) && Truthy(Get(data, "amount")) &&
            Truthy(Get(data, "method")) && Truthy(Get(data, "term_id")) &&
            Get(data, "student_id").VInt? && old(FindStudent(db.students, Get(data, "student_id").i)).Some? ==>
      if Number(Get(data, "amount")).Some?
      then reply == Reply(201, "Payment added successfully")
      else reply == Reply(500, "An error occurred while adding payment")
  {
    var studentId, amount := Get(data, "student_id"), Get(data, "amount");
    var payMethod, termId := Get(data, "method"), Get(data, "term_id");
    if !(Truthy(studentId) && Truthy(amount) && Truthy(payMethod) && Truthy(termId)) {
      return Reply(400, "Missing required fields");
    }
    var paid := Number(amount);
    if paid.None? {
      // record_payment looks the student up before its arithmetic raises TypeError
      if !studentId.VInt? || FindStudent(db.students, studentId.i).None? {
        return Reply(404, Message(StudentNotFound));
      }
      return Reply(500, "An error occurred while adding payment");
    }
    if !studentId.VInt? {
      return Reply(404, Message(StudentNotFound));
    }
    var r := db.RecordPayment(studentId.i, paid.value, Text(payMethod), Text(termId),
                              OptionalText(data, "description"), OptionalText(data, "notes"));
    if r.Failure? {
      return Reply(404, Message(r.error));
    }
    return Reply(201, "Payment added successfully");
  }

  // ---- assign_student_to_bus ----

  /** The destination list after an assignment: appended only when not already there. */
  function Assigned(destinations: seq<int>, d: int): seq<int>
  {
    if d in destinations then destinations else destinations + [d]
  }

  predicate NoDuplicates(s: seq<int>)
  {
    forall i, j :: 0 <= i < j < |s| ==> s[i] != s[j]
  }

  /** `BusDestination.query.get(destination_id)`. */
  function DestinationIndex(destinations: seq<BusDestination>, id: Value): Option<nat>
  {
    match id
    case VInt(d) => First(destinations, (b: BusDestination) => b.id == d)
    case _ => None
  }

  /**
   * `assign_student_to_bus`: both ids must be present (a missing key
   * raises) and resolve; a destination already on the student's list
   * leaves it as it is, otherwise it is appended.
   */
  method AssignStudentToBus(db: Db, data: Request) returns (reply: Reply)
    modifies db.students
    ensures "student_id" !in data || "destination_id" !in data ==>
      && reply == ServerError
      && forall k :: 0 <= k < |db.students| ==> db.students[k].Record() == old(db.students[k].Record())
    ensures "student_id" in data && "destination_id" in data ==>
      var sid := data["student_id"];
      var found := if sid.VInt? then old(FindStudent(db.students, sid.i)) else None;
      if found.None? || DestinationIndex(db.catalog.destinations, data["destination_id"]).None? then
        && reply == Reply(404, "Student or Bus Destination not found")
        && forall k :: 0 <= k < |db.students| ==> db.students[k].Record() == old(db.students[k].Record())
      else
        var s := db.students[found.value];
        var d := db.catalog.destinations[DestinationIndex(db.catalog.destinations, data["destination_id"]).value].id;
        && s.Record() == old(s.Record()).(busDestinations := Assigned(old(s.busDestinations), d))
        && reply.status == 200
        && (d in old(s.busDestinations) <==>
              reply.message == "Student is already assigned to this bus destination")
        && (d !in old(s.busDestinations) ==>
              reply == Reply(200, "Student assigned to bus destination successfully"))
        && forall k :: 0 <= k < |db.students| && db.students[k] != s ==>
             db.students[k].Record() == old(db.students[k].Record())
  {
    if "student_id" !in data || "destination_id" !in data {
      return ServerError;
    }
    var sid := data["student_id"];
    var found := if sid.VInt? then FindStudent(db.students, sid.i) else None;
    var destIx := DestinationIndex(db.catalog.destinations, data["destination_id"]);
    if found.None? || destIx.None? {
      return Reply(404, "Student or Bus Destination not found");
    }
    var student := db.students[found.value];
    var d := db.catalog.destinations[destIx.value].id;
    if d in student.busDestinations {
      return Reply(200, "Student is already assigned to this bus destination");
    }
    student.busDestinations := student.busDestinations + [d];
    return Reply(200, "Student assigned to bus destination successfully");
  }

  /** Assigning twice is assigning once. */
  lemma AssignIdempotent(destinations: seq<int>, d: int)
    ensures Assigned(Assigned(destinations, d), d) == Assigned(destinations, d)
  {
  }

  /** The list never gains a duplicate, and holds exactly the old entries and the new one. */
  lemma AssignKeepsListDuplicateFree(destinations: seq<int>, d: int)
    requires NoDuplicates(destinations)
    ensures NoDuplicates(Assigned(destinations, d))
    ensures forall x :: x in Assigned(destinations, d) <==> x in destinations || x == d
  {
  }
}
