/**
 * The session's two tables, the employee roster and the attendance log,
 * and the operations that change them: adding an employee from the card
 * form (with identifier allocation) and marking attendance by identifier,
 * typed in or taken from a scan. Saving the tables to disk after each
 * change is not modelled.
 */
module Roster {
  import opened Wrappers
  import opened Records
  import opened UniqueId
  import opened Card

  /**
   * The column test `eq(id).any()`, scanning the identifier column from the
   * top: it holds exactly when some row of the roster has identifier `id`.
   */
  predicate IdTaken(employees: seq<Employee>, id: string): (taken: bool)
    ensures taken <==> exists i :: 0 <= i < |employees| && employees[i].uniqueId == id
  {
    if |employees| == 0 then false
    else if employees[0].uniqueId == id then true
    else
      var taken := IdTaken(employees[1..], id);
      assert forall i :: 1 <= i < |employees| ==> employees[i] == employees[1..][i - 1];
      taken
  }

  /** Row `k` is the first row of the roster whose identifier is `id`. */
  predicate FirstMatch(employees: seq<Employee>, id: string, k: int) {
    0 <= k < |employees| && employees[k].uniqueId == id &&
    forall j :: 0 <= j < k ==> employees[j].uniqueId != id
  }

  /**
   * The rows whose identifier equals `id` exactly, in roster order (the
   * boolean-mask selection). The first of them is the first match.
   */
  function WithId(employees: seq<Employee>, id: string): (matches: seq<Employee>)
    ensures forall j :: 0 <= j < |matches| ==> matches[j].uniqueId == id
    ensures |matches| == 0 <==> !IdTaken(employees, id)
    ensures |matches| > 0 ==> exists k :: FirstMatch(employees, id, k) && employees[k] == matches[0]
  {
    if |employees| == 0 then []
    else
      var rest := WithId(employees[1..], id);
      assert forall i :: 1 <= i < |employees| ==> employees[1..][i - 1] == employees[i];
      if employees[0].uniqueId == id then
        assert FirstMatch(employees, id, 0);
        [employees[0]] + rest
      else
        assert IdTaken(employees[1..], id) ==> IdTaken(employees, id);
        assert |rest| > 0 ==> exists k :: FirstMatch(employees, id, k) && employees[k] == rest[0] by {
          if |rest| > 0 {
            var k :| FirstMatch(employees[1..], id, k) && employees[1..][k] == rest[0];
            ShiftFirstMatch(employees, id, k);
          }
        }
        rest
  }

  lemma ShiftFirstMatch(employees: seq<Employee>, id: string, k: int)
    requires |employees| > 0 && employees[0].uniqueId != id
    requires FirstMatch(employees[1..], id, k)
    ensures FirstMatch(employees, id, k + 1)
  {
    forall j | 0 <= j < k + 1 ensures employees[j].uniqueId != id {
      if j > 0 {
        assert employees[j] == employees[1..][j - 1];
      }
    }
  }

  /** Roster row `i` holds identifier `AT-` with number `i + 1`: the roster the card form builds. */
  predicate SequentialIds(employees: seq<Employee>) {
    forall i :: 0 <= i < |employees| ==> employees[i].uniqueId == FormatId(i + 1)
  }

  /** Every attendance row names an employee of the roster, under the name of the first row with that identifier. */
  predicate AttendanceKnown(employees: seq<Employee>, attendance: seq<AttendanceEvent>) {
    forall k :: 0 <= k < |attendance| ==>
      |WithId(employees, attendance[k].uniqueId)| > 0 &&
      attendance[k].name == WithId(employees, attendance[k].uniqueId)[0].name
  }

  /** Identifiers of a sequentially built roster are pairwise distinct. */
  lemma SequentialIdsDistinct(employees: seq<Employee>)
    requires SequentialIds(employees)
    ensures forall i, j :: 0 <= i < j < |employees| ==> employees[i].uniqueId != employees[j].uniqueId
  {
    forall i, j | 0 <= i < j < |employees| ensures employees[i].uniqueId != employees[j].uniqueId {
      FormatIdInjective(i + 1, j + 1);
    }
  }

  /** On a sequentially built roster no row holds a number past its length. */
  lemma SequentialNumberFree(employees: seq<Employee>, n: nat)
    requires SequentialIds(employees)
    requires n > |employees|
    ensures !IdTaken(employees, FormatId(n))
  {
    forall i | 0 <= i < |employees| ensures employees[i].uniqueId != FormatId(n) {
      FormatIdInjective(i + 1, n);
    }
  }

  /** On a sequentially built roster the allocator's one candidate is always free. */
  lemma SequentialCandidateFree(employees: seq<Employee>)
    requires SequentialIds(employees)
    ensures !IdTaken(employees, CandidateId(|employees|))
  {
    SequentialNumberFree(employees, |employees| + 1);
  }

  /**
   * A one-row roster whose row already holds `AT-002` (as a roster read
   * back from disk may): the allocator's candidate `AT-002` is taken, so it
   * never returns.
   */
  lemma LoadedRosterStallsAllocator(e: Employee)
    requires e.uniqueId == "AT-002"
    ensures IdTaken([e], CandidateId(1))
  {
    assert Decimal.Digits(2) == "2";
    assert Decimal.PadDecimal(2, 3) == "002";
    assert CandidateId(1) == "AT-002";
    assert [e][0].uniqueId == CandidateId(1);
  }

  /** Adding a row keeps every earlier identifier's first match where it was. */
  lemma WithIdAppend(employees: seq<Employee>, e: Employee, id: string)
    requires |WithId(employees, id)| > 0
    ensures |WithId(employees + [e], id)| > 0
    ensures WithId(employees + [e], id)[0] == WithId(employees, id)[0]
  {
    var k :| FirstMatch(employees, id, k) && employees[k] == WithId(employees, id)[0];
    var grown := employees + [e];
    assert grown[k] == employees[k];
    assert IdTaken(grown, id);
    assert FirstMatch(grown, id, k) by {
      forall j | 0 <= j < k ensures grown[j].uniqueId != id {
        assert grown[j] == employees[j];
      }
    }
    var k' :| FirstMatch(grown, id, k') && grown[k'] == WithId(grown, id)[0];
    FirstMatchUnique(grown, id, k, k');
  }

  /** Appending the allocator's candidate keeps the roster sequential. */
  lemma SequentialAppend(employees: seq<Employee>, e: Employee)
    requires e.uniqueId == CandidateId(|employees|)
    ensures SequentialIds(employees) ==> SequentialIds(employees + [e])
  {
    assert e.uniqueId == FormatId(|employees| + 1);
    if SequentialIds(employees) {
      var grown := employees + [e];
      forall i | 0 <= i < |grown| ensures grown[i].uniqueId == FormatId(i + 1) {
        if i < |employees| {
          assert grown[i] == employees[i];
        }
      }
    }
  }

  /** A new roster row never changes which employee an existing attendance row resolves to. */
  lemma AttendanceKnownAppend(employees: seq<Employee>, attendance: seq<AttendanceEvent>, e: Employee)
    ensures AttendanceKnown(employees, attendance) ==> AttendanceKnown(employees + [e], attendance)
  {
    if AttendanceKnown(employees, attendance) {
      forall k | 0 <= k < |attendance|
        ensures |WithId(employees + [e], attendance[k].uniqueId)| > 0
        ensures attendance[k].name == WithId(employees + [e], attendance[k].uniqueId)[0].name
      {
        WithIdAppend(employees, e, attendance[k].uniqueId);
      }
    }
  }

  lemma FirstMatchUnique(employees: seq<Employee>, id: string, k: int, k': int)
    requires FirstMatch(employees, id, k) && FirstMatch(employees, id, k')
    ensures k == k'
  {
  }

  const PhotoPrefix: string := "employee_photo_"
  const PhotoSuffix: string := ".png"

  /** The path an uploaded photo is stored under, `employee_photo_{id}.png`: the identifier between a fixed prefix and suffix. */
  function PhotoPath(id: string): (path: string)
    ensures |path| == |PhotoPrefix| + |id| + |PhotoSuffix|
    ensures path[|PhotoPrefix|..|PhotoPrefix| + |id|] == id
  {
    PhotoPrefix + id + PhotoSuffix
  }

  /** Distinct identifiers store their photos under distinct paths, so no employee's photo overwrites another's. */
  lemma PhotoPathInjective(a: string, b: string)
    ensures PhotoPath(a) == PhotoPath(b) <==> a == b
  {
    if PhotoPath(a) == PhotoPath(b) {
      assert |a| == |b|;
      assert a == PhotoPath(a)[|PhotoPrefix|..|PhotoPrefix| + |a|];
    }
  }

  /** Outcome of submitting the card form. */
  datatype Submission =
    | Added(record: Employee)  // the row appended to the roster
    | MissingDetails           // name or CNIC empty: nothing happens
    | AllocatorStuck           // the identifier loop would never return

  /** Outcome of marking attendance by identifier. */
  datatype Marking = Marked(name: string) | EmployeeNotFound

  class Store {
    var employees: seq<Employee>
    var attendance: seq<AttendanceEvent>

    /** A fresh session: both tables empty. */
    constructor ()
      ensures employees == [] && attendance == []
    {
      employees, attendance := [], [];
    }

    /** A session whose tables were read back from disk. */
    constructor Loaded(employees: seq<Employee>, attendance: seq<AttendanceEvent>)
      ensures this.employees == employees && this.attendance == attendance
    {
      this.employees, this.attendance := employees, attendance;
    }

    /**
     * `generate_unique_id`, run for at most `rounds` passes of its retry
     * loop. Each pass recomputes the same candidate from the roster's
     * length, so however many passes are allowed, an identifier comes back
     * exactly when that one candidate is free.
     */
    method GenerateUniqueId(rounds: nat) returns (id: Option<string>)
      requires rounds >= 1
      ensures id.Some? <==> !IdTaken(employees, CandidateId(|employees|))
      ensures id.Some? ==> id.value == CandidateId(|employees|)
    {
      var passes := 0;
      while passes < rounds
        invariant passes <= rounds
        invariant passes > 0 ==> IdTaken(employees, CandidateId(|employees|))
      {
        var candidate := FormatId(|employees| + 1);
        if !IdTaken(employees, candidate) {
          return Some(candidate);
        }
        passes := passes + 1;
      }
      return None;
    }

    /** `record_attendance`: appends one row for `id` and `name` at the clock reading `now`. */
    method RecordAttendance(id: string, name: string, now: Clock)
      modifies this
      ensures employees == old(employees)
      ensures attendance == old(attendance) + [NewEvent(id, name, now)]
    {
      var row := AttendanceEvent(id, name, now.date, now.time, now.instant);
      attendance := attendance + [row];
    }

    /**
     * Marking attendance by an identifier typed by the administrator: the
     * first roster row with exactly that identifier gives the name; with no
     * such row nothing is recorded.
     */
    method MarkAttendance(id: string, now: Clock) returns (result: Marking)
      modifies this
      ensures employees == old(employees)
      ensures !IdTaken(employees, id) ==> result == EmployeeNotFound && attendance == old(attendance)
      ensures IdTaken(employees, id) ==>
        result == Marked(WithId(employees, id)[0].name) &&
        attendance == old(attendance) + [NewEvent(id, WithId(employees, id)[0].name, now)]
      ensures old(AttendanceKnown(employees, attendance)) ==> AttendanceKnown(employees, attendance)
    {
      var matches := WithId(employees, id);
      if |matches| == 0 {
        result := EmployeeNotFound;
      } else {
        RecordAttendance(id, matches[0].name, now);
        result := Marked(matches[0].name);
      }
    }

    /**
     * Confirming attendance after a scan. The scan does not decode the
     * image: it takes the identifier of the roster's first row, then marks
     * attendance for it, which always finds that first row.
     */
    method ConfirmScannedAttendance(now: Clock) returns (result: Option<Marking>)
      modifies this
      ensures employees == old(employees)
      ensures employees == [] ==> result == None && attendance == old(attendance)
      ensures employees != [] ==>
        result == Some(Marked(employees[0].name)) &&
        attendance == old(attendance) + [NewEvent(employees[0].uniqueId, employees[0].name, now)]
      ensures old(AttendanceKnown(employees, attendance)) ==> AttendanceKnown(employees, attendance)
    {
      if |employees| == 0 {
        return None;
      }
      var id := employees[0].uniqueId;
      FirstRowMatchesItself(employees);
      var marking := MarkAttendance(id, now);
      result := Some(marking);
    }

    /**
     * The roster half of the card form's submit: with a non-empty name and
     * CNIC, allocate an identifier and append the new row at the end of the
     * roster. `photo` is what became of the uploaded photo: `NoPhoto` when
     * none was uploaded or storing it failed (no path is recorded), and
     * otherwise the outcome of loading it back from the path recorded.
     */
    method AppendSubmission(name: string, cnic: string, age: nat, role: string, city: string,
                            shift: string, photo: PhotoInput)
      returns (result: Submission)
      modifies this
      ensures attendance == old(attendance)
      ensures name == "" || cnic == "" ==> result == MissingDetails && employees == old(employees)
      ensures name != "" && cnic != "" && IdTaken(old(employees), CandidateId(|old(employees)|)) ==>
        result == AllocatorStuck && employees == old(employees)
      ensures name != "" && cnic != "" && !IdTaken(old(employees), CandidateId(|old(employees)|)) ==>
        var id := CandidateId(|old(employees)|);
        result == Added(Employee(id, name, cnic, age, role, city, shift,
                                 if photo.NoPhoto? then None else Some(PhotoPath(id)))) &&
        employees == old(employees) + [result.record]
      ensures old(SequentialIds(employees)) ==> SequentialIds(employees) && !result.AllocatorStuck?
      ensures old(AttendanceKnown(employees, attendance)) ==> AttendanceKnown(employees, attendance)
    {
      if SequentialIds(employees) {
        SequentialCandidateFree(employees);
      }
      if name == "" || cnic == "" {
        return MissingDetails;
      }
      // One pass decides: every further pass of the loop repeats it.
      var next := GenerateUniqueId(1);
      if next.None? {
        return AllocatorStuck;
      }
      var id := next.value;
      var photoPath := if photo.NoPhoto? then None else Some(PhotoPath(id));
      var record := Employee(id, name, cnic, age, role, city, shift, photoPath);
      ghost var before := employees;
      employees := employees + [record];
      result := Added(record);
      SequentialAppend(before, record);
      AttendanceKnownAppend(before, attendance, record);
    }

    /**
     * The card form's submit: the roster half above, then the new row's
     * card, drawn from the record just appended. No card is drawn when
     * nothing is appended.
     */
    method SubmitEmployeeForm(name: string, cnic: string, age: nat, role: string, city: string,
                              shift: string, logo: LogoInput, photo: PhotoInput)
      returns (result: Submission, card: Canvas?)
      modifies this
      ensures attendance == old(attendance)
      ensures name == "" || cnic == "" ==> result == MissingDetails && employees == old(employees)
      ensures name != "" && cnic != "" && IdTaken(old(employees), CandidateId(|old(employees)|)) ==>
        result == AllocatorStuck && employees == old(employees)
      ensures name != "" && cnic != "" && !IdTaken(old(employees), CandidateId(|old(employees)|)) ==>
        var id := CandidateId(|old(employees)|);
        result == Added(Employee(id, name, cnic, age, role, city, shift,
                                 if photo.NoPhoto? then None else Some(PhotoPath(id)))) &&
        employees == old(employees) + [result.record]
      ensures card != null <==> result.Added?
      ensures result.Added? ==>
        fresh(card) && card.width == CardWidth && card.height == CardHeight &&
        card.ops == CardOps(result.record, logo, photo)
      ensures old(SequentialIds(employees)) ==> SequentialIds(employees) && !result.AllocatorStuck?
      ensures old(AttendanceKnown(employees, attendance)) ==> AttendanceKnown(employees, attendance)
    {
      result := AppendSubmission(name, cnic, age, role, city, shift, photo);
      card := null;
      if result.Added? {
        card := CreateEmployeeCard(result.record, logo, photo);
      }
    }
  }

  /** Looking up the first row's own identifier finds the first row. */
  lemma FirstRowMatchesItself(employees: seq<Employee>)
    requires |employees| > 0
    ensures |WithId(employees, employees[0].uniqueId)| > 0
    ensures WithId(employees, employees[0].uniqueId)[0] == employees[0]
  {
  }
}
