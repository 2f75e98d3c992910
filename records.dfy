/**
 * The two tables the application keeps: employee records and attendance
 * events, with the column order of their tables.
 */
module Records {
  import opened Wrappers
  import opened Decimal

  /**
   * One row of the employee table. `age` comes from a number input bounded
   * to 18..65; role and shift come from fixed select lists; `photo` is the
   * path of the stored photo, or no path when none was stored.
   */
  datatype Employee = Employee(
    uniqueId: string,
    name: string,
    cnic: string,
    age: nat,
    role: string,
    city: string,
    shift: string,
    photo: Option<string>)

  /** One reading of the wall clock: formatted date, formatted time, and the instant itself. */
  datatype Clock = Clock(date: string, time: string, instant: int)

  /** One row of the attendance table; `name` is copied from the roster at write time. */
  datatype AttendanceEvent = AttendanceEvent(
    uniqueId: string,
    name: string,
    date: string,
    time: string,
    timestamp: int)

  const EmployeeColumns: seq<string> :=
    ["Unique ID", "Name", "CNIC", "Age", "Role", "City", "Shift", "Photo"]

  /** How Python's `str` renders the photo cell: the path itself, or `None` when no path was stored. */
  function PhotoText(photo: Option<string>): (text: string)
    ensures photo.Some? ==> text == photo.value
    ensures photo.None? ==> text == "None"
  {
    match photo
    case None => "None"
    case Some(path) => path
  }

  /**
   * The record as the dictionary the card generator builds, in insertion
   * order, each value rendered the way an f-string renders it.
   */
  function Items(e: Employee): (items: seq<(string, string)>)
    ensures |items| == |EmployeeColumns|
    ensures forall i :: 0 <= i < |items| ==> items[i].0 == EmployeeColumns[i]
  {
    [("Unique ID", e.uniqueId), ("Name", e.name), ("CNIC", e.cnic),
     ("Age", Digits(e.age)), ("Role", e.role), ("City", e.city),
     ("Shift", e.shift), ("Photo", PhotoText(e.photo))]
  }

  /**
   * The attendance row written for an employee: identifier and name as
   * given, and date, time and timestamp all taken from the one clock
   * reading `now`.
   */
  function NewEvent(uniqueId: string, name: string, now: Clock): (ev: AttendanceEvent)
    ensures ev.uniqueId == uniqueId && ev.name == name
    ensures ev.date == now.date && ev.time == now.time && ev.timestamp == now.instant
  {
    AttendanceEvent(uniqueId, name, now.date, now.time, now.instant)
  }
}
