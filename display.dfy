/** The projections both dashboards apply to the documents they read: the
    attendance badge, the fall-back to sample rows when a collection is
    empty, and the cap on how many attendance rows are shown. */
module Display {
  import opened Common

  datatype AttendanceStatus = Present | Absent | Tardy | Excused

  /** The look of a status badge. */
  datatype BadgeVariant = Default | Destructive | Secondary

  /** An attendance document with its identifier. The date is an opaque
      string; how it is rendered depends on the browser's locale. */
  datatype AttendanceRecord = AttendanceRecord(id: string, date: string, status: AttendanceStatus)

  /** One row of an attendance table: the record and the badge shown for it. */
  datatype AttendanceRow = AttendanceRow(record: AttendanceRecord, badge: BadgeVariant)

  /** At most this many attendance records are shown. */
  const MaxAttendanceRows: nat := 5

  /** The badge ternary: present is the default look, absent is
      destructive, and tardy and excused share the secondary look. */
  function BadgeFor(status: AttendanceStatus): (v: BadgeVariant)
    ensures v == Default <==> status == Present
    ensures v == Destructive <==> status == Absent
    ensures v == Secondary <==> status == Tardy || status == Excused
  {
    if status == Present then Default
    else if status == Absent then Destructive
    else assert status.Tardy? || status.Excused?; Secondary
  }

  /** `records.map(...)`: one row per record, in order, each with its badge. */
  function AttendanceRows(records: seq<AttendanceRecord>): (rows: seq<AttendanceRow>)
    ensures |rows| == |records|
    ensures forall i :: 0 <= i < |rows| ==> rows[i] == AttendanceRow(records[i], BadgeFor(records[i].status))
  {
    if records == [] then []
    else [AttendanceRow(records[0], BadgeFor(records[0].status))] + AttendanceRows(records[1..])
  }

  /** `data && data.length > 0`: the collection has loaded and is not empty. */
  predicate HasRows<T>(data: Option<seq<T>>)
  {
    data.Some? && |data.value| > 0
  }

  /** `data && data.length > 0 ? data : mock`. */
  function WithFallback<T>(data: Option<seq<T>>, mock: seq<T>): (r: seq<T>)
    ensures HasRows(data) ==> r == data.value
    ensures !HasRows(data) ==> r == mock
  {
    if HasRows(data) then data.value else mock
  }

  /** `s.slice(0, n)`: the first `n` elements, or all of them when fewer. */
  function Take<T>(s: seq<T>, n: nat): (r: seq<T>)
    ensures |r| == if |s| < n then |s| else n
    ensures r <= s
  {
    if |s| <= n then s else s[..n]
  }

  /** `attendance && attendance.length > 0 ? attendance.slice(0, 5) : mock`:
      the first records in their stored order, never more than five, or
      the sample rows when there are none. */
  function RecentAttendance(attendance: Option<seq<AttendanceRecord>>, mock: seq<AttendanceRecord>)
    : (r: seq<AttendanceRecord>)
    ensures HasRows(attendance) ==> r <= attendance.value
    ensures HasRows(attendance) ==>
      |r| == if |attendance.value| < MaxAttendanceRows then |attendance.value| else MaxAttendanceRows
    ensures !HasRows(attendance) ==> r == mock
  {
    if HasRows(attendance) then Take(attendance.value, MaxAttendanceRows) else mock
  }
}
