/**
 * `DatabaseManager` of t.py: the three tables of hospital.db (doctors, tests,
 * appointments) held as sequences of rows in table order, the seeding done by
 * `init_database`, the two listing queries and `book_appointment`.
 * The auto-increment `id` columns and `created_at` are not modelled.
 */
module HospitalDb {
  import opened Common
  import opened Ordering

  const Available := "available"
  const Unavailable := "unavailable"
  const Confirmed := "confirmed"

  /** A row of the `doctors` table; `specialization` and `status` are nullable. */
  datatype Doctor = Doctor(doctorName: string, specialization: Option<string>, timeSlot: string, status: Option<string>)

  /** A row of the `tests` table. */
  datatype Test = Test(testName: string, price: real, durationMinutes: int)

  /**
   * A row of the `appointments` table; the nullable columns are `Option`s.
   * `appointment_time` is NOT NULL in the schema, so only the corrected
   * booking (`BookTimeOptional`) ever stores `None` there.
   */
  datatype Appointment = Appointment(
    patientName: string,
    patientPhone: Option<string>,
    appointmentType: string,
    doctorName: Option<string>,
    testName: Option<string>,
    appointmentTime: Option<string>,
    status: string)

  /** What `get_available_doctors` returns for one row. */
  datatype DoctorSlot = DoctorSlot(doctorName: string, specialization: Option<string>, timeSlot: string)

  /** What `get_available_tests` returns for one row. */
  datatype TestOffer = TestOffer(testName: string, price: real)

  datatype Tables = Tables(doctors: seq<Doctor>, tests: seq<Test>, appointments: seq<Appointment>)

  /** The arguments of `book_appointment`; Python's `None` is `None`. */
  datatype Booking = Booking(
    patientName: Option<string>,
    patientPhone: Option<string>,
    appointmentType: Option<string>,
    doctorName: Option<string>,
    testName: Option<string>,
    appointmentTime: Option<string>)

  const SampleDoctors: seq<Doctor> := [
    Doctor("Dr. Smith", Some("Cardiology"), "09:00", Some(Available)),
    Doctor("Dr. Smith", Some("Cardiology"), "10:00", Some(Available)),
    Doctor("Dr. Smith", Some("Cardiology"), "11:00", Some(Unavailable)),
    Doctor("Dr. Johnson", Some("Neurology"), "09:30", Some(Available)),
    Doctor("Dr. Johnson", Some("Neurology"), "10:30", Some(Available)),
    Doctor("Dr. Patel", Some("General Medicine"), "14:00", Some(Available)),
    Doctor("Dr. Patel", Some("General Medicine"), "15:00", Some(Available))
  ]

  const SampleTests: seq<Test> := [
    Test("Blood Test", 50.0, 30),
    Test("X-Ray", 100.0, 20),
    Test("MRI Scan", 500.0, 60),
    Test("CT Scan", 300.0, 45),
    Test("ECG", 75.0, 15),
    Test("Ultrasound", 150.0, 30)
  ]

  /** The tables after `init_database`: an empty doctors or tests table receives the sample rows. */
  function Seeded(t: Tables): Tables
  {
    Tables(
      if |t.doctors| == 0 then SampleDoctors else t.doctors,
      if |t.tests| == 0 then SampleTests else t.tests,
      t.appointments)
  }

  function Slot(d: Doctor): DoctorSlot
  {
    DoctorSlot(d.doctorName, d.specialization, d.timeSlot)
  }

  /** `WHERE status = 'available'`, projected to the selected columns, in table order. */
  function AvailableSlots(rows: seq<Doctor>): seq<DoctorSlot>
  {
    if rows == [] then []
    else
      var last := rows[|rows| - 1];
      AvailableSlots(rows[..|rows| - 1]) + (if last.status == Some(Available) then [Slot(last)] else [])
  }

  function DoctorKey(d: DoctorSlot): seq<string>
  {
    [d.doctorName, d.timeSlot]
  }

  /** The result of `get_available_doctors`: ordered by (doctor_name, time_slot), and exactly the available rows. */
  function AvailableDoctors(rows: seq<Doctor>): (r: seq<DoctorSlot>)
    ensures SortedBy(r, DoctorKey)
    ensures multiset(r) == multiset(AvailableSlots(rows))
  {
    SortBy(AvailableSlots(rows), DoctorKey)
  }

  function Offer(t: Test): TestOffer
  {
    TestOffer(t.testName, t.price)
  }

  function TestKey(o: TestOffer): seq<string>
  {
    [o.testName]
  }

  /** `SELECT test_name, price FROM tests`, in table order. */
  function Offers(rows: seq<Test>): (r: seq<TestOffer>)
  {
    if rows == [] then [] else Offers(rows[..|rows| - 1]) + [Offer(rows[|rows| - 1])]
  }

  /** The result of `get_available_tests`: every test, ordered by test_name. */
  function AvailableTests(rows: seq<Test>): (r: seq<TestOffer>)
    ensures SortedBy(r, TestKey)
    ensures multiset(r) == multiset(Offers(rows))
  {
    SortBy(Offers(rows), TestKey)
  }

  /** One more row in the doctors table: the query result gains its entry, if available, in sorted position. */
  lemma AvailableDoctorsSnoc(rows: seq<Doctor>, d: Doctor)
    ensures AvailableDoctors(rows + [d]) ==
              if d.status == Some(Available) then Insert(AvailableDoctors(rows), Slot(d), DoctorKey)
              else AvailableDoctors(rows)
  {
    assert (rows + [d])[..|rows|] == rows;
    var s := AvailableSlots(rows + [d]);
    if d.status == Some(Available) {
      assert s == AvailableSlots(rows) + [Slot(d)];
      assert s[..|s| - 1] == AvailableSlots(rows);
    } else {
      assert s == AvailableSlots(rows);
    }
  }

  /** One more row in the tests table: the query result gains its entry in sorted position. */
  lemma AvailableTestsSnoc(rows: seq<Test>, t: Test)
    ensures AvailableTests(rows + [t]) == Insert(AvailableTests(rows), Offer(t), TestKey)
  {
    assert (rows + [t])[..|rows|] == rows;
    var s := Offers(rows + [t]);
    assert s == Offers(rows) + [Offer(t)];
    assert s[..|s| - 1] == Offers(rows);
  }

  /** An entry appears in the doctor listing exactly when some row with status 'available' projects to it. */
  lemma {:induction false} ListedIffAvailable(rows: seq<Doctor>, d: DoctorSlot)
    ensures d in AvailableDoctors(rows) <==>
              exists i :: 0 <= i < |rows| && rows[i].status == Some(Available) && Slot(rows[i]) == d
  {
    assert d in AvailableDoctors(rows) <==> d in multiset(AvailableSlots(rows));
    AvailableSlotsMembers(rows, d);
  }

  lemma {:induction false} AvailableSlotsMembers(rows: seq<Doctor>, d: DoctorSlot)
    ensures d in AvailableSlots(rows) <==>
              exists i :: 0 <= i < |rows| && rows[i].status == Some(Available) && Slot(rows[i]) == d
  {
    if rows != [] {
      var n := |rows| - 1;
      AvailableSlotsMembers(rows[..n], d);
      if exists i :: 0 <= i < n && rows[..n][i].status == Some(Available) && Slot(rows[..n][i]) == d {
        var i :| 0 <= i < n && rows[..n][i].status == Some(Available) && Slot(rows[..n][i]) == d;
        assert rows[i] == rows[..n][i];
      }
      if exists i :: 0 <= i < |rows| && rows[i].status == Some(Available) && Slot(rows[i]) == d {
        var i :| 0 <= i < |rows| && rows[i].status == Some(Available) && Slot(rows[i]) == d;
        if i < n {
          assert rows[..n][i] == rows[i];
        }
      }
    }
  }

  /** The UPDATE of `book_appointment` applied to one row. */
  function MarkRow(d: Doctor, name: string, slot: string): Doctor
  {
    if d.doctorName == name && d.timeSlot == slot then d.(status := Some(Unavailable)) else d
  }

  /** `UPDATE doctors SET status = 'unavailable' WHERE doctor_name = ? AND time_slot = ?` */
  function MarkUnavailable(rows: seq<Doctor>, name: string, slot: string): (r: seq<Doctor>)
    ensures |r| == |rows|
  {
    seq(|rows|, i requires 0 <= i < |rows| => MarkRow(rows[i], name, slot))
  }

  /** A listing without the entries for doctor `name` at `slot`. */
  function WithoutSlot(s: seq<DoctorSlot>, name: string, slot: string): (r: seq<DoctorSlot>)
    ensures forall d :: d in r <==> d in s && !(d.doctorName == name && d.timeSlot == slot)
  {
    if s == [] then []
    else
      var last := s[|s| - 1];
      assert s == s[..|s| - 1] + [last];
      WithoutSlot(s[..|s| - 1], name, slot)
        + (if last.doctorName == name && last.timeSlot == slot then [] else [last])
  }

  /** Marking (name, slot) unavailable removes exactly its entries from the available rows, in order. */
  lemma {:induction false} MarkUnavailableListing(rows: seq<Doctor>, name: string, slot: string)
    ensures AvailableSlots(MarkUnavailable(rows, name, slot)) == WithoutSlot(AvailableSlots(rows), name, slot)
  {
    if rows != [] {
      var n := |rows| - 1;
      var marked := MarkUnavailable(rows, name, slot);
      assert marked[..n] == MarkUnavailable(rows[..n], name, slot);
      MarkUnavailableListing(rows[..n], name, slot);
      var tail := if rows[n].status == Some(Available) then [Slot(rows[n])] else [];
      assert AvailableSlots(rows) == AvailableSlots(rows[..n]) + tail;
      WithoutSlotAppend(AvailableSlots(rows[..n]), tail, name, slot);
    }
  }

  lemma {:induction false} WithoutSlotAppend(s: seq<DoctorSlot>, t: seq<DoctorSlot>, name: string, slot: string)
    requires |t| <= 1
    ensures WithoutSlot(s + t, name, slot) == WithoutSlot(s, name, slot) + WithoutSlot(t, name, slot)
  {
    if t != [] {
      assert (s + t)[..|s + t| - 1] == s;
      assert t[..0] == [];
    } else {
      assert s + t == s;
    }
  }

  /** The NOT NULL columns of `appointments` that `book_appointment` may fill with `None`. */
  predicate NotNullSatisfied(b: Booking)
  {
    b.patientName.Some? && b.appointmentType.Some? && b.appointmentTime.Some?
  }

  /** `appointment_type == "doctor" and doctor_name and appointment_time` */
  predicate MarksSlot(b: Booking)
  {
    b.appointmentType == Some("doctor") && Truthy(b.doctorName) && Truthy(b.appointmentTime)
  }

  function AppointmentRow(b: Booking): Appointment
    requires b.patientName.Some? && b.appointmentType.Some?
  {
    Appointment(b.patientName.value, b.patientPhone, b.appointmentType.value,
                b.doctorName, b.testName, b.appointmentTime, Confirmed)
  }

  /**
   * `book_appointment` on tables `t`: the new tables and the returned flag.
   * A `None` in a NOT NULL column makes the INSERT raise; the exception is
   * caught, nothing is committed and False is returned.
   */
  function Book(t: Tables, b: Booking): (Tables, bool)
  {
    if !NotNullSatisfied(b) then (t, false)
    else
      var doctors := if MarksSlot(b) then MarkUnavailable(t.doctors, b.doctorName.value, b.appointmentTime.value)
                     else t.doctors;
      (Tables(doctors, t.tests, t.appointments + [AppointmentRow(b)]), true)
  }

  /**
   * A booking succeeds exactly when the NOT NULL columns are filled, and then
   * inserts exactly one appointment row; the tests table never changes; a
   * failed booking changes nothing.
   */
  lemma BookInsertsOneRow(t: Tables, b: Booking)
    ensures Book(t, b).1 <==> NotNullSatisfied(b)
    ensures Book(t, b).1 ==> Book(t, b).0.appointments == t.appointments + [AppointmentRow(b)]
    ensures !Book(t, b).1 ==> Book(t, b).0 == t
    ensures Book(t, b).0.tests == t.tests
  {
  }

  /**
   * The NOT NULL columns of a corrected schema in which `appointment_time` is
   * nullable, as a test appointment, which has no slot, needs it to be.
   */
  predicate NotNullSatisfiedTimeOptional(b: Booking)
  {
    b.patientName.Some? && b.appointmentType.Some?
  }

  /** `book_appointment` against that corrected schema; everything else as in `Book`. */
  function BookTimeOptional(t: Tables, b: Booking): (Tables, bool)
  {
    if !NotNullSatisfiedTimeOptional(b) then (t, false)
    else
      var doctors := if MarksSlot(b) then MarkUnavailable(t.doctors, b.doctorName.value, b.appointmentTime.value)
                     else t.doctors;
      (Tables(doctors, t.tests, t.appointments + [AppointmentRow(b)]), true)
  }

  /**
   * The corrected booking agrees with `book_appointment` on every booking that
   * fills all three NOT NULL columns, and additionally accepts one without an
   * appointment time: it inserts that row and, not being a doctor booking
   * with a slot, leaves the doctors and tests tables as they were.
   */
  lemma BookTimeOptionalExtendsBook(t: Tables, b: Booking)
    ensures NotNullSatisfied(b) ==> BookTimeOptional(t, b) == Book(t, b)
    ensures BookTimeOptional(t, b).1 <==> b.patientName.Some? && b.appointmentType.Some?
    ensures b.patientName.Some? && b.appointmentType.Some? && b.appointmentTime.None? ==>
              BookTimeOptional(t, b).0 == t.(appointments := t.appointments + [AppointmentRow(b)])
    ensures !BookTimeOptional(t, b).1 ==> BookTimeOptional(t, b).0 == t
  {
  }

  /**
   * A doctor booking marks every row with that doctor and slot unavailable and
   * changes no other row; any other booking leaves the doctors table as it was.
   */
  lemma BookMarksOnlyThatSlot(t: Tables, b: Booking)
    ensures var d := Book(t, b).0.doctors;
      |d| == |t.doctors| &&
      forall i :: 0 <= i < |d| ==>
        d[i] == if Book(t, b).1 && MarksSlot(b) && t.doctors[i].doctorName == b.doctorName.value
                   && t.doctors[i].timeSlot == b.appointmentTime.value
                then t.doctors[i].(status := Some(Unavailable)) else t.doctors[i]
    ensures b.appointmentType != Some("doctor") ==> Book(t, b).0.doctors == t.doctors
  {
  }

  /**
   * After a successful doctor booking of (name, slot), that pair is no longer
   * listed as available, and every other available entry still is.
   */
  lemma {:induction false} BookedSlotLeavesListing(t: Tables, b: Booking, d: DoctorSlot)
    requires Book(t, b).1 && MarksSlot(b)
    ensures d in AvailableDoctors(Book(t, b).0.doctors) <==>
              d in AvailableDoctors(t.doctors)
              && !(d.doctorName == b.doctorName.value && d.timeSlot == b.appointmentTime.value)
  {
    var name, slot := b.doctorName.value, b.appointmentTime.value;
    MarkUnavailableListing(t.doctors, name, slot);
    assert d in AvailableDoctors(Book(t, b).0.doctors) <==>
           d in multiset(AvailableSlots(MarkUnavailable(t.doctors, name, slot)));
    assert d in AvailableDoctors(t.doctors) <==> d in multiset(AvailableSlots(t.doctors));
  }

  /** hospital.db, with its tables as fields that the methods update in place. */
  class DatabaseManager {
    var doctors: seq<Doctor>
    var tests: seq<Test>
    var appointments: seq<Appointment>

    function Contents(): Tables
      reads this
    {
      Tables(doctors, tests, appointments)
    }

    /** `__init__` on a database file whose tables hold `existing`: runs `init_database`. */
    constructor (existing: Tables)
      ensures Contents() == Seeded(existing)
    {
      doctors, tests, appointments := existing.doctors, existing.tests, existing.appointments;
      new;
      InitDatabase();
    }

    /** `init_database`: seeds the doctors and the tests table when empty. */
    method InitDatabase()
      modifies this
      ensures Contents() == Seeded(old(Contents()))
    {
      if |doctors| == 0 {
        doctors := SampleDoctors;
      }
      if |tests| == 0 {
        tests := SampleTests;
      }
    }

    /** `get_available_doctors` */
    method GetAvailableDoctors() returns (r: seq<DoctorSlot>)
      ensures r == AvailableDoctors(doctors)
    {
      r := [];
      var i := 0;
      while i < |doctors|
        invariant 0 <= i <= |doctors|
        invariant r == AvailableDoctors(doctors[..i])
      {
        assert doctors[..i + 1] == doctors[..i] + [doctors[i]];
        AvailableDoctorsSnoc(doctors[..i], doctors[i]);
        if doctors[i].status == Some(Available) {
          r := Insert(r, Slot(doctors[i]), DoctorKey);
        }
        i := i + 1;
      }
      assert doctors[..i] == doctors;
    }

    /** `get_available_tests` */
    method GetAvailableTests() returns (r: seq<TestOffer>)
      ensures r == AvailableTests(tests)
    {
      r := [];
      var i := 0;
      while i < |tests|
        invariant 0 <= i <= |tests|
        invariant r == AvailableTests(tests[..i])
      {
        ghost var done := tests[..i];
        assert tests[..i + 1] == done + [tests[i]];
        AvailableTestsSnoc(done, tests[i]);
        r := Insert(r, Offer(tests[i]), TestKey);
        i := i + 1;
      }
      assert tests[..i] == tests;
    }

    /**
     * `book_appointment`: inserts the appointment row and, for a doctor
     * appointment, marks the booked slot unavailable; False when the INSERT
     * violates a NOT NULL constraint.
     */
    method BookAppointment(patientName: Option<string>, patientPhone: Option<string>,
                           appointmentType: Option<string>, doctorName: Option<string>,
                           testName: Option<string>, appointmentTime: Option<string>)
      returns (ok: bool)
      modifies this
      ensures (Contents(), ok) == Book(old(Contents()), Booking(patientName, patientPhone, appointmentType,
                                                                doctorName, testName, appointmentTime))
    {
      var b := Booking(patientName, patientPhone, appointmentType, doctorName, testName, appointmentTime);
      if !NotNullSatisfied(b) {
        return false;
      }
      appointments := appointments + [AppointmentRow(b)];
      if MarksSlot(b) {
        var i := 0;
        while i < |doctors|
          invariant 0 <= i <= |doctors| == |old(doctors)|
          invariant forall k :: 0 <= k < i ==> doctors[k] == MarkRow(old(doctors)[k], doctorName.value, appointmentTime.value)
          invariant forall k :: i <= k < |doctors| ==> doctors[k] == old(doctors)[k]
          invariant tests == old(tests) && appointments == old(appointments) + [AppointmentRow(b)]
        {
          if doctors[i].doctorName == doctorName.value && doctors[i].timeSlot == appointmentTime.value {
            doctors := doctors[i := doctors[i].(status := Some(Unavailable))];
          }
          i := i + 1;
        }
        assert doctors == MarkUnavailable(old(doctors), doctorName.value, appointmentTime.value);
      }
      return true;
    }
  }
}
