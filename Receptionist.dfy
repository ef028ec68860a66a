/**
 * `HospitalReceptionistAgent` of t.py: the scripted dialogue that walks a
 * patient from a greeting to a booked appointment.
 *
 * The transition of one patient utterance is first given as pure functions
 * (`Step` and one function per stage); the agent class then holds the
 * conversation state as a field that its `handle_*` methods update, and each
 * method is proved to do what the matching function says. Replies are the
 * `Reply` constructors; their wording, speech synthesis and speech
 * recognition are not modelled.
 */
module Receptionist {
  import opened Common
  import opened Text
  import opened HospitalDb

  const StageGreeting := "greeting"
  const StageServiceSelection := "service_selection"
  const StagePatientInfo := "patient_info"
  const StageDoctorSelection := "doctor_selection"
  const StageTestSelection := "test_selection"
  const StageConfirmation := "confirmation"

  /** The `conversation_state` dictionary. */
  datatype State = State(
    stage: string,
    patientName: Option<string>,
    patientPhone: Option<string>,
    appointmentType: Option<string>,
    selectedDoctor: Option<string>,
    selectedTest: Option<string>,
    selectedTime: Option<string>)

  const InitialState := State(StageGreeting, None, None, None, None, None, None)

  /** One doctor of the listing shown to the patient, with its slots in listing order. */
  datatype DoctorGroup = DoctorGroup(doctorName: string, specialization: Option<string>, slots: seq<string>)

  /** Which reply the agent speaks, with the values it interpolates. */
  datatype Reply =
    | Opening
    | NotCaught
    | Farewell
    | Welcome
    | DoctorServiceChosen
    | TestServiceChosen
    | ServiceUnclear
    | AskPhone(name: string)
    | InvalidPhone
    | NoDoctors
    | DoctorList(groups: seq<DoctorGroup>)
    | NoTests
    | TestList(tests: seq<TestOffer>)
    | ConfirmDoctor(doctorName: string, timeSlot: string, forName: Option<string>, forPhone: Option<string>)
    | DoctorUnclear
    | ConfirmTest(offer: TestOffer, testFor: Option<string>, testPhone: Option<string>)
    | TestUnclear
    | BookedDoctor(bookedDoctor: Option<string>, bookedTime: Option<string>)
    | BookedTest(bookedTest: Option<string>)
    | BookingFailed
    | NoProblem
    | Repeat

  /** The state, the reply and the database after one utterance. */
  datatype Outcome = Outcome(state: State, reply: Reply, tables: Tables)

  /** `user_input.lower().strip()` */
  function Normalize(input: string): string
  {
    Strip(Lower(input))
  }

  predicate WantsDoctor(u: string)
  {
    Contains(u, "doctor") || Contains(u, "consultation") || Contains(u, "consult")
  }

  predicate WantsTest(u: string)
  {
    Contains(u, "test") || Contains(u, "lab") || Contains(u, "scan")
  }

  predicate Affirmative(u: string)
  {
    Contains(u, "yes") || Contains(u, "confirm") || Contains(u, "ok") || Contains(u, "sure")
  }

  /** The quit check of `run`, made on the utterance lower-cased but not stripped. */
  predicate IsQuit(heard: string)
  {
    Lower(heard) in ["quit", "exit", "goodbye", "bye"]
  }

  // ---------------------------------------------------------------------
  // Grouping the doctor listing by doctor (`show_available_doctors`)
  // ---------------------------------------------------------------------

  /** The position of `name` among the groups, or `|groups|` when it has none. */
  function IndexOfGroup(groups: seq<DoctorGroup>, name: string): (k: nat)
    ensures k <= |groups|
    ensures k < |groups| ==> groups[k].doctorName == name
    ensures forall j :: 0 <= j < k ==> groups[j].doctorName != name
  {
    if groups == [] then 0
    else if groups[0].doctorName == name then 0
    else 1 + IndexOfGroup(groups[1..], name)
  }

  /** One row added to the dictionary of groups: a new entry for a new doctor, then the slot appended. */
  function AddRow(groups: seq<DoctorGroup>, row: DoctorSlot): seq<DoctorGroup>
  {
    var k := IndexOfGroup(groups, row.doctorName);
    var g := if k == |groups| then groups + [DoctorGroup(row.doctorName, row.specialization, [])] else groups;
    g[k := g[k].(slots := g[k].slots + [row.timeSlot])]
  }

  function Grouped(rows: seq<DoctorSlot>): seq<DoctorGroup>
  {
    if rows == [] then [] else AddRow(Grouped(rows[..|rows| - 1]), rows[|rows| - 1])
  }

  /** Some row of the listing belongs to `name`. */
  predicate Lists(rows: seq<DoctorSlot>, name: string)
  {
    exists k :: 0 <= k < |rows| && rows[k].doctorName == name
  }

  /** The slots of doctor `name`, in listing order. */
  function SlotsOf(rows: seq<DoctorSlot>, name: string): seq<string>
  {
    if rows == [] then []
    else
      var last := rows[|rows| - 1];
      SlotsOf(rows[..|rows| - 1], name) + (if last.doctorName == name then [last.timeSlot] else [])
  }

  /** The specialization on the first row of doctor `name`. */
  function FirstSpecialization(rows: seq<DoctorSlot>, name: string): Option<string>
  {
    if rows == [] then None
    else if rows[0].doctorName == name then rows[0].specialization
    else FirstSpecialization(rows[1..], name)
  }

  /**
   * What the grouping means: one group per doctor of the listing and none
   * other, holding all of that doctor's slots in listing order and the
   * specialization of the doctor's first row.
   */
  ghost predicate GroupsOf(rows: seq<DoctorSlot>, g: seq<DoctorGroup>)
  {
    && (forall i, j :: 0 <= i < j < |g| ==> g[i].doctorName != g[j].doctorName)
    && (forall k :: 0 <= k < |rows| ==> IndexOfGroup(g, rows[k].doctorName) < |g|)
    && (forall i :: 0 <= i < |g| ==> Lists(rows, g[i].doctorName))
    && (forall i :: 0 <= i < |g| ==> g[i].slots == SlotsOf(rows, g[i].doctorName))
    && (forall i :: 0 <= i < |g| ==> g[i].specialization == FirstSpecialization(rows, g[i].doctorName))
  }

  lemma {:induction false} SlotsOfUnlisted(rows: seq<DoctorSlot>, name: string)
    requires !Lists(rows, name)
    ensures SlotsOf(rows, name) == []
  {
    if rows != [] {
      SlotsOfUnlisted(rows[..|rows| - 1], name);
    }
  }

  lemma {:induction false} FirstSpecializationSnoc(rows: seq<DoctorSlot>, x: DoctorSlot, name: string)
    ensures FirstSpecialization(rows + [x], name) ==
              if Lists(rows, name) then FirstSpecialization(rows, name)
              else if x.doctorName == name then x.specialization
              else None
  {
    if rows == [] {
      assert [x][1..] == [];
    } else {
      assert (rows + [x])[1..] == rows[1..] + [x];
      FirstSpecializationSnoc(rows[1..], x, name);
      if rows[0].doctorName != name {
        if Lists(rows[1..], name) {
          var k :| 0 <= k < |rows[1..]| && rows[1..][k].doctorName == name;
          assert rows[k + 1].doctorName == name;
        }
        if Lists(rows, name) {
          var k :| 0 <= k < |rows| && rows[k].doctorName == name;
          assert rows[1..][k - 1].doctorName == name;
        }
      } else {
        assert rows[0].doctorName == name;
      }
    }
  }

  lemma SlotsOfSnoc(p: seq<DoctorSlot>, x: DoctorSlot, name: string)
    ensures SlotsOf(p + [x], name) == SlotsOf(p, name) + (if x.doctorName == name then [x.timeSlot] else [])
  {
    assert (p + [x])[..|p|] == p;
  }

  lemma ListsSnoc(p: seq<DoctorSlot>, x: DoctorSlot, name: string)
    ensures Lists(p + [x], name) <==> Lists(p, name) || x.doctorName == name
  {
    if Lists(p, name) {
      var q :| 0 <= q < |p| && p[q].doctorName == name;
      assert (p + [x])[q] == p[q];
    }
    if x.doctorName == name {
      assert (p + [x])[|p|] == x;
    }
    if Lists(p + [x], name) && x.doctorName != name {
      var q :| 0 <= q < |p + [x]| && (p + [x])[q].doctorName == name;
      assert p[q] == (p + [x])[q];
    }
  }

  /** One row changes only its own doctor's group, which is appended when the doctor is new. */
  lemma AddRowShape(g: seq<DoctorGroup>, x: DoctorSlot)
    ensures var g2 := AddRow(g, x); var k := IndexOfGroup(g, x.doctorName);
      && |g2| == (if k == |g| then |g| + 1 else |g|)
      && k < |g2| && g2[k].doctorName == x.doctorName
      && g2[k].slots == (if k < |g| then g[k].slots else []) + [x.timeSlot]
      && g2[k].specialization == (if k < |g| then g[k].specialization else x.specialization)
      && (forall i :: 0 <= i < |g| && i != k ==> g2[i] == g[i])
  {
  }

  /** Adding a row to a correct grouping gives a correct grouping of the longer listing. */
  lemma AddRowKeepsGroups(p: seq<DoctorSlot>, g: seq<DoctorGroup>, x: DoctorSlot)
    requires GroupsOf(p, g)
    ensures GroupsOf(p + [x], AddRow(g, x))
  {
    var rows := p + [x];
    var g2 := AddRow(g, x);
    AddRowShape(g, x);
    forall i, j | 0 <= i < j < |g2|
      ensures g2[i].doctorName != g2[j].doctorName
    {
      AddRowNames(g, x, i);
      AddRowNames(g, x, j);
    }
    forall j | 0 <= j < |rows|
      ensures IndexOfGroup(g2, rows[j].doctorName) < |g2|
    {
      AddRowCovers(p, g, x, j);
    }
    forall i | 0 <= i < |g2|
      ensures Lists(rows, g2[i].doctorName)
      ensures g2[i].slots == SlotsOf(rows, g2[i].doctorName)
      ensures g2[i].specialization == FirstSpecialization(rows, g2[i].doctorName)
    {
      AddRowGroupAt(p, g, x, i);
    }
  }

  /** The names of the groups are kept, and a new one is the row's doctor, absent before. */
  lemma AddRowNames(g: seq<DoctorGroup>, x: DoctorSlot, i: nat)
    requires i < |AddRow(g, x)|
    ensures i < |g| ==> AddRow(g, x)[i].doctorName == g[i].doctorName
    ensures i == |g| ==> AddRow(g, x)[i].doctorName == x.doctorName
                         && forall j :: 0 <= j < |g| ==> g[j].doctorName != x.doctorName
  {
    AddRowShape(g, x);
  }

  /** Every row of the longer listing has a group after the row is added. */
  lemma AddRowCovers(p: seq<DoctorSlot>, g: seq<DoctorGroup>, x: DoctorSlot, j: nat)
    requires GroupsOf(p, g)
    requires j <= |p|
    ensures IndexOfGroup(AddRow(g, x), (p + [x])[j].doctorName) < |AddRow(g, x)|
  {
    var g2 := AddRow(g, x);
    AddRowShape(g, x);
    var k := IndexOfGroup(g, x.doctorName);
    if j < |p| {
      assert (p + [x])[j] == p[j];
      var m := IndexOfGroup(g, p[j].doctorName);
      AddRowNames(g, x, m);
      assert g2[m].doctorName == p[j].doctorName;
    } else {
      assert g2[k].doctorName == (p + [x])[j].doctorName;
    }
  }

  /** The group at position `i` after adding a row is right for the longer listing. */
  lemma AddRowGroupAt(p: seq<DoctorSlot>, g: seq<DoctorGroup>, x: DoctorSlot, i: nat)
    requires GroupsOf(p, g)
    requires i < |AddRow(g, x)|
    ensures var name := AddRow(g, x)[i].doctorName;
      && Lists(p + [x], name)
      && AddRow(g, x)[i].slots == SlotsOf(p + [x], name)
      && AddRow(g, x)[i].specialization == FirstSpecialization(p + [x], name)
  {
    var g2 := AddRow(g, x);
    AddRowShape(g, x);
    var name := g2[i].doctorName;
    ListsSnoc(p, x, name);
    SlotsOfSnoc(p, x, name);
    FirstSpecializationSnoc(p, x, name);
    if i == |g| {
      forall q | 0 <= q < |p|
        ensures p[q].doctorName != name
      {
        assert IndexOfGroup(g, p[q].doctorName) < |g|;
      }
      SlotsOfUnlisted(p, name);
    }
  }

  /** The grouping built row by row has the meaning `GroupsOf` states. */
  lemma {:induction false} GroupedCharacterized(rows: seq<DoctorSlot>)
    ensures GroupsOf(rows, Grouped(rows))
  {
    if rows != [] {
      var n := |rows| - 1;
      assert rows == rows[..n] + [rows[n]];
      GroupedCharacterized(rows[..n]);
      AddRowKeepsGroups(rows[..n], Grouped(rows[..n]), rows[n]);
    }
  }

  /** The grouping loop of `show_available_doctors`. */
  method GroupByDoctor(doctors: seq<DoctorSlot>) returns (groups: seq<DoctorGroup>)
    ensures groups == Grouped(doctors)
    ensures GroupsOf(doctors, groups)
  {
    groups := [];
    var i := 0;
    while i < |doctors|
      invariant 0 <= i <= |doctors|
      invariant groups == Grouped(doctors[..i])
    {
      assert doctors[..i + 1][..i] == doctors[..i];
      var doc := doctors[i];
      var k := IndexOfGroup(groups, doc.doctorName);
      if k == |groups| {
        groups := groups + [DoctorGroup(doc.doctorName, doc.specialization, [])];
      }
      groups := groups[k := groups[k].(slots := groups[k].slots + [doc.timeSlot])];
      i := i + 1;
    }
    assert doctors[..i] == doctors;
    GroupedCharacterized(doctors);
  }

  // ---------------------------------------------------------------------
  // Matching the patient's answer against the listings
  // ---------------------------------------------------------------------

  /** `any(part in user_input for part in parts)` */
  predicate AnyWordIn(parts: seq<string>, u: string)
  {
    exists w :: w in parts && Contains(u, w)
  }

  /** The slot occurs in the answer, as written or with its colon removed. */
  predicate SlotMentioned(slot: string, u: string)
  {
    Contains(u, slot) || Contains(u, Remove(slot, ':'))
  }

  /** The selection test of `handle_doctor_selection` for one listing entry. */
  predicate DoctorMentioned(d: DoctorSlot, u: string)
  {
    AnyWordIn(Words(Lower(d.doctorName)), u) && SlotMentioned(d.timeSlot, u)
  }

  /** The selection test of `handle_test_selection` for one listing entry. */
  predicate TestMentioned(t: TestOffer, u: string)
  {
    Contains(u, Lower(t.testName))
  }

  /** The position of the first listed doctor entry the answer mentions, or the listing's length. */
  function FirstDoctorMentioned(listing: seq<DoctorSlot>, u: string): (k: nat)
    ensures k <= |listing|
    ensures k < |listing| ==> DoctorMentioned(listing[k], u)
    ensures forall j :: 0 <= j < k ==> !DoctorMentioned(listing[j], u)
  {
    FirstDoctorMentionedFrom(listing, u, 0)
  }

  /** The search from position `i` on. */
  function FirstDoctorMentionedFrom(listing: seq<DoctorSlot>, u: string, i: nat): (k: nat)
    requires i <= |listing|
    ensures i <= k <= |listing|
    ensures k < |listing| ==> DoctorMentioned(listing[k], u)
    ensures forall j :: i <= j < k ==> !DoctorMentioned(listing[j], u)
    decreases |listing| - i
  {
    if i == |listing| || DoctorMentioned(listing[i], u) then i
    else FirstDoctorMentionedFrom(listing, u, i + 1)
  }

  /** The position of the first listed test the answer mentions, or the listing's length. */
  function FirstTestMentioned(listing: seq<TestOffer>, u: string): (k: nat)
    ensures k <= |listing|
    ensures k < |listing| ==> TestMentioned(listing[k], u)
    ensures forall j :: 0 <= j < k ==> !TestMentioned(listing[j], u)
  {
    FirstTestMentionedFrom(listing, u, 0)
  }

  /** The search from position `i` on. */
  function FirstTestMentionedFrom(listing: seq<TestOffer>, u: string, i: nat): (k: nat)
    requires i <= |listing|
    ensures i <= k <= |listing|
    ensures k < |listing| ==> TestMentioned(listing[k], u)
    ensures forall j :: i <= j < k ==> !TestMentioned(listing[j], u)
    decreases |listing| - i
  {
    if i == |listing| || TestMentioned(listing[i], u) then i
    else FirstTestMentionedFrom(listing, u, i + 1)
  }

  /** The first mentioned doctor entry is the one no earlier entry precedes. */
  lemma FirstDoctorMentionedAt(listing: seq<DoctorSlot>, u: string, i: nat)
    requires i <= |listing|
    requires i < |listing| ==> DoctorMentioned(listing[i], u)
    requires forall j :: 0 <= j < i ==> !DoctorMentioned(listing[j], u)
    ensures FirstDoctorMentioned(listing, u) == i
  {
  }

  /** The first mentioned test is the one no earlier test precedes. */
  lemma FirstTestMentionedAt(listing: seq<TestOffer>, u: string, i: nat)
    requires i <= |listing|
    requires i < |listing| ==> TestMentioned(listing[i], u)
    requires forall j :: 0 <= j < i ==> !TestMentioned(listing[j], u)
    ensures FirstTestMentioned(listing, u) == i
  {
  }

  /** The search loop of `handle_doctor_selection`: the first listed entry the answer mentions. */
  method SelectDoctor(doctors: seq<DoctorSlot>, u: string) returns (selectedDoctor: Option<string>, selectedTime: Option<string>)
    ensures var k := FirstDoctorMentioned(doctors, u);
      if k < |doctors| then selectedDoctor == Some(doctors[k].doctorName) && selectedTime == Some(doctors[k].timeSlot)
      else selectedDoctor.None? && selectedTime.None?
  {
    selectedDoctor, selectedTime := None, None;
    var i := 0;
    while i < |doctors|
      invariant 0 <= i <= |doctors|
      invariant FirstDoctorMentionedFrom(doctors, u, i) == FirstDoctorMentioned(doctors, u)
      invariant selectedDoctor.None? && selectedTime.None?
    {
      var parts := Words(Lower(doctors[i].doctorName));
      if AnyWordIn(parts, u) {
        if Contains(u, doctors[i].timeSlot) || Contains(u, Remove(doctors[i].timeSlot, ':')) {
          selectedDoctor := Some(doctors[i].doctorName);
          selectedTime := Some(doctors[i].timeSlot);
          break;
        }
      }
      i := i + 1;
    }
  }

  /** The search loop of `handle_test_selection`: the first listed test the answer names. */
  method SelectTest(tests: seq<TestOffer>, u: string) returns (selectedTest: Option<TestOffer>)
    ensures var k := FirstTestMentioned(tests, u);
      if k < |tests| then selectedTest == Some(tests[k]) else selectedTest.None?
  {
    selectedTest := None;
    var i := 0;
    while i < |tests|
      invariant 0 <= i <= |tests|
      invariant FirstTestMentionedFrom(tests, u, i) == FirstTestMentioned(tests, u)
      invariant selectedTest.None?
    {
      if Contains(u, Lower(tests[i].testName)) {
        selectedTest := Some(tests[i]);
        break;
      }
      i := i + 1;
    }
  }

  // ---------------------------------------------------------------------
  // One utterance, stage by stage
  // ---------------------------------------------------------------------

  function GreetingStep(s: State, t: Tables): Outcome
  {
    Outcome(s.(stage := StageServiceSelection), Welcome, t)
  }

  function ServiceSelectionStep(s: State, u: string, t: Tables): Outcome
  {
    if WantsDoctor(u) then
      Outcome(s.(appointmentType := Some("doctor"), stage := StagePatientInfo), DoctorServiceChosen, t)
    else if WantsTest(u) then
      Outcome(s.(appointmentType := Some("test"), stage := StagePatientInfo), TestServiceChosen, t)
    else
      Outcome(s, ServiceUnclear, t)
  }

  function DoctorListReply(t: Tables): Reply
  {
    var listing := AvailableDoctors(t.doctors);
    if listing == [] then NoDoctors else DoctorList(Grouped(listing))
  }

  function TestListReply(t: Tables): Reply
  {
    var listing := AvailableTests(t.tests);
    if listing == [] then NoTests else TestList(listing)
  }

  function PatientInfoStep(s: State, u: string, t: Tables): Outcome
  {
    if !Truthy(s.patientName) then
      Outcome(s.(patientName := Some(Title(u))), AskPhone(Title(u)), t)
    else
      var phone := Digits(u);
      if |phone| >= 10 then
        if s.appointmentType == Some("doctor") then
          Outcome(s.(patientPhone := Some(phone), stage := StageDoctorSelection), DoctorListReply(t), t)
        else
          Outcome(s.(patientPhone := Some(phone), stage := StageTestSelection), TestListReply(t), t)
      else
        Outcome(s, InvalidPhone, t)
  }

  function DoctorSelectionStep(s: State, u: string, t: Tables): Outcome
  {
    var listing := AvailableDoctors(t.doctors);
    var k := FirstDoctorMentioned(listing, u);
    if k < |listing| && listing[k].doctorName != "" && listing[k].timeSlot != "" then
      var d := listing[k];
      Outcome(s.(selectedDoctor := Some(d.doctorName), selectedTime := Some(d.timeSlot), stage := StageConfirmation),
              ConfirmDoctor(d.doctorName, d.timeSlot, s.patientName, s.patientPhone), t)
    else
      Outcome(s, DoctorUnclear, t)
  }

  function TestSelectionStep(s: State, u: string, t: Tables): Outcome
  {
    var listing := AvailableTests(t.tests);
    var k := FirstTestMentioned(listing, u);
    if k < |listing| then
      Outcome(s.(selectedTest := Some(listing[k].testName), stage := StageConfirmation),
              ConfirmTest(listing[k], s.patientName, s.patientPhone), t)
    else
      Outcome(s, TestUnclear, t)
  }

  /** The booking `handle_confirmation` asks for, taken from the state. */
  function BookingOf(s: State): Booking
  {
    Booking(s.patientName, s.patientPhone, s.appointmentType, s.selectedDoctor, s.selectedTest, s.selectedTime)
  }

  function ConfirmationStep(s: State, u: string, t: Tables): Outcome
  {
    if Affirmative(u) then
      var (t2, ok) := Book(t, BookingOf(s));
      if ok then
        var reply := if s.appointmentType == Some("doctor") then BookedDoctor(s.selectedDoctor, s.selectedTime)
                     else BookedTest(s.selectedTest);
        Outcome(InitialState, reply, t2)
      else
        Outcome(s, BookingFailed, t2)
    else
      Outcome(s, NoProblem, t)
  }

  /** `process_user_input`: normalise the utterance and dispatch on the stage. */
  function Step(s: State, input: string, t: Tables): Outcome
  {
    var u := Normalize(input);
    if s.stage == StageGreeting then GreetingStep(s, t)
    else if s.stage == StageServiceSelection then ServiceSelectionStep(s, u, t)
    else if s.stage == StagePatientInfo then PatientInfoStep(s, u, t)
    else if s.stage == StageDoctorSelection then DoctorSelectionStep(s, u, t)
    else if s.stage == StageTestSelection then TestSelectionStep(s, u, t)
    else if s.stage == StageConfirmation then ConfirmationStep(s, u, t)
    else Outcome(s, Repeat, t)
  }

  /** The state, the database and the replies after `run` has heard a sequence of utterances. */
  datatype Transcript = Transcript(state: State, tables: Tables, replies: seq<Reply>)

  /**
   * The loop of `run` after its opening line: `None` (nothing recognised) is
   * answered with a request to repeat, a quit word ends the conversation with a
   * farewell, anything else is processed.
   */
  function Converse(s: State, t: Tables, heard: seq<Option<string>>): Transcript
    decreases |heard|
  {
    if heard == [] then Transcript(s, t, [])
    else
      var h := Hear(s, t, heard[0]);
      if h.1 then Transcript(h.0.state, h.0.tables, [h.0.reply])
      else
        var r := Converse(h.0.state, h.0.tables, heard[1..]);
        r.(replies := [h.0.reply] + r.replies)
  }

  /** One round of that loop: the outcome, and whether the conversation ends. */
  function Hear(s: State, t: Tables, heard: Option<string>): (Outcome, bool)
  {
    if heard.None? then (Outcome(s, NotCaught, t), false)
    else if IsQuit(heard.value) then (Outcome(s, Farewell, t), true)
    else (Step(s, heard.value, t), false)
  }

  /** The first round of a conversation and what follows it. */
  lemma ConverseFirst(s: State, t: Tables, heard: seq<Option<string>>)
    requires heard != []
    ensures var h := Hear(s, t, heard[0]);
      Converse(s, t, heard) ==
        if h.1 then Transcript(h.0.state, h.0.tables, [h.0.reply])
        else
          var r := Converse(h.0.state, h.0.tables, heard[1..]);
          Transcript(r.state, r.tables, [h.0.reply] + r.replies)
  {
  }

  // ---------------------------------------------------------------------
  // Properties of the dialogue
  // ---------------------------------------------------------------------

  /**
   * The states the dialogue can be in: which fields are filled at which stage.
   * The initial state satisfies it and every step keeps it.
   */
  ghost predicate Consistent(s: State)
  {
    var doctorFlow := s.appointmentType == Some("doctor");
    var testFlow := s.appointmentType == Some("test");
    var contact := Truthy(s.patientName) && s.patientPhone.Some? && |s.patientPhone.value| >= 10;
    var nothingSelected := s.selectedDoctor.None? && s.selectedTest.None? && s.selectedTime.None?;
    if s.stage == StageGreeting || s.stage == StageServiceSelection then
      s == InitialState.(stage := s.stage)
    else if s.stage == StagePatientInfo then
      (doctorFlow || testFlow) && s.patientPhone.None? && nothingSelected
    else if s.stage == StageDoctorSelection then
      doctorFlow && contact && nothingSelected
    else if s.stage == StageTestSelection then
      testFlow && contact && nothingSelected
    else if s.stage == StageConfirmation then
      contact &&
      ((doctorFlow && Truthy(s.selectedDoctor) && Truthy(s.selectedTime) && s.selectedTest.None?) ||
       (testFlow && s.selectedTest.Some? && s.selectedDoctor.None? && s.selectedTime.None?))
    else
      false
  }

  lemma InitialStateConsistent()
    ensures Consistent(InitialState)
  {
  }

  /** Every utterance keeps the dialogue in a consistent state. */
  lemma StepKeepsConsistent(s: State, input: string, t: Tables)
    requires Consistent(s)
    ensures Consistent(Step(s, input, t).state)
  {
    var u := Normalize(input);
    var o := Step(s, input, t);
    if s.stage == StageGreeting {
      assert o == GreetingStep(s, t);
    } else if s.stage == StageServiceSelection {
      assert o == ServiceSelectionStep(s, u, t);
      ServiceSelectionKeepsConsistent(s, u, t);
    } else if s.stage == StagePatientInfo {
      assert o == PatientInfoStep(s, u, t);
      PatientInfoKeepsConsistent(s, u, t);
    } else if s.stage == StageDoctorSelection {
      assert o == DoctorSelectionStep(s, u, t);
      DoctorSelectionKeepsConsistent(s, u, t);
    } else if s.stage == StageTestSelection {
      assert o == TestSelectionStep(s, u, t);
      TestSelectionKeepsConsistent(s, u, t);
    } else {
      assert o == ConfirmationStep(s, u, t);
      ConfirmationKeepsConsistent(s, u, t);
    }
  }

  lemma ServiceSelectionKeepsConsistent(s: State, u: string, t: Tables)
    requires Consistent(s) && s.stage == StageServiceSelection
    ensures Consistent(ServiceSelectionStep(s, u, t).state)
  {
  }

  lemma PatientInfoKeepsConsistent(s: State, u: string, t: Tables)
    requires Consistent(s) && s.stage == StagePatientInfo
    ensures Consistent(PatientInfoStep(s, u, t).state)
  {
  }

  lemma DoctorSelectionKeepsConsistent(s: State, u: string, t: Tables)
    requires Consistent(s) && s.stage == StageDoctorSelection
    ensures Consistent(DoctorSelectionStep(s, u, t).state)
  {
  }

  lemma TestSelectionKeepsConsistent(s: State, u: string, t: Tables)
    requires Consistent(s) && s.stage == StageTestSelection
    ensures Consistent(TestSelectionStep(s, u, t).state)
  {
  }

  lemma ConfirmationKeepsConsistent(s: State, u: string, t: Tables)
    requires Consistent(s) && s.stage == StageConfirmation
    ensures Consistent(ConfirmationStep(s, u, t).state)
  {
    if Affirmative(u) && Book(t, BookingOf(s)).1 {
      assert ConfirmationStep(s, u, t).state == InitialState;
    }
  }

  /** An unrecognised stage answers with the request to repeat and changes nothing. */
  lemma UnknownStageRepeats(s: State, input: string, t: Tables)
    requires s.stage !in [StageGreeting, StageServiceSelection, StagePatientInfo,
                          StageDoctorSelection, StageTestSelection, StageConfirmation]
    ensures Step(s, input, t) == Outcome(s, Repeat, t)
  {
  }

  /** Whatever is said at the greeting stage moves the dialogue to service selection. */
  lemma GreetingAdvances(s: State, input: string, t: Tables)
    requires s.stage == StageGreeting
    ensures Step(s, input, t) == Outcome(s.(stage := StageServiceSelection), Welcome, t)
  {
  }

  /**
   * Service selection: a doctor keyword wins over a test keyword; either moves
   * to patient_info with the type recorded; with neither the state is kept.
   */
  lemma ServiceSelectionChoice(s: State, input: string, t: Tables)
    requires s.stage == StageServiceSelection
    ensures var o := Step(s, input, t); var u := Normalize(input);
      o.tables == t &&
      (if WantsDoctor(u) then o.state == s.(appointmentType := Some("doctor"), stage := StagePatientInfo)
       else if WantsTest(u) then o.state == s.(appointmentType := Some("test"), stage := StagePatientInfo)
       else o.state == s)
  {
  }

  /**
   * Patient info: the first answer is stored title-cased as the name; a later
   * answer is accepted as the phone when it has at least ten digits, and the
   * stage then follows the appointment type; otherwise nothing changes.
   */
  lemma PatientInfoAnswers(s: State, input: string, t: Tables)
    requires s.stage == StagePatientInfo
    ensures var o := Step(s, input, t); var u := Normalize(input);
      o.tables == t &&
      (if !Truthy(s.patientName) then o.state == s.(patientName := Some(Title(u)))
       else if |Digits(u)| >= 10 then
         o.state == s.(patientPhone := Some(Digits(u)),
                       stage := if s.appointmentType == Some("doctor") then StageDoctorSelection else StageTestSelection)
       else o.state == s)
  {
  }

  /**
   * Doctor selection picks the first entry of the listing the answer mentions;
   * the stage becomes confirmation only when there is one (with a non-empty
   * name and slot), and then no earlier entry was mentioned.
   */
  lemma DoctorSelectionPicksFirst(s: State, input: string, t: Tables)
    requires s.stage == StageDoctorSelection
    ensures var o := Step(s, input, t); var u := Normalize(input); var listing := AvailableDoctors(t.doctors);
      o.tables == t &&
      (o.state.stage == StageConfirmation <==>
         exists k :: 0 <= k < |listing| && DoctorMentioned(listing[k], u)
           && (forall j :: 0 <= j < k ==> !DoctorMentioned(listing[j], u))
           && listing[k].doctorName != "" && listing[k].timeSlot != ""
           && o.state == s.(selectedDoctor := Some(listing[k].doctorName),
                            selectedTime := Some(listing[k].timeSlot), stage := StageConfirmation))
  {
    assert Step(s, input, t) == DoctorSelectionStep(s, Normalize(input), t);
    DoctorSelectionStepPicksFirst(s, Normalize(input), t);
  }

  lemma DoctorSelectionStepPicksFirst(s: State, u: string, t: Tables)
    requires s.stage == StageDoctorSelection
    ensures var o := DoctorSelectionStep(s, u, t); var listing := AvailableDoctors(t.doctors);
      o.tables == t &&
      (o.state.stage == StageConfirmation <==>
         exists k :: 0 <= k < |listing| && DoctorMentioned(listing[k], u)
           && (forall j :: 0 <= j < k ==> !DoctorMentioned(listing[j], u))
           && listing[k].doctorName != "" && listing[k].timeSlot != ""
           && o.state == s.(selectedDoctor := Some(listing[k].doctorName),
                            selectedTime := Some(listing[k].timeSlot), stage := StageConfirmation))
  {
    var listing := AvailableDoctors(t.doctors);
    var k := FirstDoctorMentioned(listing, u);
    forall k' | 0 <= k' < |listing| && DoctorMentioned(listing[k'], u) && (forall j :: 0 <= j < k' ==> !DoctorMentioned(listing[j], u))
      ensures k' == k
    {
    }
  }

  /** Test selection picks the first listed test whose lower-cased name occurs in the answer. */
  lemma TestSelectionPicksFirst(s: State, input: string, t: Tables)
    requires s.stage == StageTestSelection
    ensures var o := Step(s, input, t); var u := Normalize(input); var listing := AvailableTests(t.tests);
      o.tables == t &&
      (o.state.stage == StageConfirmation <==>
         exists k :: 0 <= k < |listing| && TestMentioned(listing[k], u)
           && (forall j :: 0 <= j < k ==> !TestMentioned(listing[j], u))
           && o.state == s.(selectedTest := Some(listing[k].testName), stage := StageConfirmation))
  {
    assert Step(s, input, t) == TestSelectionStep(s, Normalize(input), t);
    TestSelectionStepPicksFirst(s, Normalize(input), t);
  }

  lemma TestSelectionStepPicksFirst(s: State, u: string, t: Tables)
    requires s.stage == StageTestSelection
    ensures var o := TestSelectionStep(s, u, t); var listing := AvailableTests(t.tests);
      o.tables == t &&
      (o.state.stage == StageConfirmation <==>
         exists k :: 0 <= k < |listing| && TestMentioned(listing[k], u)
           && (forall j :: 0 <= j < k ==> !TestMentioned(listing[j], u))
           && o.state == s.(selectedTest := Some(listing[k].testName), stage := StageConfirmation))
  {
    var listing := AvailableTests(t.tests);
    var k := FirstTestMentioned(listing, u);
    forall k' | 0 <= k' < |listing| && TestMentioned(listing[k'], u) && (forall j :: 0 <= j < k' ==> !TestMentioned(listing[j], u))
      ensures k' == k
    {
    }
  }

  /**
   * Confirming a doctor appointment books it, resets the whole state and
   * takes exactly the booked (doctor, slot) out of the available listing.
   */
  lemma {:induction false} DoctorConfirmationBooks(s: State, input: string, t: Tables, d: DoctorSlot)
    requires Consistent(s) && s.stage == StageConfirmation && s.appointmentType == Some("doctor")
    requires Affirmative(Normalize(input))
    ensures var o := Step(s, input, t);
      o.state == InitialState && o.reply == BookedDoctor(s.selectedDoctor, s.selectedTime) &&
      o.tables.appointments == t.appointments + [AppointmentRow(BookingOf(s))] &&
      (d in AvailableDoctors(o.tables.doctors) <==>
         d in AvailableDoctors(t.doctors)
         && !(d.doctorName == s.selectedDoctor.value && d.timeSlot == s.selectedTime.value))
  {
    BookedSlotLeavesListing(t, BookingOf(s), d);
  }

  /**
   * A test appointment is never booked: the test flow leaves `selected_time`
   * unset and `appointment_time` is NOT NULL, so confirming fails and
   * nothing changes.
   */
  lemma TestConfirmationNeverBooks(s: State, input: string, t: Tables)
    requires Consistent(s) && s.stage == StageConfirmation && s.appointmentType == Some("test")
    ensures var o := Step(s, input, t);
      o.state == s && o.tables == t &&
      o.reply == (if Affirmative(Normalize(input)) then BookingFailed else NoProblem)
  {
    assert Step(s, input, t) == ConfirmationStep(s, Normalize(input), t);
    assert !NotNullSatisfied(BookingOf(s));
  }

  /** Once a test appointment awaits confirmation, no sequence of utterances ever books it. */
  lemma {:induction false} TestConfirmationStuck(s: State, t: Tables, heard: seq<Option<string>>)
    requires Consistent(s) && s.stage == StageConfirmation && s.appointmentType == Some("test")
    ensures Converse(s, t, heard).state == s && Converse(s, t, heard).tables == t
    ensures BookedTest(s.selectedTest) !in Converse(s, t, heard).replies
    decreases |heard|
  {
    if heard != [] {
      TestConfirmationStuck(s, t, heard[1..]);
      if heard[0].Some? && !IsQuit(heard[0].value) {
        TestConfirmationNeverBooks(s, heard[0].value, t);
      }
    }
  }

  /**
   * Confirmation against the corrected schema (`BookTimeOptional`), in which
   * a test appointment can be booked without a time; otherwise as
   * `ConfirmationStep`.
   */
  function ConfirmationStepTimeOptional(s: State, u: string, t: Tables): Outcome
  {
    if Affirmative(u) then
      var (t2, ok) := BookTimeOptional(t, BookingOf(s));
      if ok then
        var reply := if s.appointmentType == Some("doctor") then BookedDoctor(s.selectedDoctor, s.selectedTime)
                     else BookedTest(s.selectedTest);
        Outcome(InitialState, reply, t2)
      else
        Outcome(s, BookingFailed, t2)
    else
      Outcome(s, NoProblem, t)
  }

  /** `Step` with the corrected confirmation. */
  function StepTimeOptional(s: State, input: string, t: Tables): Outcome
  {
    if s.stage == StageConfirmation then ConfirmationStepTimeOptional(s, Normalize(input), t)
    else Step(s, input, t)
  }

  /**
   * With the corrected schema, confirming a test appointment books it: one
   * appointment row for the selected test and no time is inserted, the
   * doctors and tests tables are unchanged, and the dialogue starts over.
   */
  lemma TestConfirmationBooksTimeOptional(s: State, input: string, t: Tables)
    requires Consistent(s) && s.stage == StageConfirmation && s.appointmentType == Some("test")
    requires Affirmative(Normalize(input))
    ensures var o := StepTimeOptional(s, input, t);
      o.state == InitialState && o.reply == BookedTest(s.selectedTest) &&
      o.tables.doctors == t.doctors && o.tables.tests == t.tests &&
      o.tables.appointments ==
        t.appointments + [Appointment(s.patientName.value, s.patientPhone, "test", None, s.selectedTest, None, Confirmed)]
  {
    BookTimeOptionalExtendsBook(t, BookingOf(s));
  }

  /**
   * The correction changes nothing else: on every consistent state except a
   * test appointment awaiting confirmation, it does what `Step` does.
   */
  lemma StepTimeOptionalAgrees(s: State, input: string, t: Tables)
    requires Consistent(s)
    requires !(s.stage == StageConfirmation && s.appointmentType == Some("test"))
    ensures StepTimeOptional(s, input, t) == Step(s, input, t)
  {
    if s.stage == StageConfirmation {
      BookTimeOptionalExtendsBook(t, BookingOf(s));
      assert NotNullSatisfied(BookingOf(s));
    }
  }

  /** The corrected dialogue keeps the state consistent too. */
  lemma StepTimeOptionalKeepsConsistent(s: State, input: string, t: Tables)
    requires Consistent(s)
    ensures Consistent(StepTimeOptional(s, input, t).state)
  {
    if s.stage == StageConfirmation {
      var u := Normalize(input);
      if Affirmative(u) && BookTimeOptional(t, BookingOf(s)).1 {
        assert ConfirmationStepTimeOptional(s, u, t).state == InitialState;
      }
    } else {
      StepKeepsConsistent(s, input, t);
    }
  }

  /**
   * The example the doctor-selection reprompt offers, "Dr. Smith at 9:00",
   * does not select Dr. Smith's 09:00 slot: neither "09:00" nor "0900"
   * occurs in it.
   */
  lemma RepromptExampleDoesNotMatch(d: DoctorSlot, answer: string)
    requires d.timeSlot == "09:00" && answer == "Dr. Smith at 9:00"
    ensures !DoctorMentioned(d, Normalize(answer))
  {
    RepromptExampleNormalized();
    RepromptExampleSlotAbsent(d.timeSlot, "dr. smith at 9:00");
  }

  lemma RepromptExampleSlotAbsent(slot: string, u: string)
    requires slot == "09:00" && u == "dr. smith at 9:00"
    ensures !SlotMentioned(slot, u)
  {
    RepromptExampleSlotWithoutColon();
    RepromptExampleZeros(u);
    LateZerosOnly(u, slot);
    LateZerosOnly(u, Remove(slot, ':'));
  }

  /** A slot starting with a zero cannot occur in an answer whose zeros are its last two characters. */
  lemma LateZerosOnly(u: string, slot: string)
    requires forall i :: 0 <= i < |u| - 2 ==> u[i] != '0'
    requires |slot| >= 3 && slot[0] == '0'
    ensures !Contains(u, slot)
  {
    NotContainedByHead(u, slot);
  }

  /** The answer's only zeros are its last two characters. */
  lemma RepromptExampleZeros(u: string)
    requires u == "dr. smith at 9:00"
    ensures forall i :: 0 <= i < |u| - 2 ==> u[i] != '0'
  {
  }

  lemma RepromptExampleSlotWithoutColon()
    ensures Remove("09:00", ':') == "0900"
  {
  }

  lemma RepromptExampleNormalized()
    ensures Normalize("Dr. Smith at 9:00") == "dr. smith at 9:00"
  {
    RepromptExampleLowered();
    RepromptExampleStripped();
  }

  lemma RepromptExampleLowered()
    ensures Lower("Dr. Smith at 9:00") == "dr. smith at 9:00"
  {
    var tail := "mith at 9:00";
    RepromptExamplePieces(tail);
    LowerAppend("D", "r. " + ("S" + tail));
    LowerAppend("r. ", "S" + tail);
    LowerAppend("S", tail);
    RepromptExampleTailLower(tail);
    assert Lower("D") == "d" && Lower("S") == "s";
  }

  lemma RepromptExamplePieces(tail: string)
    requires tail == "mith at 9:00"
    ensures "Dr. Smith at 9:00" == "D" + ("r. " + ("S" + tail))
    ensures "d" + ("r. " + ("s" + tail)) == "dr. smith at 9:00"
  {
  }

  lemma RepromptExampleTailLower(tail: string)
    requires tail == "mith at 9:00"
    ensures Lower("r. ") == "r. " && Lower(tail) == tail
  {
    LowerNoUpper("r. ");
    LowerNoUpper(tail);
  }

  lemma RepromptExampleStripped()
    ensures Strip("dr. smith at 9:00") == "dr. smith at 9:00"
  {
    var u := "dr. smith at 9:00";
    assert u[0] == 'd' && u[|u| - 1] == '0';
    StripUnpadded(u);
  }

  /** The reprompt's example with the slot written as the listing writes it. */
  const RepromptExampleAsListed := "Dr. Smith at 09:00"

  /** Written that way, the example selects Dr. Smith's 09:00 slot. */
  lemma RepromptExampleAsListedMatches(d: DoctorSlot)
    requires d.doctorName == "Dr. Smith" && d.timeSlot == "09:00"
    ensures DoctorMentioned(d, Normalize(RepromptExampleAsListed))
  {
    var u := "dr. smith at 09:00";
    AsListedNormalized();
    AsListedSaysHonorific(u);
    AsListedSaysSlot(u);
    assert d.doctorName[..4] == "Dr. ";
    HonorificMatchesEveryDoctor(d, u);
  }

  lemma AsListedSaysHonorific(u: string)
    requires u == "dr. smith at 09:00"
    ensures Contains(u, "dr.")
  {
    assert IsPrefix("dr.", u);
  }

  lemma AsListedSaysSlot(u: string)
    requires u == "dr. smith at 09:00"
    ensures Contains(u, "09:00")
  {
    assert OccursAt(u, "09:00", 13);
    ContainsAt(u, "09:00");
  }

  lemma AsListedNormalized()
    ensures Normalize(RepromptExampleAsListed) == "dr. smith at 09:00"
  {
    var tail := "mith at 09:00";
    assert RepromptExampleAsListed == "D" + ("r. " + ("S" + tail));
    assert "d" + ("r. " + ("s" + tail)) == "dr. smith at 09:00";
    LowerAppend("D", "r. " + ("S" + tail));
    LowerAppend("r. ", "S" + tail);
    LowerAppend("S", tail);
    LowerNoUpper("r. ");
    LowerNoUpper(tail);
    assert Lower("D") == "d" && Lower("S") == "s";
    var u := "dr. smith at 09:00";
    assert u[0] == 'd' && u[|u| - 1] == '0';
    StripUnpadded(u);
  }

  /**
   * For a name written "Dr. ...", the first word "dr." occurs in any answer
   * that says "dr.", so the name check passes whichever doctor the patient
   * named and only the slot decides.
   */
  lemma HonorificMatchesEveryDoctor(d: DoctorSlot, u: string)
    requires |d.doctorName| >= 4 && d.doctorName[..4] == "Dr. "
    requires Contains(u, "dr.")
    ensures DoctorMentioned(d, u) <==> SlotMentioned(d.timeSlot, u)
  {
    var l := Lower(d.doctorName);
    assert l[0] == 'd' && l[1] == 'r' && l[2] == '.' && l[3] == ' ';
    HonorificFirstWord(l);
  }

  /** A lower-cased name starting "dr. " has "dr." as its first word. */
  lemma HonorificFirstWord(l: string)
    requires |l| >= 4 && l[0] == 'd' && l[1] == 'r' && l[2] == '.' && l[3] == ' '
    ensures Words(l) != [] && Words(l)[0] == "dr."
  {
    assert TrimStart(l) == l;
    assert Word(l[3..]) == [];
    assert Word(l[2..]) == ['.'] + Word(l[3..]);
    assert Word(l[1..]) == ['r'] + Word(l[2..]);
    assert Word(l) == "dr.";
  }

  // ---------------------------------------------------------------------
  // The agent
  // ---------------------------------------------------------------------

  class HospitalReceptionistAgent {
    const db: DatabaseManager
    var state: State

    /** `__init__` with its database; the speech and text-to-speech clients are not modelled. */
    constructor (db: DatabaseManager)
      ensures this.db == db && state == InitialState
    {
      this.db := db;
      state := InitialState;
    }

    /** `process_user_input` */
    method ProcessUserInput(userInput: string) returns (reply: Reply)
      modifies this, db
      ensures Outcome(state, reply, db.Contents()) == Step(old(state), userInput, old(db.Contents()))
    {
      var u := Normalize(userInput);
      if state.stage == StageGreeting {
        reply := HandleGreeting(u);
      } else if state.stage == StageServiceSelection {
        reply := HandleServiceSelection(u);
      } else if state.stage == StagePatientInfo {
        reply := HandlePatientInfo(u);
      } else if state.stage == StageDoctorSelection {
        reply := HandleDoctorSelection(u);
      } else if state.stage == StageTestSelection {
        reply := HandleTestSelection(u);
      } else if state.stage == StageConfirmation {
        reply := HandleConfirmation(u);
      } else {
        reply := Repeat;
      }
    }

    method HandleGreeting(u: string) returns (reply: Reply)
      modifies this
      ensures Outcome(state, reply, db.Contents()) == GreetingStep(old(state), db.Contents())
    {
      state := state.(stage := StageServiceSelection);
      reply := Welcome;
    }

    method HandleServiceSelection(u: string) returns (reply: Reply)
      modifies this
      ensures Outcome(state, reply, db.Contents()) == ServiceSelectionStep(old(state), u, db.Contents())
    {
      if Contains(u, "doctor") || Contains(u, "consultation") || Contains(u, "consult") {
        state := state.(appointmentType := Some("doctor"));
        state := state.(stage := StagePatientInfo);
        reply := DoctorServiceChosen;
      } else if Contains(u, "test") || Contains(u, "lab") || Contains(u, "scan") {
        state := state.(appointmentType := Some("test"));
        state := state.(stage := StagePatientInfo);
        reply := TestServiceChosen;
      } else {
        reply := ServiceUnclear;
      }
    }

    method HandlePatientInfo(u: string) returns (reply: Reply)
      modifies this
      ensures Outcome(state, reply, db.Contents()) == PatientInfoStep(old(state), u, db.Contents())
    {
      if !Truthy(state.patientName) {
        state := state.(patientName := Some(Title(u)));
        reply := AskPhone(state.patientName.value);
      } else {
        var phone := Digits(u);
        if |phone| >= 10 {
          state := state.(patientPhone := Some(phone));
          if state.appointmentType == Some("doctor") {
            state := state.(stage := StageDoctorSelection);
            reply := ShowAvailableDoctors();
          } else {
            state := state.(stage := StageTestSelection);
            reply := ShowAvailableTests();
          }
        } else {
          reply := InvalidPhone;
        }
      }
    }

    /** `show_available_doctors` */
    method ShowAvailableDoctors() returns (reply: Reply)
      ensures reply == DoctorListReply(db.Contents())
    {
      var doctors := db.GetAvailableDoctors();
      if doctors == [] {
        return NoDoctors;
      }
      var groups := GroupByDoctor(doctors);
      reply := DoctorList(groups);
    }

    /** `show_available_tests` */
    method ShowAvailableTests() returns (reply: Reply)
      ensures reply == TestListReply(db.Contents())
    {
      var tests := db.GetAvailableTests();
      if tests == [] {
        return NoTests;
      }
      reply := TestList(tests);
    }

    method HandleDoctorSelection(u: string) returns (reply: Reply)
      modifies this
      ensures Outcome(state, reply, db.Contents()) == DoctorSelectionStep(old(state), u, db.Contents())
    {
      var doctors := db.GetAvailableDoctors();
      var selectedDoctor, selectedTime := SelectDoctor(doctors, u);
      if Truthy(selectedDoctor) && Truthy(selectedTime) {
        state := state.(selectedDoctor := selectedDoctor);
        state := state.(selectedTime := selectedTime);
        state := state.(stage := StageConfirmation);
        reply := ConfirmDoctor(selectedDoctor.value, selectedTime.value, state.patientName, state.patientPhone);
      } else {
        reply := DoctorUnclear;
      }
    }

    method HandleTestSelection(u: string) returns (reply: Reply)
      modifies this
      ensures Outcome(state, reply, db.Contents()) == TestSelectionStep(old(state), u, db.Contents())
    {
      var tests := db.GetAvailableTests();
      var selectedTest := SelectTest(tests, u);
      if selectedTest.Some? {
        state := state.(selectedTest := Some(selectedTest.value.testName));
        state := state.(stage := StageConfirmation);
        reply := ConfirmTest(selectedTest.value, state.patientName, state.patientPhone);
      } else {
        reply := TestUnclear;
      }
    }

    method HandleConfirmation(u: string) returns (reply: Reply)
      modifies this, db
      ensures Outcome(state, reply, db.Contents()) == ConfirmationStep(old(state), u, old(db.Contents()))
    {
      if Contains(u, "yes") || Contains(u, "confirm") || Contains(u, "ok") || Contains(u, "sure") {
        var success := db.BookAppointment(state.patientName, state.patientPhone, state.appointmentType,
                                          state.selectedDoctor, state.selectedTest, state.selectedTime);
        if success {
          if state.appointmentType == Some("doctor") {
            reply := BookedDoctor(state.selectedDoctor, state.selectedTime);
          } else {
            reply := BookedTest(state.selectedTest);
          }
          state := InitialState;
        } else {
          reply := BookingFailed;
        }
      } else {
        reply := NoProblem;
      }
    }

    /**
     * `run`: speaks the opening line, then handles what `listen` returns, one
     * utterance at a time, until a quit word. `heard` stands for the results
     * of the successive `listen` calls.
     */
    method Run(heard: seq<Option<string>>) returns (said: seq<Reply>)
      modifies this, db
      ensures var c := Converse(old(state), old(db.Contents()), heard);
        state == c.state && db.Contents() == c.tables && said == [Opening] + c.replies
    {
      said := [Opening];
      var i := 0;
      ghost var s0, t0 := state, db.Contents();
      ghost var done: seq<Reply> := [];
      while i < |heard|
        invariant 0 <= i <= |heard|
        invariant said == [Opening] + done
        invariant var rest := Converse(state, db.Contents(), heard[i..]);
          Converse(s0, t0, heard) == Transcript(rest.state, rest.tables, done + rest.replies)
      {
        assert heard[i..][0] == heard[i] && heard[i..][1..] == heard[i + 1..];
        ConverseFirst(state, db.Contents(), heard[i..]);
        var reply, quit := Exchange(heard[i]);
        said := said + [reply];
        if quit {
          return;
        }
        ghost var r := Converse(state, db.Contents(), heard[i + 1..]);
        assert done + [reply] + r.replies == done + ([reply] + r.replies);
        done := done + [reply];
        i := i + 1;
      }
      assert heard[i..] == [];
    }

    /** One round of the loop of `run`: a missing utterance is answered with a request to repeat, a quit word ends it. */
    method Exchange(userInput: Option<string>) returns (reply: Reply, quit: bool)
      modifies this, db
      ensures (Outcome(state, reply, db.Contents()), quit) == Hear(old(state), old(db.Contents()), userInput)
    {
      quit := false;
      if userInput.None? {
        reply := NotCaught;
      } else if Lower(userInput.value) in ["quit", "exit", "goodbye", "bye"] {
        reply := Farewell;
        quit := true;
      } else {
        reply := ProcessUserInput(userInput.value);
      }
    }
  }
}
