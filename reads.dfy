/** The read routes: user lookup, the patient list, patient details, the
    sessions of a patient, and the all-session listing with its audio-URL
    choice and `patientMap`. Each is a projection of the three stores. */
module Reads {
  import opened Js
  import opened Http
  import opened Store
  import Presign

  const DefaultPronouns := "he/him"
  const UnknownPatient := "Unknown"
  const PatientNotFound := "Patient not found"

  // ---------------------------------------------------------------------
  // GET /users/asd3fd2faec?email=...
  // ---------------------------------------------------------------------

  /** The id of the first user whose e-mail matches case-insensitively, and
      the first user's id when none does. */
  function LookupUserId(users: seq<User>, email: Option<string>): (id: string)
    requires users != []
    ensures forall i :: 0 <= i < |users| && Lower(users[i].email) == Lower(email.GetOr("")) &&
                        (forall j :: 0 <= j < i ==> Lower(users[j].email) != Lower(email.GetOr(""))) ==>
              id == users[i].id
    ensures (forall j :: 0 <= j < |users| ==> Lower(users[j].email) != Lower(email.GetOr(""))) ==>
              id == users[0].id
  {
    var wanted := Lower(email.GetOr(""));
    match FirstIndex(users, (u: User) => Lower(u.email) == wanted)
    case Some(i) => users[i].id
    case None => users[0].id
  }

  /** With the seeded directory every e-mail, and no e-mail, resolves to the one user. */
  lemma SeedLookupIsConstant(email: Option<string>)
    ensures LookupUserId(SeedUsers, email) == "user_123"
  {
  }

  // ---------------------------------------------------------------------
  // GET /v1/patients?userId=...
  // ---------------------------------------------------------------------

  datatype PatientListing = PatientListing(id: string, name: string, pronouns: Option<string>)

  function Listing(p: Patient): PatientListing {
    PatientListing(p.id, p.name, p.pronouns)
  }

  /** The patients owned by `userId`, in stored order. */
  function PatientsOfUser(patients: seq<Patient>, userId: string): (r: seq<PatientListing>)
    ensures |r| <= |patients|
    ensures forall l :: l in r ==> exists p :: p in patients && p.user_id == userId && Listing(p) == l
    ensures forall p :: p in patients && p.user_id == userId ==> Listing(p) in r
  {
    if patients == [] then []
    else (if patients[0].user_id == userId then [Listing(patients[0])] else []) +
         PatientsOfUser(patients[1..], userId)
  }

  /** The patient-list route; an absent `userId` query filters by "". */
  function ListPatients(patients: seq<Patient>, userId: Option<string>): seq<PatientListing> {
    PatientsOfUser(patients, userId.GetOr(""))
  }

  lemma {:induction false} PatientsOfUserAppend(a: seq<Patient>, b: seq<Patient>, userId: string)
    ensures PatientsOfUser(a + b, userId) == PatientsOfUser(a, userId) + PatientsOfUser(b, userId)
  {
    if a == [] {
      assert a + b == b;
    } else {
      var head := if a[0].user_id == userId then [Listing(a[0])] else [];
      assert PatientsOfUser(a + b, userId) == head + PatientsOfUser(a[1..] + b, userId) by {
        assert (a + b)[0] == a[0];
        assert (a + b)[1..] == a[1..] + b;
      }
      PatientsOfUserAppend(a[1..], b, userId);
      assert head + (PatientsOfUser(a[1..], userId) + PatientsOfUser(b, userId)) ==
             (head + PatientsOfUser(a[1..], userId)) + PatientsOfUser(b, userId);
    }
  }

  /** A patient added for a user appears last in that user's list, with null pronouns. */
  lemma AddedPatientListedLast(patients: seq<Patient>, name: string, userId: string, uuid: string)
    ensures ListPatients(patients + [NewPatient(name, userId, uuid)], Some(userId)) ==
            ListPatients(patients, Some(userId)) + [PatientListing(PatientIdPrefix + uuid, name, None)]
  {
    var p := NewPatient(name, userId, uuid);
    PatientsOfUserAppend(patients, [p], userId);
    assert PatientsOfUser([p], userId) == [Listing(p)] + PatientsOfUser([p][1..], userId);
  }

  /** A store whose patients all have an owner lists nobody for a missing `userId`. */
  lemma {:induction false} MissingUserIdListsNothing(patients: seq<Patient>)
    requires forall p :: p in patients ==> p.user_id != ""
    ensures ListPatients(patients, None) == []
  {
    if patients != [] {
      assert patients[0] in patients;
      MissingUserIdListsNothing(patients[1..]);
    }
  }

  // ---------------------------------------------------------------------
  // GET /v1/patient-details/:patientId
  // ---------------------------------------------------------------------

  datatype PatientDetail = PatientDetail(id: string, name: string, pronouns: string)

  /** The first patient with the id, with null pronouns shown as "he/him"; 404 when none. */
  function PatientDetails(patients: seq<Patient>, patientId: string): (r: Reply<PatientDetail>)
    ensures r.Ok? || r == NotFound(PatientNotFound)
    ensures !r.Ok? ==> r.Status() == 404 && r.ErrorTitle() == "Not Found"
    ensures r.NotFound? <==> forall i :: 0 <= i < |patients| ==> patients[i].id != patientId
    ensures forall i :: 0 <= i < |patients| && patients[i].id == patientId &&
                        (forall j :: 0 <= j < i ==> patients[j].id != patientId) ==>
              r == Ok(PatientDetail(patientId, patients[i].name, patients[i].pronouns.GetOr(DefaultPronouns)))
  {
    match FirstIndex(patients, (p: Patient) => p.id == patientId)
    case None => NotFound(PatientNotFound)
    case Some(i) =>
      var p := patients[i];
      Ok(PatientDetail(p.id, p.name, p.pronouns.GetOr(DefaultPronouns)))
  }

  /** A freshly added patient is found by its new id, with the default pronouns. */
  lemma AddedPatientDetails(patients: seq<Patient>, name: string, userId: string, uuid: string)
    requires forall p :: p in patients ==> p.id != PatientIdPrefix + uuid
    ensures PatientDetails(patients + [NewPatient(name, userId, uuid)], PatientIdPrefix + uuid) ==
            Ok(PatientDetail(PatientIdPrefix + uuid, name, DefaultPronouns))
  {
    var ps := patients + [NewPatient(name, userId, uuid)];
    assert forall j :: 0 <= j < |patients| ==> ps[j] in patients;
    assert ps[|patients|].id == PatientIdPrefix + uuid;
  }

  // ---------------------------------------------------------------------
  // GET /v1/fetch-session-by-patient/:patientId
  // ---------------------------------------------------------------------

  /** `https://storage.googleapis.com/demo-bucket/sessions/<id>/audio.wav` */
  function DefaultAudioUrl(id: string): string {
    Presign.BucketPrefix + Presign.PathPrefix + id + "/audio.wav"
  }

  datatype PatientSessionView = PatientSessionView(
    id: string, date: string, session_title: string, session_summary: string,
    start_time: string, audio_url: string)

  /** One entry of the route; `now` stands for the clock that fills absent dates. */
  function PatientSessionViewOf(s: Session, now: string): (v: PatientSessionView)
    ensures v.id == s.id && v.audio_url == DefaultAudioUrl(s.id)
    ensures s.date.Some? ==> v.date == s.date.value
    ensures s.start_time.Some? ==> v.start_time == s.start_time.value
    ensures s.session_title.Some? ==> v.session_title == s.session_title.value
    ensures s.session_summary.Some? ==> v.session_summary == s.session_summary.value
    ensures s.date.None? ==> v.date == Slice(now, 10)
    ensures s.start_time.None? ==> v.start_time == now
    ensures s.session_title.None? ==> v.session_title == "Consultation"
    ensures s.session_summary.None? ==> v.session_summary == "Patient consultation summary"
    ensures WellFormedSession(s) ==>
      v.date == Slice(s.start_time.value, 10) && v.start_time == s.start_time.value &&
      v.session_title == InitialTitle && v.session_summary == ""
  {
    PatientSessionView(
      s.id,
      s.date.GetOr(Slice(now, 10)),
      s.session_title.GetOr("Consultation"),
      s.session_summary.GetOr("Patient consultation summary"),
      s.start_time.GetOr(now),
      DefaultAudioUrl(s.id))
  }

  /** The sessions of `patientId`, in stored order. Their audio URL is always
      the default one, whatever chunks have been notified. */
  function SessionsOfPatient(sessions: seq<Session>, patientId: string, now: string): (r: seq<PatientSessionView>)
    ensures |r| <= |sessions|
    ensures forall v :: v in r ==> v.audio_url == DefaultAudioUrl(v.id)
    ensures forall v :: v in r ==>
      exists s :: s in sessions && s.patient_id == patientId && PatientSessionViewOf(s, now) == v
    ensures forall s :: s in sessions && s.patient_id == patientId ==> PatientSessionViewOf(s, now) in r
  {
    if sessions == [] then []
    else (if sessions[0].patient_id == patientId then [PatientSessionViewOf(sessions[0], now)] else []) +
         SessionsOfPatient(sessions[1..], patientId, now)
  }

  lemma {:induction false} SessionsOfPatientAppend(a: seq<Session>, b: seq<Session>, patientId: string, now: string)
    ensures SessionsOfPatient(a + b, patientId, now) ==
            SessionsOfPatient(a, patientId, now) + SessionsOfPatient(b, patientId, now)
  {
    if a == [] {
      assert a + b == b;
    } else {
      assert (a + b)[1..] == a[1..] + b;
      SessionsOfPatientAppend(a[1..], b, patientId, now);
    }
  }

  /** An uploaded session shows up last for its patient, with the date cut from
      its start time and the empty summary kept (`??` replaces only null). */
  lemma UploadedSessionListedForPatient(sessions: seq<Session>, req: UploadSessionRequest, uuid: string, now: string)
    requires ValidUploadSession(req)
    ensures SessionsOfPatient(sessions + [NewSession(req, uuid)], req.patientId.value, now) ==
            SessionsOfPatient(sessions, req.patientId.value, now) +
            [PatientSessionView(SessionIdPrefix + uuid, Slice(req.startTime.value, 10), InitialTitle, "",
                                req.startTime.value, DefaultAudioUrl(SessionIdPrefix + uuid))]
  {
    var s := NewSession(req, uuid);
    SessionsOfPatientAppend(sessions, [s], req.patientId.value, now);
    assert SessionsOfPatient([s], req.patientId.value, now) ==
           [PatientSessionViewOf(s, now)] + SessionsOfPatient([s][1..], req.patientId.value, now);
  }

  // ---------------------------------------------------------------------
  // GET /v1/all-session?userId=...
  // ---------------------------------------------------------------------

  /** The audio URL of a session: the public URL of the earliest notification
      for it (whatever its chunk number), or the default URL when none exists.
      The public URL is not validated, so it may be absent. */
  function AudioUrl(notes: seq<ChunkNotification>, id: string): (url: Option<string>)
    ensures (forall j :: 0 <= j < |notes| ==> notes[j].sessionId != Some(id)) ==>
              url == Some(DefaultAudioUrl(id))
    ensures forall i :: 0 <= i < |notes| && notes[i].sessionId == Some(id) &&
                        (forall j :: 0 <= j < i ==> notes[j].sessionId != Some(id)) ==>
              url == notes[i].publicUrl
  {
    match FirstIndex(notes, (c: ChunkNotification) => c.sessionId == Some(id))
    case Some(i) => notes[i].publicUrl
    case None => Some(DefaultAudioUrl(id))
  }

  /** Once a session has a notification, later notifications never change its audio URL. */
  lemma AudioUrlFixedByEarliest(notes: seq<ChunkNotification>, n: ChunkNotification, id: string)
    requires exists j :: 0 <= j < |notes| && notes[j].sessionId == Some(id)
    ensures AudioUrl(notes + [n], id) == AudioUrl(notes, id)
  {
    var i := FirstIndex(notes, (c: ChunkNotification) => c.sessionId == Some(id)).value;
    var all := notes + [n];
    assert all[i] == notes[i];
    assert forall j :: 0 <= j < i ==> all[j] == notes[j];
  }

  /** The first notification for a session sets its audio URL. */
  lemma AudioUrlFromFirstNotification(notes: seq<ChunkNotification>, n: ChunkNotification, id: string)
    requires forall j :: 0 <= j < |notes| ==> notes[j].sessionId != Some(id)
    requires n.sessionId == Some(id)
    ensures AudioUrl(notes + [n], id) == n.publicUrl
  {
    var all := notes + [n];
    assert all[|notes|] == n;
    assert forall j :: 0 <= j < |notes| ==> all[j] == notes[j];
  }

  /** Arrival order decides, not chunk number: chunk 1 arriving before chunk 0
      gives chunk 1's URL. */
  lemma EarliestArrivalNotLowestChunk(id: string, url0: string, url1: string)
    ensures AudioUrl([ChunkNotification(Some(id), Some("c1"), Some(1), false, Some(url1)),
                      ChunkNotification(Some(id), Some("c0"), Some(0), false, Some(url0))], id) == Some(url1)
  {
  }

  datatype SessionView = SessionView(
    id: string,
    user_id: string,
    patient_id: string,
    session_title: string,
    session_summary: string,
    transcript_status: string,
    transcript: string,
    status: string,
    date: string,
    start_time: string,
    end_time: string,
    patient_name: string,
    pronouns: string,
    patient_pronouns: string,
    audio_url: Option<string>)

  /** The first patient with the session's patient id, if any. */
  function PatientOf(patients: seq<Patient>, s: Session): Option<Patient> {
    Find(patients, (p: Patient) => p.id == s.patient_id)
  }

  function PronounsOf(patient: Option<Patient>): string {
    match patient
    case Some(p) => p.pronouns.GetOr(DefaultPronouns)
    case None => DefaultPronouns
  }

  /** One entry of the all-session listing: stored fields with their defaults,
      the patient's name and pronouns, and the audio URL. */
  function SessionViewOf(s: Session, patients: seq<Patient>, notes: seq<ChunkNotification>, now: string): (v: SessionView)
    ensures v.id == s.id && v.user_id == s.user_id && v.patient_id == s.patient_id
    ensures v.pronouns == v.patient_pronouns && v.audio_url == AudioUrl(notes, s.id)
    ensures PatientOf(patients, s).Some? ==>
      v.patient_name == PatientOf(patients, s).value.name &&
      v.pronouns == PatientOf(patients, s).value.pronouns.GetOr(DefaultPronouns)
    ensures PatientOf(patients, s).None? ==> v.patient_name == UnknownPatient && v.pronouns == DefaultPronouns
    ensures s.session_title.Some? ==> v.session_title == s.session_title.value
    ensures s.session_summary.Some? ==> v.session_summary == s.session_summary.value
    ensures s.transcript_status.Some? ==> v.transcript_status == s.transcript_status.value
    ensures s.transcript.Some? ==> v.transcript == s.transcript.value
    ensures s.status.Some? ==> v.status == s.status.value
    ensures s.date.Some? ==> v.date == s.date.value
    ensures s.start_time.Some? ==> v.start_time == s.start_time.value
    ensures s.end_time.Some? ==> v.end_time == s.end_time.value
    ensures s.session_title.None? ==> v.session_title == InitialTitle
    ensures s.session_summary.None? ==> v.session_summary == "Patient consultation summary"
    ensures s.transcript_status.None? ==> v.transcript_status == Completed
    ensures s.transcript.None? ==> v.transcript == FullTranscript
    ensures s.status.None? ==> v.status == Completed
    ensures s.date.None? ==> v.date == Slice(now, 10)
    ensures s.start_time.None? ==> v.start_time == now
    ensures s.end_time.None? ==> v.end_time == now
  {
    var patient := PatientOf(patients, s);
    SessionView(
      id := s.id,
      user_id := s.user_id,
      patient_id := s.patient_id,
      session_title := s.session_title.GetOr(InitialTitle),
      session_summary := s.session_summary.GetOr("Patient consultation summary"),
      transcript_status := s.transcript_status.GetOr(Completed),
      transcript := s.transcript.GetOr(FullTranscript),
      status := s.status.GetOr(Completed),
      date := s.date.GetOr(Slice(now, 10)),
      start_time := s.start_time.GetOr(now),
      end_time := s.end_time.GetOr(now),
      patient_name := if patient.Some? then patient.value.name else UnknownPatient,
      pronouns := PronounsOf(patient),
      patient_pronouns := PronounsOf(patient),
      audio_url := AudioUrl(notes, s.id))
  }

  /** A session whose patient is not on record is shown as "Unknown", "he/him". */
  lemma MissingPatientShownUnknown(s: Session, patients: seq<Patient>, notes: seq<ChunkNotification>, now: string)
    requires forall p :: p in patients ==> p.id != s.patient_id
    ensures SessionViewOf(s, patients, notes, now).patient_name == UnknownPatient
    ensures SessionViewOf(s, patients, notes, now).pronouns == DefaultPronouns
  {
  }

  /** For a stored session the defaults never show except one: a session that
      is still pending reports the current time as its end time. */
  lemma WellFormedSessionView(s: Session, patients: seq<Patient>, notes: seq<ChunkNotification>, now: string)
    requires WellFormedSession(s)
    ensures var v := SessionViewOf(s, patients, notes, now);
      v.session_title == InitialTitle && v.session_summary == "" &&
      v.status == s.status.value && v.start_time == s.start_time.value &&
      v.date == Slice(s.start_time.value, 10) && v.transcript == s.transcript.value &&
      (v.transcript == "" <==> IsPending(s)) &&
      (v.transcript_status == Pending || v.transcript_status == Completed) &&
      (v.transcript_status == Pending <==> IsPending(s)) &&
      v.end_time == (if IsPending(s) then now else s.end_time.value)
  {
  }

  /** For a session without a title the two listings disagree: all-session
      shows "Initial Consultation", fetch-session-by-patient "Consultation". */
  lemma TitleDefaultsDiffer(s: Session, patients: seq<Patient>, notes: seq<ChunkNotification>, now: string)
    requires s.session_title.None?
    ensures SessionViewOf(s, patients, notes, now).session_title == InitialTitle
    ensures PatientSessionViewOf(s, now).session_title == "Consultation"
    ensures SessionViewOf(s, patients, notes, now).session_title != PatientSessionViewOf(s, now).session_title
  {
  }

  /** The sessions owned by `userId`, in stored order, each rendered. */
  function AllSessionViews(sessions: seq<Session>, patients: seq<Patient>, notes: seq<ChunkNotification>,
                           userId: string, now: string): (r: seq<SessionView>)
    ensures |r| <= |sessions|
    ensures forall v :: v in r ==> v.user_id == userId
    ensures forall v :: v in r ==>
      exists s :: s in sessions && s.user_id == userId && SessionViewOf(s, patients, notes, now) == v
    ensures forall s :: s in sessions && s.user_id == userId ==> SessionViewOf(s, patients, notes, now) in r
  {
    if sessions == [] then []
    else (if sessions[0].user_id == userId then [SessionViewOf(sessions[0], patients, notes, now)] else []) +
         AllSessionViews(sessions[1..], patients, notes, userId, now)
  }

  lemma {:induction false} AllSessionViewsAppend(a: seq<Session>, b: seq<Session>, patients: seq<Patient>,
                                                 notes: seq<ChunkNotification>, userId: string, now: string)
    ensures AllSessionViews(a + b, patients, notes, userId, now) ==
            AllSessionViews(a, patients, notes, userId, now) + AllSessionViews(b, patients, notes, userId, now)
  {
    if a == [] {
      assert a + b == b;
    } else {
      assert (a + b)[1..] == a[1..] + b;
      AllSessionViewsAppend(a[1..], b, patients, notes, userId, now);
    }
  }

  /** An uploaded session appears last in its user's listing: pending, with the
      client's status, an empty transcript and the default audio URL until a
      chunk for it is notified. */
  lemma UploadedSessionInAllSession(sessions: seq<Session>, patients: seq<Patient>, notes: seq<ChunkNotification>,
                                    req: UploadSessionRequest, uuid: string, now: string)
    requires ValidUploadSession(req)
    requires forall j :: 0 <= j < |notes| ==> notes[j].sessionId != Some(SessionIdPrefix + uuid)
    ensures var s := NewSession(req, uuid);
      var all := AllSessionViews(sessions + [s], patients, notes, req.userId.value, now);
      all[..|all| - 1] == AllSessionViews(sessions, patients, notes, req.userId.value, now) &&
      all[|all| - 1] == SessionViewOf(s, patients, notes, now) &&
      all[|all| - 1].status == req.status.value &&
      all[|all| - 1].transcript_status == Pending && all[|all| - 1].transcript == "" &&
      all[|all| - 1].audio_url == Some(DefaultAudioUrl(SessionIdPrefix + uuid))
  {
    var s := NewSession(req, uuid);
    AllSessionViewsAppend(sessions, [s], patients, notes, req.userId.value, now);
    assert AllSessionViews([s], patients, notes, req.userId.value, now) ==
           [SessionViewOf(s, patients, notes, now)] + AllSessionViews([s][1..], patients, notes, req.userId.value, now);
  }

  /** After a terminal chunk, the listing shows the completed session with the
      end time of that notification. */
  lemma CompletedSessionInAllSession(sessions: seq<Session>, patients: seq<Patient>, notes: seq<ChunkNotification>,
                                     i: nat, t: string, now: string)
    requires i < |sessions|
    requires forall j :: 0 <= j < i ==> sessions[j].id != sessions[i].id
    ensures var v := SessionViewOf(CompleteFirst(sessions, sessions[i].id, t)[i], patients, notes, now);
      v.status == Completed && v.transcript_status == Completed &&
      v.transcript == FullTranscript && v.end_time == t && v.id == sessions[i].id
  {
  }

  // ---------------------------------------------------------------------
  // patientMap: filled by a loop over the patients
  // ---------------------------------------------------------------------

  datatype PatientSummary = PatientSummary(name: string, pronouns: string)

  function Summary(p: Patient): PatientSummary {
    PatientSummary(p.name, p.pronouns.GetOr(DefaultPronouns))
  }

  /** The map the loop leaves: every patient's id, bound to the summary of the
      last patient with that id. */
  function PatientMapOf(patients: seq<Patient>): (m: map<string, PatientSummary>)
    ensures forall i :: 0 <= i < |patients| ==> patients[i].id in m
    ensures forall k :: k in m ==> exists i :: 0 <= i < |patients| && patients[i].id == k
  {
    if patients == [] then map[]
    else
      var last := patients[|patients| - 1];
      PatientMapOf(patients[..|patients| - 1])[last.id := Summary(last)]
  }

  /** `patients.forEach((p) => { patientMap[p.id] = ... })` */
  method BuildPatientMap(patients: seq<Patient>) returns (m: map<string, PatientSummary>)
    ensures m == PatientMapOf(patients)
  {
    m := map[];
    var i := 0;
    while i < |patients|
      invariant 0 <= i <= |patients|
      invariant m == PatientMapOf(patients[..i])
    {
      assert patients[..i + 1][..i] == patients[..i];
      m := m[patients[i].id := Summary(patients[i])];
      i := i + 1;
    }
    assert patients[..i] == patients;
  }

  /** Later patients overwrite earlier ones with the same id. */
  lemma {:induction false} PatientMapLastWins(patients: seq<Patient>, i: nat)
    requires i < |patients|
    requires forall j :: i < j < |patients| ==> patients[j].id != patients[i].id
    ensures PatientMapOf(patients)[patients[i].id] == Summary(patients[i])
  {
    if i < |patients| - 1 {
      var init := patients[..|patients| - 1];
      assert init[i] == patients[i];
      PatientMapLastWins(init, i);
    }
  }

  /** With unique patient ids, the map and the per-session lookup agree on
      name and pronouns. */
  lemma PatientMapAgreesWithLookup(s: Session, patients: seq<Patient>, notes: seq<ChunkNotification>, now: string)
    requires forall i, j :: 0 <= i < j < |patients| ==> patients[i].id != patients[j].id
    requires s.patient_id in PatientMapOf(patients)
    ensures PatientMapOf(patients)[s.patient_id].name == SessionViewOf(s, patients, notes, now).patient_name
    ensures PatientMapOf(patients)[s.patient_id].pronouns == SessionViewOf(s, patients, notes, now).pronouns
  {
    MapHoldsPatientOf(patients, s);
  }

  /** With unique ids, the patient `find` returns is the one the map holds. */
  lemma MapHoldsPatientOf(patients: seq<Patient>, s: Session)
    requires forall i, j :: 0 <= i < j < |patients| ==> patients[i].id != patients[j].id
    requires s.patient_id in PatientMapOf(patients)
    ensures PatientOf(patients, s).Some?
    ensures PatientMapOf(patients)[s.patient_id] == Summary(PatientOf(patients, s).value)
  {
    var k := FirstIndex(patients, (p: Patient) => p.id == s.patient_id).value;
    PatientMapLastWins(patients, k);
  }

  /** With a repeated id they disagree: the map keeps the last patient, the
      listing's `find` the first. */
  lemma DuplicateIdsDisagree()
    ensures var ps := [Patient("p", "A", "u", None), Patient("p", "B", "u", None)];
      var s := Session("s", "u", "p", None, None, None, None, None, None, None, None);
      PatientMapOf(ps)["p"].name == "B" && SessionViewOf(s, ps, [], "").patient_name == "A"
  {
  }

  datatype AllSessions = AllSessions(sessions: seq<SessionView>, patientMap: map<string, PatientSummary>)
}
