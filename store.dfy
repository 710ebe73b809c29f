/** The records the backend keeps in its three in-memory arrays, the request
    bodies of the write routes, and what each write route adds or changes. */
module Store {
  import opened Js

  datatype User = User(id: string, email: string)

  datatype Patient = Patient(id: string, name: string, user_id: string, pronouns: Option<string>)

  /** A session record; every field after `patient_id` is optional in the record type. */
  datatype Session = Session(
    id: string,
    user_id: string,
    patient_id: string,
    session_title: Option<string>,
    session_summary: Option<string>,
    transcript_status: Option<string>,
    transcript: Option<string>,
    status: Option<string>,
    date: Option<string>,
    start_time: Option<string>,
    end_time: Option<string>)

  /** A chunk-arrival notification, kept in the ledger exactly as the client sent it. */
  datatype ChunkNotification = ChunkNotification(
    sessionId: Option<string>,
    gcsPath: Option<string>,
    chunkNumber: Option<int>,
    isLast: bool,
    publicUrl: Option<string>)

  datatype AddPatientRequest = AddPatientRequest(name: Option<string>, userId: Option<string>)

  datatype UploadSessionRequest = UploadSessionRequest(
    patientId: Option<string>,
    userId: Option<string>,
    patientName: Option<string>,
    status: Option<string>,
    startTime: Option<string>,
    templateId: Option<string>)

  const PatientIdPrefix := "patient_"
  const SessionIdPrefix := "session_"
  const InitialTitle := "Initial Consultation"
  const Pending := "pending"
  const Completed := "completed"
  const FullTranscript := "Full transcript text..."

  const SeedUsers: seq<User> := [User("user_123", "user@example.com")]
  const SeedPatients: seq<Patient> := [Patient("patient_123", "John Doe", "user_123", Some("he/him"))]

  // ---------------------------------------------------------------------
  // add-patient
  // ---------------------------------------------------------------------

  predicate ValidAddPatient(req: AddPatientRequest) {
    Truthy(req.name) && Truthy(req.userId)
  }

  /** What every stored patient has: a name and an owner. */
  predicate WellFormedPatient(p: Patient) {
    p.name != "" && p.user_id != ""
  }

  /** The patient record add-patient stores; `uuid` stands for `randomUUID()`. */
  function NewPatient(name: string, userId: string, uuid: string): (p: Patient)
    ensures PatientIdPrefix <= p.id && p.id[|PatientIdPrefix|..] == uuid
    ensures p.name == name && p.user_id == userId && p.pronouns == None
  {
    Patient(PatientIdPrefix + uuid, name, userId, None)
  }

  // ---------------------------------------------------------------------
  // upload-session
  // ---------------------------------------------------------------------

  predicate ValidUploadSession(req: UploadSessionRequest) {
    Truthy(req.patientId) && Truthy(req.userId) && Truthy(req.patientName) &&
    Truthy(req.status) && Truthy(req.startTime) && Truthy(req.templateId)
  }

  /** A session that has not been completed by a terminal chunk. */
  predicate IsPending(s: Session) {
    s.transcript_status == Some(Pending) && s.transcript == Some("") && s.end_time == None
  }

  /** A session a terminal chunk notification has completed. */
  predicate IsCompleted(s: Session) {
    s.status == Some(Completed) && s.transcript_status == Some(Completed) &&
    s.transcript == Some(FullTranscript) && s.end_time.Some?
  }

  /** The shape every stored session keeps: the fields upload-session sets,
      and one of the two lifecycle shapes. */
  predicate WellFormedSession(s: Session) {
    SessionIdPrefix <= s.id && s.user_id != "" && s.patient_id != "" &&
    s.session_title == Some(InitialTitle) && s.session_summary == Some("") &&
    Truthy(s.status) && Truthy(s.start_time) && s.date == Some(Slice(s.start_time.value, 10)) &&
    (IsPending(s) || IsCompleted(s))
  }

  /** The session record upload-session stores; `uuid` stands for `randomUUID()`. */
  function NewSession(req: UploadSessionRequest, uuid: string): (s: Session)
    requires ValidUploadSession(req)
    ensures s.id == SessionIdPrefix + uuid
    ensures s.user_id == req.userId.value && s.patient_id == req.patientId.value
    ensures s.status == req.status && s.start_time == req.startTime
    ensures s.date.Some? && s.date.value <= req.startTime.value
    ensures |s.date.value| == if |req.startTime.value| < 10 then |req.startTime.value| else 10
    ensures IsPending(s) && WellFormedSession(s)
  {
    Session(
      id := SessionIdPrefix + uuid,
      user_id := req.userId.value,
      patient_id := req.patientId.value,
      session_title := Some(InitialTitle),
      session_summary := Some(""),
      transcript_status := Some(Pending),
      transcript := Some(""),
      status := req.status,
      date := Some(Slice(req.startTime.value, 10)),
      start_time := req.startTime,
      end_time := None)
  }

  // ---------------------------------------------------------------------
  // notify-chunk-uploaded
  // ---------------------------------------------------------------------

  predicate ValidNotification(n: ChunkNotification) {
    Truthy(n.sessionId) && Truthy(n.gcsPath) && n.chunkNumber.Some?
  }

  /** The four assignments a terminal chunk makes; `now` stands for the clock. */
  function MarkCompleted(s: Session, now: string): (c: Session)
    ensures IsCompleted(c) && c.end_time == Some(now)
    ensures c.(status := s.status, transcript_status := s.transcript_status,
               transcript := s.transcript, end_time := s.end_time) == s
  {
    s.(status := Some(Completed), transcript_status := Some(Completed),
       transcript := Some(FullTranscript), end_time := Some(now))
  }

  /** The position `sessions.find((x) => x.id === id)` stops at. */
  function SessionIndex(sessions: seq<Session>, id: string): Option<nat> {
    FirstIndex(sessions, (s: Session) => s.id == id)
  }

  /** The sessions after a terminal chunk for `id`: the first session with that
      id is completed, nothing else changes, and nothing changes when there is none. */
  function CompleteFirst(sessions: seq<Session>, id: string, now: string): (r: seq<Session>)
    ensures |r| == |sessions|
    ensures (forall j :: 0 <= j < |sessions| ==> sessions[j].id != id) ==> r == sessions
    ensures forall i :: 0 <= i < |sessions| && sessions[i].id == id &&
                        (forall j :: 0 <= j < i ==> sessions[j].id != id) ==>
              r[i] == MarkCompleted(sessions[i], now) &&
              forall j :: 0 <= j < |sessions| && j != i ==> r[j] == sessions[j]
  {
    match SessionIndex(sessions, id)
    case None => sessions
    case Some(i) => sessions[i := MarkCompleted(sessions[i], now)]
  }

  /** Completing a session keeps every stored session well formed, keeps every
      id in place, and never takes a completed session back. */
  lemma CompleteFirstPreserves(sessions: seq<Session>, id: string, now: string)
    requires forall i :: 0 <= i < |sessions| ==> WellFormedSession(sessions[i])
    ensures var r := CompleteFirst(sessions, id, now);
      forall i :: 0 <= i < |r| ==>
        WellFormedSession(r[i]) && r[i].id == sessions[i].id &&
        r[i].user_id == sessions[i].user_id && r[i].patient_id == sessions[i].patient_id &&
        (IsCompleted(sessions[i]) ==> IsCompleted(r[i]))
  {
  }

  /** A second terminal chunk for the same session only moves `end_time`:
      completing twice is completing once at the later time. */
  lemma CompleteTwice(sessions: seq<Session>, id: string, t1: string, t2: string)
    ensures CompleteFirst(CompleteFirst(sessions, id, t1), id, t2) == CompleteFirst(sessions, id, t2)
  {
  }
}
