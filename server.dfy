/** The backend's mutable state: the users, patients, sessions and chunk
    notification arrays, and the route handlers that push to them or update
    a session in place. */
module Server {
  import opened Js
  import opened Http
  import opened Store
  import opened Reads
  import opened Presign

  const NameAndUserIdRequired := "name and userId are required"
  const MissingRequiredFields := "Missing required fields"
  const InvalidChunkNotification := "Invalid chunk notification"

  class Backend {
    const users: seq<User>
    var patients: seq<Patient>
    var sessions: seq<Session>
    var chunkNotifications: seq<ChunkNotification>

    /** What every handler keeps: each record has the shape its write route gives it. */
    ghost predicate Valid()
      reads this
    {
      users != [] &&
      (forall i :: 0 <= i < |patients| ==> WellFormedPatient(patients[i])) &&
      (forall i :: 0 <= i < |sessions| ==> WellFormedSession(sessions[i])) &&
      (forall i :: 0 <= i < |chunkNotifications| ==> ValidNotification(chunkNotifications[i]))
    }

    /** The seeded stores: one user, one patient, no sessions, an empty ledger. */
    constructor ()
      ensures Valid()
      ensures users == SeedUsers && patients == SeedPatients
      ensures sessions == [] && chunkNotifications == []
    {
      users := SeedUsers;
      patients := SeedPatients;
      sessions := [];
      chunkNotifications := [];
    }

    /** POST /v1/add-patient-ext; `uuid` stands for `randomUUID()`. */
    method AddPatientExt(req: AddPatientRequest, uuid: string) returns (reply: Reply<Patient>)
      requires Valid()
      modifies this
      ensures Valid()
      ensures sessions == old(sessions) && chunkNotifications == old(chunkNotifications)
      ensures !ValidAddPatient(req) ==>
        reply == BadRequest(NameAndUserIdRequired) && patients == old(patients)
      ensures ValidAddPatient(req) ==>
        var p := NewPatient(req.name.value, req.userId.value, uuid);
        reply == Created(p) && patients == old(patients) + [p]
    {
      if !ValidAddPatient(req) {
        return BadRequest(NameAndUserIdRequired);
      }
      var patient := NewPatient(req.name.value, req.userId.value, uuid);
      patients := patients + [patient];
      reply := Created(patient);
    }

    /** POST /v1/upload-session; `uuid` stands for `randomUUID()`. */
    method UploadSession(req: UploadSessionRequest, uuid: string) returns (reply: Reply<string>)
      requires Valid()
      modifies this
      ensures Valid()
      ensures patients == old(patients) && chunkNotifications == old(chunkNotifications)
      ensures !ValidUploadSession(req) ==>
        reply == BadRequest(MissingRequiredFields) && sessions == old(sessions)
      ensures ValidUploadSession(req) ==>
        reply == Created(SessionIdPrefix + uuid) && sessions == old(sessions) + [NewSession(req, uuid)]
    {
      if !ValidUploadSession(req) {
        return BadRequest(MissingRequiredFields);
      }
      var session := NewSession(req, uuid);
      sessions := sessions + [session];
      reply := Created(session.id);
    }

    /** POST /v1/notify-chunk-uploaded; `now` stands for the clock. Every valid
        notification is appended to the ledger; a terminal one completes the
        first session with its id, if there is one. */
    method NotifyChunkUploaded(body: ChunkNotification, now: string) returns (reply: Reply<()>)
      requires Valid()
      modifies this
      ensures Valid()
      ensures patients == old(patients)
      ensures !ValidNotification(body) ==>
        reply == BadRequest(InvalidChunkNotification) &&
        sessions == old(sessions) && chunkNotifications == old(chunkNotifications)
      ensures ValidNotification(body) ==>
        reply == Ok(()) && chunkNotifications == old(chunkNotifications) + [body] &&
        sessions == if body.isLast then CompleteFirst(old(sessions), body.sessionId.value, now)
                    else old(sessions)
    {
      if !ValidNotification(body) {
        return BadRequest(InvalidChunkNotification);
      }
      chunkNotifications := chunkNotifications + [body];
      if body.isLast {
        CompleteFirstPreserves(sessions, body.sessionId.value, now);
        match SessionIndex(sessions, body.sessionId.value)
        case Some(i) =>
          sessions := sessions[i := MarkCompleted(sessions[i], now)];
        case None =>
      }
      reply := Ok(());
    }

    /** GET /v1/all-session; `now` stands for the clock that fills absent times. */
    method AllSession(userId: Option<string>, now: string) returns (reply: Reply<AllSessions>)
      ensures reply.Ok?
      ensures reply.body.sessions == AllSessionViews(sessions, patients, chunkNotifications, userId.GetOr(""), now)
      ensures reply.body.patientMap == PatientMapOf(patients)
    {
      var patientMap := BuildPatientMap(patients);
      var list := AllSessionViews(sessions, patients, chunkNotifications, userId.GetOr(""), now);
      reply := Ok(AllSessions(list, patientMap));
    }
  }

  /** The URL handed out for a chunk becomes its session's audio URL when the
      client reports that chunk first, with the URL it was given. */
  lemma PresignedUrlBecomesAudioUrl(notes: seq<ChunkNotification>, req: PresignRequest, isLast: bool)
    requires ValidPresignRequest(req)
    requires forall j :: 0 <= j < |notes| ==> notes[j].sessionId != req.sessionId
    ensures GetPresignedUrl(req).Ok?
    ensures var p := GetPresignedUrl(req).body;
      var n := ChunkNotification(req.sessionId, Some(p.gcsPath), req.chunkNumber, isLast, Some(p.publicUrl));
      ValidNotification(n) &&
      AudioUrl(notes + [n], req.sessionId.value) ==
        Some(BucketPrefix + ChunkPath(req.sessionId.value, req.chunkNumber.value))
  {
    var p := GetPresignedUrl(req).body;
    var n := ChunkNotification(req.sessionId, Some(p.gcsPath), req.chunkNumber, isLast, Some(p.publicUrl));
    AudioUrlFromFirstNotification(notes, n, req.sessionId.value);
  }

  /** A recording in two chunks: the first leaves the session pending, the
      terminal one completes it; the audio URL is the first chunk's; a repeated
      terminal notification is logged again and moves only the end time. */
  method TwoChunkRecording(uuid: string, startTime: string, t1: string, t2: string)
    requires startTime != ""
  {
    var backend := new Backend();
    var req := UploadSessionRequest(Some("patient_123"), Some("user_123"), Some("John Doe"),
                                    Some("recording"), Some(startTime), Some("template_123"));
    var created := backend.UploadSession(req, uuid);
    var id := SessionIdPrefix + uuid;
    assert created == Created(id);
    assert backend.sessions == [NewSession(req, uuid)];

    var chunk0 := ChunkNotification(Some(id), Some(ChunkPath(id, 0)), Some(0), false,
                                     Some(BucketPrefix + ChunkPath(id, 0)));
    var r0 := backend.NotifyChunkUploaded(chunk0, t1);
    assert r0 == Ok(());
    assert IsPending(backend.sessions[0]) && backend.sessions[0].status == Some("recording");

    var chunk1 := ChunkNotification(Some(id), Some(ChunkPath(id, 1)), Some(1), true,
                                    Some(BucketPrefix + ChunkPath(id, 1)));
    var r1 := backend.NotifyChunkUploaded(chunk1, t1);
    assert r1 == Ok(());
    assert backend.sessions[0] == MarkCompleted(NewSession(req, uuid), t1);
    assert |backend.chunkNotifications| == 2;

    var r2 := backend.NotifyChunkUploaded(chunk1, t2);
    assert |backend.chunkNotifications| == 3;
    assert backend.sessions[0] == MarkCompleted(NewSession(req, uuid), t2);
    assert backend.chunkNotifications[0] == chunk0;
    assert AudioUrl(backend.chunkNotifications, id) == Some(BucketPrefix + ChunkPath(id, 0));
  }
}
