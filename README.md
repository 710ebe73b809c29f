# Medical copilot demo backend, modelled in Dafny

The backend of the medical copilot app is a small Express server. A mobile
client uses it to record a consultation in chunks. The server keeps four
in-memory arrays (users, patients, sessions and a ledger of chunk-arrival
notifications) and serves:

- a bearer-token middleware;
- three write routes: add-patient, upload-session (opens a recording session)
  and notify-chunk-uploaded (logs a chunk and, for the terminal chunk,
  completes the session);
- get-presigned-url, which computes where a chunk is to be stored;
- read routes that filter the arrays, fill in defaults and choose a session's
  audio URL.

The model has one module per concern:

- `Js` (js.dfy): JavaScript semantics the handlers rely on. Absent fields
  are `Option`, `!x` is `Truthy`, `find` is `FirstIndex`/`Find`, and it covers
  ASCII `toLowerCase`, `slice(0, n)` and integer rendering with its inverse.
- `Http` (http.dfy): the replies (200, 201, 400, 401, 404).
- `Auth` (auth.dfy): the middleware.
- `Store` (store.dfy): the records and request bodies. It also holds what
  each write route stores or changes, and the shape every stored record keeps.
- `Presign` (presign.dfy): get-presigned-url and the storage-path scheme.
- `Reads` (reads.dfy): the read routes. The `patientMap` loop is a method
  proved against a function.
- `Server` (server.dfy): the class `Backend`. Its fields are the arrays,
  with one method per write handler and one for all-session.

`randomUUID()` and `new Date().toISOString()` are parameters (`uuid`, `now`).

What the code does, and does not do, about the recording lifecycle:

- A session has no recording, finalizing or failed state, and nothing looks
  for gaps between chunks. A session keeps the client's `status` string until
  a notification with `isLast` sets it to "completed". `IsPending` and
  `IsCompleted` are the only two shapes a stored session takes.
- On completion `transcript_status` becomes "completed".
- Notifications are not de-duplicated. Each one grows the ledger, and a
  repeated terminal one rewrites `end_time` (`Store.CompleteTwice`).
- A negative chunk number and an unknown MIME type are not rejected.
- The audio URL is the `publicUrl` of the earliest-arrived notification. The
  chunks are never joined, in chunk-number order or any other.

## Model

| member | source | states |
|---|---|---|
| `Auth.Authenticate` | backend/src/index.ts:13-31 | `/` and `/health` always pass. Elsewhere a missing header is refused, and every refusal is 401 with error "Unauthorized" and details "Missing bearer token". |
| `Auth.AuthenticateIff` | backend/src/index.ts:15-22 | A request passes iff its path is open or its header's first seven characters are "bearer " in any letter case. |
| `Auth.AnyBearerTokenPasses` | backend/src/index.ts:19-30 | The token itself is never checked: any capitalisation of "Bearer", a space and anything after it passes. |
| `Auth.BasicSchemeRejected` | backend/src/index.ts:19-22 | A "Basic" header gets 401 on every non-open path. |
| `Js.Slice` | backend/src/index.ts:250 | `slice(0, 10)` gives a prefix of the string of length min(10, length). |
| `Presign.ChunkPath` | backend/src/index.ts:271 | The path starts with "sessions/" and the session id, ends with ".wav", and after the id holds exactly one '/', the one before "chunk_". |
| `Js.IntToDecimalRoundTrip` | backend/src/index.ts:271 | The rendered chunk number, sign included, reads back as the same integer. |
| `Store.NewPatient` | backend/src/index.ts:123-128 | The new patient has id "patient_" + uuid, the given name and owner, and null pronouns. |
| `Store.NewSession` | backend/src/index.ts:240-253 | The new session has id "session_" + uuid and the given user, patient, status and start time. Its date is the first ≤10 characters of the start time. It is pending and well formed. |
| `Store.MarkCompleted` | backend/src/index.ts:291-294 | The terminal chunk sets status, transcript_status, transcript and end_time (= now). Every other field is unchanged. |
| `Store.CompleteFirst` | backend/src/index.ts:288-296 | Only the first session with the id changes, by `MarkCompleted`. All others are unchanged, and nothing changes when no session matches. |
| `Store.CompleteFirstPreserves` | backend/src/index.ts:288-296 | Completion keeps every session well formed and keeps ids, owners and patients in place. A completed session stays completed. |
| `Store.CompleteTwice` | backend/src/index.ts:288-296 | Two terminal notifications for one session equal one at the later time: only end_time moves. |
| `Presign.GetPresignedUrl` | backend/src/index.ts:260-276 | 400 iff sessionId is missing or empty, chunkNumber is absent, or mimeType is missing or empty. Every refusal is 400 with error "Bad Request". Otherwise gcsPath is exactly `ChunkPath(sessionId, chunkNumber)` and decodes back to that pair, url = bucket prefix + gcsPath, and publicUrl = url. |
| `Presign.ChunkPathRoundTrip` | backend/src/index.ts:271 | `sessions/<id>/chunk_<n>.wav` parses back to exactly (id, n) for every id and every integer n, within the range where JavaScript prints n as plain digits (see Left out). |
| `Presign.ChunkPathInjective` | backend/src/index.ts:271 | Distinct (session, chunk) pairs never share a storage path. |
| `Presign.MimeTypeIgnored` | backend/src/index.ts:267-275 | Two non-empty MIME types give the same reply. |
| `Presign.NegativeChunkAccepted` | backend/src/index.ts:267-271 | Chunk number -1 is accepted and yields `chunk_-1.wav`. |
| `Reads.LookupUserId` | backend/src/index.ts:98-101 | The id of the first user whose lower-cased e-mail equals the lower-cased query. If none matches, the first user's id. |
| `Reads.SeedLookupIsConstant` | backend/src/index.ts:73-75 | With the seeded users, every query resolves to "user_123". |
| `Reads.PatientsOfUser` | backend/src/index.ts:105-114 | Lists exactly the patients whose user_id equals the query. Pronouns are passed through, null staying null. The route is `ListPatients`, which filters by "" when userId is absent. |
| `Reads.PatientsOfUserAppend` | backend/src/index.ts:107 | The filter distributes over concatenation, so the list keeps stored order. |
| `Reads.AddedPatientListedLast` | backend/src/index.ts:123-129 | After add-patient, the new patient is last in its owner's list. |
| `Reads.MissingUserIdListsNothing` | backend/src/index.ts:106-107 | `ListPatients` with an absent userId lists nobody when every stored patient has an owner. |
| `Reads.PatientDetails` | backend/src/index.ts:136-153 | 404 iff no patient has the id. Otherwise the first such patient's name, with pronouns defaulting to "he/him". The 404 carries error "Not Found". |
| `Reads.AddedPatientDetails` | backend/src/index.ts:138-145 | A freshly added patient is found by its new id and shown with "he/him". |
| `Reads.PatientSessionViewOf` | backend/src/index.ts:160-167 | The entry keeps the session's id and uses the default audio URL (`DefaultAudioUrl`, `.../sessions/<id>/audio.wav`). A present date, start time, title or summary is shown as stored. An absent one shows the clock's date, the clock, "Consultation" or "Patient consultation summary". For a stored session none of these defaults shows. |
| `Reads.TitleDefaultsDiffer` | backend/src/index.ts:163-193 | For a session without a title, all-session shows "Initial Consultation" and fetch-session-by-patient shows "Consultation". |
| `Reads.SessionsOfPatient` | backend/src/index.ts:156-169 | Lists exactly the sessions of the patient. The audio URL is always the default one. |
| `Reads.SessionsOfPatientAppend` | backend/src/index.ts:158 | The listing keeps stored order. |
| `Reads.UploadedSessionListedForPatient` | backend/src/index.ts:160-166 | An uploaded session is listed last for its patient. It shows the sliced date, "Initial Consultation" and the empty summary, which is not replaced by the default. |
| `Reads.AudioUrl` | backend/src/index.ts:184-187 | With no notification for the session, the audio URL is `DefaultAudioUrl(id)`, `.../sessions/<id>/audio.wav`. Otherwise it is the publicUrl of the earliest-arrived one. |
| `Reads.AudioUrlFixedByEarliest` | backend/src/index.ts:184-186 | Once a session has a notification, later ones never change its audio URL. |
| `Reads.AudioUrlFromFirstNotification` | backend/src/index.ts:184-186 | The first notification for a session sets its audio URL to that notification's publicUrl, which may be absent. |
| `Reads.EarliestArrivalNotLowestChunk` | backend/src/index.ts:184-186 | Chunk 1 arriving before chunk 0 gives chunk 1's URL. |
| `Reads.SessionViewOf` | backend/src/index.ts:189-213 | The entry keeps the session's ids, and its audio URL is `AudioUrl`. Each of the eight optional fields is shown as stored when present. When absent, they show "Initial Consultation", "Patient consultation summary", "completed", "Full transcript text...", "completed", the clock's date, the clock and the clock. Name and pronouns are those of the patient `find` returns, else "Unknown" and "he/him", and `patient_pronouns` equals `pronouns`. |
| `Reads.MissingPatientShownUnknown` | backend/src/index.ts:201-202 | A session whose patient is missing shows "Unknown" and "he/him". |
| `Reads.WellFormedSessionView` | backend/src/index.ts:193-200 | For a stored session, the title, summary, status, start time, date and transcript are the stored ones. The transcript is empty exactly when the session is pending, and transcript_status is "pending" or "completed". The only default used is end_time = now for a pending session. |
| `Reads.AllSessionViews` | backend/src/index.ts:172-214 | Lists exactly the sessions whose user_id equals the query, each rendered by `SessionViewOf`. |
| `Reads.AllSessionViewsAppend` | backend/src/index.ts:174 | The listing keeps stored order. |
| `Reads.UploadedSessionInAllSession` | backend/src/index.ts:189-200 | An uploaded session is listed last for its user. It shows the client's status, "pending", an empty transcript and the default audio URL. |
| `Reads.CompletedSessionInAllSession` | backend/src/index.ts:288-294 | After a terminal chunk, the session is listed as completed, with the full-transcript text and that notification's time as end_time. |
| `Reads.PatientMapOf` | backend/src/index.ts:176-179 | The keys of patientMap are exactly the patients' ids. |
| `Reads.BuildPatientMap` | backend/src/index.ts:176-179 | The forEach loop builds exactly `PatientMapOf(patients)`. |
| `Reads.PatientMapLastWins` | backend/src/index.ts:177-179 | Each id is bound to the summary of the last patient with that id. |
| `Reads.PatientMapAgreesWithLookup` | backend/src/index.ts:201-202 | With unique patient ids, patientMap and the per-session lookup agree on name and pronouns. |
| `Reads.MapHoldsPatientOf` | backend/src/index.ts:176-202 | With unique ids, the patient `find` returns for a session is the one whose summary the map holds. |
| `Reads.DuplicateIdsDisagree` | backend/src/index.ts:177-201 | With a repeated id, patientMap holds the last patient and patient_name the first. |
| `Server.Backend.constructor` | backend/src/index.ts:73-87 | The seeded stores are one user, one patient, no sessions and an empty ledger. |
| `Server.Backend.AddPatientExt` | backend/src/index.ts:118-133 | A missing or empty name or userId gives 400 and no change. Otherwise exactly one patient is appended, and the other arrays are unchanged. |
| `Server.Backend.UploadSession` | backend/src/index.ts:226-257 | If any of the six fields is missing or empty, 400 and no change. Otherwise exactly one `NewSession` is appended, and 201 returns its id. |
| `Server.Backend.NotifyChunkUploaded` | backend/src/index.ts:279-299 | An invalid body gives 400 and changes nothing. A valid one is appended to the ledger even for an unknown session or a repeated chunk. With isLast, the sessions become `CompleteFirst`; otherwise they are unchanged. |
| `Server.Backend.AllSession` | backend/src/index.ts:172-217 | Replies with `AllSessionViews` for the query and the map `PatientMapOf(patients)`. |
| `Server.PresignedUrlBecomesAudioUrl` | backend/src/index.ts:271-275 | A chunk's presigned URL, reported back in the session's first notification, becomes the session's audio URL. |

## Left out

- Express wiring is not modelled: `cors()`, JSON body parsing, router mounting, `app.listen`, and the `/` and `/health` info replies. The middleware sees the request path as a plain string.
- The templates endpoint and the fixed profile strings (email, background, histories, duration, clinical_notes) are not modelled. They are constant data.
- `randomUUID()` and the clock are parameters. Uniqueness of generated ids is not assumed: every lookup takes the first match, as `find` does.
- The all-session and fetch-session-by-patient routes read the clock separately for date, start_time and end_time. The model uses one `now` per request, so reads that straddle a millisecond or a day boundary are not modelled.
- `Js.Lower` lower-cases ASCII letters only. `toLowerCase` also folds other Unicode letters. None of them lower-cases to a letter of "bearer ", so the middleware is unaffected. In `Reads.LookupUserId` the difference would matter for non-ASCII e-mails: a stored "É@x.com" matches the query "é@x.com" in JavaScript but not in the model. It cannot be observed with the one seeded user, whose e-mail is ASCII (backend/src/index.ts:73-75).
- `Js.Slice` counts Unicode scalar values. JavaScript's `slice` counts UTF-16 code units, so the two differ only for start times holding characters outside the Basic Multilingual Plane.
- Request fields are modelled as absent or a string, and chunkNumber as absent or an integer. Other JSON types are not modelled: a number sent as a name, a non-integer, NaN or infinite chunkNumber (and how JavaScript renders it), or a non-string `startTime` that would make `slice` throw.
- `Js.IntToDecimal` renders every integer exactly. In JavaScript `chunkNumber` is a double: a JSON integer above 2^53 is rounded when parsed, and from 10^21 upward a template literal prints exponent form ("1e+21"). For such chunk numbers the source's `gcsPath` differs from `Presign.ChunkPath`, so the path, round-trip and injectivity statements hold only for chunk numbers of magnitude below 2^53.
- `Reads.LookupUserId` requires a non-empty user list. The source's list is a constant with one entry, and with an empty list `users[0].id` would throw.
- `isLast` is modelled as the truthiness of the field, a boolean.
- The ledger stores the notification body verbatim. The model keeps only the fields something reads (sessionId, gcsPath, chunkNumber, isLast, publicUrl), not totalChunksClient, mimeType, selectedTemplate, selectedTemplateId or model.
- `Reads.PatientMapOf`: a Dafny map has no key order, so the insertion order of the JSON object is not captured.
- backend/dist/index.js is the compiled form of the same file and is not part of this model. The Android and iOS native code and the build configuration are not part of this model either.
- Concurrency is not modelled: handlers run one at a time on Node's event loop, and no bytes are stored.
