/** The get-presigned-url route: where a chunk of a recording is to be put.
    Nothing is signed and nothing is registered; the reply is a pure function
    of the session id and the chunk number. */
module Presign {
  import opened Js
  import opened Http

  const BucketPrefix := "https://storage.googleapis.com/demo-bucket/"
  const PathPrefix := "sessions/"
  const ChunkMarker := "/chunk_"
  const PathSuffix := ".wav"
  const InvalidPresignRequest := "Invalid presigned URL request"

  datatype PresignRequest = PresignRequest(sessionId: Option<string>, chunkNumber: Option<int>, mimeType: Option<string>)

  datatype Presigned = Presigned(url: string, gcsPath: string, publicUrl: string)

  /** `sessions/<sessionId>/chunk_<chunkNumber>.wav`. Past the session id the
      path holds exactly one '/', the one that opens "/chunk_". */
  function ChunkPath(sessionId: string, chunkNumber: int): (r: string)
    ensures |r| > |PathPrefix| + |sessionId| + |ChunkMarker| + |PathSuffix|
    ensures PathPrefix <= r && r[|PathPrefix|..|PathPrefix| + |sessionId|] == sessionId
    ensures r[|PathPrefix| + |sessionId|] == '/'
    ensures forall j :: |PathPrefix| + |sessionId| < j < |r| ==> r[j] != '/'
    ensures r[|r| - |PathSuffix|..] == PathSuffix
  {
    PathPrefix + sessionId + ChunkMarker + IntToDecimal(chunkNumber) + PathSuffix
  }

  predicate ValidPresignRequest(req: PresignRequest) {
    Truthy(req.sessionId) && req.chunkNumber.Some? && Truthy(req.mimeType)
  }

  /** Reads a storage path back into the session id and the chunk number it
      names, splitting at the last '/'. */
  function ParseChunkPath(path: string): Option<(string, int)> {
    if |path| < |PathPrefix| + |PathSuffix| || path[..|PathPrefix|] != PathPrefix ||
       path[|path| - |PathSuffix|..] != PathSuffix
    then None
    else
      var middle := path[|PathPrefix| .. |path| - |PathSuffix|];
      match LastIndexOf(middle, '/')
      case None => None
      case Some(k) =>
        if |middle| - k < |ChunkMarker| || middle[k .. k + |ChunkMarker|] != ChunkMarker then None
        else
          match ParseInt(middle[k + |ChunkMarker|..])
          case None => None
          case Some(n) => Some((middle[..k], n))
  }

  function LastIndexOf(s: string, c: char): (r: Option<nat>)
    ensures r.Some? ==> r.value < |s| && s[r.value] == c
    ensures r.Some? ==> forall j :: r.value < j < |s| ==> s[j] != c
    ensures r.None? ==> forall j :: 0 <= j < |s| ==> s[j] != c
  {
    if s == [] then None
    else if s[|s| - 1] == c then Some(|s| - 1)
    else LastIndexOf(s[..|s| - 1], c)
  }

  /** The chunk's storage path names its session and chunk number unambiguously,
      whatever characters the session id holds: the rendered number never
      contains '/', so the last '/' is the one before "chunk_". */
  lemma ChunkPathRoundTrip(sessionId: string, chunkNumber: int)
    ensures ParseChunkPath(ChunkPath(sessionId, chunkNumber)) == Some((sessionId, chunkNumber))
  {
    var d := IntToDecimal(chunkNumber);
    var path := ChunkPath(sessionId, chunkNumber);
    var middle := sessionId + ChunkMarker + d;
    assert path == PathPrefix + middle + PathSuffix;
    assert path[..|PathPrefix|] == PathPrefix;
    assert path[|path| - |PathSuffix|..] == PathSuffix;
    assert path[|PathPrefix| .. |path| - |PathSuffix|] == middle;
    var k := |sessionId|;
    assert middle[k] == '/';
    assert forall j :: k < j < |middle| ==> middle[j] != '/';
    LastIndexOfIs(middle, '/', k);
    assert middle[k .. k + |ChunkMarker|] == ChunkMarker;
    assert middle[k + |ChunkMarker|..] == d;
    assert middle[..k] == sessionId;
    IntToDecimalRoundTrip(chunkNumber);
  }

  lemma {:induction false} LastIndexOfIs(s: string, c: char, k: nat)
    requires k < |s| && s[k] == c
    requires forall j :: k < j < |s| ==> s[j] != c
    ensures LastIndexOf(s, c) == Some(k)
  {
    if k < |s| - 1 {
      LastIndexOfIs(s[..|s| - 1], c, k);
    }
  }

  /** Distinct (session, chunk) pairs never share a storage path. */
  lemma ChunkPathInjective(s1: string, n1: int, s2: string, n2: int)
    requires ChunkPath(s1, n1) == ChunkPath(s2, n2)
    ensures s1 == s2 && n1 == n2
  {
    ChunkPathRoundTrip(s1, n1);
    ChunkPathRoundTrip(s2, n2);
  }

  /** The get-presigned-url route. */
  function GetPresignedUrl(req: PresignRequest): (r: Reply<Presigned>)
    ensures r.Ok? || r == BadRequest(InvalidPresignRequest)
    ensures !r.Ok? ==> r.Status() == 400 && r.ErrorTitle() == "Bad Request"
    ensures r.Ok? <==> ValidPresignRequest(req)
    ensures r.Ok? ==> r.body.url == BucketPrefix + r.body.gcsPath && r.body.publicUrl == r.body.url
    ensures r.Ok? ==> r.body.gcsPath == ChunkPath(req.sessionId.value, req.chunkNumber.value)
    ensures r.Ok? ==> ParseChunkPath(r.body.gcsPath) == Some((req.sessionId.value, req.chunkNumber.value))
  {
    if !ValidPresignRequest(req) then BadRequest(InvalidPresignRequest)
    else
      var gcsPath := ChunkPath(req.sessionId.value, req.chunkNumber.value);
      ChunkPathRoundTrip(req.sessionId.value, req.chunkNumber.value);
      var url := BucketPrefix + gcsPath;
      Ok(Presigned(url, gcsPath, url))
  }

  /** The MIME type is checked for presence only; it does not shape the reply. */
  lemma MimeTypeIgnored(sessionId: Option<string>, chunkNumber: Option<int>, m1: string, m2: string)
    requires m1 != "" && m2 != ""
    ensures GetPresignedUrl(PresignRequest(sessionId, chunkNumber, Some(m1))) ==
            GetPresignedUrl(PresignRequest(sessionId, chunkNumber, Some(m2)))
  {
  }

  /** A negative chunk number is not refused: it yields a path with a minus sign. */
  lemma NegativeChunkAccepted(sessionId: string, mimeType: string)
    requires sessionId != "" && mimeType != ""
    ensures GetPresignedUrl(PresignRequest(Some(sessionId), Some(-1), Some(mimeType))).Ok?
    ensures GetPresignedUrl(PresignRequest(Some(sessionId), Some(-1), Some(mimeType))).body.gcsPath ==
            "sessions/" + sessionId + "/chunk_-1.wav"
  {
    var tail := ChunkMarker + "-1" + PathSuffix;
    assert tail == "/chunk_-1.wav";
    assert IntToDecimal(-1) == "-1";
    assert ChunkPath(sessionId, -1) == PathPrefix + sessionId + tail;
  }
}
