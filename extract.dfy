/** The extraction handler (spotify_api_data_extract.py): one invocation validates
    the configuration, fetches one page of a playlist's tracks, stores it in the
    bucket under a timestamped key and answers with a status code and a message.
    The music API client, the storage client, the clock and JSON serialisation are
    collaborators whose outcomes the model takes as inputs. */
module Extract {
  import opened Wrappers
  import opened Strings
  import opened Config

  // ---------------------------------------------------------------- identifiers

  /** The playlist id taken from a locator: the part of the last `/`-separated
      segment before its first `?`. It is the stretch of the locator that starts
      at its beginning or just after a `/`, runs past no `/` to the end, and stops
      at the end or at a `?`. */
  function PlaylistId(url: string): (id: string)
    ensures '/' !in id && '?' !in id
    ensures exists k ::
      && 0 <= k <= |url| - |id| && url[k..k + |id|] == id
      && (k == 0 || url[k - 1] == '/') && '/' !in url[k..]
      && (k + |id| == |url| || url[k + |id|] == '?')
  {
    var segment := LastPiece(url, '/');
    var id := FirstPiece(segment, '?');
    var k := |url| - |segment|;
    assert url[k..][..|id|] == url[k..k + |id|];
    id
  }

  /** Extracting again from an id gives the same id. */
  lemma PlaylistIdIdempotent(url: string)
    ensures PlaylistId(PlaylistId(url)) == PlaylistId(url)
  {
    var id := PlaylistId(url);
    LastPieceUnique(id, '/', id);
    FirstPieceUnique(id, '?', id);
  }

  /** When the last segment carries no query string, the id is that segment unchanged. */
  lemma PlaylistIdWithoutQuery(url: string)
    requires '?' !in LastPiece(url, '/')
    ensures PlaylistId(url) == LastPiece(url, '/')
  {
    var segment := LastPiece(url, '/');
    FirstPieceUnique(segment, '?', segment);
  }

  /** A bare identifier, with no `/` and no `?`, is its own id. */
  lemma PlaylistIdOfBareId(url: string)
    requires '/' !in url && '?' !in url
    ensures PlaylistId(url) == url
  {
    LastPieceUnique(url, '/', url);
    FirstPieceUnique(url, '?', url);
  }

  /** The default locator names playlist 37i9dQZEVXbNG2KDcFcKOF. */
  lemma DefaultPlaylistId()
    ensures PlaylistId(DEFAULT_PLAYLIST_URL) == "37i9dQZEVXbNG2KDcFcKOF"
  {
    IdFromLocator("https://open.spotify.com/playlist/", "37i9dQZEVXbNG2KDcFcKOF", "?si=1333723a6eff4b7f");
  }

  /** A locator with a query string yields the segment before it. */
  lemma PlaylistIdStripsQuery()
    ensures PlaylistId("https://open.spotify.com/playlist/ABC123?si=xyz") == "ABC123"
  {
    var url := "https://open.spotify.com/playlist/ABC123?si=xyz";
    assert url == "https://open.spotify.com/playlist/" + "ABC123" + "?si=xyz";
    IdFromLocator("https://open.spotify.com/playlist/", "ABC123", "?si=xyz");
  }

  /** A locator made of a path ending in `/`, an id, and a query string yields that id. */
  lemma IdFromLocator(path: string, id: string, query: string)
    requires |path| > 0 && path[|path| - 1] == '/'
    requires '/' !in id && '/' !in query && '?' !in id
    requires |query| > 0 && query[0] == '?'
    ensures PlaylistId(path + id + query) == id
  {
    var url := path + id + query;
    var segment := id + query;
    assert url == path + segment;
    assert url[|url| - |segment|..] == segment;
    LastPieceUnique(url, '/', segment);
    assert segment[..|id|] == id;
    FirstPieceUnique(segment, '?', id);
  }

  const FILENAME_PREFIX: string := "spotify_raw_"
  const FILENAME_SUFFIX: string := ".json"

  /** The name of the stored file: the literal prefix, the timestamp, the extension. */
  function Filename(timestamp: string): (name: string)
    ensures |name| == |FILENAME_PREFIX| + |timestamp| + |FILENAME_SUFFIX|
    ensures name[..|FILENAME_PREFIX|] == FILENAME_PREFIX
    ensures name[|name| - |FILENAME_SUFFIX|..] == FILENAME_SUFFIX
    ensures name[|FILENAME_PREFIX|..|name| - |FILENAME_SUFFIX|] == timestamp
  {
    FILENAME_PREFIX + timestamp + FILENAME_SUFFIX
  }

  /** The object key: the file name inside the raw-data zone of the bucket. */
  function ObjectKey(filename: string): (key: string)
    ensures |key| == |RAW_DATA_PREFIX| + |filename|
    ensures key[..|RAW_DATA_PREFIX|] == RAW_DATA_PREFIX
    ensures key[|RAW_DATA_PREFIX|..] == filename
  {
    RAW_DATA_PREFIX + filename
  }

  /** Reads the timestamp back out of an object key, if the key has the handler's shape. */
  function TimestampOf(key: string): Option<string> {
    var head := RAW_DATA_PREFIX + FILENAME_PREFIX;
    if |head| + |FILENAME_SUFFIX| <= |key| && key[..|head|] == head
      && key[|key| - |FILENAME_SUFFIX|..] == FILENAME_SUFFIX
    then Some(key[|head|..|key| - |FILENAME_SUFFIX|])
    else None
  }

  /** Every key the handler builds names the timestamp it was built from. */
  lemma TimestampRoundTrip(timestamp: string)
    ensures TimestampOf(ObjectKey(Filename(timestamp))) == Some(timestamp)
  {
    var key := ObjectKey(Filename(timestamp));
    var head := RAW_DATA_PREFIX + FILENAME_PREFIX;
    assert key == head + timestamp + FILENAME_SUFFIX;
    assert key[..|head|] == head;
    assert key[|head|..|key| - |FILENAME_SUFFIX|] == timestamp;
  }

  /** Two invocations write to the same key exactly when their timestamps are equal:
      distinct instants give distinct objects, the same instant overwrites. */
  lemma ObjectKeysCollideIffSameTimestamp(t1: string, t2: string)
    ensures ObjectKey(Filename(t1)) == ObjectKey(Filename(t2)) <==> t1 == t2
  {
    TimestampRoundTrip(t1);
    TimestampRoundTrip(t2);
  }

  // ---------------------------------------------------------------- collaborators

  /** The two exception classes the handler tells apart. */
  datatype ExceptionType = ValueError | OtherException

  /** A raised exception: its class and `str(e)`. */
  datatype Failure = Failure(kind: ExceptionType, text: string)

  /** A step of the handler either returns a value or raises. */
  datatype Outcome<+T> = Returned(value: T) | Raised(failure: Failure)

  /** The page of tracks the music API returns, kept opaque. */
  datatype TrackPage = TrackPage(content: string)

  /** The arguments of one `put_object` call. */
  datatype Upload = Upload(bucket: string, key: string, body: string)

  /** How each collaborator behaves in one invocation: the track fetch (client
      credentials, client and `playlist_tracks`) for a playlist id, creating the
      storage client, the current time as text, serialising the page to JSON, and
      `put_object` for an upload. */
  datatype Services = Services(
    fetchTracks: string -> Outcome<TrackPage>,
    storageClient: Outcome<()>,
    timestamp: string,
    serialize: TrackPage -> Outcome<string>,
    putObject: Upload -> Outcome<()>)

  /** A call the handler makes to a collaborator with an effect outside the process. */
  datatype Call = FetchTracks(playlistId: string) | PutObject(upload: Upload)

  // ---------------------------------------------------------------- responses

  const SUCCESS_PREFIX: string := "Successfully extracted data to "
  const CONFIG_ERROR_PREFIX: string := "Configuration Error: "
  const ERROR_PREFIX: string := "Error: "

  /** The handler's answer. A ConfigurationError comes from any ValueError, not only
      one raised by validation. */
  datatype HandlerResult =
    | Extracted(filename: string)
    | ConfigurationError(detail: string)
    | RuntimeError(detail: string)
  {
    /** 200 for success, 400 for a configuration error, 500 for a runtime error. */
    function StatusCode(): (code: int)
      ensures code == 200 <==> Extracted?
      ensures code == 400 <==> ConfigurationError?
      ensures code == 500 <==> RuntimeError?
    {
      match this
      case Extracted(_) => 200
      case ConfigurationError(_) => 400
      case RuntimeError(_) => 500
    }

    /** The message the response body carries (before its JSON encoding): a fixed
        prefix by variant, followed by the file name or the exception's text. */
    function Body(): (body: string)
      ensures Extracted? ==>
        |SUCCESS_PREFIX| <= |body| && body[..|SUCCESS_PREFIX|] == SUCCESS_PREFIX && body[|SUCCESS_PREFIX|..] == filename
      ensures ConfigurationError? ==>
        |CONFIG_ERROR_PREFIX| <= |body| && body[..|CONFIG_ERROR_PREFIX|] == CONFIG_ERROR_PREFIX && body[|CONFIG_ERROR_PREFIX|..] == detail
      ensures RuntimeError? ==>
        |ERROR_PREFIX| <= |body| && body[..|ERROR_PREFIX|] == ERROR_PREFIX && body[|ERROR_PREFIX|..] == detail
    {
      match this
      case Extracted(filename) => SUCCESS_PREFIX + filename
      case ConfigurationError(detail) => CONFIG_ERROR_PREFIX + detail
      case RuntimeError(detail) => ERROR_PREFIX + detail
    }
  }

  /** The `except` clauses: a ValueError answers 400, any other exception 500,
      each carrying the exception's text; a block that completes answers 200
      naming the file. */
  function Respond(outcome: Outcome<string>): (r: HandlerResult)
    ensures r.StatusCode() == 200 <==> outcome.Returned?
    ensures r.StatusCode() == 400 <==> outcome.Raised? && outcome.failure.kind == ValueError
    ensures r.StatusCode() == 500 <==> outcome.Raised? && outcome.failure.kind == OtherException
    ensures outcome.Returned? ==> r.Body() == SUCCESS_PREFIX + outcome.value
    ensures outcome.Raised? && outcome.failure.kind == ValueError ==>
      r.Body() == CONFIG_ERROR_PREFIX + outcome.failure.text
    ensures outcome.Raised? && outcome.failure.kind == OtherException ==>
      r.Body() == ERROR_PREFIX + outcome.failure.text
  {
    match outcome
    case Returned(filename) => Extracted(filename)
    case Raised(Failure(ValueError, text)) => ConfigurationError(text)
    case Raised(Failure(OtherException, text)) => RuntimeError(text)
  }

  // ---------------------------------------------------------------- the handler

  /** What the `try` block does: its outcome (the file name, or the exception that
      escapes it) and the calls it makes to the outside, in order. */
  datatype Attempt = Attempt(outcome: Outcome<string>, calls: seq<Call>)

  /** The body of the `try` block as a value. Validation comes first and a failure
      there makes no call at all; the fetch for the locator's playlist id is always
      the first call after it; the first of the fetch, the storage client, the
      serialisation and the put to raise is the exception that escapes, unchanged;
      at most one upload follows the fetch, carrying the serialised page to the
      configured bucket under the key for this invocation's timestamp; the block
      completes exactly when that upload returns. */
  function TryBlock(s: Settings, svc: Services): (a: Attempt)
    ensures Validate(s).Err? ==>
      a == Attempt(Raised(Failure(ValueError, Validate(s).error.Message())), [])
    ensures Validate(s).Ok? ==>
      1 <= |a.calls| <= 2 && a.calls[0] == FetchTracks(PlaylistId(s.spotifyPlaylistUrl))
    ensures |a.calls| == 2 ==>
      a.calls[1].PutObject?
      && Some(a.calls[1].upload.bucket) == s.s3BucketName
      && a.calls[1].upload.key == ObjectKey(Filename(svc.timestamp))
    ensures Validate(s).Ok? && svc.fetchTracks(PlaylistId(s.spotifyPlaylistUrl)).Raised? ==>
      a.outcome == Raised(svc.fetchTracks(PlaylistId(s.spotifyPlaylistUrl)).failure)
      && |a.calls| == 1
    ensures (Validate(s).Ok? && svc.fetchTracks(PlaylistId(s.spotifyPlaylistUrl)).Returned?
             && svc.storageClient.Raised?) ==>
      a == Attempt(Raised(svc.storageClient.failure), [FetchTracks(PlaylistId(s.spotifyPlaylistUrl))])
    ensures (Validate(s).Ok? && svc.fetchTracks(PlaylistId(s.spotifyPlaylistUrl)).Returned?
             && svc.storageClient.Returned?
             && svc.serialize(svc.fetchTracks(PlaylistId(s.spotifyPlaylistUrl)).value).Raised?) ==>
      a == Attempt(Raised(svc.serialize(svc.fetchTracks(PlaylistId(s.spotifyPlaylistUrl)).value).failure),
                   [FetchTracks(PlaylistId(s.spotifyPlaylistUrl))])
    ensures (Validate(s).Ok? && svc.fetchTracks(PlaylistId(s.spotifyPlaylistUrl)).Returned?
             && svc.storageClient.Returned?
             && svc.serialize(svc.fetchTracks(PlaylistId(s.spotifyPlaylistUrl)).value).Returned?) ==>
      a.calls == [FetchTracks(PlaylistId(s.spotifyPlaylistUrl)),
                  PutObject(Upload(s.s3BucketName.value, ObjectKey(Filename(svc.timestamp)),
                    svc.serialize(svc.fetchTracks(PlaylistId(s.spotifyPlaylistUrl)).value).value))]
    ensures |a.calls| == 2 && svc.putObject(a.calls[1].upload).Raised? ==>
      a.outcome == Raised(svc.putObject(a.calls[1].upload).failure)
    ensures a.outcome.Returned? <==> |a.calls| == 2 && svc.putObject(a.calls[1].upload).Returned?
    ensures a.outcome.Returned? ==> a.outcome.value == Filename(svc.timestamp)
  {
    match Validate(s)
    case Err(e) => Attempt(Raised(Failure(ValueError, e.Message())), [])
    case Ok(_) =>
      var spotifyConfig := GetSpotifyConfig(s).value;
      var awsConfig := GetAwsConfig(s).value;
      var playlistUri := PlaylistId(spotifyConfig.playlistUrl);
      var fetch := [FetchTracks(playlistUri)];
      match svc.fetchTracks(playlistUri)
      case Raised(f) => Attempt(Raised(f), fetch)
      case Returned(page) =>
        match svc.storageClient
        case Raised(f) => Attempt(Raised(f), fetch)
        case Returned(_) =>
          var filename := Filename(svc.timestamp);
          match svc.serialize(page)
          case Raised(f) => Attempt(Raised(f), fetch)
          case Returned(body) =>
            var upload := Upload(awsConfig.bucketName, ObjectKey(filename), body);
            match svc.putObject(upload)
            case Raised(f) => Attempt(Raised(f), fetch + [PutObject(upload)])
            case Returned(_) => Attempt(Returned(filename), fetch + [PutObject(upload)])
  }

  /** An unset client id: the answer is 400, its message lists SPOTIFY_CLIENT_ID,
      and no collaborator is called. */
  lemma ClientIdUnsetScenario(s: Settings, svc: Services)
    requires s.spotifyClientId.None?
    ensures var a := TryBlock(s, svc);
      && a.calls == []
      && Respond(a.outcome).StatusCode() == 400
      && Respond(a.outcome).Body() == CONFIG_ERROR_PREFIX + Validate(s).error.Message()
      && "SPOTIFY_CLIENT_ID" in ParseMissingMessage(Validate(s).error.Message()).value
  {
    ValidateMessageNamesMissing(s);
    MissingMember(s, REQUIRED_VARS, "SPOTIFY_CLIENT_ID");
  }

  /** A fetch that raises anything but a ValueError: the answer is 500 with the
      exception's text, and nothing is uploaded. */
  lemma FetchFailsScenario(s: Settings, svc: Services)
    requires Validate(s).Ok?
    requires svc.fetchTracks(PlaylistId(s.spotifyPlaylistUrl)).Raised?
    requires svc.fetchTracks(PlaylistId(s.spotifyPlaylistUrl)).failure.kind == OtherException
    ensures var a := TryBlock(s, svc);
      && a.calls == [FetchTracks(PlaylistId(s.spotifyPlaylistUrl))]
      && Respond(a.outcome).StatusCode() == 500
      && Respond(a.outcome).Body()
         == ERROR_PREFIX + svc.fetchTracks(PlaylistId(s.spotifyPlaylistUrl)).failure.text
  {
  }

  /** The answer depends on the exception's class, not on the step that raised it:
      a ValueError out of the fetch answers 400 although the configuration is valid. */
  lemma FetchValueErrorScenario(s: Settings, svc: Services)
    requires Validate(s).Ok?
    requires svc.fetchTracks(PlaylistId(s.spotifyPlaylistUrl)).Raised?
    requires svc.fetchTracks(PlaylistId(s.spotifyPlaylistUrl)).failure.kind == ValueError
    ensures Respond(TryBlock(s, svc).outcome).StatusCode() == 400
  {
  }

  /** Every collaborator returns: the answer is 200 naming a `spotify_raw_<time>.json`
      file, and exactly one object was put, into the configured bucket under the
      raw-data key for that file. */
  lemma SuccessScenario(s: Settings, svc: Services)
    requires Validate(s).Ok?
    requires var page := svc.fetchTracks(PlaylistId(s.spotifyPlaylistUrl));
      && page.Returned? && svc.storageClient.Returned?
      && svc.serialize(page.value).Returned?
      && svc.putObject(Upload(s.s3BucketName.value, ObjectKey(Filename(svc.timestamp)),
                              svc.serialize(page.value).value)).Returned?
    ensures var a := TryBlock(s, svc);
      var filename := Filename(svc.timestamp);
      && Respond(a.outcome) == Extracted(filename)
      && Respond(a.outcome).StatusCode() == 200
      && Respond(a.outcome).Body() == SUCCESS_PREFIX + filename
      && a.calls == [FetchTracks(PlaylistId(s.spotifyPlaylistUrl)),
                     PutObject(Upload(s.s3BucketName.value, RAW_DATA_PREFIX + filename,
                       svc.serialize(svc.fetchTracks(PlaylistId(s.spotifyPlaylistUrl)).value).value))]
  {
  }

  /** No invocation puts more than one object, and a put happens only after a
      fetch that returned. */
  lemma AtMostOneUpload(s: Settings, svc: Services)
    ensures var a := TryBlock(s, svc);
      forall i :: 0 <= i < |a.calls| && a.calls[i].PutObject? ==>
        i == 1 && a.calls[0].FetchTracks? && svc.fetchTracks(a.calls[0].playlistId).Returned?
  {
  }

  /** Two successful invocations at different instants store two different objects;
      at the same instant they write the same key. */
  lemma RepeatedInvocations(s: Settings, svc1: Services, svc2: Services)
    requires TryBlock(s, svc1).outcome.Returned? && TryBlock(s, svc2).outcome.Returned?
    ensures TryBlock(s, svc1).calls[1].upload.key == TryBlock(s, svc2).calls[1].upload.key
      <==> svc1.timestamp == svc2.timestamp
  {
    ObjectKeysCollideIffSameTimestamp(svc1.timestamp, svc2.timestamp);
  }

  /** The handler across invocations; `calls` logs every call made to the outside. */
  class ExtractionHandler {
    ghost var calls: seq<Call>

    constructor ()
      ensures calls == []
    {
      calls := [];
    }

    /** `lambda_handler`: runs the `try` block step by step, logging each outside
        call, and turns an escaping exception into a 400 or 500 answer by its class. */
    method LambdaHandler(s: Settings, svc: Services) returns (result: HandlerResult)
      modifies this
      ensures result == Respond(TryBlock(s, svc).outcome)
      ensures calls == old(calls) + TryBlock(s, svc).calls
    {
      var check := ValidateConfig(s);
      if check.Err? {
        result := Respond(Raised(Failure(ValueError, check.error.Message())));
        return;
      }
      var spotifyConfig := GetSpotifyConfig(s).value;
      var awsConfig := GetAwsConfig(s).value;
      var playlistUri := PlaylistId(spotifyConfig.playlistUrl);
      calls := calls + [FetchTracks(playlistUri)];
      var spotifyData := svc.fetchTracks(playlistUri);
      if spotifyData.Raised? {
        result := Respond(Raised(spotifyData.failure));
        return;
      }
      var client := svc.storageClient;
      if client.Raised? {
        result := Respond(Raised(client.failure));
        return;
      }
      var filename := Filename(svc.timestamp);
      var body := svc.serialize(spotifyData.value);
      if body.Raised? {
        result := Respond(Raised(body.failure));
        return;
      }
      var upload := Upload(awsConfig.bucketName, ObjectKey(filename), body.value);
      calls := calls + [PutObject(upload)];
      var put := svc.putObject(upload);
      if put.Raised? {
        result := Respond(Raised(put.failure));
        return;
      }
      result := Extracted(filename);
    }
  }
}
