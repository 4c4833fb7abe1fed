# Spotify playlist extraction: a Dafny model

This project models the core of a small serverless data-pipeline step. One
invocation of `lambda_handler` validates the pipeline's configuration, reads the
playlist id out of the configured playlist locator, fetches one page of that
playlist's tracks from the music API, stores the page as JSON in an S3 bucket
under the key `raw_data/to_processed/spotify_raw_<timestamp>.json`, and answers
with a status code and a message: 200 naming the file, 400 for a `ValueError`
(which is what a failed validation raises), 500 for any other exception.

Layout:

- `wrappers.dfy` — `Option` and `Result`.
- `strings.dfy` — Python's `str.split(sep)` and `sep.join(parts)`, with their
  round trips and the characterisation of `s.split(c)[0]` and `s.split(c)[-1]`.
- `config.dfy` — the `Config` module (config.py's `Config` class): the settings read from the environment with
  the two defaults, the key-prefix constants, `validate_config` (a loop collecting
  every missing setting, as a method proved against the `Validate` function), and
  the two accessor bundles.
- `extract.dfy` — `lambda_handler`: the playlist id, the file name and object key,
  the `except` clauses (`Respond`), the `try` block as a value (`TryBlock`) and the
  handler itself, a class method that logs every outside call in a ghost sequence.

The collaborators the handler cannot see (the music API client, `boto3`, the
clock, `json.dumps` of the page) are one `Services` value per invocation: each
step either returns or raises a `Failure` carrying the exception's class
(`ValueError` or any other) and its text. The response is classified by the
exception's class, not by the step that raised it: a `ValueError` out of the
fetch also answers 400 (`FetchValueErrorScenario`): any `ValueError`, not only
the one validation raises, answers 400 (spotify_api_data_extract.py:42), and the
model follows the code. The success message names the file name, not the full
object key, as the code does.

## Model

| member | source | states |
|---|---|---|
| `Strings.Split` | spotify_api_data_extract.py:25 | `str.split` with a non-empty separator always yields at least one piece |
| `Strings.Join` | config.py:42 | `sep.join(parts)`: the empty list joins to "", and the result begins with the first part |
| `Strings.JoinSplit` | spotify_api_data_extract.py:25 | joining the pieces of a split with the same separator restores the string |
| `Strings.SplitJoin` | config.py:42 | splitting `sep.join(parts)` gives back the parts when no part holds the separator's first character |
| `Strings.SplitPiecesAvoid` | spotify_api_data_extract.py:25 | no piece of a split on a one-character separator contains that character |
| `Strings.FirstPiece` | spotify_api_data_extract.py:25 | `s.split(c)[0]` is a prefix of `s` free of `c`, ending at the end of `s` or at a `c` |
| `Strings.LastPiece` | spotify_api_data_extract.py:25 | `s.split(c)[-1]` is a suffix of `s` free of `c`, starting at the start of `s` or just after a `c` |
| `Strings.FirstPieceUnique` | spotify_api_data_extract.py:25 | any string with FirstPiece's three properties is `s.split(c)[0]`: they define it |
| `Strings.LastPieceUnique` | spotify_api_data_extract.py:25 | any string with LastPiece's three properties is `s.split(c)[-1]`: they define it |
| `Config.EnvGet` | config.py:13-19 | `os.environ.get`: a value exactly when the variable is set, and then the variable's value |
| `Config.FromEnvironment` | config.py:13-20 | required settings are present exactly when their variable is set, and then hold its value (even ""); playlist URL and region take the variable's value when set and the fixed defaults otherwise |
| `Config.Attr` | config.py:38 | `getattr(cls, var)`: each required name selects its own setting |
| `Config.Truthy` | config.py:38 | `not getattr(...)` holds exactly for None and "" |
| `Config.MissingAmong` | config.py:36-39 | the `missing_vars` list built by the loop holds only required names, no more of them than were checked |
| `Config.ConfigError.Message` | config.py:42 | the message starts with `"Missing required environment variables: "`, and the names joined by `", "` after it read back to exactly the names (one or more, none holding a comma) |
| `Config.Validate` | config.py:28-44 | validation passes (returning true) exactly when client id, client secret and bucket name are all set and non-empty; a failure names at least one setting |
| `Config.ValidateConfig` | config.py:27-44 | the loop over the required names computes exactly `Validate`'s verdict and missing list |
| `Config.MissingMember` | config.py:36-39 | a name is in the missing list exactly when it was checked and its setting is `None` or `""` |
| `Config.MissingInDeclaredOrder` | config.py:30-39 | names checked in declared order are reported in declared order, each once |
| `Config.ValidateReportsExactlyMissing` | config.py:30-42 | the error of a failed validation lists exactly the falsy required settings, in declared order, without repeats |
| `Config.MissingRequiredSpelledOut` | config.py:30-39 | the missing list is CLIENT_ID, CLIENT_SECRET, S3_BUCKET_NAME, each kept exactly when its setting is falsy |
| `Config.OneMissingNamed` | config.py:36-42 | with exactly one required setting falsy, the error names that one alone |
| `Config.MissingIgnoresOptional` | config.py:30-39 | the missing list depends only on the three required settings |
| `Config.OptionalSettingsIrrelevant` | config.py:30-34 | changing the playlist URL or the region never changes the validation result |
| `Config.ValidateEnvironment` | config.py:13-19 | validation of the environment's settings passes exactly when the three required variables are set to non-empty values |
| `Config.ValidateMessageNamesMissing` | config.py:41-42 | the message of a failed validation reads back to exactly the missing list |
| `Config.GetSpotifyConfig` | config.py:46-54 | fails with the validation error exactly when validation fails; otherwise returns client id, secret (both non-empty) and playlist URL unchanged |
| `Config.GetAwsConfig` | config.py:56-63 | fails with the validation error exactly when validation fails; otherwise returns the (non-empty) bucket name and the region unchanged |
| `Extract.PlaylistId` | spotify_api_data_extract.py:25 | the id holds no `/` and no `?`, and is the stretch of the locator after its last `/` up to the first `?` that follows |
| `Extract.PlaylistIdIdempotent` | spotify_api_data_extract.py:25 | extracting from an extracted id returns it unchanged |
| `Extract.PlaylistIdWithoutQuery` | spotify_api_data_extract.py:25 | a last segment without `?` is the id unchanged |
| `Extract.PlaylistIdOfBareId` | spotify_api_data_extract.py:25 | a locator without `/` and `?` is its own id |
| `Extract.IdFromLocator` | spotify_api_data_extract.py:25 | a path ending in `/`, then an id, then a `?` query yields that id |
| `Extract.DefaultPlaylistId` | config.py:15-16 | the default locator yields `37i9dQZEVXbNG2KDcFcKOF` |
| `Extract.PlaylistIdStripsQuery` | spotify_api_data_extract.py:25 | `https://open.spotify.com/playlist/ABC123?si=xyz` yields `ABC123` |
| `Extract.Filename` | spotify_api_data_extract.py:29 | the file name is `spotify_raw_`, then the timestamp, then `.json` |
| `Extract.ObjectKey` | spotify_api_data_extract.py:33 | the key starts with the raw-data prefix `raw_data/to_processed/` followed by the file name |
| `Extract.TimestampRoundTrip` | spotify_api_data_extract.py:29-33 | the timestamp can be read back out of every key the handler builds |
| `Extract.ObjectKeysCollideIffSameTimestamp` | spotify_api_data_extract.py:29-33 | two keys coincide exactly when their timestamps do |
| `Extract.HandlerResult.StatusCode` | spotify_api_data_extract.py:37-51 | 200 exactly for success, 400 exactly for a configuration error, 500 exactly for a runtime error |
| `Extract.HandlerResult.Body` | spotify_api_data_extract.py:37-51 | the body is `Successfully extracted data to `, `Configuration Error: ` or `Error: `, followed by the file name or the exception's text |
| `Extract.Respond` | spotify_api_data_extract.py:37-51 | 200 exactly when the block completed, 400 exactly for a `ValueError`, 500 exactly for any other exception; bodies `Successfully extracted data to <file>`, `Configuration Error: <text>`, `Error: <text>` |
| `Extract.TryBlock` | spotify_api_data_extract.py:11-35 | a validation failure raises its `ValueError` before any call; otherwise the first call fetches the locator's playlist id; a raising fetch, storage client, serialisation or put is the exception that escapes, unchanged, and only a put that raises leaves the upload in the call log; the single upload carries the serialised page to the configured bucket under this timestamp's key, and the block completes, naming the file, exactly when that upload returns |
| `Extract.ClientIdUnsetScenario` | spotify_api_data_extract.py:11-46 | an unset client id answers 400, lists `SPOTIFY_CLIENT_ID` in the message and calls nothing |
| `Extract.FetchFailsScenario` | spotify_api_data_extract.py:26-51 | a fetch raising a non-`ValueError` answers 500 with its text and nothing is uploaded |
| `Extract.FetchValueErrorScenario` | spotify_api_data_extract.py:42-46 | a `ValueError` out of the fetch answers 400 although the configuration is valid |
| `Extract.SuccessScenario` | spotify_api_data_extract.py:26-40 | when every collaborator returns, the answer is 200 naming the file and exactly one object is put, into the configured bucket under the raw-data key |
| `Extract.AtMostOneUpload` | spotify_api_data_extract.py:26-35 | an invocation puts at most one object, and only after a fetch that returned |
| `Extract.RepeatedInvocations` | spotify_api_data_extract.py:29-35 | two successful invocations write the same key exactly when their timestamps are equal |
| `Extract.ExtractionHandler.LambdaHandler` | spotify_api_data_extract.py:9-51 | answers `Respond` of the `try` block's outcome and appends exactly the block's outside calls to the log |

## Left out

- The music API client (`SpotifyClientCredentials`, `spotipy.Spotify`, `playlist_tracks`), its OAuth exchange and its wire format: a foreign network library. The fetch is a function from playlist id to a returned page or a raised failure.
- The `boto3` client and the `put_object` transport: foreign I/O. Creating the client and each put are inputs that return or raise; puts are logged as calls.
- `datetime.now()` and the format `str()` gives it: the clock and a library format. The timestamp is an opaque string.
- `json.dumps`: serialising the page is an input that returns a body or raises, and the response body is modelled as the message text before its JSON string encoding.
- Reading `os.environ` when the `Config` class is defined: process state. The environment is a map passed in, and the settings are built from it per invocation.
- The Lambda `event` and `context` arguments: the code never reads them.
- `PROCESSED_DATA_PREFIX` and `TRANSFORMED_DATA_PREFIX` are declared as constants but nothing uses them.
- Exceptions outside `Exception` (for instance `KeyboardInterrupt`), which would escape the handler: the model has only `ValueError` and other `Exception`s.
- `Strings.Split`: `str.split` with an empty separator raises in Python; the model requires a non-empty one, which is all the code uses.
