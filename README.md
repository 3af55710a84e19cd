# Google Drive download action — Dafny model

This project models the core of a two-phase GitHub Action (`src/main.ts`). The
main invocation (`run`) downloads one Google Drive file to a destination
`path`. The post invocation (`post`) deletes that file again. The two invocations
share a run-state store provided by the host. The top-level dispatch picks
`post` once the `isPost` entry is set, and `run` otherwise.

- `wrappers.dfy`: module `Wrappers`, an `Option` datatype.
- `drive_url.dfy`: module `DriveUrl`, which models `parseFileIdFromURL`. It is a
  pure function over the URL string. `String.prototype.slice` is written out
  with its negative-index and clamping rules. `new URL(url).pathname` is passed
  in as a function `pathnameOf`, which returns `None` where the URL
  constructor throws.
- `drive_download.dfy`: module `DriveDownload`, which models the acquire phase
  `run`, the cleanup phase `post` and the dispatcher.
  - Class `Action` holds the host's state as fields: the run-state map, the
    filesystem as a set of paths, the failure set by `core.setFailed`, an
    uncaught exception, and the list of download requests issued.
  - Its methods `Run`, `Post` and `Dispatch` follow the source step by step.
  - Each method's postcondition ties the new state to a pure function of the
    old snapshot (`AfterRun`, `AfterPost`, `AfterDispatch`). Lemmas about
    those functions state the properties that involve several invocations.
  - `Lifecycle` drives one object through a main invocation, a cleanup
    invocation and a repeated cleanup.

Conventions:
- `core.getInput` and `core.getState` give the empty string for an unset
  entry. `Inputs` holds the values `getInput` returns, and `GetState` models
  `getState`.
- The HTTP response is a parameter. It is either a status code or a
  rejection of the awaited request.
- `core.saveState('isPost', true)` stores the text `true`.

Behaviour of the code worth knowing, which the model keeps as written:
- An unparsable `file-url` is not reported: `new URL` throws and nothing in
  `run` catches it, so the phase ends with an uncaught exception
  (`Crashed(UrlThrew)`), not with "Action could not determine file id". Only
  a parsable URL whose pathname is not a Drive link takes the diagnostic path
  (`IllFormed`) and ends with that message.
- The status check at line 64 is reached only for responses the HTTP client
  resolves. With axios's default status validation, a non-2xx response
  (a 404, say) rejects the awaited request instead, so `run` ends with an
  uncaught exception rather than "Failed to get file from Google drive: 404".
  The model keeps both paths: a `Rejected` response crashes `run`, and any
  status other than 200 that reaches line 64 fails with
  `DownloadFailed(status)`. Either way, no path is recorded.
- The prefix and suffix are matched as literal strings, and they can share
  their slash. So `/file/d/view` and `/file/d//view` both pass, and both give
  the empty id; `run` then fails with "Action could not determine file id".

## Model

| member | source | states |
|---|---|---|
| `DriveUrl.ParseFileIdFromUrl` | src/main.ts:6-19 | An empty (or absent) argument gives `undefined` without consulting the URL. A non-empty one whose URL cannot be parsed throws. |
| `DriveUrl.StartsWithIff` | src/main.ts:16 | `startsWith(p)` holds exactly when the string is `p` followed by some string. |
| `DriveUrl.EndsWithIff` | src/main.ts:16 | `endsWith(p)` holds exactly when the string is some string followed by `p`. |
| `DriveUrl.SliceIndex` | src/main.ts:22 | A `slice` index resolves into `[0, len]`: a non-negative index within range stays as it is, and a negative one within range counts back from the end. |
| `DriveUrl.IllFormedIff` | src/main.ts:16-19 | For a parsable URL, the diagnostic path is taken exactly when the pathname lacks the `/file/d/` prefix or the `/view` suffix. |
| `DriveUrl.Slice` | src/main.ts:22 | `slice` never yields more than the string, and yields `""` when the resolved end is not past the resolved start. |
| `DriveUrl.ShortestDrivePath` | src/main.ts:12-16 | A pathname that passes both checks has at least 12 characters, because the literals can share only their slash. |
| `DriveUrl.ExtractedShape` | src/main.ts:21-23 | An extracted id from a pathname of 13 or more characters has length `|pathname| - 13`, and prefix + id + suffix rebuilds the pathname. From a shorter pathname the id is `""`. |
| `DriveUrl.RoundTrip` | src/main.ts:12-23 | For every id, the pathname `/file/d/<id>/view` yields exactly that id, even when the id itself contains either literal. |
| `DriveUrl.OverlapYieldsEmpty` | src/main.ts:22-23 | `/file/d/view` (overlapping literals) and `/file/d//view` (touching literals) both pass the checks and give `""`. |
| `DriveUrl.SharableLinkExamples` | src/main.ts:15-23 | A link with pathname `/file/d/ABC123/view` gives `ABC123`. A URL with pathname `/foo/bar` is ill-formed. |
| `DriveDownload.ResolveFileId` | src/main.ts:36 | A non-empty `file-id` is used verbatim and the URL is not parsed. With an empty `file-id`: no `file-url` gives `undefined`; a link whose pathname is `/file/d/<id>/view` gives `<id>`; an ill-formed pathname gives `undefined`; an unparsable URL throws, and only then. A non-empty id taken from the URL is exactly the id between the literals of its pathname. |
| `DriveDownload.RunEnding` | src/main.ts:30-67 | The checks come in the order token, file id, path, and each fails with its own failure exactly when it is the first to fail. An unparsable `file-url` (with a token present) crashes `run`, and only then. The request is issued iff all three checks pass. After that, a rejected request crashes `run`, a status other than 200 fails with `DownloadFailed` of that status, and `run` completes iff the status is 200. |
| `DriveDownload.Decimal` | src/main.ts:65 | A status renders as decimal digits only, at least one, with no leading zero, and reading the digits back (`DigitsValue`) gives the status. |
| `DriveDownload.DecimalInjective` | src/main.ts:65 | Different statuses render as different texts. |
| `DriveDownload.GetAfterSave` | src/main.ts:69-79 | The run-state store law `run` and `post` rely on: after `core.saveState(k, v)`, `core.getState(k)` reads `v` back, and every other key reads as before (an unset key reads as the empty string). |
| `DriveDownload.MessagesDistinct` | src/main.ts:31-66 | Different failures report different messages, so the message tells the failure and the status apart. |
| `DriveDownload.AfterRun` | src/main.ts:26-74 | After `run`, `isPost` is always `true`, and no other run-state key except `path` changes. `path` is set to the input path, and the file is created, only on completion. Otherwise `path` and the filesystem are unchanged. A request is appended only when the checks pass. The failure or crash recorded is the one `run` ended with. |
| `DriveDownload.Cleanup` | src/main.ts:79-83 | `post` removes nothing but the recorded path. The recorded path is gone afterwards when it is non-empty. With no path recorded, the filesystem is unchanged. |
| `DriveDownload.AfterPost` | src/main.ts:76-84 | `post` changes only the filesystem, as `Cleanup` describes. |
| `DriveDownload.AfterDispatch` | src/main.ts:86-90 | With `isPost` unset, an invocation is exactly `run` (`AfterRun` of the old host); with it set, exactly the cleanup. After any invocation, `isPost` is set. |
| `DriveDownload.PostIdempotent` | src/main.ts:79-83 | Running `post` twice leaves the same host as running it once. |
| `DriveDownload.RunRoutesToPost` | src/main.ts:86-90 | Because `isPost` is saved first (line 28), every ending of `run` routes the next invocation to `post`, whatever that invocation's inputs. |
| `DriveDownload.CheckFailureHasNoEffect` | src/main.ts:28-46 | A failed token, file-id or path check changes nothing but the `isPost` mark and the failure. There is no request, no file and no recorded path. |
| `DriveDownload.UrlCrashHasNoEffect` | src/main.ts:15-36 | When `new URL` throws on the `file-url`, `run` ends with that exception and changes nothing but the `isPost` mark: no failure message, no request, no file, no recorded path. |
| `DriveDownload.NonSuccessStatus` | src/main.ts:63-69 | On a store with no recorded path, a status other than 200 that reaches line 64 fails with "Failed to get file from Google drive: " followed by the status. It records no path, so a later `post` leaves the filesystem as it was. |
| `DriveDownload.RunThenCleanup` | src/main.ts:76-90 | On a fresh run-state store, a main invocation followed by a cleanup invocation leaves the filesystem as before, minus the destination path when the download completed. |
| `DriveDownload.Action.SaveState` | src/main.ts:69 | `core.saveState` sets one run-state key and leaves the others. |
| `DriveDownload.Action.SetFailed` | src/main.ts:65 | `core.setFailed` records the failure. |
| `DriveDownload.Action.Run` | src/main.ts:26-74 | The acquire phase, step by step: `isPost` first, then three early-return checks, one request, the status check, then `path` saved and the file created. The new state is `AfterRun` of the old. |
| `DriveDownload.Action.Post` | src/main.ts:76-84 | The cleanup phase: the new state is `AfterPost` of the old. |
| `DriveDownload.Action.Dispatch` | src/main.ts:86-90 | `post` runs exactly when `getState('isPost')` is non-empty, and `run` otherwise. The new state is `AfterDispatch` of the old. |
| `DriveDownload.Lifecycle` | src/main.ts:26-90 | Three invocations on one fresh object. After the first, the file exists iff the download completed. After the second, the filesystem is the original minus the destination path when the download completed, and unchanged otherwise. A third invocation changes nothing more. |

## Left out

- The axios request (src/main.ts:48-63) is not modelled: the endpoint URL, the `Authorization: Bearer` header, the `Accept` header and the query parameters. A request is recorded only as the file id and token it carries. Its outcome is a parameter: a status code or a rejection.
- Writing the response body (src/main.ts:72-73) is modelled only as "the file at `path` now exists". Its contents and the asynchronous stream errors, which nothing catches, are not modelled.
- `new URL(url).pathname` (src/main.ts:15) is a parameter, not a model of the WHATWG URL parser. Percent-encoding, dot segments and the query are whatever that function yields.
- `core.getInput` trims whitespace inside `@actions/core`. That trimming is not part of this model: `Inputs` holds the values after it.
- Logging is not modelled beyond the recorded failure: `core.error` (the ill-formed diagnostic appears only as the `IllFormed` outcome), `console.log` after a deletion, and the annotations `core.setFailed` emits. The unused `os` import is also left out.
- `async`/`await` is not modelled. Each phase is one sequential method, because the phases never overlap. The process exit status after an uncaught exception is host behaviour, so the model only records the exception.
- A failing `fs.rmSync` (for example, permission denied) is not modelled. Only the successful deletion is.
