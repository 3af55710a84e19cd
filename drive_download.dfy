/**
 * The two phases of the action in src/main.ts: `run` downloads a Drive file
 * to `path`, `post` deletes it again, and the top-level dispatch picks one of
 * them from the `isPost` entry of the run-state store.
 *
 * The host (`@actions/core`, the runner's filesystem, the HTTP client) is
 * modelled by the fields of class `Action`; `Host` is a value snapshot of
 * those fields, and the pure functions `AfterRun`, `AfterPost` and
 * `AfterDispatch` say what each phase does to it.
 */
module DriveDownload {

  import opened Wrappers
  import opened DriveUrl

  /** Run-state key set at the start of `run`; its presence routes to `post`. */
  const IsPostKey: string := "isPost"
  /** Run-state key holding the downloaded file's path. */
  const PathKey: string := "path"
  /** `core.saveState('isPost', true)` stores the boolean as the text `true`. */
  const IsPostValue: string := "true"
  /** The only HTTP status the download accepts. */
  const SuccessStatus: nat := 200

  /**
   * The action's inputs as `core.getInput` returns them: the empty string
   * when an input is not set.
   */
  datatype Inputs = Inputs(token: string, fileId: string, fileUrl: string, path: string)

  /** What awaiting the download request gives: a response status, or a rejection. */
  datatype Response = Status(code: nat) | Rejected

  /** An outbound download request: the file it names and the bearer token it carries. */
  datatype Request = Request(fileId: string, token: string)

  /** The failures `run` reports through `core.setFailed`. */
  datatype Failure = MissingToken | MissingFileId | MissingPath | DownloadFailed(status: nat)
  {
    /** The text passed to `core.setFailed`. */
    function Message(): string {
      match this
      case MissingToken => "No access token provided to action"
      case MissingFileId => "Action could not determine file id"
      case MissingPath => "No path provided to action"
      case DownloadFailed(status) => "Failed to get file from Google drive: " + Decimal(status)
    }
  }

  /** The exceptions that escape `run` uncaught. */
  datatype Crash = UrlThrew | RequestRejected

  /** How one execution of `run` ends. */
  datatype RunEnd = Completed | Failed(failure: Failure) | Crashed(crash: Crash)

  /** The value of `core.getInput('file-id') || parseFileIdFromURL(...)`, or its exception. */
  datatype FileIdValue = Defined(id: string) | Undefined | Threw
  {
    /** JavaScript truthiness: a defined, non-empty string. */
    predicate Truthy() {
      Defined? && id != ""
    }
  }

  /** Everything of the host the two phases read or change. */
  datatype Host = Host(
    state: map<string, string>,   // the run-state store
    files: set<string>,           // paths present on the runner's filesystem
    failure: Option<Failure>,     // the last `core.setFailed`
    crash: Option<Crash>,         // an exception that ended a phase
    requests: seq<Request>)       // download requests issued, in order

  predicate IsDigit(c: char) {
    '0' <= c <= '9'
  }

  /** The number a string of decimal digits denotes, most significant digit first. */
  function DigitsValue(s: string): nat
    requires forall i :: 0 <= i < |s| ==> IsDigit(s[i])
  {
    if s == [] then 0
    else
      assert IsDigit(s[|s| - 1]);
      DigitsValue(s[..|s| - 1]) * 10 + (s[|s| - 1] as int - '0' as int)
  }

  /**
   * `n` in decimal, as a template literal renders a status code: digits only,
   * no leading zero, and reading the digits back gives `n`.
   */
  function Decimal(n: nat): (r: string)
    ensures |r| >= 1
    ensures n >= 10 ==> |r| >= 2
    ensures forall i :: 0 <= i < |r| ==> IsDigit(r[i])
    ensures |r| > 1 ==> r[0] != '0'
    ensures DigitsValue(r) == n
  {
    if n < 10 then [Digit(n)]
    else
      var r := Decimal(n / 10) + [Digit(n % 10)];
      assert r[..|r| - 1] == Decimal(n / 10);
      r
  }

  function Digit(d: nat): char
    requires d < 10
  {
    (d + '0' as int) as char
  }

  /** Different numbers render differently, since reading the digits back recovers the number. */
  lemma DecimalInjective(a: nat, b: nat)
    requires Decimal(a) == Decimal(b)
    ensures a == b
  {
  }

  /** Each failure reports its own message, and a download failure names its status. */
  lemma MessagesDistinct(f: Failure, g: Failure)
    requires f != g
    ensures f.Message() != g.Message()
  {
    var m, n := f.Message(), g.Message();
    if f.DownloadFailed? && g.DownloadFailed? {
      var k := |"Failed to get file from Google drive: "|;
      assert m[k..] == Decimal(f.status);
      assert n[k..] == Decimal(g.status);
    }
  }

  /** `core.getState(key)`: the stored value, or the empty string when unset. */
  function GetState(state: map<string, string>, key: string): string {
    if key in state then state[key] else ""
  }

  /** A saved value is read back, and saving one key leaves every other key as it was. */
  lemma GetAfterSave(state: map<string, string>, k: string, v: string, k': string)
    ensures GetState(state[k := v], k') == if k' == k then v else GetState(state, k')
  {
  }

  /**
   * The file id `run` asks for: a non-empty `file-id` input verbatim, and
   * only otherwise what the sharable link yields.
   */
  function ResolveFileId(inputs: Inputs, pathnameOf: string -> Option<string>): (r: FileIdValue)
    ensures inputs.fileId != "" ==> r == Defined(inputs.fileId)
    ensures inputs.fileId == "" && inputs.fileUrl == "" ==> r == Undefined
    ensures r.Threw? <==> inputs.fileId == "" && inputs.fileUrl != "" && pathnameOf(inputs.fileUrl).None?
    ensures r.Truthy() && inputs.fileId == "" ==> pathnameOf(inputs.fileUrl) == Some(DrivePath(r.id))
    ensures forall id :: inputs.fileId == "" && inputs.fileUrl != "" && pathnameOf(inputs.fileUrl) == Some(DrivePath(id))
                         ==> r == Defined(id)
    ensures inputs.fileId == "" && ParseFileIdFromUrl(inputs.fileUrl, pathnameOf).IllFormed? ==> r == Undefined
  {
    if inputs.fileId != "" then Defined(inputs.fileId)
    else match ParseFileIdFromUrl(inputs.fileUrl, pathnameOf)
      case NoUrl => Undefined
      case IllFormed => Undefined
      case InvalidUrl => Threw
      case Extracted(id) =>
        ExtractedShape(inputs.fileUrl, pathnameOf);
        Defined(id)
  }

  /** Whether `run` got as far as issuing the download request. */
  predicate RequestIssued(e: RunEnd) {
    e.Completed? || e == Crashed(RequestRejected) || (e.Failed? && e.failure.DownloadFailed?)
  }

  /**
   * How `run` ends: the checks come in the order token, file id, path, and
   * the request is only issued once all three pass.
   */
  function RunEnding(inputs: Inputs, pathnameOf: string -> Option<string>, response: Response): (e: RunEnd)
    ensures e == Failed(MissingToken) <==> inputs.token == ""
    ensures e == Crashed(UrlThrew) <==> inputs.token != "" && ResolveFileId(inputs, pathnameOf).Threw?
    ensures e == Crashed(RequestRejected) <==> RequestIssued(e) && response.Rejected?
    ensures RequestIssued(e) && response.Status? && response.code != SuccessStatus
            ==> e == Failed(DownloadFailed(response.code))
    ensures e == Failed(MissingFileId) <==> inputs.token != "" && !ResolveFileId(inputs, pathnameOf).Truthy()
                                             && !ResolveFileId(inputs, pathnameOf).Threw?
    ensures e == Failed(MissingPath) <==> inputs.token != "" && ResolveFileId(inputs, pathnameOf).Truthy() && inputs.path == ""
    ensures RequestIssued(e) <==> inputs.token != "" && ResolveFileId(inputs, pathnameOf).Truthy() && inputs.path != ""
    ensures e.Completed? <==> RequestIssued(e) && response == Status(SuccessStatus)
    ensures e.Failed? && e.failure.DownloadFailed? ==> response == Status(e.failure.status) && e.failure.status != SuccessStatus
  {
    if inputs.token == "" then Failed(MissingToken)
    else
      var fileId := ResolveFileId(inputs, pathnameOf);
      if fileId.Threw? then Crashed(UrlThrew)
      else if !fileId.Truthy() then Failed(MissingFileId)
      else if inputs.path == "" then Failed(MissingPath)
      else match response
        case Rejected => Crashed(RequestRejected)
        case Status(code) => if code != SuccessStatus then Failed(DownloadFailed(code)) else Completed
  }

  /**
   * The host after `run`: `isPost` is always recorded, the path is recorded
   * and the file created only on completion, the request is appended once
   * the checks pass, and a failure or crash is recorded as it ends.
   */
  function AfterRun(h: Host, inputs: Inputs, pathnameOf: string -> Option<string>, response: Response): (h': Host)
    ensures GetState(h'.state, IsPostKey) == IsPostValue
    ensures forall k :: k != IsPostKey && k != PathKey ==> GetState(h'.state, k) == GetState(h.state, k)
    ensures RunEnding(inputs, pathnameOf, response).Completed?
            ==> GetState(h'.state, PathKey) == inputs.path && h'.files == h.files + {inputs.path}
    ensures !RunEnding(inputs, pathnameOf, response).Completed?
            ==> GetState(h'.state, PathKey) == GetState(h.state, PathKey) && h'.files == h.files
    ensures h'.failure == if RunEnding(inputs, pathnameOf, response).Failed?
                          then Some(RunEnding(inputs, pathnameOf, response).failure) else h.failure
    ensures h'.crash == if RunEnding(inputs, pathnameOf, response).Crashed?
                        then Some(RunEnding(inputs, pathnameOf, response).crash) else h.crash
    ensures RequestIssued(RunEnding(inputs, pathnameOf, response))
            ==> ResolveFileId(inputs, pathnameOf).Truthy()
                && h'.requests == h.requests + [Request(ResolveFileId(inputs, pathnameOf).id, inputs.token)]
    ensures !RequestIssued(RunEnding(inputs, pathnameOf, response)) ==> h'.requests == h.requests
  {
    var e := RunEnding(inputs, pathnameOf, response);
    var marked := h.state[IsPostKey := IsPostValue];
    Host(
      state := if e.Completed? then marked[PathKey := inputs.path] else marked,
      files := if e.Completed? then h.files + {inputs.path} else h.files,
      failure := if e.Failed? then Some(e.failure) else h.failure,
      crash := if e.Crashed? then Some(e.crash) else h.crash,
      requests := if RequestIssued(e) then h.requests + [Request(ResolveFileId(inputs, pathnameOf).id, inputs.token)]
                  else h.requests)
  }

  /**
   * The filesystem after `post`: the recorded path is gone, nothing else is
   * removed, and with no path recorded nothing changes.
   */
  function Cleanup(state: map<string, string>, files: set<string>): (r: set<string>)
    ensures r <= files
    ensures files - r <= {GetState(state, PathKey)}
    ensures GetState(state, PathKey) == "" ==> r == files
    ensures GetState(state, PathKey) != "" ==> GetState(state, PathKey) !in r
  {
    var path := GetState(state, PathKey);
    if path != "" && path in files then files - {path} else files
  }

  /** The host after `post`: only the filesystem changes. */
  function AfterPost(h: Host): (h': Host)
    ensures h'.files == Cleanup(h.state, h.files)
    ensures h'.state == h.state && h'.failure == h.failure && h'.crash == h.crash && h'.requests == h.requests
  {
    h.(files := Cleanup(h.state, h.files))
  }

  /** The host after one invocation of the action. */
  function AfterDispatch(h: Host, inputs: Inputs, pathnameOf: string -> Option<string>, response: Response): (h': Host)
    ensures GetState(h.state, IsPostKey) == "" ==> h' == AfterRun(h, inputs, pathnameOf, response)
    ensures GetState(h.state, IsPostKey) != "" ==> h' == AfterPost(h)
    ensures GetState(h'.state, IsPostKey) != ""
  {
    if GetState(h.state, IsPostKey) == "" then AfterRun(h, inputs, pathnameOf, response) else AfterPost(h)
  }

  /** Cleaning up twice leaves the same host as cleaning up once. */
  lemma PostIdempotent(h: Host)
    ensures AfterPost(AfterPost(h)) == AfterPost(h)
  {
  }

  /**
   * Every ending of `run`, the failing ones included, routes the next
   * invocation to `post`, whatever its inputs.
   */
  lemma RunRoutesToPost(h: Host, inputs: Inputs, pathnameOf: string -> Option<string>, response: Response,
                        inputs': Inputs, pathnameOf': string -> Option<string>, response': Response)
    ensures var h' := AfterRun(h, inputs, pathnameOf, response);
      AfterDispatch(h', inputs', pathnameOf', response') == AfterPost(h')
  {
  }

  /**
   * A failed check leaves no trace but the `isPost` mark and the failure:
   * no request, no file, no recorded path.
   */
  lemma CheckFailureHasNoEffect(h: Host, inputs: Inputs, pathnameOf: string -> Option<string>, response: Response)
    requires RunEnding(inputs, pathnameOf, response) in {Failed(MissingToken), Failed(MissingFileId), Failed(MissingPath)}
    ensures AfterRun(h, inputs, pathnameOf, response)
         == h.(state := h.state[IsPostKey := IsPostValue], failure := Some(RunEnding(inputs, pathnameOf, response).failure))
  {
  }

  /**
   * A `file-url` the URL parser rejects ends `run` with an uncaught exception
   * and no other trace: no failure message, no request, no file, no recorded
   * path.
   */
  lemma UrlCrashHasNoEffect(h: Host, inputs: Inputs, pathnameOf: string -> Option<string>, response: Response)
    requires inputs.token != "" && inputs.fileId == "" && inputs.fileUrl != "" && pathnameOf(inputs.fileUrl).None?
    ensures AfterRun(h, inputs, pathnameOf, response)
         == h.(state := h.state[IsPostKey := IsPostValue], crash := Some(UrlThrew))
  {
  }

  /**
   * A response other than 200 fails the step with a message naming the
   * status, and leaves no path for `post` to delete.
   */
  lemma NonSuccessStatus(h: Host, inputs: Inputs, pathnameOf: string -> Option<string>, code: nat)
    requires inputs.token != "" && ResolveFileId(inputs, pathnameOf).Truthy() && inputs.path != ""
    requires code != SuccessStatus && GetState(h.state, PathKey) == ""
    ensures var h' := AfterRun(h, inputs, pathnameOf, Status(code));
      && h'.failure == Some(DownloadFailed(code))
      && h'.failure.value.Message() == "Failed to get file from Google drive: " + Decimal(code)
      && GetState(h'.state, PathKey) == ""
      && AfterPost(h').files == h.files
  {
  }

  /**
   * A whole run of the action on a fresh run-state store: after the acquire
   * and the cleanup invocation the filesystem is as before, except that a
   * completed download has taken the destination path away with it.
   */
  lemma RunThenCleanup(files: set<string>, inputs: Inputs, pathnameOf: string -> Option<string>,
                        response: Response)
    ensures var h := AfterDispatch(AfterDispatch(Host(map[], files, None, None, []), inputs, pathnameOf, response),
                                   inputs, pathnameOf, response);
      h.files == if RunEnding(inputs, pathnameOf, response).Completed? then files - {inputs.path} else files
  {
  }

  /** The host as the action process sees it. */
  class Action {
    var state: map<string, string>
    var files: set<string>
    var failure: Option<Failure>
    var crash: Option<Crash>
    var requests: seq<Request>

    /** A fresh run: empty run-state store, nothing failed, nothing requested. */
    constructor (disk: set<string>)
      ensures Snapshot() == Host(map[], disk, None, None, [])
    {
      state, files, failure, crash, requests := map[], disk, None, None, [];
    }

    function Snapshot(): Host
      reads this
    {
      Host(state, files, failure, crash, requests)
    }

    /** `core.saveState` */
    method SaveState(key: string, value: string)
      modifies this`state
      ensures state == old(state)[key := value]
    {
      state := state[key := value];
    }

    /** `core.setFailed` */
    method SetFailed(f: Failure)
      modifies this`failure
      ensures failure == Some(f)
    {
      failure := Some(f);
    }

    /** The acquire phase, with the awaited response passed in. */
    method Run(inputs: Inputs, pathnameOf: string -> Option<string>, response: Response)
      modifies this
      ensures Snapshot() == AfterRun(old(Snapshot()), inputs, pathnameOf, response)
    {
      SaveState(IsPostKey, IsPostValue);

      var token := inputs.token;
      if token == "" {
        SetFailed(MissingToken);
        return;
      }

      var fileId := ResolveFileId(inputs, pathnameOf);
      if fileId.Threw? {
        crash := Some(UrlThrew);
        return;
      }
      if !fileId.Truthy() {
        SetFailed(MissingFileId);
        return;
      }

      var path := inputs.path;
      if path == "" {
        SetFailed(MissingPath);
        return;
      }

      requests := requests + [Request(fileId.id, token)];
      if response.Rejected? {
        crash := Some(RequestRejected);
        return;
      }
      if response.code != SuccessStatus {
        SetFailed(DownloadFailed(response.code));
        return;
      }

      SaveState(PathKey, path);
      files := files + {path};
    }

    /** The cleanup phase. */
    method Post()
      modifies this`files
      ensures Snapshot() == AfterPost(old(Snapshot()))
    {
      var path := GetState(state, PathKey);
      if path != "" && path in files {
        files := files - {path};
      }
    }

    /** One invocation of the action; `ranPost` tells which phase ran. */
    method Dispatch(inputs: Inputs, pathnameOf: string -> Option<string>, response: Response) returns (ranPost: bool)
      modifies this
      ensures ranPost == (GetState(old(state), IsPostKey) != "")
      ensures Snapshot() == AfterDispatch(old(Snapshot()), inputs, pathnameOf, response)
    {
      ranPost := GetState(state, IsPostKey) != "";
      if !ranPost {
        Run(inputs, pathnameOf, response);
      } else {
        Post();
      }
    }
  }

  /**
   * A run of the action as the host drives it: the main invocation, the
   * cleanup invocation, and a repeated cleanup.
   */
  method Lifecycle(disk: set<string>, inputs: Inputs, pathnameOf: string -> Option<string>, response: Response)
    returns (end: RunEnd, acquired: set<string>, cleaned: set<string>, cleanedAgain: set<string>)
    ensures end == RunEnding(inputs, pathnameOf, response)
    ensures acquired == if end.Completed? then disk + {inputs.path} else disk
    ensures cleaned == if end.Completed? then disk - {inputs.path} else disk
    ensures cleanedAgain == cleaned
  {
    end := RunEnding(inputs, pathnameOf, response);
    var action := new Action(disk);
    var ranPost := action.Dispatch(inputs, pathnameOf, response);
    acquired := action.files;
    ranPost := action.Dispatch(inputs, pathnameOf, response);
    assert ranPost;
    cleaned := action.files;
    RunThenCleanup(disk, inputs, pathnameOf, response);
    ranPost := action.Dispatch(inputs, pathnameOf, response);
    cleanedAgain := action.files;
  }
}
