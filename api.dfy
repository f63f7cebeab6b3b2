/** The job service client (changes_lxc_wrapper/api.py): the base URL as
    normalised on construction, the URL of a request, the retry loop of
    `request`, and the fixed endpoint paths. The network is an oracle giving
    the outcome of each attempt; the sleeps are recorded as their delays. */
module Api {
  import opened Wrappers
  import opened Text

  /** What one `urlopen` attempt ends in: a body, a `URLError` (with the
      HTTP status as `code` when it is an `HTTPError`), or any other
      exception, which `request` does not catch. */
  datatype Outcome = Body(text: string) | UrlError(code: Option<int>) | OtherError

  /** Why `request` raises. */
  datatype Failure =
    | NotFound                  // the 404 `URLError`, re-raised
    | Cancelled                 // `BuildCancelled`, for a 410
    | GaveUp(code: Option<int>) // the `URLError` of the last attempt, re-raised
    | Unexpected                // an exception other than `URLError`

  /** How `request` ends: the decoded body, `None` when no attempt is made,
      or an exception. */
  datatype Reply = Returned(body: string) | NoAttempt | Raised(failure: Failure)

  /** An attempt after which `request` tries again, unless it was the last. */
  predicate Retryable(o: Outcome)
  {
    o.UrlError? && o.code != Some(404) && o.code != Some(410)
  }

  /** Attempts `0 .. n - 1` all ended in a retryable error. */
  predicate AllRetryable(transport: nat -> Outcome, n: nat)
  {
    forall k :: 0 <= k < n ==> Retryable(transport(k))
  }

  /** How an attempt that is not retried ends the request: `last` tells
      whether it was the last attempt allowed. */
  function Verdict(o: Outcome, last: bool): Reply
    requires !Retryable(o) || last
  {
    match o
    case Body(text) => Returned(text)
    case OtherError => Raised(Unexpected)
    case UrlError(code) =>
      if code == Some(404) then Raised(NotFound)
      else if code == Some(410) then Raised(Cancelled)
      else Raised(GaveUp(code))
  }

  /** `n ** 2`, by sums of odd numbers so that the solver sees no product. */
  function Square(n: nat): nat
  {
    if n == 0 then 0 else Square(n - 1) + 2 * n - 1
  }

  lemma {:induction false} SquareIsProduct(n: nat)
    ensures Square(n) == n * n
  {
    if n > 0 {
      SquareIsProduct(n - 1);
      assert (n - 1) * (n - 1) == n * n - 2 * n + 1;
    }
  }

  /** Squares grow strictly. */
  lemma {:induction false} SquareIncreases(j: nat, k: nat)
    requires j < k
    ensures Square(j) < Square(k)
  {
    if j < k - 1 {
      SquareIncreases(j, k - 1);
    }
  }

  /** The delays slept between the first `n + 1` attempts: `(k + 1) ** 2`
      seconds after attempt `k`. */
  function Delays(n: nat): (r: seq<nat>)
    ensures |r| == n
  {
    if n == 0 then [] else Delays(n - 1) + [Square(n)]
  }

  /** The delay after attempt `k` is `(k + 1) ** 2` seconds. */
  lemma {:induction false} DelayAt(n: nat, k: nat)
    requires k < n
    ensures Delays(n)[k] == (k + 1) * (k + 1)
  {
    if k < n - 1 {
      DelayAt(n - 1, k);
    } else {
      SquareIsProduct(n);
    }
  }

  /** The delays grow strictly: 1, 4, 9, 16, and so on. */
  lemma DelaysIncrease(n: nat, j: nat, k: nat)
    requires j < k < n
    ensures Delays(n)[j] < Delays(n)[k]
  {
    DelaySquare(n, j);
    DelaySquare(n, k);
    SquareIncreases(j + 1, k + 1);
  }

  lemma {:induction false} DelaySquare(n: nat, k: nat)
    requires k < n
    ensures Delays(n)[k] == Square(k + 1)
  {
    if k < n - 1 {
      DelaySquare(n - 1, k);
    }
  }

  /** `ChangesApi`; `baseUrl` is kept without trailing slashes. */
  datatype ChangesApi = ChangesApi(baseUrl: string)

  /** `ChangesApi(base_url)`. */
  function NewApi(baseUrl: string): (api: ChangesApi)
    ensures api.baseUrl == RStrip(baseUrl, '/')
    ensures api.baseUrl == [] || api.baseUrl[|api.baseUrl| - 1] != '/'
  {
    ChangesApi(RStrip(baseUrl, '/'))
  }

  /** Normalising twice changes nothing. */
  lemma NewApiIdempotent(baseUrl: string)
    ensures NewApi(NewApi(baseUrl).baseUrl) == NewApi(baseUrl)
  {
    var b := NewApi(baseUrl).baseUrl;
    assert RStrip(b, '/') == b;
  }

  /** The URL `request` opens for `path`: the base URL, one `/`, and the path
      without its leading slashes. */
  function RequestUrl(api: ChangesApi, path: string): string
  {
    api.baseUrl + "/" + LStrip(path, '/')
  }

  /** `request(path, data, max_retries)`: tries up to `maxRetries` times
      (none for `maxRetries <= 0`), returning the first body; a 404 or a
      410 ends it at once, as does any exception other than `URLError`;
      another `URLError` sleeps `(k + 1) ** 2` seconds after attempt `k` and
      tries again, unless it was the last attempt, which re-raises it.
      `transport(k)` is the outcome of attempt `k`; `sleeps` records the
      delays slept, in order. */
  method Request(api: ChangesApi, path: string, maxRetries: int, transport: nat -> Outcome)
    returns (url: string, reply: Reply, attempts: nat, sleeps: seq<nat>)
    ensures url == RequestUrl(api, path)
    ensures maxRetries <= 0 ==> reply == NoAttempt && attempts == 0 && sleeps == []
    ensures maxRetries > 0 ==>
      && 1 <= attempts <= maxRetries
      && AllRetryable(transport, attempts - 1)
      && (attempts < maxRetries ==> !Retryable(transport(attempts - 1)))
      && reply == Verdict(transport(attempts - 1), attempts == maxRetries)
      && sleeps == Delays(attempts - 1)
  {
    url := RequestUrl(api, path);
    sleeps := [];
    attempts := 0;
    if maxRetries <= 0 {
      return url, NoAttempt, 0, [];
    }
    for retryNum := 0 to maxRetries
      invariant attempts == retryNum && (retryNum == 0 || retryNum < maxRetries)
      invariant AllRetryable(transport, retryNum)
      invariant sleeps == Delays(retryNum)
    {
      var outcome := transport(retryNum);
      attempts := attempts + 1;
      var last := retryNum == maxRetries - 1;
      if !Retryable(outcome) || last {
        // a body, a 404, a 410, another exception, or the last attempt
        return url, Verdict(outcome, last), attempts, sleeps;
      }
      var retryDelay := Square(retryNum + 1);
      sleeps := sleeps + [retryDelay];
    }
    assert false;
  }

  /** `'/jobsteps/{}/'`, for `get_jobstep` and `update_jobstep`. */
  function JobStepPath(jobstepId: string): string
  {
    "/jobsteps/" + jobstepId + "/"
  }

  /** `'/jobsteps/{}/logappend/'`, for `append_log`. */
  function LogAppendPath(jobstepId: string): string
  {
    "/jobsteps/" + jobstepId + "/logappend/"
  }

  /** `'/snapshotimages/{}/'`, for `update_snapshot_image`. */
  function SnapshotImagePath(snapshotId: string): string
  {
    "/snapshotimages/" + snapshotId + "/"
  }

  /** The path of `list_snapshots`. */
  const ListSnapshotsPath := "/snapshots/?state=valid&per_page=0"

  /** A path with exactly one leading slash is appended to the base URL
      as it is. */
  lemma {:induction false} OneLeadingSlash(api: ChangesApi, path: string)
    requires |path| >= 2 && path[0] == '/' && path[1] != '/'
    ensures RequestUrl(api, path) == api.baseUrl + path
  {
    assert LStrip(path[1..], '/') == path[1..];
    assert LStrip(path, '/') == path[1..];
    assert path == "/" + path[1..];
    Associative(api.baseUrl, "/", path[1..]);
  }

  /** The endpoints' URLs are the base URL followed by their paths. */
  lemma EndpointUrls(api: ChangesApi, id: string)
    ensures RequestUrl(api, JobStepPath(id)) == api.baseUrl + JobStepPath(id)
    ensures RequestUrl(api, LogAppendPath(id)) == api.baseUrl + LogAppendPath(id)
    ensures RequestUrl(api, SnapshotImagePath(id)) == api.baseUrl + SnapshotImagePath(id)
    ensures RequestUrl(api, ListSnapshotsPath) == api.baseUrl + ListSnapshotsPath
  {
    assert JobStepPath(id)[..2] == "/j";
    OneLeadingSlash(api, JobStepPath(id));
    assert LogAppendPath(id)[..2] == "/j";
    OneLeadingSlash(api, LogAppendPath(id));
    assert SnapshotImagePath(id)[..2] == "/s";
    OneLeadingSlash(api, SnapshotImagePath(id));
    assert ListSnapshotsPath[..2] == "/s";
    OneLeadingSlash(api, ListSnapshotsPath);
  }
}
