/** Photo upload (pibox5/upload/http_upload.py): request assembly, classification of
    what the POST did, the bounded retry loop, and the uploader's FIFO queue and
    counters. The POST itself is an oracle `respond` from the attempt number to what
    the network did; the worker thread is one sequential step. */
module HttpUpload {
  import opened Common
  import opened Timestamps

  /** One queued photo. `retryCount` defaults to 0 and is never updated. */
  datatype UploadTask = UploadTask(imageData: Bytes, filename: string, timestamp: DateTime, retryCount: int)

  function NewTask(data: Bytes, filename: string, now: DateTime): (t: UploadTask)
    ensures t.imageData == data && t.filename == filename && t.timestamp == now && t.retryCount == 0
  {
    UploadTask(data, filename, now, 0)
  }

  /** The decoded body of a successful response: JSON, or the first 200 characters. */
  datatype ResponseBody = Json(text: string) | Raw(prefix: string)

  datatype UploadResult = UploadResult(success: bool, filename: string, statusCode: Option<int>,
                                       responseData: Option<ResponseBody>,
                                       errorMessage: Option<string>, uploadTimeMs: nat)

  /** A failed result with only a message; the other fields keep their defaults. */
  function Failed(filename: string, msg: string): (r: UploadResult)
    ensures !r.success && r.filename == filename && r.errorMessage == Some(msg)
    ensures r.statusCode == None && r.responseData == None && r.uploadTimeMs == 0
  {
    UploadResult(false, filename, None, None, Some(msg), 0)
  }

  /** What one POST did. `Crashed` is an exception that escapes the request code itself. */
  datatype HttpOutcome =
    | Response(status: int, body: string, bodyIsJson: bool, elapsedMs: nat)
    | TimedOut
    | ConnectionFailed(reason: string)
    | OtherFailure(reason: string)
    | Crashed(reason: string)

  datatype FormFile = FormFile(filename: string, content: Bytes, mimeType: string)

  datatype HttpRequest = HttpRequest(url: string, headers: map<string, string>,
                                     files: map<string, FormFile>, data: map<string, string>,
                                     timeoutSeconds: int)

  const SourceTag: string := "pibox5"

  /** The multipart POST `_do_upload` sends. */
  function BuildRequest(url: string, apiKey: string, timeout: int, task: UploadTask): (req: HttpRequest)
    ensures "X-API-Key" in req.headers <==> apiKey != ""
    ensures "X-API-Key" in req.headers ==> req.headers["X-API-Key"] == apiKey
    ensures forall h :: h in req.headers ==> h == "X-API-Key"
    ensures req.files.Keys == {"photo"} &&
            req.files["photo"] == FormFile(task.filename, task.imageData, "image/jpeg")
    ensures req.data.Keys == {"timestamp", "source"}
    ensures req.data["timestamp"] == IsoFormat(task.timestamp) && req.data["source"] == "pibox5"
    ensures req.url == url && req.timeoutSeconds == timeout
  {
    var headers := if apiKey != "" then map["X-API-Key" := apiKey] else map[];
    HttpRequest(url, headers,
                map["photo" := FormFile(task.filename, task.imageData, "image/jpeg")],
                map["timestamp" := IsoFormat(task.timestamp), "source" := SourceTag],
                timeout)
  }

  /** `response.ok`: every status outside 400..599 counts as success. */
  predicate ResponseOk(status: int)
  {
    !(400 <= status < 600)
  }

  /** The first `n` characters of `s` (Python's `s[:n]`). */
  function Take(s: string, n: nat): (r: string)
    ensures |r| <= n && IsPrefix(r, s)
    ensures |s| <= n ==> r == s
  {
    if |s| <= n then s else s[..n]
  }

  /** What a call of `_do_upload` did: returned a result, or let an exception escape. */
  datatype Attempt = Returned(result: UploadResult) | Threw(reason: string)

  /** `_do_upload` once the POST has had `outcome`: every failure cause becomes its own message. */
  function DoUpload(timeout: int, task: UploadTask, outcome: HttpOutcome): (a: Attempt)
    ensures a.Threw? <==> outcome.Crashed?
    ensures a.Returned? ==> a.result.filename == task.filename
    ensures a.Returned? ==> (a.result.success <==> outcome.Response? && ResponseOk(outcome.status))
    ensures a.Returned? && !a.result.success ==> a.result.errorMessage.Some?
    ensures outcome.Response? ==> a.result.statusCode == Some(outcome.status) &&
                                  a.result.uploadTimeMs == outcome.elapsedMs
    ensures outcome.Response? && !ResponseOk(outcome.status) ==>
              a.result.errorMessage == Some("HTTP " + IntToString(outcome.status) + ": " + Take(outcome.body, 200))
    ensures outcome.TimedOut? ==>
              a.result == Failed(task.filename, "Request timeout after " + IntToString(timeout) + "s")
    ensures outcome.ConnectionFailed? ==>
              a.result == Failed(task.filename, "Connection error: " + outcome.reason)
    ensures outcome.OtherFailure? ==>
              a.result == Failed(task.filename, "Upload error: " + outcome.reason)
  {
    match outcome
    case Response(status, body, isJson, elapsed) =>
      if ResponseOk(status) then
        var data := if isJson then Json(body) else Raw(Take(body, 200));
        Returned(UploadResult(true, task.filename, Some(status), Some(data), None, elapsed))
      else
        Returned(UploadResult(false, task.filename, Some(status), None,
                              Some("HTTP " + IntToString(status) + ": " + Take(body, 200)), elapsed))
    case TimedOut => Returned(Failed(task.filename, "Request timeout after " + IntToString(timeout) + "s"))
    case ConnectionFailed(e) => Returned(Failed(task.filename, "Connection error: " + e))
    case OtherFailure(e) => Returned(Failed(task.filename, "Upload error: " + e))
    case Crashed(e) => Threw(e)
  }

  /** The cause class of a failed POST. */
  datatype FailureClass = HttpStatus | Timeout | Connection | Other

  function ClassOf(o: HttpOutcome): (c: Option<FailureClass>)
  {
    match o
    case Response(status, _, _, _) => if ResponseOk(status) then None else Some(HttpStatus)
    case TimedOut => Some(Timeout)
    case ConnectionFailed(_) => Some(Connection)
    case OtherFailure(_) => Some(Other)
    case Crashed(_) => None
  }

  /** Failures of different classes never produce the same message, whatever their details. */
  lemma FailureClassesDistinct(timeout: int, task: UploadTask, o1: HttpOutcome, o2: HttpOutcome)
    requires ClassOf(o1).Some? && ClassOf(o2).Some? && ClassOf(o1) != ClassOf(o2)
    ensures DoUpload(timeout, task, o1).result.errorMessage != DoUpload(timeout, task, o2).result.errorMessage
  {
    var m1 := DoUpload(timeout, task, o1).result.errorMessage.value;
    var m2 := DoUpload(timeout, task, o2).result.errorMessage.value;
    assert m1[0] != m2[0];
  }

  /** Attempt `k` returned a successful result. */
  predicate AttemptSucceeds(timeout: int, task: UploadTask, respond: nat -> HttpOutcome, k: nat)
  {
    var a := DoUpload(timeout, task, respond(k));
    a.Returned? && a.result.success
  }

  /** The error an attempt leaves in `last_error`. */
  function AttemptError(a: Attempt): Option<string>
  {
    match a
    case Returned(r) => r.errorMessage
    case Threw(e) => Some(e)
  }

  /** How Python prints `last_error` inside the f-string. */
  function ShowError(e: Option<string>): string
  {
    match e
    case None => "None"
    case Some(s) => s
  }

  /** `len(range(retry_count + 1))`. */
  function AttemptBudget(retryCount: int): (n: nat)
    ensures retryCount >= 0 ==> n == retryCount + 1
    ensures retryCount < 0 ==> n == 0
  {
    if retryCount + 1 > 0 then retryCount + 1 else 0
  }

  /** The first successful attempt below `n`, if any. */
  function FirstSuccess(timeout: int, task: UploadTask, respond: nat -> HttpOutcome, n: nat): (r: Option<nat>)
    ensures r.Some? ==> r.value < n && AttemptSucceeds(timeout, task, respond, r.value) &&
                        forall j :: 0 <= j < r.value ==> !AttemptSucceeds(timeout, task, respond, j)
    ensures r.None? ==> forall j :: 0 <= j < n ==> !AttemptSucceeds(timeout, task, respond, j)
  {
    if n == 0 then None
    else
      var earlier := FirstSuccess(timeout, task, respond, n - 1);
      if earlier.Some? then earlier
      else if AttemptSucceeds(timeout, task, respond, n - 1) then Some(n - 1)
      else None
  }

  /** One run of `_upload_with_retry`: its result, the attempts made and the delays slept. */
  datatype RetryRun = RetryRun(result: UploadResult, attempts: nat, sleeps: nat)

  /** The reference behaviour of `_upload_with_retry`. */
  function RetrySpec(timeout: int, retryCount: int, task: UploadTask, respond: nat -> HttpOutcome): RetryRun
  {
    var n := AttemptBudget(retryCount);
    match FirstSuccess(timeout, task, respond, n)
    case Some(k) => RetryRun(DoUpload(timeout, task, respond(k)).result, k + 1, k)
    case None =>
      var lastError := if n == 0 then None else AttemptError(DoUpload(timeout, task, respond(n - 1)));
      RetryRun(Failed(task.filename, "Upload failed after " + IntToString(retryCount + 1) +
                                     " attempts: " + ShowError(lastError)),
               n, if retryCount > 0 then retryCount else 0)
  }

  /** The first success ends the run at once, after exactly as many delays as failures. */
  lemma RetryStopsAtFirstSuccess(timeout: int, retryCount: int, task: UploadTask,
                                 respond: nat -> HttpOutcome, k: nat)
    requires k <= retryCount && AttemptSucceeds(timeout, task, respond, k)
    requires forall j :: 0 <= j < k ==> !AttemptSucceeds(timeout, task, respond, j)
    ensures RetrySpec(timeout, retryCount, task, respond) ==
            RetryRun(DoUpload(timeout, task, respond(k)).result, k + 1, k)
  {
    var r := FirstSuccess(timeout, task, respond, AttemptBudget(retryCount));
    assert AttemptSucceeds(timeout, task, respond, k);
    assert r.Some? ==> AttemptSucceeds(timeout, task, respond, r.value);
  }

  /** With every attempt failing: `retry_count + 1` attempts, `retry_count` delays, and a
      message that reports the attempts and the final attempt's error. */
  lemma RetryAllFail(timeout: int, retryCount: nat, task: UploadTask, respond: nat -> HttpOutcome)
    requires forall j :: 0 <= j <= retryCount ==> !AttemptSucceeds(timeout, task, respond, j)
    ensures var run := RetrySpec(timeout, retryCount, task, respond);
            && run.attempts == retryCount + 1
            && run.sleeps == retryCount
            && !run.result.success
            && run.result.errorMessage ==
               Some("Upload failed after " + NatToString(retryCount + 1) + " attempts: " +
                    ShowError(AttemptError(DoUpload(timeout, task, respond(retryCount)))))
  {
    var r := FirstSuccess(timeout, task, respond, AttemptBudget(retryCount));
    assert r == None;
  }

  /** Never more than `retry_count + 1` attempts, and one delay fewer than attempts when
      all fail; a success is the only way to end early. */
  lemma RetryBounds(timeout: int, retryCount: int, task: UploadTask, respond: nat -> HttpOutcome)
    ensures var run := RetrySpec(timeout, retryCount, task, respond);
            && run.attempts <= AttemptBudget(retryCount)
            && (run.result.success <==> FirstSuccess(timeout, task, respond, AttemptBudget(retryCount)).Some?)
            && (run.result.success ==> run.sleeps + 1 == run.attempts)
            && (!run.result.success ==> run.attempts == AttemptBudget(retryCount))
  {
    var r := FirstSuccess(timeout, task, respond, AttemptBudget(retryCount));
    if r.Some? {
      assert AttemptSucceeds(timeout, task, respond, r.value);
    }
  }

  /** `_upload_with_retry`: at most `retry_count + 1` attempts, a delay after every failed
      attempt except the last; `attempts` and `sleeps` count the POSTs and the delays. */
  method UploadWithRetry(timeout: int, retryCount: int, task: UploadTask, respond: nat -> HttpOutcome)
    returns (result: UploadResult, attempts: nat, sleeps: nat)
    ensures RetryRun(result, attempts, sleeps) == RetrySpec(timeout, retryCount, task, respond)
  {
    var lastError: Option<string> := None;
    var n := if retryCount + 1 > 0 then retryCount + 1 else 0;
    var attempt := 0;
    sleeps := 0;
    while attempt < n
      invariant 0 <= attempt <= n == AttemptBudget(retryCount)
      invariant sleeps == if attempt < retryCount then attempt else if retryCount > 0 then retryCount else 0
      invariant FirstSuccess(timeout, task, respond, attempt).None?
      invariant attempt == 0 ==> lastError == None
      invariant attempt > 0 ==> lastError == AttemptError(DoUpload(timeout, task, respond(attempt - 1)))
    {
      var a := DoUpload(timeout, task, respond(attempt));
      if a.Returned? && a.result.success {
        assert FirstSuccess(timeout, task, respond, n) == Some(attempt) by {
          FirstSuccessExtends(timeout, task, respond, attempt + 1, n);
        }
        return a.result, attempt + 1, sleeps;
      }
      lastError := AttemptError(a);
      if attempt < retryCount {
        sleeps := sleeps + 1;
      }
      attempt := attempt + 1;
    }
    result := Failed(task.filename, "Upload failed after " + IntToString(retryCount + 1) +
                                    " attempts: " + ShowError(lastError));
    attempts := n;
  }

  /** Looking further does not change a first success already found. */
  lemma {:induction false} FirstSuccessExtends(timeout: int, task: UploadTask, respond: nat -> HttpOutcome,
                                               m: nat, n: nat)
    requires m <= n && FirstSuccess(timeout, task, respond, m).Some?
    ensures FirstSuccess(timeout, task, respond, n) == FirstSuccess(timeout, task, respond, m)
    decreases n
  {
    if m < n {
      FirstSuccessExtends(timeout, task, respond, m, n - 1);
    }
  }

  /** The uploader's statistics: `pending` is the queue depth. */
  datatype Stats = Stats(total: nat, successful: nat, failed: nat, pending: nat)

  /** A callback the worker fires for a finished task. */
  datatype Callback = OnSuccess(result: UploadResult) | OnError(result: UploadResult)

  class HttpUploader {
    const url: string
    const apiKey: string
    const timeout: int
    const retryCount: int
    /** The delay between attempts, in milliseconds (the source's 2.0 seconds by default). */
    const retryDelayMs: nat
    const hasOnSuccess: bool
    const hasOnError: bool
    var queue: seq<UploadTask>
    var totalUploads: nat
    var successfulUploads: nat
    var failedUploads: nat

    /** Every counted upload has either finished one way or the other or still waits. */
    ghost predicate Valid()
      reads this
    {
      successfulUploads + failedUploads + |queue| == totalUploads
    }

    constructor (url: string, apiKey: string, timeout: int, retryCount: int, retryDelayMs: nat,
                 hasOnSuccess: bool, hasOnError: bool)
      ensures Valid() && queue == [] && totalUploads == 0
      ensures successfulUploads == 0 && failedUploads == 0
      ensures this.url == url && this.apiKey == apiKey && this.timeout == timeout
      ensures this.retryCount == retryCount && this.retryDelayMs == retryDelayMs
      ensures this.hasOnSuccess == hasOnSuccess && this.hasOnError == hasOnError
    {
      this.url := url;
      this.apiKey := apiKey;
      this.timeout := timeout;
      this.retryCount := retryCount;
      this.retryDelayMs := retryDelayMs;
      this.hasOnSuccess := hasOnSuccess;
      this.hasOnError := hasOnError;
      queue := [];
      totalUploads := 0;
      successfulUploads := 0;
      failedUploads := 0;
    }

    /** Queues the photo at the back and counts it; nothing is sent here. */
    method UploadAsync(data: Bytes, filename: string, now: DateTime)
      requires Valid()
      modifies this
      ensures Valid()
      ensures queue == old(queue) + [NewTask(data, filename, now)]
      ensures totalUploads == old(totalUploads) + 1
      ensures successfulUploads == old(successfulUploads) && failedUploads == old(failedUploads)
    {
      totalUploads := totalUploads + 1;
      queue := queue + [NewTask(data, filename, now)];
    }

    /** Uploads at once with the same retry logic and counts the outcome. */
    method UploadSync(data: Bytes, filename: string, now: DateTime, respond: nat -> HttpOutcome)
      returns (result: UploadResult)
      requires Valid()
      modifies this
      ensures Valid() && queue == old(queue)
      ensures result == RetrySpec(timeout, retryCount, NewTask(data, filename, now), respond).result
      ensures totalUploads == old(totalUploads) + 1
      ensures result.success ==> successfulUploads == old(successfulUploads) + 1 &&
                                 failedUploads == old(failedUploads)
      ensures !result.success ==> failedUploads == old(failedUploads) + 1 &&
                                  successfulUploads == old(successfulUploads)
    {
      totalUploads := totalUploads + 1;
      var task := NewTask(data, filename, now);
      var attempts, sleeps;
      result, attempts, sleeps := UploadWithRetry(timeout, retryCount, task, respond);
      if result.success {
        successfulUploads := successfulUploads + 1;
      } else {
        failedUploads := failedUploads + 1;
      }
    }

    /** One pass of the worker loop: an empty queue changes nothing; otherwise the oldest
        task is uploaded, counted, and reported to the matching callback if one is set. */
    method WorkerStep(respond: nat -> HttpOutcome) returns (done: Option<UploadResult>, fired: Option<Callback>)
      requires Valid()
      modifies this
      ensures Valid() && totalUploads == old(totalUploads)
      ensures old(queue) == [] ==> done == None && fired == None &&
                                   queue == old(queue) && successfulUploads == old(successfulUploads) &&
                                   failedUploads == old(failedUploads)
      ensures old(queue) != [] ==>
                queue == old(queue)[1..] &&
                done == Some(RetrySpec(timeout, retryCount, old(queue)[0], respond).result)
      ensures done.Some? && done.value.success ==>
                successfulUploads == old(successfulUploads) + 1 && failedUploads == old(failedUploads) &&
                fired == (if hasOnSuccess then Some(OnSuccess(done.value)) else None)
      ensures done.Some? && !done.value.success ==>
                failedUploads == old(failedUploads) + 1 && successfulUploads == old(successfulUploads) &&
                fired == (if hasOnError then Some(OnError(done.value)) else None)
    {
      if queue == [] {
        return None, None;
      }
      var task := queue[0];
      queue := queue[1..];
      var result, attempts, sleeps := UploadWithRetry(timeout, retryCount, task, respond);
      done := Some(result);
      if result.success {
        successfulUploads := successfulUploads + 1;
        fired := if hasOnSuccess then Some(OnSuccess(result)) else None;
      } else {
        failedUploads := failedUploads + 1;
        fired := if hasOnError then Some(OnError(result)) else None;
      }
    }

    function GetStats(): (s: Stats)
      reads this
      requires Valid()
      ensures s.total == totalUploads && s.successful == successfulUploads && s.failed == failedUploads
      ensures s.pending == |queue| && s.pending == s.total - s.successful - s.failed
    {
      Stats(totalUploads, successfulUploads, failedUploads, |queue|)
    }

    function GetQueueSize(): (n: nat)
      reads this
      requires Valid()
      ensures n == |queue| && n <= totalUploads
    {
      |queue|
    }
  }

  /** An endpoint that always refuses: `N + 1` attempts and a failure that says so. */
  lemma AlwaysFailingEndpoint(timeout: int, n: nat, task: UploadTask)
    ensures var run := RetrySpec(timeout, n, task, _ => ConnectionFailed("refused"));
            run.attempts == n + 1 && !run.result.success &&
            IsPrefix("Upload failed after " + NatToString(n + 1) + " attempts: ", run.result.errorMessage.value)
  {
    var respond: nat -> HttpOutcome := _ => ConnectionFailed("refused");
    RetryAllFail(timeout, n, task, respond);
  }

  /** An endpoint that fails once and then accepts: two attempts and a success. */
  lemma SecondAttemptSucceeds(timeout: int, n: nat, task: UploadTask)
    requires n >= 1
    ensures var run := RetrySpec(timeout, n, task, k => if k == 0 then TimedOut else Response(201, "{}", true, 5));
            run.attempts == 2 && run.sleeps == 1 && run.result.success
  {
    var respond: nat -> HttpOutcome := k => if k == 0 then TimedOut else Response(201, "{}", true, 5);
    assert !AttemptSucceeds(timeout, task, respond, 0);
    RetryStopsAtFirstSuccess(timeout, n, task, respond, 1);
  }
}
