/**
 * The sync worker: `POST /sync` uploads the run's metadata object through
 * `retryWithBackoff` (three attempts), aggregates the per-file result, and
 * records it in the key-value namespace under `sync:<syncId>` and as the
 * `sync:latest` pointer; `GET /sync/status` reads that pointer back.
 *
 * The namespace is the `kv` field of `SyncWorker`. The clock, the generated
 * sync id, the outcomes of the upload calls and any namespace failure are
 * parameters.
 */
module R2Sync {
  import opened Optional
  import opened RetryBackoff

  const WorkerName: string := "ai-context-r2-sync"
  const MetadataFile: string := "metadata.json"
  const UploadRetries: int := 3
  const ResultTtlSeconds: nat := 7 * 24 * 60 * 60      // 7 days
  const LatestTtlSeconds: nat := 365 * 24 * 60 * 60    // 1 year
  const LatestKey: string := "sync:latest"

  /** One entry of `errors`: the file that failed and the error's message. */
  datatype FileError = FileError(file: string, error: string)

  /** The `syncResults` record returned to the caller and stored in the namespace. */
  datatype SyncResults = SyncResults(
    syncId: string,
    timestamp: string,
    filesProcessed: nat,
    filesFailed: nat,
    errors: seq<FileError>,
    duration: int)

  /** The JSON values this worker writes to its namespace. */
  datatype KvValue =
    | ResultRecord(results: SyncResults)
    | LatestPointer(syncId: string, timestamp: string)

  /** A value together with the expiry (in seconds) it was written with. */
  datatype KvEntry = KvEntry(value: KvValue, ttl: nat)

  /** Which of the two namespace writes of a run throws, if any, and its message. */
  datatype PutFault = NoPutFault | ResultPutFails(message: string) | LatestPutFails(message: string)

  /** What drives one sync run besides the namespace. */
  datatype SyncInputs = SyncInputs(
    syncId: string,
    timestamp: string,
    elapsed: int,                          // Date.now() - startTime, taken after the upload
    upload: nat -> CallOutcome<()>,        // what the k-th PutObject call does
    putFault: PutFault)

  datatype SyncRequest = SyncRequest(httpMethod: string, pathname: string)

  datatype Endpoint = HealthRoute | SyncRoute | StatusRoute | UnknownRoute

  /** The worker's JSON responses; `StatusOk(None)` is `{message: 'No syncs yet'}`. */
  datatype SyncResponse =
    | HealthOk(worker: string)
    | SyncOk(results: SyncResults)
    | SyncFailed(message: string)          // 500 {error: 'Sync failed', message}
    | StatusOk(latest: Option<KvValue>)
    | NotFound
    | InternalError(message: string)       // 500 {error: 'Internal server error', message}

  function StatusCode(resp: SyncResponse): int {
    match resp
    case SyncFailed(_) => 500
    case InternalError(_) => 500
    case NotFound => 404
    case _ => 200
  }

  function ResultKey(syncId: string): string {
    "sync:" + syncId
  }

  /**
   * `syncResults` after its one unit of work, the metadata upload, settled
   * with `outcome`: exactly one of the counters is 1, and a failure leaves
   * one error entry naming the metadata file.
   */
  function MetadataUnitResults(syncId: string, timestamp: string, outcome: Settled<()>): (r: SyncResults)
    ensures r.syncId == syncId && r.timestamp == timestamp && r.duration == 0
    ensures r.filesProcessed + r.filesFailed == 1
    ensures |r.errors| == r.filesFailed
    ensures forall e :: e in r.errors ==> e.file == MetadataFile
    ensures r.filesFailed == 1 <==> outcome.Rethrown?
    ensures outcome.Rethrown? ==> r.errors[0].error == outcome.error.message
  {
    var initial := SyncResults(syncId, timestamp, 0, 0, [], 0);
    if outcome.Rethrown? then
      initial.(filesFailed := 1, errors := [FileError(MetadataFile, outcome.error.message)])
    else
      initial.(filesProcessed := 1)
  }

  /**
   * The record a run returns and stores: the metadata unit counted from the
   * outcome of the three-attempt upload, `duration` filled in afterwards.
   */
  function RunResults(inputs: SyncInputs): (r: SyncResults)
    ensures r.syncId == inputs.syncId && r.timestamp == inputs.timestamp && r.duration == inputs.elapsed
    ensures r.filesProcessed + r.filesFailed == 1 && |r.errors| == r.filesFailed
    ensures r.filesFailed == 1 <==> Retry(inputs.upload, UploadRetries).result.Rethrown?
  {
    MetadataUnitResults(inputs.syncId, inputs.timestamp, Retry(inputs.upload, UploadRetries).result)
      .(duration := inputs.elapsed)
  }

  /**
   * The namespace after a run: the result record under `sync:<syncId>` for
   * seven days, then the latest pointer for a year; a failing write stops
   * the run there. No other key changes.
   */
  function StoreAfterSync(kv: map<string, KvEntry>, syncId: string, timestamp: string,
                          results: SyncResults, fault: PutFault): (s: map<string, KvEntry>)
    ensures fault.ResultPutFails? ==> s == kv
    ensures !fault.ResultPutFails? && ResultKey(syncId) != LatestKey ==>
      ResultKey(syncId) in s && s[ResultKey(syncId)] == KvEntry(ResultRecord(results), ResultTtlSeconds)
    ensures fault.LatestPutFails? ==> LatestKey in s ==> LatestKey in kv || ResultKey(syncId) == LatestKey
    ensures fault.LatestPutFails? && ResultKey(syncId) != LatestKey ==>
      && (LatestKey in s <==> LatestKey in kv)
      && (LatestKey in kv ==> s[LatestKey] == kv[LatestKey])
    ensures fault.NoPutFault? ==>
      LatestKey in s && s[LatestKey] == KvEntry(LatestPointer(syncId, timestamp), LatestTtlSeconds)
    ensures forall k :: k in kv && k != ResultKey(syncId) && k != LatestKey ==> k in s && s[k] == kv[k]
    ensures s.Keys <= kv.Keys + {ResultKey(syncId), LatestKey}
  {
    match fault
    case ResultPutFails(_) => kv
    case LatestPutFails(_) => kv[ResultKey(syncId) := KvEntry(ResultRecord(results), ResultTtlSeconds)]
    case NoPutFault =>
      kv[ResultKey(syncId) := KvEntry(ResultRecord(results), ResultTtlSeconds)]
        [LatestKey := KvEntry(LatestPointer(syncId, timestamp), LatestTtlSeconds)]
  }

  /**
   * The response of a run: 200 with the results whenever both writes
   * succeeded, even if the upload failed; 500 when either write threw.
   */
  function SyncResponseFor(results: SyncResults, fault: PutFault): (resp: SyncResponse)
    ensures StatusCode(resp) == (if fault.NoPutFault? then 200 else 500)
    ensures fault.NoPutFault? ==> resp.SyncOk? && resp.results == results
    ensures !fault.NoPutFault? ==> resp == SyncFailed(fault.message)
  {
    if fault.NoPutFault? then SyncOk(results) else SyncFailed(fault.message)
  }

  /** What `sync:latest` holds, if anything. */
  function LatestStatus(kv: map<string, KvEntry>): Option<KvValue> {
    if LatestKey in kv then Some(kv[LatestKey].value) else None
  }

  /** The fetch router's case split on method and path; everything else is a 404. */
  function Route(httpMethod: string, pathname: string): (e: Endpoint)
    ensures e == UnknownRoute <==>
      !(httpMethod == "GET" && (pathname == "/health" || pathname == "/sync/status"))
      && !(httpMethod == "POST" && pathname == "/sync")
    ensures e == HealthRoute <==> httpMethod == "GET" && pathname == "/health"
    ensures e == SyncRoute <==> httpMethod == "POST" && pathname == "/sync"
    ensures e == StatusRoute <==> httpMethod == "GET" && pathname == "/sync/status"
  {
    if httpMethod == "GET" && pathname == "/health" then HealthRoute
    else if httpMethod == "POST" && pathname == "/sync" then SyncRoute
    else if httpMethod == "GET" && pathname == "/sync/status" then StatusRoute
    else UnknownRoute
  }

  /**
   * The metadata unit of `syncContextToR2`: upload through the retry wrapper
   * and count the outcome into a fresh `syncResults`.
   */
  method RunMetadataUnit(syncId: string, timestamp: string, upload: nat -> CallOutcome<()>)
    returns (results: SyncResults)
    ensures results == MetadataUnitResults(syncId, timestamp, Retry(upload, UploadRetries).result)
  {
    results := SyncResults(syncId, timestamp, 0, 0, [], 0);
    var outcome, _, _ := RetryWithBackoff(upload, UploadRetries);
    if outcome.Rethrown? {
      results := results.(filesFailed := results.filesFailed + 1);
      results := results.(errors := results.errors + [FileError(MetadataFile, outcome.error.message)]);
    } else {
      results := results.(filesProcessed := results.filesProcessed + 1);
    }
  }

  /** A completed run publishes its pointer, which the status endpoint then returns. */
  lemma LatestAfterSync(kv: map<string, KvEntry>, inputs: SyncInputs)
    requires inputs.putFault.NoPutFault?
    ensures LatestStatus(StoreAfterSync(kv, inputs.syncId, inputs.timestamp, RunResults(inputs), inputs.putFault))
      == Some(LatestPointer(inputs.syncId, inputs.timestamp))
  {
  }

  /**
   * An upload that fails on all three attempts is recorded as one failed
   * file, yet the run still answers 200 and stores its record and pointer.
   */
  lemma FailedUploadStillSucceeds(kv: map<string, KvEntry>, inputs: SyncInputs)
    requires inputs.putFault.NoPutFault?
    requires forall k :: 0 <= k < UploadRetries ==> IsTransient(inputs.upload(k))
    ensures var results := RunResults(inputs);
      && inputs.upload(2).Threw?
      && results.filesFailed == 1 && results.filesProcessed == 0
      && results.errors == [FileError(MetadataFile, inputs.upload(2).error.message)]
      && StatusCode(SyncResponseFor(results, inputs.putFault)) == 200
  {
  }

  /** The sync worker with its key-value namespace. */
  class SyncWorker {
    var kv: map<string, KvEntry>

    constructor ()
      ensures kv == map[]
    {
      kv := map[];
    }

    /** `syncContextToR2`: run the metadata unit, then write the record and the pointer. */
    method SyncContextToR2(inputs: SyncInputs) returns (resp: SyncResponse)
      modifies this
      ensures resp == SyncResponseFor(RunResults(inputs), inputs.putFault)
      ensures kv == StoreAfterSync(old(kv), inputs.syncId, inputs.timestamp, RunResults(inputs), inputs.putFault)
    {
      var syncResults := RunMetadataUnit(inputs.syncId, inputs.timestamp, inputs.upload);
      syncResults := syncResults.(duration := inputs.elapsed);
      if inputs.putFault.ResultPutFails? {
        return SyncFailed(inputs.putFault.message);
      }
      kv := kv[ResultKey(inputs.syncId) := KvEntry(ResultRecord(syncResults), ResultTtlSeconds)];
      if inputs.putFault.LatestPutFails? {
        return SyncFailed(inputs.putFault.message);
      }
      kv := kv[LatestKey := KvEntry(LatestPointer(inputs.syncId, inputs.timestamp), LatestTtlSeconds)];
      resp := SyncOk(syncResults);
    }

    /**
     * `GET /sync/status`: the stored pointer, or "No syncs yet"; a read that
     * throws becomes a 500. Nothing is written.
     */
    method SyncStatus(readFault: Option<string>) returns (resp: SyncResponse)
      ensures readFault.Some? ==> resp == InternalError(readFault.value)
      ensures readFault.None? ==> resp.StatusOk? && resp.latest == LatestStatus(kv)
      ensures readFault.None? && LatestKey !in kv ==> resp == StatusOk(None)
    {
      if readFault.Some? {
        return InternalError(readFault.value);
      }
      var latest := if LatestKey in kv then Some(kv[LatestKey].value) else None;
      resp := StatusOk(latest);
    }

    /** Reading the status twice with no sync in between gives the same answer. */
    method ReadStatusTwice() returns (first: SyncResponse, second: SyncResponse)
      ensures first == second && first.StatusOk?
    {
      first := SyncStatus(None);
      second := SyncStatus(None);
    }

    /** The worker's fetch handler. */
    method Fetch(req: SyncRequest, inputs: SyncInputs, readFault: Option<string>) returns (resp: SyncResponse)
      modifies this
      ensures match Route(req.httpMethod, req.pathname)
        case HealthRoute => resp == HealthOk(WorkerName) && kv == old(kv)
        case SyncRoute =>
          && resp == SyncResponseFor(RunResults(inputs), inputs.putFault)
          && kv == StoreAfterSync(old(kv), inputs.syncId, inputs.timestamp, RunResults(inputs), inputs.putFault)
        case StatusRoute =>
          && resp == (if readFault.Some? then InternalError(readFault.value) else StatusOk(LatestStatus(old(kv))))
          && kv == old(kv)
        case UnknownRoute => resp == NotFound && kv == old(kv)
    {
      match Route(req.httpMethod, req.pathname) {
        case HealthRoute =>
          resp := HealthOk(WorkerName);
        case SyncRoute =>
          resp := SyncContextToR2(inputs);
        case StatusRoute =>
          resp := SyncStatus(readFault);
        case UnknownRoute =>
          resp := NotFound;
      }
    }
  }
}
