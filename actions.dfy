/**
 * The server actions over the simulated history database: detect-and-save,
 * reading the history, and the analytics summary.
 */
module Actions {
  import opened Types
  import opened Strings
  import opened Detection
  import opened Analytics

  /** The record saved for a successful detection. */
  function NewRecord(result: DetectOutput, id: string, imagePreviewUrl: string, timestamp: string): (r: DiagnosisRecord)
    ensures r.diagnoses == result.diagnoses && r.photoDataUri == imagePreviewUrl
    ensures r.id == id && r.timestamp == timestamp
  {
    DiagnosisRecord(result.diagnoses, id, imagePreviewUrl, timestamp)
  }

  /**
   * The history after saving the records of `saved` in order: each
   * successful detection puts its record at the head.
   */
  function SaveAll(history: seq<DiagnosisRecord>, saved: seq<DiagnosisRecord>): seq<DiagnosisRecord>
  {
    if saved == [] then history
    else [saved[|saved| - 1]] + SaveAll(history, saved[..|saved| - 1])
  }

  /**
   * After saving records one by one, the history lists them newest first,
   * followed by what was there before.
   */
  lemma {:induction false} SaveAllNewestFirst(history: seq<DiagnosisRecord>, saved: seq<DiagnosisRecord>)
    ensures var h := SaveAll(history, saved);
      && |h| == |saved| + |history|
      && (forall i :: 0 <= i < |saved| ==> h[i] == saved[|saved| - 1 - i])
      && h[|saved|..] == history
  {
    if saved != [] {
      var init := saved[..|saved| - 1];
      SaveAllNewestFirst(history, init);
      var h := SaveAll(history, saved);
      assert h[|saved|..] == SaveAll(history, init)[|init|..];
    }
  }

  /** One call of detect-and-save: the flow's behaviour and the values the record would get. */
  datatype Request = Request(flow: nat -> CallOutcome, imagePreviewUrl: string, id: string, timestamp: string)

  /** The records that a series of detect-and-save calls saves, in the order of the calls. */
  function SavedBy(requests: seq<Request>): seq<DiagnosisRecord>
  {
    if requests == [] then []
    else
      var last := requests[|requests| - 1];
      var t := Detect(last.flow);
      SavedBy(requests[..|requests| - 1]) +
        (if t.result.Ok? then [NewRecord(t.result.output, last.id, last.imagePreviewUrl, last.timestamp)] else [])
  }

  /** The module-level history array, newest record first. */
  class HistoryStore {
    var records: seq<DiagnosisRecord>

    constructor ()
      ensures records == []
    {
      records := [];
    }

    /**
     * Detects with retries and, on success, saves a record at the head of
     * the history. `flow(k)` is what the k-th call of the detection flow
     * does; `id` and `timestamp` are the values the record is stamped with.
     * Returns the result, the number of calls made and the waits, in ms.
     */
    method PerformDiseaseDetectionAndSave(flow: nat -> CallOutcome, imagePreviewUrl: string, id: string, timestamp: string)
      returns (result: Result, calls: nat, waits: seq<nat>)
      modifies this
      ensures Trace(result, calls, waits) == Detect(flow)
      ensures result.Ok? ==> records == [NewRecord(result.output, id, imagePreviewUrl, timestamp)] + old(records)
      ensures result.Fail? ==> records == old(records)
    {
      var attempts: nat := 0;
      calls, waits := 0, [];
      while attempts < MaxRetries
        invariant attempts < MaxRetries
        invariant calls == attempts && waits == Backoff(attempts)
        invariant Attempt(flow, attempts, waits) == Detect(flow)
        invariant records == old(records)
        decreases MaxRetries - attempts
      {
        var outcome := flow(attempts);
        calls := calls + 1;
        if outcome.Returned? {
          var newRecord := NewRecord(outcome.output, id, imagePreviewUrl, timestamp);
          records := [newRecord] + records;
          return Ok(outcome.output), calls, waits;
        }
        attempts := attempts + 1;
        if outcome.ThrewError? && Contains(outcome.message, ServiceUnavailableMarker) {
          if attempts < MaxRetries {
            waits := waits + [RetryDelayMs * attempts];
            continue;
          } else {
            return Fail(ServiceBusy), calls, waits;
          }
        }
        if outcome.ThrewError? {
          if Contains(outcome.message, SafetyMarker) {
            return Fail(ContentRejected), calls, waits;
          }
          if Contains(outcome.message, InvalidMediaMarker) {
            return Fail(UnprocessableImage), calls, waits;
          }
          return Fail(DetectionFailed(outcome.message)), calls, waits;
        }
        return Fail(UnknownFailure), calls, waits;
      }
      // Every pass of the loop returns or continues with attempts < MaxRetries.
      assert false;
    }

    /** The history, newest first, as a copy the caller may not use to change the store. */
    function GetDiagnosisHistory(): (h: seq<DiagnosisRecord>)
      reads this
      ensures h == records
    {
      records
    }

    /**
     * Runs detect-and-save once per request, in order. The records saved are
     * those of the successful detections, and afterwards the history read
     * lists them newest first, followed by the history before the calls.
     */
    method RunDetections(requests: seq<Request>) returns (saved: seq<DiagnosisRecord>)
      modifies this
      ensures saved == SavedBy(requests)
      ensures GetDiagnosisHistory() == SaveAll(old(records), saved)
    {
      saved := [];
      var k := 0;
      while k < |requests|
        invariant 0 <= k <= |requests|
        invariant saved == SavedBy(requests[..k])
        invariant records == SaveAll(old(records), saved)
      {
        var request := requests[k];
        assert requests[..k + 1][..k] == requests[..k];
        var result, calls, waits := PerformDiseaseDetectionAndSave(request.flow, request.imagePreviewUrl, request.id, request.timestamp);
        if result.Ok? {
          var newRecord := NewRecord(result.output, request.id, request.imagePreviewUrl, request.timestamp);
          assert (saved + [newRecord])[..|saved|] == saved;
          saved := saved + [newRecord];
        }
        k := k + 1;
      }
      assert requests[..k] == requests;
    }

    /** Counts the scans and the disease names over the history, then keeps the top three names. */
    method GetAnalyticsSummary() returns (summary: AnalyticsSummary)
      ensures summary == Summarize(records)
    {
      var history := GetDiagnosisHistory();
      var totalScans := |history|;
      var healthyScans := 0;
      var diseaseCounts := NoCounters;
      var i := 0;
      while i < |history|
        invariant 0 <= i <= |history|
        invariant healthyScans == CountHealthy(history[..i])
        invariant diseaseCounts == Tally(history[..i])
      {
        var record := history[i];
        TallyStep(history, i);
        if record.diagnoses.None? || |record.diagnoses.value| == 0 {
          healthyScans := healthyScans + 1;
        } else {
          var ds := record.diagnoses.value;
          ghost var before := diseaseCounts;
          var j := 0;
          while j < |ds|
            invariant 0 <= j <= |ds|
            invariant diseaseCounts == TallyDiagnoses(before, ds[..j])
          {
            TallyDiagnosesStep(before, ds, j);
            diseaseCounts := Bump(diseaseCounts, ds[j].disease);
            j := j + 1;
          }
          assert ds[..j] == ds;
        }
        i := i + 1;
      }
      assert history[..i] == history;
      var commonIssues := TopIssues(diseaseCounts);
      summary := AnalyticsSummary(totalScans, healthyScans, totalScans - healthyScans, commonIssues);
    }
  }
}
