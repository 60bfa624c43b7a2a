/**
 * The retry policy and error classification around the external
 * disease-detection flow, as a specification of one call of
 * `performDiseaseDetectionAndSave`.
 *
 * The flow is an oracle: `flow(k)` is what the k-th call (counting from 0)
 * does, so a run of the policy is a function of the oracle alone.
 */
module Detection {
  import opened Types
  import opened Strings

  /** Total number of calls to the flow that one detection may make. */
  const MaxRetries: nat := 3
  /** Base of the linear backoff, in milliseconds. */
  const RetryDelayMs: nat := 1000

  /** The only marker of a failure worth retrying. */
  const ServiceUnavailableMarker := "503 Service Unavailable"
  const SafetyMarker := "SAFETY"
  const InvalidMediaMarker := "Invalid media"

  /** What one call of the detection flow does. */
  datatype CallOutcome =
    | Returned(output: DetectOutput)
    | ThrewError(message: string)   // an `Error` with its message
    | ThrewNonError                 // any thrown value that is not an `Error`

  /** The user-facing failure kinds; each is thrown with its own message. */
  datatype Failure =
    | ServiceBusy
    | ContentRejected
    | UnprocessableImage
    | DetectionFailed(cause: string)
    | UnknownFailure
    | GaveUp                        // the throw after the loop

  /** The outcome of one detection: the flow's output, or what is thrown. */
  datatype Result = Ok(output: DetectOutput) | Fail(failure: Failure)

  /** A run of the policy: its result, how often the flow was called, the waits. */
  datatype Trace = Trace(result: Result, calls: nat, waits: seq<nat>)

  // Each long message is written as a short literal followed by the rest, so
  // that the verifier can read its first characters.
  const BusyMessage :=
    "The Plant Analysis Service " + "is currently busy. Please try again in a few moments."
  const SafetyMessage :=
    "The analysis could not be " + "completed due to content safety filters. Try a different image or adjust your plant description."
  const InvalidMediaMessage :=
    "The uploaded image could not " + "be processed. Please try a different image format or a clearer picture."
  const DetectionFailedPrefix := "Failed to detect disease: "
  const UnknownMessage :=
    "An unknown error occurred " + "during disease detection."
  const GaveUpMessage :=
    "Failed to detect disease after " + "multiple attempts."

  /** The message of the `Error` thrown for a failure. */
  function Message(f: Failure): string
  {
    match f
    case ServiceBusy => BusyMessage
    case ContentRejected => SafetyMessage
    case UnprocessableImage => InvalidMediaMessage
    case DetectionFailed(cause) => DetectionFailedPrefix + cause
    case UnknownFailure => UnknownMessage
    case GaveUp => GaveUpMessage
  }

  /** Reads the failure kind back from a thrown message. */
  function FailureOfMessage(m: string): Option<Failure>
  {
    if DetectionFailedPrefix <= m then Some(DetectionFailed(m[|DetectionFailedPrefix|..]))
    else if m == BusyMessage then Some(ServiceBusy)
    else if m == SafetyMessage then Some(ContentRejected)
    else if m == InvalidMediaMessage then Some(UnprocessableImage)
    else if m == UnknownMessage then Some(UnknownFailure)
    else if m == GaveUpMessage then Some(GaveUp)
    else None
  }

  /**
   * Every failure kind has its own message: the kind, and a wrapped cause,
   * can be read back from what the caller is shown.
   */
  lemma MessagesDistinct(f: Failure)
    ensures FailureOfMessage(Message(f)) == Some(f)
  {
    match f
    case DetectionFailed(cause) =>
      assert Message(f)[|DetectionFailedPrefix|..] == cause;
    case ServiceBusy =>
      assert BusyMessage[0] != DetectionFailedPrefix[0];
    case ContentRejected =>
      assert SafetyMessage[0] != DetectionFailedPrefix[0];
    case UnprocessableImage =>
      assert InvalidMediaMessage[0] != DetectionFailedPrefix[0];
    case UnknownFailure =>
      assert UnknownMessage[0] != DetectionFailedPrefix[0];
    case GaveUp =>
      assert GaveUpMessage[24] != DetectionFailedPrefix[24];
  }

  /** A failure that earns another call: an `Error` carrying the 503 marker. */
  predicate IsTransient(e: CallOutcome)
  {
    e.ThrewError? && Contains(e.message, ServiceUnavailableMarker)
  }

  /**
   * The failure a call ends with when it is not retried. The tests run in
   * this order: the 503 marker, then "SAFETY", then "Invalid media", then any
   * other `Error`, then a thrown non-`Error`.
   */
  function Classify(e: CallOutcome): Failure
    requires !e.Returned?
  {
    if IsTransient(e) then ServiceBusy
    else match e
      case ThrewError(m) =>
        if Contains(m, SafetyMarker) then ContentRejected
        else if Contains(m, InvalidMediaMarker) then UnprocessableImage
        else DetectionFailed(m)
      case ThrewNonError => UnknownFailure
  }

  /** How a call that is not retried settles the whole detection. */
  function Settle(e: CallOutcome): Result
  {
    match e
    case Returned(o) => Ok(o)
    case _ => Fail(Classify(e))
  }

  /** The waits made before the 2nd, 3rd, ... call: 1000, 2000, ... ms. */
  function Backoff(n: nat): (w: seq<nat>)
    ensures |w| == n
  {
    seq(n, i => RetryDelayMs * (i + 1))
  }

  /**
   * The loop of the policy from the head of the `while`, with `attempts`
   * failed calls behind it and the waits made so far.
   */
  function Attempt(flow: nat -> CallOutcome, attempts: nat, waits: seq<nat>): Trace
    requires attempts <= MaxRetries
    decreases MaxRetries - attempts
  {
    if attempts == MaxRetries then Trace(Fail(GaveUp), attempts, waits)
    else
      var e := flow(attempts);
      if e.Returned? then Trace(Ok(e.output), attempts + 1, waits)
      else if IsTransient(e) && attempts + 1 < MaxRetries
      then Attempt(flow, attempts + 1, waits + [RetryDelayMs * (attempts + 1)])
      else Trace(Fail(Classify(e)), attempts + 1, waits)
  }

  /** One detection, from its first call. */
  function Detect(flow: nat -> CallOutcome): Trace
  {
    Attempt(flow, 0, [])
  }

  /** The shape of a run of the loop entered with `attempts` transient failures behind it. */
  lemma {:induction false} AttemptShape(flow: nat -> CallOutcome, attempts: nat, waits: seq<nat>)
    requires attempts < MaxRetries
    requires waits == Backoff(attempts)
    ensures var t := Attempt(flow, attempts, waits);
      && attempts < t.calls <= MaxRetries
      && t.waits == Backoff(t.calls - 1)
      && (forall i :: attempts <= i < t.calls - 1 ==> IsTransient(flow(i)))
      && (t.calls < MaxRetries ==> !IsTransient(flow(t.calls - 1)))
      && t.result == Settle(flow(t.calls - 1))
    decreases MaxRetries - attempts
  {
    var e := flow(attempts);
    if !e.Returned? && IsTransient(e) && attempts + 1 < MaxRetries {
      var w := waits + [RetryDelayMs * (attempts + 1)];
      assert w == Backoff(attempts + 1);
      AttemptShape(flow, attempts + 1, w);
    }
  }

  /**
   * The whole policy: the flow is called between 1 and 3 times; every call
   * but the last failed with the 503 marker; the last is not such a failure
   * unless it is the third; before call k+1 the policy waited 1000*k ms; and
   * the result is the last call's output or its classified failure. So the
   * throw after the loop is never reached.
   */
  lemma DetectSpec(flow: nat -> CallOutcome)
    ensures var t := Detect(flow);
      && 1 <= t.calls <= MaxRetries
      && t.waits == Backoff(t.calls - 1)
      && (forall i :: 0 <= i < t.calls - 1 ==> IsTransient(flow(i)))
      && (t.calls < MaxRetries ==> !IsTransient(flow(t.calls - 1)))
      && t.result == Settle(flow(t.calls - 1))
      && t.result != Fail(GaveUp)
  {
    AttemptShape(flow, 0, []);
    var t := Detect(flow);
    if !flow(t.calls - 1).Returned? {
      assert Classify(flow(t.calls - 1)) != GaveUp;
    }
  }

  /** Success on the first call: no wait, one call, the output unchanged. */
  lemma FirstCallSucceeds(flow: nat -> CallOutcome, o: DetectOutput)
    requires flow(0) == Returned(o)
    ensures Detect(flow) == Trace(Ok(o), 1, [])
  {
  }

  /** Two 503 failures and then a success: two waits, 1000 and 2000 ms. */
  lemma BusyTwiceThenSuccess(flow: nat -> CallOutcome, o: DetectOutput)
    requires IsTransient(flow(0)) && IsTransient(flow(1))
    requires flow(2) == Returned(o)
    ensures Detect(flow) == Trace(Ok(o), 3, [1000, 2000])
  {
    DetectSpec(flow);
  }

  /** Three 503 failures in a row: three calls, two waits, then "busy". */
  lemma AlwaysBusy(flow: nat -> CallOutcome)
    requires forall i :: 0 <= i < MaxRetries ==> IsTransient(flow(i))
    ensures Detect(flow) == Trace(Fail(ServiceBusy), 3, [1000, 2000])
  {
    DetectSpec(flow);
    var t := Detect(flow);
    assert IsTransient(flow(t.calls - 1));
  }

  /** Any other failure ends the detection at once, with no wait. */
  lemma OtherFailureIsFinal(flow: nat -> CallOutcome)
    requires !flow(0).Returned? && !IsTransient(flow(0))
    ensures Detect(flow) == Trace(Fail(Classify(flow(0))), 1, [])
  {
  }

  /** "SAFETY" without the 503 marker is rejected at once. */
  lemma SafetyRejectedAtOnce(flow: nat -> CallOutcome, m: string)
    requires flow(0) == ThrewError(m)
    requires Contains(m, SafetyMarker) && !Contains(m, ServiceUnavailableMarker)
    ensures Detect(flow) == Trace(Fail(ContentRejected), 1, [])
  {
  }

  /** The 503 test comes first: a message with both markers is retried. */
  lemma BusyBeforeSafety(flow: nat -> CallOutcome, m: string)
    requires flow(0) == ThrewError(m)
    requires Contains(m, SafetyMarker) && Contains(m, ServiceUnavailableMarker)
    ensures Detect(flow).calls >= 2 && Detect(flow).waits[0] == RetryDelayMs
  {
    DetectSpec(flow);
  }
}
