/**
 * Record shapes shared by the server actions: the output of the external
 * disease-detection flow, the saved history record and the analytics summary.
 */
module Types {

  /** An optional value, for a field the source may leave undefined. */
  datatype Option<+T> = None | Some(value: T)

  /**
   * One candidate disease. The confidence is carried along but never
   * inspected by the actions, so nothing is assumed about its range.
   */
  datatype Diagnosis = Diagnosis(disease: string, confidence: real)

  /**
   * What the detection flow returns. The actions test `diagnoses` for being
   * absent as well as for being empty, so it is optional here.
   */
  datatype DetectOutput = DetectOutput(diagnoses: Option<seq<Diagnosis>>)

  /** A saved detection: the flow's output plus id, image reference and time. */
  datatype DiagnosisRecord = DiagnosisRecord(
    diagnoses: Option<seq<Diagnosis>>,
    id: string,
    photoDataUri: string,
    timestamp: string)

  /** One entry of the top-issues list: a disease name and how often it was seen. */
  datatype Issue = Issue(name: string, count: nat)

  datatype AnalyticsSummary = AnalyticsSummary(
    totalScans: int,
    healthyScans: int,
    diseasedScans: int,
    commonIssues: seq<Issue>)

  /** The diagnosis entries of an optional list; an absent list has none. */
  function EntriesOf(diagnoses: Option<seq<Diagnosis>>): seq<Diagnosis>
  {
    match diagnoses
    case None => []
    case Some(ds) => ds
  }
}
