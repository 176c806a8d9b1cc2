/** Per-request benchmark records, as every report and comparison reads them. */
module BenchmarkRecords {
  import opened Domain

  datatype Workload = Classification | StructuredExtraction | Generation

  /** Times are in seconds, latencies in milliseconds, money in dollars, all exact reals. */
  datatype BenchmarkRecord = BenchmarkRecord(
    itemId: string,
    repeatIndex: int,
    workload: Workload,
    qualityTier: Option<QualityTier>,
    provider: Option<string>,
    startedAt: real,
    completedAt: real,
    ttft: Option<real>,
    e2e: real,
    errorClass: Option<ErrorClass>,
    taskCorrect: Option<bool>,
    managedCost: Option<real>)

  predicate IsCorrect(record: BenchmarkRecord) {
    record.taskCorrect == Some(true)
  }

  predicate HasFailed(record: BenchmarkRecord) {
    record.errorClass.Some?
  }
}
