/**
 * The records the batch engine reads and writes: the Transaction entity and the
 * two shapes it is loaded from or copied into, the job log and result rows, the
 * job setting row, and the exceptions that reach the step listeners.
 */
module Domain {
  import opened Wrappers

  /** java.time.Instant, as nanoseconds since the epoch. */
  type Instant = int

  /**
   * The Transaction entity, one row of the transaction table. Every column is
   * nullable in Java; the BigDecimal amount is a real number.
   */
  datatype Transaction = Transaction(
    id: Option<int>,
    branch: Option<string>,
    name: Option<string>,
    amount: Option<real>,
    createDate: Option<Instant>,
    status: Option<string>)

  /** A new Transaction object: every field null. */
  const EmptyTransaction: Transaction := Transaction(None, None, None, None, None, None)

  /** What the Oracle package's pipelined function returns for one row. */
  datatype TransactionProjection = TransactionProjection(
    id: Option<int>,
    branch: Option<string>,
    name: Option<string>,
    amount: Option<real>,
    createDate: Option<Instant>,
    status: Option<string>)

  /** The transfer object: the entity without its status. */
  datatype TransactionDTO = TransactionDTO(
    id: Option<int>,
    branch: Option<string>,
    name: Option<string>,
    amount: Option<real>,
    createDate: Option<Instant>)

  /** LogTypeEnum. */
  datatype LogType = START | COUNT | END | ERROR | INFO

  /** A row of the job log table; its created date comes from the clock and is left out. */
  datatype JobLog = JobLog(
    jobName: string,
    logType: LogType,
    message: Option<string>,
    note: Option<string>,
    stepExecutionId: Option<int>,
    jobExecutionId: Option<int>,
    createdBy: Option<string>)

  /** A row of the job result table, one per step execution. */
  datatype JobLogResult = JobLogResult(
    jobName: string,
    rowRun: int,
    rowError: int,
    startTime: Option<Instant>,
    endTime: Option<Instant>,
    note: Option<string>,
    total: int,
    skipReader: int,
    skipProcessor: int,
    skipWriter: int,
    skipTotal: int,
    skipLimit: int,
    stepExecutionId: Option<int>,
    jobExecutionId: Option<int>,
    status: Option<string>,
    createdBy: Option<string>)

  /**
   * A row of the job setting table, keyed by job name; the service hands out
   * a field-by-field copy of it as the DTO, so one datatype serves for both.
   */
  datatype JobSetting = JobSetting(
    jobName: string,
    description: Option<string>,
    status: Option<int>,
    params: Option<string>,
    createdBy: Option<string>,
    createdDate: Option<Instant>,
    updatedBy: Option<string>,
    updatedDate: Option<Instant>)

  /** The classes of Throwable the step configuration tells apart. */
  datatype ThrowableKind = IOExceptionKind | OtherExceptionKind | ErrorKind

  /** A Throwable: its class, getMessage() and the text ExceptionUtils.getStackTrace gives. */
  datatype Throwable = Throwable(kind: ThrowableKind, message: Option<string>, stackTrace: string)
}
