/** TransactionStatus: the status values a transaction row may carry, and their column text. */
module Enumeration {
  import opened Wrappers

  datatype TransactionStatus = NULL | JOB_PROCESSING | COMPLETED | ERROR

  /** TransactionStatus.values(), in declaration order. */
  const Values: seq<TransactionStatus> := [NULL, JOB_PROCESSING, COMPLETED, ERROR]

  /** Enum.name(). */
  function Name(s: TransactionStatus): string {
    match s
    case NULL => "NULL"
    case JOB_PROCESSING => "JOB_PROCESSING"
    case COMPLETED => "COMPLETED"
    case ERROR => "ERROR"
  }

  /** getValue(): the text written to the status column; NULL writes a SQL null. */
  function GetValue(s: TransactionStatus): (v: Option<string>)
    ensures v.None? <==> s == NULL
    ensures s != NULL ==> v == Some(Name(s))
  {
    if s == NULL then None else Some(Name(s))
  }

  /** The loop of fromValue: the first constant whose non-null value equals the text, else NULL. */
  function FindByValue(candidates: seq<TransactionStatus>, value: string): (s: TransactionStatus)
    ensures s != NULL ==> GetValue(s) == Some(value) && s in candidates
  {
    if candidates == [] then NULL
    else if GetValue(candidates[0]) == Some(value) then candidates[0]
    else FindByValue(candidates[1..], value)
  }

  /** fromValue: decodes column text; null and unknown text both decode to NULL. */
  function FromValue(value: Option<string>): (s: TransactionStatus)
    ensures value.None? ==> s == NULL
    ensures s != NULL ==> GetValue(s) == value
  {
    if value.None? then NULL else FindByValue(Values, value.value)
  }

  /** Decoding what a constant encodes gives the constant back. */
  lemma RoundTrip(s: TransactionStatus)
    ensures FromValue(GetValue(s)) == s
  {
  }

  /** Text that no constant carries decodes to NULL. */
  lemma UnknownDecodesToNull(text: string)
    requires forall s :: GetValue(s) != Some(text)
    ensures FromValue(Some(text)) == NULL
  {
  }

  /** The column texts are pairwise distinct, so decoding is well defined. */
  lemma ValuesDistinct(a: TransactionStatus, b: TransactionStatus)
    requires GetValue(a) == GetValue(b)
    ensures a == b
  {
  }
}
