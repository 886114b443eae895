/**
 The state of a QuickFAST SequentialSingleValueBuilder, seen as a value.

 The builder is the sink a FAST decoder calls back into: it records every
 decoded field (its identity and its value) in two parallel vectors, counts
 the messages the decoder starts, and keeps three sticky status flags and
 the text of the most recent log or error report.  This module gives that
 state as a datatype and one pure transition function per callback that
 changes it; the class in module Messages is proved to follow them.
 */
module SingleValueState {

  /** `size_t` on a 64-bit platform: the message counter wraps at this modulus. */
  const SIZE_T_MODULUS: int := 0x1_0000_0000_0000_0000
  const SIZE_T_MAX: int := SIZE_T_MODULUS - 1

  type SizeT = n: int | 0 <= n < SIZE_T_MODULUS

  /**
   Everything a builder holds.  `I` stands for the decoder's field identity
   (a shared pointer in the source) and `V` for the captured value; both are
   opaque here.
   */
  datatype BuilderState<I, V> = BuilderState(
    error: bool,
    logged: bool,
    gapDetected: bool,
    message: string,
    messageCount: SizeT,
    values: seq<V>,
    identities: seq<I>)
  {
    /** The identities and the values are collected in lock-step. */
    predicate WellFormed()
    {
      |values| == |identities|
    }
  }

  /** The state of a freshly constructed builder. */
  function Initial<I, V>(): BuilderState<I, V>
  {
    BuilderState(false, false, false, "", 0, [], [])
  }

  /**
   Any of the `addValue` overloads: one identity and one value are appended,
   earlier entries are kept, and nothing else changes.
   */
  function AfterAddValue<I, V>(s: BuilderState<I, V>, identity: I, value: V): (r: BuilderState<I, V>)
    ensures s.WellFormed() ==> r.WellFormed()
    ensures |r.values| == |s.values| + 1 && |r.identities| == |s.identities| + 1
    ensures r.values[..|s.values|] == s.values && r.values[|s.values|] == value
    ensures r.identities[..|s.identities|] == s.identities && r.identities[|s.identities|] == identity
    ensures r.(values := s.values, identities := s.identities) == s
  {
    s.(identities := s.identities + [identity], values := s.values + [value])
  }

  /**
   `startMessage`: the message counter goes up by one, wrapping to zero past
   the largest `size_t`; nothing else changes.
   */
  function AfterStartMessage<I, V>(s: BuilderState<I, V>): (r: BuilderState<I, V>)
    ensures s.messageCount < SIZE_T_MAX ==> r.messageCount == s.messageCount + 1
    ensures s.messageCount == SIZE_T_MAX ==> r.messageCount == 0
    ensures r.(messageCount := s.messageCount) == s
  {
    s.(messageCount := (s.messageCount + 1) % SIZE_T_MODULUS)
  }

  /** `reportGap`: the gap flag is raised, whatever the gap; nothing else changes. */
  function AfterReportGap<I, V>(s: BuilderState<I, V>): (r: BuilderState<I, V>)
    ensures r.gapDetected
    ensures r.(gapDetected := s.gapDetected) == s
  {
    s.(gapDetected := true)
  }

  /** `logMessage`: the text is kept and the log flag raised; nothing else changes. */
  function AfterLogMessage<I, V>(s: BuilderState<I, V>, text: string): (r: BuilderState<I, V>)
    ensures r.logged && r.message == text
    ensures r.(logged := s.logged, message := s.message) == s
  {
    s.(message := text, logged := true)
  }

  /**
   `reportDecodingError` and `reportCommunicationError`: the text is kept and
   the error flag raised; nothing else changes.
   */
  function AfterReportError<I, V>(s: BuilderState<I, V>, text: string): (r: BuilderState<I, V>)
    ensures r.error && r.message == text
    ensures r.(error := s.error, message := s.message) == s
  {
    s.(message := text, error := true)
  }

  /**
   `reset`: every field is cleared one by one, which leaves exactly the state
   of a freshly constructed builder, whatever came before.
   */
  function AfterReset<I, V>(s: BuilderState<I, V>): (r: BuilderState<I, V>)
    ensures r == Initial()
    ensures r.WellFormed()
  {
    s.(error := false, logged := false, gapDetected := false, message := "",
       messageCount := 0, values := [], identities := [])
  }

  /** Resetting a second time changes nothing. */
  lemma ResetIdempotent<I, V>(s: BuilderState<I, V>)
    ensures AfterReset(AfterReset(s)) == AfterReset(s)
  {
  }
}
