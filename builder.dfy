/**
 QuickFAST's SequentialSingleValueBuilder: a message builder that captures the
 values a FAST decoder produces, in the order the decoder produces them.

 Every callback that changes the builder is a method that states its new
 state as a transition of module SingleValueState applied to the old one;
 the read-only accessors and the callbacks the builder refuses change
 nothing and say what they return.
 */
module Messages {
  import opened SingleValueState

  /** The exception the source throws for a callback it does not support. */
  datatype UsageError = UsageError(category: string, text: string)

  const CODING_ERROR: string := "Coding Error"

  /**
   The usage error the builder throws for every callback that opens or closes
   a nested structure; the refused methods below return it instead.
   */
  function Unsupported(what: string): (err: UsageError)
    ensures err.category == CODING_ERROR
    ensures err.text == "SequentialSingleValueBuilder does not support " + what + "."
  {
    UsageError(CODING_ERROR, "SequentialSingleValueBuilder does not support " + what + ".")
  }

  class SequentialSingleValueBuilder<I, V> {
    var error: bool
    var logged: bool
    var gapDetected: bool
    var message: string
    var messageCount: SizeT
    var values: seq<V>
    var identities: seq<I>

    /** The builder's fields as one value. */
    function State(): BuilderState<I, V>
      reads this
    {
      BuilderState(error, logged, gapDetected, message, messageCount, values, identities)
    }

    /** The object invariant: both vectors have the same length. */
    predicate Valid()
      reads this
    {
      State().WellFormed()
    }

    constructor ()
      ensures Valid() && State() == Initial()
    {
      error := false;
      logged := false;
      gapDetected := false;
      message := "";
      messageCount := 0;
      values := [];
      identities := [];
    }

    /**
     Every `addValue` overload: the ten overloads differ only in the C++ type
     of the value, which `V` stands for, and all ignore the value-type tag.
     */
    method AddValue(identity: I, value: V)
      requires Valid()
      modifies this
      ensures Valid()
      ensures State() == AfterAddValue(old(State()), identity, value)
    {
      identities := identities + [identity];
      values := values + [value];
    }

    /** Counts one more message and hands the decoder this same builder. */
    method StartMessage(applicationType: string, applicationTypeNamespace: string, size: nat)
      returns (builder: SequentialSingleValueBuilder<I, V>)
      requires Valid()
      modifies this
      ensures Valid()
      ensures builder == this
      ensures State() == AfterStartMessage(old(State()))
    {
      messageCount := (messageCount + 1) % SIZE_T_MODULUS;
      builder := this;
    }

    method EndMessage(messageBuilder: object) returns (ok: bool)
      ensures ok
    {
      ok := true;
    }

    method IgnoreMessage(messageBuilder: object) returns (ok: bool)
      ensures ok
    {
      ok := true;
    }

    method ReportGap(startGap: nat, endGap: nat)
      requires Valid()
      modifies this
      ensures Valid()
      ensures State() == AfterReportGap(old(State()))
    {
      gapDetected := true;
    }

    /** The number of values collected, which is also the number of identities. */
    function ValueCount(): (n: nat)
      reads this
      requires Valid()
      ensures n == |identities| && n == |State().values|
    {
      |values|
    }

    /** The number of messages started since construction or the last reset. */
    function ValueMessages(): (n: SizeT)
      reads this
      ensures n == State().messageCount
    {
      messageCount
    }

    /**
     The `index`th captured value.  The source indexes its vector without a
     bounds check, so callers must stay below `ValueCount()`.
     */
    function Value(index: nat): (v: V)
      reads this
      requires Valid() && index < ValueCount()
      ensures v == State().values[index]
    {
      values[index]
    }

    /** The identity recorded with the `index`th value. */
    function Identity(index: nat): (id: I)
      reads this
      requires Valid() && index < ValueCount()
      ensures id == State().identities[index]
    {
      identities[index]
    }

    function HasError(): (b: bool)
      reads this
      ensures b == State().error
    {
      error
    }

    function HasLog(): (b: bool)
      reads this
      ensures b == State().logged
    {
      logged
    }

    function HasGap(): (b: bool)
      reads this
      ensures b == State().gapDetected
    {
      gapDetected
    }

    /** The text of the most recent log or error report. */
    function Message(): (text: string)
      reads this
      ensures text == State().message
    {
      message
    }

    /** Returns everything to the state of a freshly constructed builder. */
    method Reset()
      requires Valid()
      modifies this
      ensures Valid()
      ensures State() == AfterReset(old(State()))
    {
      error := false;
      logged := false;
      gapDetected := false;
      message := "";
      messageCount := 0;
      values := [];
      identities := [];
    }

    /** A single-value record always reports one field. */
    function Size(): (n: nat)
      ensures n == 1
    {
      1
    }

    /**
     Looks up an identity by name.  The name is ignored: the answer is the
     first identity collected, and when there is none the caller's `identity`
     comes back untouched.
     */
    method GetIdentity(name: string, identity: I) returns (found: bool, result: I)
      ensures found <==> |identities| > 0
      ensures found ==> result == identities[0]
      ensures !found ==> result == identity
    {
      if |identities| == 0 {
        return false, identity;
      }
      found, result := true, identities[0];
    }

    method StartSequence(identity: I, applicationType: string, applicationTypeNamespace: string,
                         fieldCount: nat, lengthIdentity: I, length: nat)
      returns (err: UsageError)
      ensures err.category == CODING_ERROR
      ensures err.text == "SequentialSingleValueBuilder does not support start sequence."
    {
      err := Unsupported("start sequence");
    }

    method StartSequenceEntry(applicationType: string, applicationTypeNamespace: string, size: nat)
      returns (err: UsageError)
      ensures err.category == CODING_ERROR
      ensures err.text == "SequentialSingleValueBuilder does not support start sequence entry."
    {
      err := Unsupported("start sequence entry");
    }

    method EndSequenceEntry(entry: object) returns (err: UsageError)
      ensures err.category == CODING_ERROR
      ensures err.text == "SequentialSingleValueBuilder does not support end sequence entry."
    {
      err := Unsupported("end sequence entry");
    }

    method EndSequence(identity: I, sequenceBuilder: object) returns (err: UsageError)
      ensures err.category == CODING_ERROR
      ensures err.text == "SequentialSingleValueBuilder does not support end sequence."
    {
      err := Unsupported("end sequence");
    }

    method StartGroup(identity: I, applicationType: string, applicationTypeNamespace: string, size: nat)
      returns (err: UsageError)
      ensures err.category == CODING_ERROR
      ensures err.text == "SequentialSingleValueBuilder does not support start group."
    {
      err := Unsupported("start group");
    }

    method EndGroup(identity: I, entry: object) returns (err: UsageError)
      ensures err.category == CODING_ERROR
      ensures err.text == "SequentialSingleValueBuilder does not support end group."
    {
      err := Unsupported("end group");
    }

    /** Keeps the text and raises the log flag; the level is not consulted. */
    method LogMessage(level: nat, text: string) returns (ok: bool)
      requires Valid()
      modifies this
      ensures Valid()
      ensures ok
      ensures State() == AfterLogMessage(old(State()), text)
    {
      message := text;
      logged := true;
      ok := true;
    }

    method ReportDecodingError(text: string) returns (ok: bool)
      requires Valid()
      modifies this
      ensures Valid()
      ensures ok
      ensures State() == AfterReportError(old(State()), text)
    {
      message := text;
      error := true;
      ok := true;
    }

    method ReportCommunicationError(text: string) returns (ok: bool)
      requires Valid()
      modifies this
      ensures Valid()
      ensures ok
      ensures State() == AfterReportError(old(State()), text)
    {
      message := text;
      error := true;
      ok := true;
    }
  }
}
