/**
 A decoder driving a SequentialSingleValueBuilder: each callback of a trace is
 delivered to the matching method of the class.  The builder then ends in
 exactly the state `DecoderEvents.Run` computes, so every lemma proved about
 traces holds of the object.
 */
module DecoderReplay {
  import opened SingleValueState
  import opened DecoderEvents
  import opened Messages

  /** Makes the callback `e` on builder `b`; refused callbacks leave it untouched. */
  method Deliver<I, V>(b: SequentialSingleValueBuilder<I, V>, e: Event<I, V>)
    requires b.Valid()
    modifies b
    ensures b.Valid()
    ensures b.State() == Step(old(b.State()), e)
  {
    match e
    case AddValue(identity, value) =>
      b.AddValue(identity, value);
    case StartMessage(applicationType, applicationTypeNamespace, size) =>
      var _ := b.StartMessage(applicationType, applicationTypeNamespace, size);
    case EndMessage =>
      var _ := b.EndMessage(b);
    case IgnoreMessage =>
      var _ := b.IgnoreMessage(b);
    case ReportGap(startGap, endGap) =>
      b.ReportGap(startGap, endGap);
    case LogMessage(level, text) =>
      var _ := b.LogMessage(level, text);
    case ReportDecodingError(text) =>
      var _ := b.ReportDecodingError(text);
    case ReportCommunicationError(text) =>
      var _ := b.ReportCommunicationError(text);
    case Reset =>
      b.Reset();
    case Refused(call) =>
      var _ := Refuse(b, call);
  }

  /**
   Makes a refused callback on `b`: the builder answers with its usage error
   and, having no licence to modify anything, stays as it was.
   */
  method Refuse<I, V>(b: SequentialSingleValueBuilder<I, V>, call: RefusedCall<I>) returns (err: UsageError)
    ensures err.category == CODING_ERROR
  {
    match call
    case StartSequence(identity, applicationType, applicationTypeNamespace, fieldCount, lengthIdentity, length) =>
      err := b.StartSequence(identity, applicationType, applicationTypeNamespace, fieldCount, lengthIdentity, length);
    case StartSequenceEntry(applicationType, applicationTypeNamespace, size) =>
      err := b.StartSequenceEntry(applicationType, applicationTypeNamespace, size);
    case EndSequenceEntry =>
      err := b.EndSequenceEntry(b);
    case EndSequence(identity) =>
      err := b.EndSequence(identity, b);
    case StartGroup(identity, applicationType, applicationTypeNamespace, size) =>
      err := b.StartGroup(identity, applicationType, applicationTypeNamespace, size);
    case EndGroup(identity) =>
      err := b.EndGroup(identity, b);
  }

  /** A fresh builder fed the callbacks of `t`, in order, ends in `Run(Initial(), t)`. */
  method Replay<I, V>(t: seq<Event<I, V>>) returns (b: SequentialSingleValueBuilder<I, V>)
    ensures fresh(b) && b.Valid()
    ensures b.State() == Run(Initial(), t)
  {
    b := new SequentialSingleValueBuilder();
    var i := 0;
    while i < |t|
      invariant 0 <= i <= |t|
      invariant fresh(b) && b.Valid()
      invariant b.State() == Run(Initial(), t[..i])
    {
      assert t[..i + 1][..i] == t[..i];
      Deliver(b, t[i]);
      i := i + 1;
    }
    assert t[..i] == t;
  }
}
