/**
 The callbacks a FAST decoder makes on a SequentialSingleValueBuilder, as a
 trace of events, and what any such trace does to the builder's state.

 These lemmas state the builder's promises over whole decoding sessions:
 the two vectors stay in lock-step, values are only ever appended, the
 message counter counts `startMessage` calls, each status flag stays raised
 until `reset`, `message()` is the text of the latest report, and `reset`
 forgets everything that came before it.
 */
module DecoderEvents {
  import opened SingleValueState

  /** The callbacks the builder refuses (they throw a usage error and change nothing). */
  datatype RefusedCall<I> =
    | StartSequence(identity: I, applicationType: string, applicationTypeNamespace: string,
                    fieldCount: nat, lengthIdentity: I, length: nat)
    | StartSequenceEntry(applicationType: string, applicationTypeNamespace: string, size: nat)
    | EndSequenceEntry
    | EndSequence(identity: I)
    | StartGroup(identity: I, applicationType: string, applicationTypeNamespace: string, size: nat)
    | EndGroup(identity: I)

  datatype Event<I, V> =
    | AddValue(identity: I, value: V)
    | StartMessage(applicationType: string, applicationTypeNamespace: string, size: nat)
    | EndMessage
    | IgnoreMessage
    | ReportGap(startGap: nat, endGap: nat)
    | LogMessage(level: nat, text: string)
    | ReportDecodingError(text: string)
    | ReportCommunicationError(text: string)
    | Reset
    | Refused(call: RefusedCall<I>)

  /** The effect of one callback on the builder's state. */
  function Step<I, V>(s: BuilderState<I, V>, e: Event<I, V>): BuilderState<I, V>
  {
    match e
    case AddValue(identity, value) => AfterAddValue(s, identity, value)
    case StartMessage(_, _, _) => AfterStartMessage(s)
    case ReportGap(_, _) => AfterReportGap(s)
    case LogMessage(_, text) => AfterLogMessage(s, text)
    case ReportDecodingError(text) => AfterReportError(s, text)
    case ReportCommunicationError(text) => AfterReportError(s, text)
    case Reset => AfterReset(s)
    case EndMessage => s
    case IgnoreMessage => s
    case Refused(_) => s
  }

  /** The state after the callbacks of `t`, in order, starting from `s`. */
  function Run<I, V>(s: BuilderState<I, V>, t: seq<Event<I, V>>): BuilderState<I, V>
    decreases |t|
  {
    if t == [] then s else Step(Run(s, t[..|t| - 1]), t[|t| - 1])
  }

  /** No `reset` among the events of `t` after position `i`. */
  predicate NoResetAfter<I, V>(t: seq<Event<I, V>>, i: int)
  {
    forall j :: 0 <= j < |t| && i < j ==> !t[j].Reset?
  }

  predicate ResetFree<I, V>(t: seq<Event<I, V>>)
  {
    NoResetAfter(t, -1)
  }

  /** The values the `addValue` calls of `t` pass, in call order. */
  function AddedValues<I, V>(t: seq<Event<I, V>>): seq<V>
    decreases |t|
  {
    if t == [] then []
    else AddedValues(t[..|t| - 1]) + (if t[|t| - 1].AddValue? then [t[|t| - 1].value] else [])
  }

  /** The identities the `addValue` calls of `t` pass, in call order. */
  function AddedIdentities<I, V>(t: seq<Event<I, V>>): seq<I>
    decreases |t|
  {
    if t == [] then []
    else AddedIdentities(t[..|t| - 1]) + (if t[|t| - 1].AddValue? then [t[|t| - 1].identity] else [])
  }

  /** How many `startMessage` calls `t` holds. */
  function StartCount<I, V>(t: seq<Event<I, V>>): nat
    decreases |t|
  {
    if t == [] then 0
    else StartCount(t[..|t| - 1]) + (if t[|t| - 1].StartMessage? then 1 else 0)
  }

  /** The three sticky status flags, and the callbacks that raise each. */
  datatype Flag = ErrorFlag | LogFlag | GapFlag

  function FlagOf<I, V>(s: BuilderState<I, V>, f: Flag): bool
  {
    match f
    case ErrorFlag => s.error
    case LogFlag => s.logged
    case GapFlag => s.gapDetected
  }

  predicate Raises<I, V>(e: Event<I, V>, f: Flag)
  {
    match f
    case ErrorFlag => e.ReportDecodingError? || e.ReportCommunicationError?
    case LogFlag => e.LogMessage?
    case GapFlag => e.ReportGap?
  }

  /** Callbacks that overwrite `message()`: the three reports, and `reset`, which clears it. */
  predicate SetsMessage<I, V>(e: Event<I, V>)
  {
    e.LogMessage? || e.ReportDecodingError? || e.ReportCommunicationError? || e.Reset?
  }

  function MessageText<I, V>(e: Event<I, V>): string
    requires SetsMessage(e)
  {
    if e.Reset? then "" else e.text
  }

  /** Position `k` holds the last callback of `t` that sets the message. */
  predicate LatestMessageSetter<I, V>(t: seq<Event<I, V>>, k: int)
  {
    0 <= k < |t| && SetsMessage(t[k]) && forall j :: k < j < |t| ==> !SetsMessage(t[j])
  }

  /** Callbacks that leave the builder exactly as it was. */
  predicate Inert<I, V>(e: Event<I, V>)
  {
    e.EndMessage? || e.IgnoreMessage? || e.Refused?
  }

  /** Running two traces one after the other is running their concatenation. */
  lemma {:induction false} RunConcat<I, V>(s: BuilderState<I, V>, a: seq<Event<I, V>>, b: seq<Event<I, V>>)
    ensures Run(s, a + b) == Run(Run(s, a), b)
    decreases |b|
  {
    if b == [] {
      assert a + b == a;
    } else {
      var b' := b[..|b| - 1];
      assert (a + b)[..|a + b| - 1] == a + b';
      assert (a + b)[|a + b| - 1] == b[|b| - 1];
      RunConcat(s, a, b');
    }
  }

  /** Whatever the decoder calls, the identities and values stay in lock-step. */
  lemma {:induction false} RunKeepsWellFormed<I, V>(s: BuilderState<I, V>, t: seq<Event<I, V>>)
    requires s.WellFormed()
    ensures Run(s, t).WellFormed()
    decreases |t|
  {
    if t != [] {
      RunKeepsWellFormed(s, t[..|t| - 1]);
    }
  }

  /**
   Without a `reset`, the vectors only grow: they hold what they held before,
   followed by exactly the identities and values of the `addValue` calls, in
   call order.
   */
  lemma {:induction false} RunAppendsValues<I, V>(s: BuilderState<I, V>, t: seq<Event<I, V>>)
    requires ResetFree(t)
    ensures Run(s, t).values == s.values + AddedValues(t)
    ensures Run(s, t).identities == s.identities + AddedIdentities(t)
    decreases |t|
  {
    if t != [] {
      var p := t[..|t| - 1];
      assert ResetFree(p) by {
        forall j | 0 <= j < |p| ensures !p[j].Reset? {
          assert p[j] == t[j];
        }
      }
      RunAppendsValues(s, p);
      assert !t[|t| - 1].Reset?;
    }
  }

  /** Without a `reset`, an entry once collected is never overwritten. */
  lemma {:induction false} EarlierEntriesKept<I, V>(s: BuilderState<I, V>, t: seq<Event<I, V>>, i: nat)
    requires ResetFree(t)
    requires i < |s.values| && i < |s.identities|
    ensures i < |Run(s, t).values| && Run(s, t).values[i] == s.values[i]
    ensures i < |Run(s, t).identities| && Run(s, t).identities[i] == s.identities[i]
  {
    RunAppendsValues(s, t);
  }

  /** Wrapping the counter before or after adding one gives the same result. */
  lemma WrapSucc(x: nat)
    ensures (x % SIZE_T_MODULUS + 1) % SIZE_T_MODULUS == (x + 1) % SIZE_T_MODULUS
  {
  }

  /**
   Without a `reset`, `valueMessages()` counts the `startMessage` calls, modulo
   the width of `size_t`.
   */
  lemma {:induction false} RunCountsMessages<I, V>(s: BuilderState<I, V>, t: seq<Event<I, V>>)
    requires ResetFree(t)
    ensures Run(s, t).messageCount == (s.messageCount + StartCount(t)) % SIZE_T_MODULUS
    decreases |t|
  {
    if t != [] {
      var p := t[..|t| - 1];
      assert ResetFree(p) by {
        forall j | 0 <= j < |p| ensures !p[j].Reset? {
          assert p[j] == t[j];
        }
      }
      RunCountsMessages(s, p);
      assert !t[|t| - 1].Reset?;
      if t[|t| - 1].StartMessage? {
        WrapSucc(s.messageCount + StartCount(p));
      }
    }
  }

  /** Some callback of `t` raised flag `f`, and no `reset` came after it. */
  predicate RaisedSinceReset<I, V>(t: seq<Event<I, V>>, f: Flag)
  {
    exists i :: 0 <= i < |t| && Raises(t[i], f) && NoResetAfter(t, i)
  }

  /** How one callback moves a flag: `reset` lowers it, its raisers raise it, the rest keep it. */
  lemma StepFlag<I, V>(s: BuilderState<I, V>, e: Event<I, V>, f: Flag)
    ensures FlagOf(Step(s, e), f) == if e.Reset? then false else if Raises(e, f) then true else FlagOf(s, f)
  {
  }

  lemma ResetFreeSnoc<I, V>(t: seq<Event<I, V>>)
    requires t != []
    ensures ResetFree(t) <==> ResetFree(t[..|t| - 1]) && !t[|t| - 1].Reset?
  {
  }

  lemma RaisedSinceResetSnoc<I, V>(t: seq<Event<I, V>>, f: Flag)
    requires t != []
    ensures RaisedSinceReset(t, f) <==>
              if t[|t| - 1].Reset? then false
              else Raises(t[|t| - 1], f) || RaisedSinceReset(t[..|t| - 1], f)
  {
  }

  /**
   A flag is raised after a trace exactly when some callback raised it after
   the last `reset`, or it was raised at the start and no `reset` came.
   */
  lemma {:induction false} FlagTracksEvents<I, V>(s: BuilderState<I, V>, t: seq<Event<I, V>>, f: Flag)
    ensures FlagOf(Run(s, t), f) <==> (FlagOf(s, f) && ResetFree(t)) || RaisedSinceReset(t, f)
    decreases |t|
  {
    if t != [] {
      var p, e := t[..|t| - 1], t[|t| - 1];
      FlagTracksEvents(s, p, f);
      StepFlag(Run(s, p), e, f);
      ResetFreeSnoc(t);
      RaisedSinceResetSnoc(t, f);
    }
  }

  /** A raised flag stays raised under every callback but `reset`. */
  lemma {:induction false} FlagsSticky<I, V>(s: BuilderState<I, V>, t: seq<Event<I, V>>, f: Flag)
    requires ResetFree(t) && FlagOf(s, f)
    ensures FlagOf(Run(s, t), f)
  {
    FlagTracksEvents(s, t, f);
  }

  /** How one callback moves the message: those that set it replace it, the rest keep it. */
  lemma StepMessage<I, V>(s: BuilderState<I, V>, e: Event<I, V>)
    ensures Step(s, e).message == if SetsMessage(e) then MessageText(e) else s.message
  {
  }

  /** A callback that does not set the message leaves the latest setter where it was. */
  lemma LatestSetterOfPrefix<I, V>(t: seq<Event<I, V>>, k: int)
    requires t != [] && !SetsMessage(t[|t| - 1]) && LatestMessageSetter(t, k)
    ensures k < |t| - 1 && LatestMessageSetter(t[..|t| - 1], k)
  {
    var p := t[..|t| - 1];
    assert forall j :: 0 <= j < |p| ==> p[j] == t[j];
  }

  /** When the last callback sets the message, it is the latest setter. */
  lemma LatestSetterIsLast<I, V>(t: seq<Event<I, V>>, k: int)
    requires t != [] && SetsMessage(t[|t| - 1]) && LatestMessageSetter(t, k)
    ensures k == |t| - 1
  {
  }

  /** A trace that never sets the message has a prefix that never sets it either. */
  lemma NoSetterInPrefix<I, V>(t: seq<Event<I, V>>, p: seq<Event<I, V>>)
    requires t != [] && p == t[..|t| - 1]
    requires forall j :: 0 <= j < |t| ==> !SetsMessage(t[j])
    ensures forall j :: 0 <= j < |p| ==> !SetsMessage(p[j])
  {
  }

  /**
   `message()` is the text of the latest log or error report, or empty when a
   `reset` came after it; when the trace sets no message it is unchanged.
   */
  lemma {:induction false} MessageIsLatest<I, V>(s: BuilderState<I, V>, t: seq<Event<I, V>>)
    ensures (forall j :: 0 <= j < |t| ==> !SetsMessage(t[j])) ==> Run(s, t).message == s.message
    ensures forall k :: LatestMessageSetter(t, k) ==> Run(s, t).message == MessageText(t[k])
    decreases |t|
  {
    if t != [] {
      var p, e := t[..|t| - 1], t[|t| - 1];
      MessageIsLatest(s, p);
      StepMessage(Run(s, p), e);
      if forall j :: 0 <= j < |t| ==> !SetsMessage(t[j]) {
        NoSetterInPrefix(t, p);
      }
      forall k | LatestMessageSetter(t, k) ensures Run(s, t).message == MessageText(t[k]) {
        if SetsMessage(e) {
          LatestSetterIsLast(t, k);
        } else {
          LatestSetterOfPrefix(t, k);
          assert p[k] == t[k];
        }
      }
    }
  }

  /** After a `reset`, the state no longer depends on anything that came before it. */
  lemma ResetForgetsHistory<I, V>(s: BuilderState<I, V>, t: seq<Event<I, V>>, k: nat)
    requires k < |t| && t[k].Reset?
    ensures Run(s, t) == Run(Initial(), t[k + 1..])
  {
    assert t == t[..k + 1] + t[k + 1..];
    RunConcat(s, t[..k + 1], t[k + 1..]);
    assert t[..k + 1][..k] == t[..k];
  }

  /**
   The trace-level form of `AfterReset` and `ResetIdempotent`: ending with
   `reset` yields the fresh state, and a second `reset` changes nothing.
   */
  lemma ResetIdempotentInTrace<I, V>(s: BuilderState<I, V>, t: seq<Event<I, V>>)
    ensures Run(s, t + [Reset]) == Initial()
    ensures Run(s, t + [Reset, Reset]) == Run(s, t + [Reset])
  {
  }

  /**
   `endMessage`, `ignoreMessage` and the refused callbacks leave the builder as
   it was, however many of them come.
   */
  lemma {:induction false} InertEventsChangeNothing<I, V>(s: BuilderState<I, V>, t: seq<Event<I, V>>)
    requires forall j :: 0 <= j < |t| ==> Inert(t[j])
    ensures Run(s, t) == s
    decreases |t|
  {
    if t != [] {
      InertEventsChangeNothing(s, t[..|t| - 1]);
      assert Inert(t[|t| - 1]);
    }
  }
}
