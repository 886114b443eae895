# SequentialSingleValueBuilder, modelled in Dafny

QuickFAST decodes FAST (FIX Adapted for STreaming) messages and hands each
decoded field to a message builder through callbacks. `SequentialSingleValueBuilder`
is a builder that captures the values the decoder produces. It records every field as
an identity and a value, in two parallel vectors. It counts the messages the
decoder starts. It keeps three sticky status flags (error, log, gap) and the
text of the most recent log or error report. It refuses every callback that
would open or close a nested sequence or group.

The project has four modules:

- `SingleValueState` (`builder_state.dfy`): the builder's state as a datatype,
  and one pure transition function per state-changing callback. Each function's
  contract says what the callback changes and that nothing else changes.
- `Messages` (`builder.dfy`): the builder itself, a class whose fields are the
  source's fields. Each mutating method is proved to move `State()` by the
  matching transition. The read-only accessors and the refused callbacks say
  what they return.
- `DecoderEvents` (`decoder_events.dfy`): a decoding session as a trace of
  callbacks, with lemmas about any trace. The vectors stay in lock-step.
  Without a `reset`, values are only appended and the counter counts
  `startMessage` calls. Each flag is raised exactly when a callback raised it
  since the last `reset`. `message()` is the text of the latest report.
  `reset` forgets all history and is idempotent.
- `DecoderReplay` (`replay.dfy`): a decoder delivering a trace of callbacks to
  the class, one method call per callback. A fresh builder fed a trace ends in
  the state the trace model computes, so the trace lemmas hold of the object.

The identity type (`FieldIdentityCPtr`) and the captured value type (`Value`)
are opaque type parameters `I` and `V`.

## Model

| member | source | states |
|---|---|---|
| `Messages.SequentialSingleValueBuilder.constructor` | include/fast/messages/SequentialSingleValueBuilder.h:45-51 | a new builder has all flags clear, counter 0, empty message and two empty vectors |
| `Messages.SequentialSingleValueBuilder.AddValue` | include/fast/messages/SequentialSingleValueBuilder.h:59-137 | every overload appends one identity and one value, keeps both vectors the same length and touches nothing else |
| `SingleValueState.AfterAddValue` | include/fast/messages/SequentialSingleValueBuilder.h:59-65 | an append grows both vectors by exactly one, keeps every earlier entry, puts the new identity and value last and leaves flags, message and counter alone |
| `Messages.SequentialSingleValueBuilder.StartMessage` | include/fast/messages/SequentialSingleValueBuilder.h:139-146 | returns the builder itself and changes only the message counter |
| `SingleValueState.AfterStartMessage` | include/fast/messages/SequentialSingleValueBuilder.h:144 | the counter goes up by one, wrapping to 0 past the largest `size_t`, and nothing else changes |
| `Messages.SequentialSingleValueBuilder.EndMessage` | include/fast/messages/SequentialSingleValueBuilder.h:148-151 | always succeeds and changes nothing |
| `Messages.SequentialSingleValueBuilder.IgnoreMessage` | include/fast/messages/SequentialSingleValueBuilder.h:153-156 | always succeeds and changes nothing |
| `Messages.SequentialSingleValueBuilder.ReportGap` | include/fast/messages/SequentialSingleValueBuilder.h:158-161 | raises the gap flag whatever the gap bounds, and changes nothing else |
| `SingleValueState.AfterReportGap` | include/fast/messages/SequentialSingleValueBuilder.h:160 | the gap flag is set and every other field is kept |
| `Messages.SequentialSingleValueBuilder.ValueCount` | include/fast/messages/SequentialSingleValueBuilder.h:167-170 | the number of values collected, which equals the number of identities |
| `Messages.SequentialSingleValueBuilder.ValueMessages` | include/fast/messages/SequentialSingleValueBuilder.h:175-178 | reports the message counter |
| `Messages.SequentialSingleValueBuilder.Value` | include/fast/messages/SequentialSingleValueBuilder.h:185-190 | the value stored at `index`, for an index below the count |
| `Messages.SequentialSingleValueBuilder.Identity` | include/fast/messages/SequentialSingleValueBuilder.h:193-196 | the identity stored with the `index`th value |
| `Messages.SequentialSingleValueBuilder.HasError` | include/fast/messages/SequentialSingleValueBuilder.h:199-202 | reports the error flag |
| `Messages.SequentialSingleValueBuilder.HasLog` | include/fast/messages/SequentialSingleValueBuilder.h:205-208 | reports the log flag |
| `Messages.SequentialSingleValueBuilder.HasGap` | include/fast/messages/SequentialSingleValueBuilder.h:211-214 | reports the gap flag |
| `Messages.SequentialSingleValueBuilder.Message` | include/fast/messages/SequentialSingleValueBuilder.h:217-220 | reports the stored message text |
| `Messages.SequentialSingleValueBuilder.Reset` | include/fast/messages/SequentialSingleValueBuilder.h:223-232 | moves the builder to the reset state and keeps both vectors the same length |
| `SingleValueState.AfterReset` | include/fast/messages/SequentialSingleValueBuilder.h:223-232 | clearing every field gives exactly the freshly constructed state, whatever came before |
| `SingleValueState.ResetIdempotent` | include/fast/messages/SequentialSingleValueBuilder.h:223-232 | resetting twice gives the same state as resetting once |
| `Messages.SequentialSingleValueBuilder.Size` | include/fast/messages/SequentialSingleValueBuilder.h:238-241 | the record size is always 1 |
| `Messages.SequentialSingleValueBuilder.GetIdentity` | include/fast/messages/SequentialSingleValueBuilder.h:243-251 | succeeds if and only if an identity was collected; then yields the first one whatever the name; otherwise returns the caller's identity untouched |
| `Messages.Unsupported` | include/fast/messages/SequentialSingleValueBuilder.h:269-311 | the usage error thrown for a refused callback has category "Coding Error" and a text naming the operation |
| `Messages.SequentialSingleValueBuilder.StartSequence` | include/fast/messages/SequentialSingleValueBuilder.h:269-278 | always fails with the "does not support start sequence" usage error |
| `Messages.SequentialSingleValueBuilder.StartSequenceEntry` | include/fast/messages/SequentialSingleValueBuilder.h:280-286 | always fails with the "does not support start sequence entry" usage error |
| `Messages.SequentialSingleValueBuilder.EndSequenceEntry` | include/fast/messages/SequentialSingleValueBuilder.h:288-291 | always fails with the "does not support end sequence entry" usage error |
| `Messages.SequentialSingleValueBuilder.EndSequence` | include/fast/messages/SequentialSingleValueBuilder.h:292-295 | always fails with the "does not support end sequence" usage error |
| `Messages.SequentialSingleValueBuilder.StartGroup` | include/fast/messages/SequentialSingleValueBuilder.h:297-304 | always fails with the "does not support start group" usage error |
| `Messages.SequentialSingleValueBuilder.EndGroup` | include/fast/messages/SequentialSingleValueBuilder.h:306-311 | always fails with the "does not support end group" usage error |
| `Messages.SequentialSingleValueBuilder.LogMessage` | include/fast/messages/SequentialSingleValueBuilder.h:318-324 | returns true, stores the text and raises the log flag, whatever the level |
| `SingleValueState.AfterLogMessage` | include/fast/messages/SequentialSingleValueBuilder.h:318-324 | the log flag is set, the message is the new text, and every other field is kept |
| `Messages.SequentialSingleValueBuilder.ReportDecodingError` | include/fast/messages/SequentialSingleValueBuilder.h:326-332 | returns true, stores the text and raises the error flag |
| `Messages.SequentialSingleValueBuilder.ReportCommunicationError` | include/fast/messages/SequentialSingleValueBuilder.h:334-340 | returns true, stores the text and raises the error flag |
| `SingleValueState.AfterReportError` | include/fast/messages/SequentialSingleValueBuilder.h:326-340 | the error flag is set, the message is the new text, and every other field is kept |
| `DecoderEvents.RunKeepsWellFormed` | include/fast/messages/SequentialSingleValueBuilder.h:349-353 | under any sequence of callbacks the identity and value vectors keep the same length |
| `DecoderEvents.RunAppendsValues` | include/fast/messages/SequentialSingleValueBuilder.h:59-137 | without a reset, the vectors end as their old contents followed by exactly the `addValue` arguments, in call order |
| `DecoderEvents.EarlierEntriesKept` | include/fast/messages/SequentialSingleValueBuilder.h:61-64 | without a reset, an entry once collected keeps its index and its contents |
| `DecoderEvents.RunCountsMessages` | include/fast/messages/SequentialSingleValueBuilder.h:139-146 | without a reset, the counter equals its old value plus the number of `startMessage` calls, modulo the `size_t` range |
| `DecoderEvents.StepFlag` | include/fast/messages/SequentialSingleValueBuilder.h:158-161 | one callback lowers a flag if it is `reset`, raises it if it is one of that flag's reports, and otherwise keeps it |
| `DecoderEvents.FlagTracksEvents` | include/fast/messages/SequentialSingleValueBuilder.h:318-340 | a flag is set after a trace if and only if a matching report came after the last reset, or the flag was set before and no reset came |
| `DecoderEvents.FlagsSticky` | include/fast/messages/SequentialSingleValueBuilder.h:211-214 | a raised error, log or gap flag stays raised under every callback except `reset` |
| `DecoderEvents.MessageIsLatest` | include/fast/messages/SequentialSingleValueBuilder.h:217-220 | `message()` is the text of the latest log or error report, empty if a reset came after it, and unchanged if the trace sets no message |
| `DecoderEvents.ResetForgetsHistory` | include/fast/messages/SequentialSingleValueBuilder.h:223-232 | the state after a trace containing a reset depends only on the callbacks after that reset |
| `DecoderEvents.ResetIdempotentInTrace` | include/fast/messages/SequentialSingleValueBuilder.h:223-232 | ending any session with `reset` gives the fresh state, and a second `reset` changes nothing |
| `DecoderEvents.InertEventsChangeNothing` | include/fast/messages/SequentialSingleValueBuilder.h:148-156 | any run of `endMessage`, `ignoreMessage` and refused callbacks leaves the state exactly as it was |
| `DecoderReplay.Deliver` | include/fast/messages/SequentialSingleValueBuilder.h:59-340 | delivering one callback to the builder moves its state exactly as the trace model's step does |
| `DecoderReplay.Refuse` | include/fast/messages/SequentialSingleValueBuilder.h:269-311 | every refused callback answers with a "Coding Error" usage error |
| `DecoderReplay.Replay` | include/fast/messages/SequentialSingleValueBuilder.h:45-232 | a fresh builder fed any sequence of callbacks ends in the state the trace model computes for that sequence |

## Left out

- Messages.SequentialSingleValueBuilder.Value: returns the stored value as it is. The source converts it to the builder's `DATATYPE` through `Value::getValue`, which is not part of this model.
- Messages.SequentialSingleValueBuilder.AddValue: a throw from `Value::setValue` or `values_.push_back` (an allocation failure, or anything the unseen `setValue` raises, for example while copying the byte string) is not modelled. The source pushes the identity before it builds and pushes the value, so that path is not exception-safe: it leaves `identities_` one entry longer than `values_`, and every later identity sits next to the wrong value until `reset`. The model's `AddValue` always completes, so `DecoderEvents.RunKeepsWellFormed`, `DecoderEvents.RunAppendsValues` and `DecoderEvents.EarlierEntriesKept` hold only when every `addValue` call completes.
- Messages.SequentialSingleValueBuilder.AddValue: the stored value is the opaque `V`. The ten overloads (eight integer widths, `Decimal`, byte string with length) differ only in how `Value::setValue` encodes the argument, which is not part of this model. The value-type tag that every overload receives is never read, so it is not a parameter.
- Messages.SequentialSingleValueBuilder.StartSequence, StartSequenceEntry, StartGroup: the source declares a builder as the result but always throws. The model returns the usage error as a value instead of throwing it.
- Messages.SequentialSingleValueBuilder.Value and Identity: the source indexes without a bounds check, so an index at or past the count is undefined behaviour. The model requires the index to be in range.
- The message counter assumes a 64-bit `size_t`. The vector lengths are unbounded, since the vectors cannot outgrow memory before `size_t`.
- `wantLog` always answers true, and the log level it would filter on is never used. It is not modelled.
- `getApplicationType` and `getApplicationTypeNs` return the constant strings "sequentialsinglevalue" and "". They are not modelled.
- `clear`, `reserve` and `setApplicationType` have empty bodies. They are not modelled.
- The commented-out console output in the log and error callbacks has no effect and is not modelled.
- Messages.SequentialSingleValueBuilder.Identity: returns a copy of the recorded identity. In the source it returns a writable reference into `identities_`, which is declared `mutable`, so a caller can overwrite a recorded identity even through a const builder. That write is not modelled, so `DecoderEvents.RunAppendsValues` and `DecoderEvents.EarlierEntriesKept` cover only changes made by the builder's own callbacks.
- C++ `virtual` dispatch and the destructor have no observable effect here.
