# Arduino Model Train Controller V3 — a Dafny model of its core

The system drives model trains over a layout that is cut into **stretches**.
Each stretch holds **signals**, and each signal guards one block **zone**.
It has three parts:

- The **Go server** keeps trains, stretches and signals in memory. It decides
  every signal's aspect from which zones are occupied. It talks to each train's
  microcontroller over TCP in a one-byte-length-prefixed binary protocol.
- The **React client** talks to the server over one WebSocket. It uses frames
  `VERB:RESOURCE$PAYLOAD`.
- In the browser, a **multiplexer** sends replies to one-shot waiters and
  server pushes to durable subscribers. A Redux slice holds the list of trains.

The project models both sides, module by module after the source files:

| module | models |
|---|---|
| `Wrappers`, `Text`, `Sorting`, `IdOrder`, `JsData` | the `Option` type, JavaScript/Go string helpers, the stable sort by id both sides use, map-to-sorted-array, and JavaScript's `undefined`/`null`/value fields |
| `NetworkController` | `NetworkController.ts`: the verb table, the frame parser, and the class holding both listener tables, the sent-frame log and the ticket counter (a promise is a ticket) |
| `TrainsSlice` | `trainsSlice.ts`: the four reducers on a `seq` field, written as push / splice / sort |
| `ClientApp` | `index.tsx`: the nine subscriptions, the three startup loads, the request and action wrappers, and the store the train list is replayed into |
| `ClientTrain`, `ClientStretch`, `SignalView` | the client record classes and their label maps |
| `TrainsForm`, `SignalsForm`, `Controls` | the validators, draft builders, submit gating and the control panel's decision trees |
| `ServerUtils`, `ServerRecords` | `utils.go`, and the per-record logic of `signal.go`, `train.go` and `stretch.go` |
| `ServerState` | the global maps as the class `Controller`, with the block-aspect rule over the signal graph |
| `SignalOps`, `TrainOps`, `StretchOps` | the in-memory operations of `signal.go`, `train.go` and `stretch.go` as methods on `Controller` |
| `ServerFrames` | the split of a WebSocket frame in `main.go`'s read loop |
| `TrainWire`, `TrainLink` | the byte protocol to a train, and `model_train.go`'s authentication, read loop, dispatch, connect and disconnect |

A Go pointer to a signal is modelled as the signal's `(stretch, id)` key into
one global map. A pointer to a train is its id. Mutexes are erased. The
bytes written to the trains are a log field `wire`. Whatever the database
returns is a parameter (`db`, `signalsOf`). Whatever JSON decodes to is the
opaque `Codec` of `ClientApp`. The setting `SwitchingMaximumAttempts` is the
parameter `maxAttempts`.

These behaviours of the code may surprise a reader; the model follows the code:

- `trainsSlice` `update` and `remove` of an id that is not in the list are
  not no-ops. `findIndex` gives -1, and `splice(-1, 1)` drops the last record.
- The client's delete wrappers send the whole record's JSON, not a bare id.
- A verb that names a property every JavaScript object inherits (such as
  `constructor`) passes the verb-table check. It is read as a server push.
- The comparator `a.id - b.id` of `trainsSlice` reads a `null` id as 0, so
  such a train sorts among the ids as 0.
- The forms' name checks read JavaScript's `length`, which counts UTF-16 code
  units: a character beyond U+FFFF counts twice.

Three defects of the code are listed under Findings. For each, the model
has a function that follows the code as written and a lemma that exhibits
the defect; the operation method (`SignalOps.UpdateSignal`,
`TrainOps.OnPositionSwitchedFailure`, `StretchOps.DeleteStretch`) follows
the corrected behaviour, and "## Left out" names each of them.

Every `requires` of a `Controller` operation is `c.Valid()` plus, where the Go
code dereferences a pointer it was handed, the presence of that key, except
for three assumptions about database rows, which the Go code does not check:
`StretchOps.LoadStretches` and `StretchOps.LoadStretch` require
`RowsWellFormed` (each row's stretch id is the stretch queried, and every
switch row carries a splitter), `StretchOps.AddRow` requires `HasKind` of its
row (a switch carries a splitter), and `StretchOps.PutStretch` requires each
listed signal to be in the global map already. `c.Valid()` itself includes
`HasKind` for every stored signal. "## Left out" names what these leave out.

## Model

| member | source | states |
|---|---|---|
| ServerUtils.Inc8 | server/model_train_controller_v3/train.go:434 | `SwitchAttempt++` on a uint8: one more, and 255 wraps to 0 |
| ServerUtils.MinUInt8 | server/model_train_controller_v3/utils.go:20-25 | the result is at most both arguments and is one of them |
| ServerUtils.MinUInt8Symmetric | server/model_train_controller_v3/utils.go:20-25 | the minimum does not depend on argument order |
| ServerUtils.ErrorCodesConsecutive | server/model_train_controller_v3/utils.go:27-37 | the nine error codes are 0..8 in declaration order |
| ServerUtils.Fail | server/model_train_controller_v3/utils.go:13-18 | a failure envelope is not ok and carries its code |
| ServerRecords.SignalIdIsValid | server/model_train_controller_v3/signal.go:285-287 | valid iff both ids are non-zero |
| ServerRecords.SignalIsValid | server/model_train_controller_v3/signal.go:350-352 | valid iff stretch id non-zero, name 1..50, speed limit at most 2, not both switch and loop-back, a switch has a kind and both detour ids, and a loop-back has both ids and does not point at itself |
| ServerRecords.TrainIsValid | server/model_train_controller_v3/train.go:89-91 | valid iff name 1..50, slow speed non-zero, and slow < half < fast |
| ServerRecords.StretchIsValid | server/model_train_controller_v3/stretch.go:109-111 | valid iff name 1..50 and the type is the only one strictly between UNKNOWN and INVALID |
| ServerRecords.CalcTrainSpeed | server/model_train_controller_v3/train.go:368-379 | speed limit 0, 1, 2 gives the slow, half, fast speed; any other gives 0 |
| ServerRecords.CalcTrainSpeedOnSignal | server/model_train_controller_v3/train.go:381-394 | Clear and Preliminary Caution keep the speed, Caution caps it at the half speed, anything else stops |
| ServerRecords.SpeedOnSignalBounded | server/model_train_controller_v3/train.go:381-394 | for a valid train the speed never exceeds fast, never exceeds half under Caution, and is 0 under Danger |
| ServerRecords.GetNextSignal | server/model_train_controller_v3/signal.go:155-166 | a non-splitter goes to the next signal; an idle splitter detours iff not in passthrough; a queued splitter detours iff in passthrough |
| ServerRecords.QueueDetour | server/model_train_controller_v3/signal.go:327-348 | accepted iff the zone is free, the switch is in passthrough and nothing is queued; then queued, Danger, position unchanged |
| ServerRecords.QueuePassthrough | server/model_train_controller_v3/signal.go:301-325 | the mirror image: accepted iff free, in detour and nothing queued |
| ServerRecords.QueueIgnoresSwitchFlag | server/model_train_controller_v3/signal.go:301-348 | neither switch command depends on whether the signal is a switch |
| ServerRecords.SwitchOpcode | server/model_train_controller_v3/train.go:437-442 | the byte sent asks for detour when in passthrough, else for passthrough |
| ServerRecords.SwitchSucceeded | server/model_train_controller_v3/train.go:451-453 | success clears both switching flags, flips the position, and changes nothing else |
| ServerRecords.SwitchCycleFlipsPosition | server/model_train_controller_v3/train.go:429-456 | queue, start and succeed leave the switch idle in the other position, and the byte sent names that position |
| ServerRecords.QueuedRouteIsFinalRoute | server/model_train_controller_v3/signal.go:155-166 | while a change is queued a splitter routes trains to where it will point once the change succeeds |
| ServerRecords.Initialized | server/model_train_controller_v3/signal.go:112-127 | a loaded signal has a free zone, no holder and passthrough position; a switch has no queued change and a non-switch keeps its flag; Danger when it has no next signal and its old aspect when it has one; every other field is unchanged |
| ServerState.GetSignal | server/model_train_controller_v3/signal.go:289-299 | found iff the stretch exists and lists the id, and then it is that signal |
| ServerState.AspectFor | server/model_train_controller_v3/signal.go:267-276 | each of the four aspects holds exactly under its condition: own zone occupied; else next zone; else the zone after; else Clear |
| ServerState.WithAspect | server/model_train_controller_v3/signal.go:267-278 | one `calculateSignalAspect`: the same signals, and the signal gets the rule's aspect |
| ServerState.Recalculated | server/model_train_controller_v3/signal.go:257-265 | the recalculation keeps the same signals; its effect is stated by RecalculatedTouchesOnlyBehind |
| ServerState.AspectIgnoresAspects | server/model_train_controller_v3/signal.go:267-276 | the aspect rule reads zones and links, never aspects |
| ServerState.WithAspectSameButAspects | server/model_train_controller_v3/signal.go:267-276 | one recalculation changes only the one signal's aspect, to the rule's value |
| ServerState.RecalculatedTouchesOnlyBehind | server/model_train_controller_v3/signal.go:257-265 | the recalculation changes only aspects; it sets the signal and the up to two signals behind it to the rule's aspect; every other aspect is kept |
| ServerState.RecalculatedSameButAspects | server/model_train_controller_v3/signal.go:257-265 | the recalculation changes nothing but aspects |
| ServerState.RecalculatedBehind | server/model_train_controller_v3/signal.go:257-265 | the signal and the signals behind it get the rule's aspect |
| ServerState.RecalculatedElsewhere | server/model_train_controller_v3/signal.go:257-265 | every signal not behind it keeps its aspect |
| ServerState.Controller.constructor | server/model_train_controller_v3/train.go:23 | the empty state satisfies the invariant |
| SignalOps.CalculateSignalAspect | server/model_train_controller_v3/signal.go:267-278 | only the signal's aspect is set, to the block rule's; the invariant is kept |
| SignalOps.SignalAspectChangedCalculate | server/model_train_controller_v3/signal.go:257-265 | the signals become the recalculation; other state is unchanged |
| SignalOps.UnOccupyZone | server/model_train_controller_v3/signal.go:250-255 | the zone is freed with no holder, then recalculated; other state is unchanged |
| SignalOps.FreedZoneNotDanger | server/model_train_controller_v3/signal.go:250-255 | after freeing, the signal does not show Danger, and only zone, holder and aspects changed |
| SignalOps.SwitchPassthrough | server/model_train_controller_v3/signal.go:301-325 | true iff the queue is accepted, and then the signal becomes the queued one; otherwise nothing changes |
| SignalOps.SwitchDetour | server/model_train_controller_v3/signal.go:327-348 | the same for the detour command |
| SignalOps.ForceRed | server/model_train_controller_v3/signal.go:544-564 | ok iff not already forced and the zone is free; then the signal holds its own zone and the aspects are recalculated; refused with Data Not Valid and no change otherwise |
| SignalOps.UnforceRed | server/model_train_controller_v3/signal.go:566-586 | ok iff forced; then the zone is released and recalculated; refused with no change otherwise |
| SignalOps.ForcedRed | server/model_train_controller_v3/signal.go:555-559 | the state `forceRed` leaves: the same signals, the signal forced and holding its zone |
| SignalOps.UnforcedRed | server/model_train_controller_v3/signal.go:576-580 | the state `unforceRed` leaves: the same signals, the signal neither forced nor holding its zone |
| SignalOps.ForcedRedShowsDanger | server/model_train_controller_v3/signal.go:544-564 | a forced signal shows Danger, and a free signal right behind it that leads into it shows Caution |
| SignalOps.UnforcedRedReleases | server/model_train_controller_v3/signal.go:566-586 | a released signal is not forced, its zone is free, and it is not Danger |
| SignalOps.ForceThenUnforceRestores | server/model_train_controller_v3/signal.go:544-586 | forcing a free signal and releasing it gives back the state it started from, aspects aside |
| SignalOps.UpdateRefusal | server/model_train_controller_v3/signal.go:382-444 | accepted iff ids non-zero, the record valid, and the signal, detour target and loop-back target are each listed by their own stretch; Data Not Valid exactly for the first group; every refusal is one of two codes |
| SignalOps.UpdateRefusalAsWritten | server/model_train_controller_v3/signal.go:382-444 | the checks with the detour and loop-back signal ids looked up in the signal's own stretch |
| SignalOps.AsWrittenAcceptsDanglingDetour | server/model_train_controller_v3/signal.go:417 | as written, a detour to a signal its stretch does not list is accepted, and the stored link is empty |
| SignalOps.AsWrittenRefusesListedDetour | server/model_train_controller_v3/signal.go:417 | as written, a detour to a listed signal is refused |
| SignalOps.Updated | server/model_train_controller_v3/signal.go:446-471 | name, speed limit and both flags copied; switch fields copied and the detour looked up for a switch, cleared otherwise; loop-back likewise; identity, state and links kept |
| SignalOps.UpdateSignal | server/model_train_controller_v3/signal.go:381-498 | ok iff the corrected UpdateRefusal gives none; refusal returns its code and changes nothing; success puts the updated signal under its key; the invariant is kept |
| SignalOps.AcceptedUpdateLinksResolve | server/model_train_controller_v3/signal.go:446-471 | after an accepted update the detour and loop-back links point at the signals the ids name |
| TrainOps.TrainsToArray | server/model_train_controller_v3/train.go:60-69 | every train exactly once, strictly ascending by id |
| TrainOps.GetTrainByAccessKey | server/model_train_controller_v3/train.go:80-87 | a found train holds the key, and none is found iff no train holds it |
| TrainOps.WithDetails | server/model_train_controller_v3/train.go:169-172 | name and three speeds come from the edit and everything else is kept, so validity is the edit's |
| TrainOps.UpdateTrain | server/model_train_controller_v3/train.go:150-172 | Data Not Valid for id 0 or an invalid train, Could Not Find for an unknown id, else only the four fields change |
| TrainOps.JumpStartRefusal | server/model_train_controller_v3/train.go:234-282 | each refusal code holds exactly when its check is the first to fail: zero id; unknown train, stretch or signal; not online; not stopped |
| TrainOps.ManuallyJumpStartTrain | server/model_train_controller_v3/train.go:233-300 | ok iff no refusal; on success the train is started with no last signal, aspect or stop, and the signal to enter is returned; nothing else changes |
| TrainOps.Sent | server/model_train_controller_v3/train.go:468-477 | an online train is written one frame of the message, an offline one nothing |
| TrainOps.SendMessageToTrain | server/model_train_controller_v3/train.go:468-477 | the wire grows by exactly what `Sent` says |
| TrainOps.SentIsReadBack | server/model_train_controller_v3/model_train.go:115-137 | a 1..255-byte message sent to a train is the frame the reader reads back first |
| TrainOps.SwitchSwitchPosition | server/model_train_controller_v3/train.go:429-444 | no effect unless a switch with a queued change; else it is marked switching, the attempt counter wraps up by one, and the opcode is sent |
| TrainOps.OnPositionSwitchedSuccessfully | server/model_train_controller_v3/train.go:446-456 | when the last signal is a switch it completes the change; otherwise nothing changes |
| TrainOps.FailureStepAsWritten | server/model_train_controller_v3/train.go:458-466 | marks failure when there is a last switch at the maximum; otherwise retries the last signal, even when there is none |
| TrainOps.FailureWithoutSignalRetriesNil | server/model_train_controller_v3/train.go:465 | with no last signal the as-written step retries a nil signal |
| TrainOps.FailureStepOf | server/model_train_controller_v3/train.go:458-466 | the same step, except that a train with no last signal is ignored; it agrees with the as-written step whenever there is a last signal |
| TrainOps.OnPositionSwitchedFailure | server/model_train_controller_v3/train.go:458-466 | marks the switch failed, or retries through `SwitchSwitchPosition`, or does nothing, as the step says |
| StretchOps.StretchesToArray | server/model_train_controller_v3/stretch.go:55-64 | every stretch exactly once, strictly ascending by id |
| StretchOps.IdsOfRows | server/model_train_controller_v3/stretch.go:74-78 | a loaded stretch lists exactly the ids of its rows |
| StretchOps.StretchesLoaded | server/model_train_controller_v3/stretch.go:66-81 | after loading every old stretch id and every loaded stretch's id is present |
| StretchOps.SignalsLoaded | server/model_train_controller_v3/stretch.go:72-78 | after loading no signal known before is lost |
| StretchOps.LoadStretches | server/model_train_controller_v3/stretch.go:66-81 | each stretch (a later one with the same id replacing an earlier) gets a fresh signal set; its initialized rows enter the map and are appended to the list; the invariant is kept |
| StretchOps.LoadStretch | server/model_train_controller_v3/stretch.go:67-80 | one round: the stretch lists its rows, which are added to the map and appended to the list |
| StretchOps.SignalsLoadedKeys | server/model_train_controller_v3/stretch.go:66-81 | a signal known after loading was known before or was appended to the list |
| StretchOps.WithRowsInitialized | server/model_train_controller_v3/stretch.go:74-78 | every loaded signal is initialized |
| StretchOps.StretchesLoadedHoldRows | server/model_train_controller_v3/stretch.go:66-81 | with distinct stretch ids each loaded stretch is present and holds exactly its own rows' ids |
| StretchOps.StretchWithDetails | server/model_train_controller_v3/stretch.go:163-164 | name and type from the edit, id and signals kept |
| StretchOps.UpdateStretch | server/model_train_controller_v3/stretch.go:144-164 | Data Not Valid for id 0 or invalid, Could Not Find for unknown, else only name and type change |
| StretchOps.DeletedStretchesAsWritten | server/model_train_controller_v3/stretch.go:200 | as written, the stretch stays and only the signal whose id equals the stretch id leaves its list |
| StretchOps.DeleteAsWrittenKeepsStretch | server/model_train_controller_v3/stretch.go:200 | deleting stretch 1 as written leaves it and its signal 2 visible |
| StretchOps.DeleteStretch | server/model_train_controller_v3/stretch.go:183-200 | Data Not Valid for id 0, Could Not Find for unknown, else, as corrected, the stretch leaves the map |
| StretchOps.DeletedStretchHidesOnlyItsSignals | server/model_train_controller_v3/stretch.go:183-200 | after the delete a signal is found iff it was found before and is not in that stretch |
| IdOrder.PermutationKeepsDistinct | server/model_train_controller_v3/train.go:60-69 | sorting the collected values keeps their ids distinct |
| IdOrder.ValuesInIdOrder | server/model_train_controller_v3/stretch.go:55-64 | each map value exactly once, strictly ascending by id, for any iteration order |
| ServerFrames.SplitCommandCharacterized | server/model_train_controller_v3/main.go:141-153 | rejected iff no `$` or no `:` before it; otherwise verb, `:`, resource, `$` and payload rebuild the message, with the verb free of `:` and `$` |
| ServerFrames.SplitCommandOfFrame | server/model_train_controller_v3/main.go:147-153 | a frame whose verb has no `:` or `$` splits into that verb and resource, so `A:B:C$x` gives `A` and `B:C`, and the payload keeps later `$` |
| ServerFrames.SplitCommand | server/model_train_controller_v3/main.go:141-153 | an accepted split has a verb free of `:` and `$`, a resource free of `$`, and the text after the first `$` as payload |
| ServerFrames.Commands | server/model_train_controller_v3/main.go:133-154 | no more commands than messages, the k-th command being the split of the k-th message |
| ServerFrames.ReadLoop | server/model_train_controller_v3/main.go:133-154 | the loop hands on exactly the commands before the first rejected message |
| ServerFrames.CommandsStopAtRejected | server/model_train_controller_v3/main.go:143-151 | nothing after a rejected message is handed on |
| ServerFrames.CommandsOfWellFormed | server/model_train_controller_v3/main.go:141-153 | well-formed messages are handed on one command each, as split |
| TrainWire.TrainFrame | server/model_train_controller_v3/train.go:472-476 | the low 8 bits of the length, then the message |
| TrainWire.ReadFrames | server/model_train_controller_v3/model_train.go:115-141 | no more frames than bytes of the stream; its cases are stated by ReadFramesStep |
| TrainWire.ReadFramesStep | server/model_train_controller_v3/model_train.go:118-139 | the reader's three cases: skip a zero size, stop on a short payload, otherwise take one frame |
| TrainWire.FramesAreNonEmpty | server/model_train_controller_v3/model_train.go:127-131 | every frame read has 1 to 255 bytes |
| TrainWire.ReadFrameOfFrame | server/model_train_controller_v3/model_train.go:118-139 | a framed 1..255-byte message is read back as itself, and the rest is read on |
| TrainWire.EmptyFrameSkipped | server/model_train_controller_v3/model_train.go:127-129 | an empty message's lone zero byte is skipped |
| TrainWire.ReadFramesOfFramed | server/model_train_controller_v3/model_train.go:115-141 | reading back any sequence of framed 1..255-byte messages gives them in order |
| TrainWire.LeBytes | server/model_train_controller_v3/model_train.go:105 | a key's four bytes, each a byte, lowest first |
| TrainWire.LeUint32 | server/model_train_controller_v3/model_train.go:105 | the lowest byte is the key modulo 256, and the highest its top 8 bits |
| TrainWire.LeUint32OfLeBytes | server/model_train_controller_v3/model_train.go:105 | decoding the encoded key gives the key |
| TrainWire.LeBytesOfLeUint32 | server/model_train_controller_v3/model_train.go:105 | encoding a decoded key gives the four bytes back |
| TrainLink.AuthenticateTrain | server/model_train_controller_v3/model_train.go:86-113 | fewer than four bytes fail; otherwise the train holding the little-endian key, none iff no train holds it; the connection continues after the key |
| TrainLink.GreetingCarriesKey | server/model_train_controller_v3/model_train.go:89-105 | a train that opens with its key's bytes is asked about exactly that key |
| TrainLink.ReactionOf | server/model_train_controller_v3/model_train.go:143-163 | empty is ignored; first byte 1, 2, 3 gives reed switch (with the rest as payload), success, failure; anything else is ignored |
| TrainLink.ReportIsDispatched | server/model_train_controller_v3/model_train.go:115-163 | a report the train frames is read as the first frame and reacted to by its first byte |
| TrainLink.ReedSwitchStep | server/model_train_controller_v3/model_train.go:165-170 | acts iff the train is started and has a last signal, and then asks to enter that signal's next signal |
| TrainLink.IdleTrainIgnoresReedSwitch | server/model_train_controller_v3/model_train.go:167 | a stopped or unplaced train does nothing on a reed switch |
| TrainLink.OnMicrocontrollerMessage | server/model_train_controller_v3/model_train.go:143-163 | a reed switch returns the step's zone to enter and changes nothing; success completes a switch's change; failure marks the switch failed, retries it or does nothing, by the failure step, with the new signals, trains and wire; anything else changes nothing |
| TrainLink.HandleTrainMessages | server/model_train_controller_v3/model_train.go:115-141 | the frames handled are exactly those the reader reads from the stream, in order, each dispatched; the invariant is kept |
| TrainLink.Connect | server/model_train_controller_v3/model_train.go:67-69 | only the train's online flag is set |
| TrainLink.Disconnected | server/model_train_controller_v3/model_train.go:75-82 | offline, stopped, no last signal or aspect; every other field kept |
| TrainLink.Disconnect | server/model_train_controller_v3/model_train.go:74-83 | the train becomes disconnected, and the zone it held is freed and recalculated |
| TrainLink.OnNewSignalBoxConnection | server/model_train_controller_v3/model_train.go:59-84 | accepted iff the key names a train that is offline; a refusal changes nothing; an accepted train's frames are read from after the key, and the train ends disconnected |
| Text.IndexOf | web/model_train_controller_v3_react/src/NETWORKING/NetworkController.ts:48 | the position of the first occurrence, or -1 iff absent |
| Text.Split | web/model_train_controller_v3_react/src/NETWORKING/NetworkController.ts:56 | one more part than separators, and no part contains the separator |
| Text.JoinSplit | web/model_train_controller_v3_react/src/NETWORKING/NetworkController.ts:56 | the parts joined back with the separator give the text |
| Text.SplitAroundSeparator | web/model_train_controller_v3_react/src/NETWORKING/NetworkController.ts:56-59 | a header with exactly one `:` splits into the texts on its two sides |
| Text.NatToString | web/model_train_controller_v3_react/src/index.tsx:136 | decimal digits, non-empty, no leading zero except 0 itself |
| Text.ParseNatToString | web/model_train_controller_v3_react/src/index.tsx:136 | reading the decimal text back gives the number |
| Text.NatToStringInjective | web/model_train_controller_v3_react/src/MODELS/Signals/SignalView.ts:43 | different numbers have different texts |
| Text.IntToString | web/model_train_controller_v3_react/src/index.tsx:136 | a minus sign exactly for negatives, then the digits of the magnitude |
| Sorting.SortPermutes | web/model_train_controller_v3_react/src/redux/trainsSlice.ts:22-24 | the sorted sequence is a permutation of the input |
| Sorting.SortSorted | web/model_train_controller_v3_react/src/redux/trainsSlice.ts:22-24 | no record is followed by one with a smaller id |
| Sorting.SortLength | web/model_train_controller_v3_react/src/redux/trainsSlice.ts:22-24 | sorting keeps the length |
| Sorting.SortMembers | web/model_train_controller_v3_react/src/redux/trainsSlice.ts:22-24 | a record is in the output iff it is in the input |
| Sorting.DeleteKeepsSorted | web/model_train_controller_v3_react/src/redux/trainsSlice.ts:46 | deleting one position keeps a sorted list sorted |
| NetworkController.VerbDirection | web/model_train_controller_v3_react/src/NETWORKING/NetworkController.ts:11-21 | client iff one of the five client verbs; server for the four server verbs and inherited property names; none for anything else |
| NetworkController.ParseFrame | web/model_train_controller_v3_react/src/NETWORKING/NetworkController.ts:47-66 | an accepted frame's header is the text before the first `$`, which is past position 0, has no `$` and exactly one `:`; the payload is the text after it |
| NetworkController.Dispatch | web/model_train_controller_v3_react/src/NETWORKING/NetworkController.ts:68-81 | a delivery needs a parsed frame and carries its payload; a subscriber only for a server verb and its exact header, a waiter's ticket only for a client verb and its exact header |
| NetworkController.WaitersAfter | web/model_train_controller_v3_react/src/NETWORKING/NetworkController.ts:74-79 | the waiters are kept, or only the header of a parsed reply to a client verb is removed |
| NetworkController.RequestFrame | web/model_train_controller_v3_react/src/NETWORKING/NetworkController.ts:89 | the frame is two characters longer than its parts; ParseWellFormed states that it parses back to them |
| NetworkController.MisplacedDollarIgnored | web/model_train_controller_v3_react/src/NETWORKING/NetworkController.ts:48-50 | no `$` or `$` first: nothing delivered, no waiter used |
| NetworkController.HeaderMustBeOnePair | web/model_train_controller_v3_react/src/NETWORKING/NetworkController.ts:56-59 | a header without exactly one `:` is dropped with no effect |
| NetworkController.ParseWellFormed | web/model_train_controller_v3_react/src/NETWORKING/NetworkController.ts:51-66 | a well-formed frame parses back to its header and the whole text after the first `$` |
| NetworkController.VerbIsPlain | web/model_train_controller_v3_react/src/NETWORKING/NetworkController.ts:11-21 | every verb of the table is non-empty with no `:` or `$` |
| NetworkController.PushReachesSubscriber | web/model_train_controller_v3_react/src/NETWORKING/NetworkController.ts:68-73 | a push reaches the subscriber under its exact header, or nothing, and uses no waiter |
| NetworkController.ReplyConsumesWaiter | web/model_train_controller_v3_react/src/NETWORKING/NetworkController.ts:74-80 | a reply reaches its waiter, which is removed, so the same reply again reaches nothing |
| NetworkController.NetworkController.constructor | web/model_train_controller_v3_react/src/NETWORKING/NetworkController.ts:28-34 | both tables empty, nothing sent |
| NetworkController.NetworkController.AddListenerHandler | web/model_train_controller_v3_react/src/NETWORKING/NetworkController.ts:36-38 | the waiter replaces any earlier one under the header; nothing else changes |
| NetworkController.NetworkController.AddEventListenerHandle | web/model_train_controller_v3_react/src/NETWORKING/NetworkController.ts:40-42 | the subscriber replaces any earlier one under `verb:resource`; nothing else changes |
| NetworkController.NetworkController.OnWebSocketMessage | web/model_train_controller_v3_react/src/NETWORKING/NetworkController.ts:44-82 | delivers what `Dispatch` says on the old tables and leaves the waiters `WaitersAfter` gives; subscribers unchanged |
| NetworkController.NetworkController.Request | web/model_train_controller_v3_react/src/NETWORKING/NetworkController.ts:84-91 | a fresh ticket is registered under `verb:resource` before the frame is sent |
| NetworkController.NetworkController.GetRows | web/model_train_controller_v3_react/src/NETWORKING/NetworkController.ts:84-91 | registers a `GET:` waiter and sends `GET:resource$extra` |
| NetworkController.NetworkController.AddRows | web/model_train_controller_v3_react/src/NETWORKING/NetworkController.ts:93-100 | registers an `INSERT:` waiter and sends the row |
| NetworkController.NetworkController.UpdateRows | web/model_train_controller_v3_react/src/NETWORKING/NetworkController.ts:102-109 | registers an `UPDATE:` waiter and sends the row |
| NetworkController.NetworkController.DeleteRows | web/model_train_controller_v3_react/src/NETWORKING/NetworkController.ts:111-118 | registers a `DELETE:` waiter and sends the id text |
| NetworkController.NetworkController.ExecuteAction | web/model_train_controller_v3_react/src/NETWORKING/NetworkController.ts:147-157 | registers an `ACTION:` waiter and sends the extra data |
| TrainsSlice.FindIndex | web/model_train_controller_v3_react/src/redux/trainsSlice.ts:33-35 | the first position with the id, or -1 iff no record has it |
| TrainsSlice.SpliceOne | web/model_train_controller_v3_react/src/redux/trainsSlice.ts:36 | deletes the position when in range, the last record for -1, nothing from an empty list |
| TrainsSlice.IdKey | web/model_train_controller_v3_react/src/redux/trainsSlice.ts:22-24 | the number `a.id - b.id` reads: the id itself, 0 for `null`, and none (NaN) for `undefined` |
| TrainsSlice.NullIdSortsAsZero | web/model_train_controller_v3_react/src/redux/trainsSlice.ts:22-24 | a `null` id sorts before id 5, as JavaScript's subtraction reads it as 0 |
| TrainsSlice.Added | web/model_train_controller_v3_react/src/redux/trainsSlice.ts:20-25 | `add`: one record more, the payload among them; AddSortsAndKeepsAll states the rest |
| TrainsSlice.AddedMultiple | web/model_train_controller_v3_react/src/redux/trainsSlice.ts:26-31 | `addMultiple`: as many records as the list and the batch together |
| TrainsSlice.Updated | web/model_train_controller_v3_react/src/redux/trainsSlice.ts:32-41 | `update`: the payload is present, and the length is kept unless the list was empty |
| TrainsSlice.Removed | web/model_train_controller_v3_react/src/redux/trainsSlice.ts:42-47 | `remove`: one record fewer, and an empty list stays empty |
| TrainsSlice.TrainsStore.constructor | web/model_train_controller_v3_react/src/redux/trainsSlice.ts:14 | the store starts empty |
| TrainsSlice.TrainsStore.Add | web/model_train_controller_v3_react/src/redux/trainsSlice.ts:20-25 | the list becomes push-then-sort of the payload, with `null` ids sorted as 0 |
| TrainsSlice.TrainsStore.AddMultiple | web/model_train_controller_v3_react/src/redux/trainsSlice.ts:26-31 | the list becomes push-all-then-sort, with `null` ids sorted as 0 |
| TrainsSlice.TrainsStore.Update | web/model_train_controller_v3_react/src/redux/trainsSlice.ts:32-41 | the list becomes find, splice, push, sort, with `null` ids sorted as 0 |
| TrainsSlice.TrainsStore.Remove | web/model_train_controller_v3_react/src/redux/trainsSlice.ts:42-47 | the list becomes find, splice |
| TrainsSlice.AddSortsAndKeepsAll | web/model_train_controller_v3_react/src/redux/trainsSlice.ts:20-25 | `add` gives a sorted permutation of the old list plus the payload, one longer |
| TrainsSlice.AddMultipleSortsAndKeepsAll | web/model_train_controller_v3_react/src/redux/trainsSlice.ts:26-31 | `addMultiple` gives a sorted permutation of the old list and the batch |
| TrainsSlice.AddKeepsDuplicateIds | web/model_train_controller_v3_react/src/redux/trainsSlice.ts:20-21 | after `add`, an old record and a different payload with the same id both remain |
| TrainsSlice.UpdatePresentReplaces | web/model_train_controller_v3_react/src/redux/trainsSlice.ts:32-41 | with the id present: same length, the first match swapped for the payload, sorted |
| TrainsSlice.UpdatePresentIsFullReplace | web/model_train_controller_v3_react/src/redux/trainsSlice.ts:32-41 | with unique ids, the payload is the only record left with its id |
| TrainsSlice.UpdateAbsentDropsLast | web/model_train_controller_v3_react/src/redux/trainsSlice.ts:33-37 | with the id absent, the last record is dropped and the payload added |
| TrainsSlice.RemovePresentDeletesMatch | web/model_train_controller_v3_react/src/redux/trainsSlice.ts:42-47 | with the id present exactly the first match goes, the rest keep order, and sortedness is kept |
| TrainsSlice.RemoveAbsentDropsLast | web/model_train_controller_v3_react/src/redux/trainsSlice.ts:43-46 | with the id absent the last record goes |
| TrainsSlice.RemoveTwiceRemovesTwo | web/model_train_controller_v3_react/src/redux/trainsSlice.ts:43-46 | a second `remove` of the same train removes another record |
| ClientApp.PushOp | web/model_train_controller_v3_react/src/index.tsx:197-213 | inserted, updated and deleted pushes map exactly to `add`, `update` and `remove` |
| ClientApp.PushTableRoutes | web/model_train_controller_v3_react/src/index.tsx:93-104 | each of the nine headers is subscribed to the handler of its own kind and resource |
| ClientApp.PushTableHeadersAreServerVerbs | web/model_train_controller_v3_react/src/index.tsx:93-104 | every subscription is one of those nine and uses a server verb |
| ClientApp.PushRoutesToReducer | web/model_train_controller_v3_react/src/index.tsx:197-317 | a push dispatches the matching reducer on the same resource's slice with the decoded record, and uses no waiter |
| ClientApp.PushRoutes | web/model_train_controller_v3_react/src/index.tsx:93-104 | a push frame reaches its handler and leaves the waiters alone |
| ClientApp.SetFramesDropped | web/model_train_controller_v3_react/src/index.tsx:93-104 | a `SET` frame reaches nothing and changes nothing |
| ClientApp.ThirdCharOfPushHeaders | web/model_train_controller_v3_react/src/index.tsx:95-103 | every subscribed header starts `SER` |
| ClientApp.NoSetSubscription | web/model_train_controller_v3_react/src/index.tsx:93-104 | no header is subscribed for `SET` |
| ClientApp.LoadReplyDispatchesOnce | web/model_train_controller_v3_react/src/index.tsx:177-183 | a startup load's reply dispatches `addMultiple` of the decoded list once |
| ClientApp.OtherRepliesLeaveStore | web/model_train_controller_v3_react/src/index.tsx:185-195 | a reply to any other request dispatches nothing |
| ClientApp.App.constructor | web/model_train_controller_v3_react/src/index.tsx:93-104 | the nine subscriptions, no waiters, nothing sent or dispatched |
| ClientApp.App.Load | web/model_train_controller_v3_react/src/index.tsx:177-183 | a `GET` with an empty payload, its ticket remembered as a load of that resource |
| ClientApp.App.InitializeState | web/model_train_controller_v3_react/src/index.tsx:106-110 | `GET:TRAIN$`, `GET:STRETCH$`, `GET:SIGNAL$` sent; each of the three keys keeps its own waiter, remembered as its resource's load; nothing dispatched |
| ClientApp.App.OnMessage | web/model_train_controller_v3_react/src/NETWORKING/NetworkController.ts:44-82 | dispatches exactly the delivery's effect; a non-load reply goes back to the caller; the train list stays the replay of all dispatched actions |
| ClientApp.App.Deliver | web/model_train_controller_v3_react/src/index.tsx:177-213 | the same for one delivery |
| ClientApp.App.ApplyToTrains | web/model_train_controller_v3_react/src/index.tsx:182 | train actions run the slice's reducer; the others leave the list |
| ClientApp.App.InsertTrain | web/model_train_controller_v3_react/src/index.tsx:185-187 | sends `INSERT:TRAIN$` and the record's JSON, registers the waiter, and does not touch the store; the request takes the next ticket, so successive requests get distinct tickets |
| ClientApp.App.UpdateTrain | web/model_train_controller_v3_react/src/index.tsx:189-191 | sends `UPDATE:TRAIN$` and the record's JSON; store untouched; the request takes the next ticket, so successive requests get distinct tickets |
| ClientApp.App.DeleteTrain | web/model_train_controller_v3_react/src/index.tsx:193-195 | sends `DELETE:TRAIN$` and the whole record's JSON; store untouched; the request takes the next ticket, so successive requests get distinct tickets |
| ClientApp.App.InsertStretch | web/model_train_controller_v3_react/src/index.tsx:237-239 | sends `INSERT:STRETCH$` and the JSON; store untouched; the request takes the next ticket, so successive requests get distinct tickets |
| ClientApp.App.UpdateStretch | web/model_train_controller_v3_react/src/index.tsx:241-243 | sends `UPDATE:STRETCH$` and the JSON; store untouched; the request takes the next ticket, so successive requests get distinct tickets |
| ClientApp.App.DeleteStretch | web/model_train_controller_v3_react/src/index.tsx:245-247 | sends `DELETE:STRETCH$` and the whole record; store untouched; the request takes the next ticket, so successive requests get distinct tickets |
| ClientApp.App.InsertSignal | web/model_train_controller_v3_react/src/index.tsx:289-291 | sends `INSERT:SIGNAL$` and the JSON; store untouched; the request takes the next ticket, so successive requests get distinct tickets |
| ClientApp.App.UpdateSignal | web/model_train_controller_v3_react/src/index.tsx:293-295 | sends `UPDATE:SIGNAL$` and the JSON; store untouched; the request takes the next ticket, so successive requests get distinct tickets |
| ClientApp.App.DeleteSignal | web/model_train_controller_v3_react/src/index.tsx:297-299 | sends `DELETE:SIGNAL$` and the whole record; store untouched; the request takes the next ticket, so successive requests get distinct tickets |
| ClientApp.App.ManuallyJumpStartTrain | web/model_train_controller_v3_react/src/index.tsx:131-133 | sends an `ACTION` with the command's JSON; the request takes the next ticket, so successive requests get distinct tickets |
| ClientApp.App.ManuallyStopTrainAtSignal | web/model_train_controller_v3_react/src/index.tsx:139-141 | sends an `ACTION` with the command's JSON; the request takes the next ticket, so successive requests get distinct tickets |
| ClientApp.App.ManuallyStopTrain | web/model_train_controller_v3_react/src/index.tsx:135-137 | sends an `ACTION` with the train id in decimal; the request takes the next ticket, so successive requests get distinct tickets |
| ClientApp.App.CancelManuallyStopTrainAtSignal | web/model_train_controller_v3_react/src/index.tsx:143-145 | sends an `ACTION` with the train id in decimal; the request takes the next ticket, so successive requests get distinct tickets |
| ClientApp.App.SwitchPassthrough | web/model_train_controller_v3_react/src/index.tsx:147-149 | sends an `ACTION` with the signal id's JSON; the request takes the next ticket, so successive requests get distinct tickets |
| ClientApp.App.SwitchDetour | web/model_train_controller_v3_react/src/index.tsx:151-153 | sends an `ACTION` with the signal id's JSON; the request takes the next ticket, so successive requests get distinct tickets |
| ClientApp.App.ForceRed | web/model_train_controller_v3_react/src/index.tsx:155-157 | sends an `ACTION` with the signal id's JSON; the request takes the next ticket, so successive requests get distinct tickets |
| ClientApp.App.UnforceRed | web/model_train_controller_v3_react/src/index.tsx:159-161 | sends an `ACTION` with the signal id's JSON; the request takes the next ticket, so successive requests get distinct tickets |
| JsData.AspectLabel | web/model_train_controller_v3_react/src/MODELS/Signals/SignalView.ts:62-73 | each of the four aspect codes has exactly its label, and anything else has none |
| JsData.Utf16Length | web/model_train_controller_v3_react/src/COMPONENTS/Signals/Signals.tsx:171 | a string's `length`: between one and two code units per character, and 0 only for the empty string |
| JsData.Utf16LengthOfBasic | web/model_train_controller_v3_react/src/COMPONENTS/Signals/Signals.tsx:171 | text with no character beyond U+FFFF has one code unit per character |
| JsData.Utf16LengthOfAstral | web/model_train_controller_v3_react/src/COMPONENTS/Signals/Signals.tsx:171 | text made of characters beyond U+FFFF has two code units per character |
| ClientTrain.FromJson | web/model_train_controller_v3_react/src/MODELS/Trains/Train.ts:32-48 | `undefined` or `null` leave every field unset; an object is copied field for field |
| ClientTrain.AspectToString | web/model_train_controller_v3_react/src/MODELS/Trains/Train.ts:50-61 | each aspect of the last signal passed has exactly its label; `null` has none |
| ClientStretch.FromJson | web/model_train_controller_v3_react/src/MODELS/Stretches/Stretch.ts:20-27 | `undefined` or `null` leave the fields unset; otherwise id, name, type copied |
| ClientStretch.TypeToString | web/model_train_controller_v3_react/src/MODELS/Stretches/Stretch.ts:29-36 | `one-way-single-track` exactly for that type, `""` otherwise |
| SignalView.FromRecord | web/model_train_controller_v3_react/src/MODELS/Signals/SignalView.ts:38-60 | `undefined` gives an empty view, `null` throws, a record gives `stretchId;id`, `onlyId = id`, and its other fields |
| SignalView.FromRecordCopiesFields | web/model_train_controller_v3_react/src/MODELS/Signals/SignalView.ts:45-59 | every other field is the record's own |
| SignalView.AspectToString | web/model_train_controller_v3_react/src/MODELS/Signals/SignalView.ts:62-73 | each of the four codes has exactly its label, and anything else has none |
| SignalView.GetSignalId | web/model_train_controller_v3_react/src/MODELS/Signals/SignalView.ts:75-77 | the pair `(stretchId, onlyId)` |
| SignalView.GetSignalIdOfRecord | web/model_train_controller_v3_react/src/MODELS/Signals/SignalView.ts:75-77 | a view's id pair is its record's `(stretchId, id)` |
| SignalView.CompoundIdInjective | web/model_train_controller_v3_react/src/MODELS/Signals/SignalView.ts:43 | for natural ids the row key determines the pair |
| TrainsForm.GetTrainFromForm | web/model_train_controller_v3_react/src/COMPONENTS/Trains/Trains.tsx:154-165 | name and speeds from the form; the id only when editing; every other field unset |
| TrainsForm.IsValid | web/model_train_controller_v3_react/src/COMPONENTS/Trains/Trains.tsx:122-152 | accepted iff the name's `length` in UTF-16 code units is 1..50, slow speed not 0, slow < half < fast, and fast at most 255 |
| TrainsForm.NegativeSlowSpeedAccepted | web/model_train_controller_v3_react/src/COMPONENTS/Trains/Trains.tsx:141 | a negative slow speed passes |
| TrainsForm.Add | web/model_train_controller_v3_react/src/COMPONENTS/Trains/Trains.tsx:167-180 | the insert call is made iff the draft is valid, with that draft |
| TrainsForm.Update | web/model_train_controller_v3_react/src/COMPONENTS/Trains/Trains.tsx:182-195 | the update call is made iff valid, carrying the edited id |
| TrainsForm.Remove | web/model_train_controller_v3_react/src/COMPONENTS/Trains/Trains.tsx:197-200 | the delete call gets a train holding only the id |
| SignalsForm.GetSignalFromForm | web/model_train_controller_v3_react/src/COMPONENTS/Signals/Signals.tsx:193-215 | form fields set; the edited signal's stretch and id override; switch fields only with the switch box, loop-back fields only with that box; the rest unset |
| SignalsForm.IsValid | web/model_train_controller_v3_react/src/COMPONENTS/Signals/Signals.tsx:170-191 | accepted iff the name's `length` in UTF-16 code units is 1..50, so then it has 1..50 characters |
| SignalsForm.AstralNameRefused | web/model_train_controller_v3_react/src/COMPONENTS/Signals/Signals.tsx:180 | a 26-character name of characters beyond U+FFFF is 52 code units long and refused |
| SignalsForm.IsValidIgnoresRouting | web/model_train_controller_v3_react/src/COMPONENTS/Signals/Signals.tsx:170-191 | a switch that also loops back is accepted |
| SignalsForm.Add | web/model_train_controller_v3_react/src/COMPONENTS/Signals/Signals.tsx:217-230 | sent iff the name's UTF-16 length is 1..50, with the built draft |
| SignalsForm.Update | web/model_train_controller_v3_react/src/COMPONENTS/Signals/Signals.tsx:232-245 | sent iff the name's UTF-16 length is 1..50, carrying the draft built from the form, which has the edited signal's stretch and id |
| SignalsForm.Remove | web/model_train_controller_v3_react/src/COMPONENTS/Signals/Signals.tsx:247-250 | a draft with the id alone and no stretch id |
| Controls.ManualColumn | web/model_train_controller_v3_react/src/COMPONENTS/Controls/Controls.tsx:125-135 | stop iff the train is started, with its id; start otherwise, with the train |
| Controls.StopAtSignalColumn | web/model_train_controller_v3_react/src/COMPONENTS/Controls/Controls.tsx:138-154 | nothing iff not started; cancel iff started and a stop signal is not `null`; stop-at-signal iff started and it is `null` |
| Controls.DirectionCaption | web/model_train_controller_v3_react/src/COMPONENTS/Controls/Controls.tsx:177 | each caption exactly under its place in the priority: forced red, not a switch, failure, switching, queued, then passthrough or detour |
| Controls.ChangeDirection | web/model_train_controller_v3_react/src/COMPONENTS/Controls/Controls.tsx:180-206 | each button or caption exactly under its condition, bound to the row's own signal id |

## Left out

- Rendering: JSX, DataGrid, dialogs, i18n, and the alert modals the validators open. The modal and component files other than those modelled are not part of this model.
- JSON: `JSON.parse`, `JSON.stringify` and `json.Marshal` are the opaque functions of `ClientApp.Codec`.
- The WebSocket and TCP transports: `ws.send` appends to the `sent` log, and `Conn.Write` appends to `wire`. A train's connection is the byte sequence it sends before hanging up.
- `connections.go`, `web_client.go` and `rest_api.go` are not part of this model. The client treats a reply as echoing the request's verb and resource.
- `enterZone`, `trainAttemptToEnterZone` and `trainAwaitForZoneToFree` hold mutexes across goroutines. They are not modelled: the reed-switch step returns the zone to enter instead of entering it.
- Mutexes are erased, including the `SwitchMUTEX` unlock after a successful switch. `go` calls are sequential calls.
- `sendUpdateToAppWebClients`, the fan-out to browsers, is left out.
- The database is taken to succeed. The Internal Database Error paths, `BeforeCreate`, insert and delete writes, and the event log are left out.
- `loadSignals`, which wires the links between signals after loading, is not modelled. Links are whatever the signals already hold.
- `ExtraData` and `ErrorMessage` of the reply envelope are left out.
- Logging and printing are left out. `Conn` is reduced to the `online` flag.
- The stretches and signals slices of the client, and `Signal.ts`, `SignalAspect.ts` and `StretchType.ts`, are not part of this model. The aspect codes are taken as 0..3 and One Way Single Track as 1, as the server numbers them. The stretch and signal store actions are only logged.
- Go map iteration order is unspecified. The loops over maps pick any order, and the contracts hold for every choice.
- Go's `sort.Slice` is modelled by the same stable insertion sort as JavaScript's `sort`. The ids sorted are distinct, so stability makes no difference.
- Go's `len` counts bytes and the model counts characters of a `string`.
- StretchOps.LoadStretches: assumes well-formed database rows. A switch row always carries its splitter; without one, Go would dereference a nil `Splitter` in `getNextSignal` (signal.go:156). A row returned for stretch k always has stretch id k; otherwise Go would file it in stretch k's `Signals` under its own id. The model does not capture loads that break either assumption. `StretchOps.LoadStretch` and `StretchOps.AddRow` share these assumptions.
- SignalsForm.GetSignalFromForm: the form's stretch id is copied as the input's text, with no `parseInt`, while the model holds it as a number, as the server's `uint8` stretch id is; and an empty or non-numeric speed-limit, detour or loop-back field makes `parseInt` give NaN, which the model's integers cannot express. `Signal.ts`, whose constructor might convert the text, is not part of this model.
- TrainsForm.IsValid: a speed field that is empty or not a number makes `parseInt` give NaN, every comparison with NaN is false, and JavaScript then accepts the draft; the model's speeds are integers and cannot express that input.
- TrainsSlice.TrainsStore.Add: a train whose id is `undefined` makes the comparator return NaN, and JavaScript leaves the resulting order to the engine; the model's sort never moves such a train past another.
- TrainsSlice.TrainsStore.AddMultiple: the same order of `undefined` ids is not modelled.
- TrainsSlice.TrainsStore.Update: the same order of `undefined` ids is not modelled.
- SignalOps.UpdateSignal: follows the corrected refusal, which looks each detour and loop-back id up in its target stretch; Go looks them up in the signal's own stretch (signal.go:417, 436), which UpdateRefusalAsWritten models.
- StretchOps.DeleteStretch: follows the corrected delete, which removes the stretch from the map; Go keeps the stretch and deletes key `s.Id` from its own signals (stretch.go:200), which DeletedStretchesAsWritten models.
- `io.ReadFull` never returns 0 bytes without an error, so the `read == 0` branch of `authenticateTrain` is not modelled.
- `manuallyJumpStartTrain`'s `unOccupyZone` call after the stopped check cannot run, because the check already refused any train with a last signal.
- TrainLink.HandleTrainMessages: the state after each frame is stated only through the invariant, the unchanged keys, stretches and list, and not as a fold over the frames.
- TrainLink.OnNewSignalBoxConnection: the same; only the disconnect fields and the invariant are stated about the final train.
- TrainLink.Disconnect: Go sets `Online = false` before freeing the zone; the model states only the final state.
- TrainLink.OnMicrocontrollerMessage: a reed switch's `enterZone` is returned, not applied.
- TrainOps.ManuallyJumpStartTrain: returns the signal for `enterZone` instead of entering it.
- TrainOps.OnPositionSwitchedFailure: follows the corrected step, in which a train with no last signal does nothing where Go dereferences nil.

## Findings

| source | as written | input that shows it | evidently intended | confidence | as-written member | corrected member |
|---|---|---|---|---|---|---|
| server/model_train_controller_v3/signal.go:417 | the detour (and, at line 436, loop-back) signal id is looked up in the updated signal's own stretch | stretch 1 lists {1, 2} and stretch 2 is empty; a switch 1 of stretch 1 detours to signal 2 of stretch 2, is accepted, and stores no detour link | look the id up in the detour (loop-back) stretch | not executed | SignalOps.AsWrittenAcceptsDanglingDetour | SignalOps.UpdateRefusal |
| server/model_train_controller_v3/train.go:465 | with no last signal, `switchSwitchPosition(t.LastSignal)` is called with `nil` and reads `s.Switch` | a train that has passed no signal reports a switch failure (first byte 3) | do nothing when there is no last signal | not executed | TrainOps.FailureWithoutSignalRetriesNil | TrainOps.FailureStepOf |
| server/model_train_controller_v3/stretch.go:200 | `delete(stretch.Signals, s.Id)` removes the signal with the stretch's id from the stretch and keeps the stretch | deleting stretch 1 that lists signals {1, 2} keeps stretch 1 with signal 2 | remove the stretch from `stretches` | not executed | StretchOps.DeleteAsWrittenKeepsStretch | StretchOps.DeletedStretchHidesOnlyItsSignals |
