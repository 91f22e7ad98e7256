# Solo ordering chain and system-channel message processing

A Dafny model of three pieces of the Hyperledger Fabric ordering service:

- **The solo consensus chain** (`orderer/consensus/solo/consensus.go`). Each channel has one
  sequencing loop. The loop takes admitted envelopes, re-classifies and re-validates each one,
  feeds the valid ones to a block cutter, arms or clears a batch timer, and writes blocks in order.
  A config message always gets a block of its own, and any pending normal batch is flushed first.
  The model has two layers. The pure layer is a set of transition functions over `ChainState`
  (`OnMessage`, `OnTimer`, `Step`, `Run`). The imperative layer is the class `Solo.Chain`.
  Its fields `blocks`, `pending`, `timerArmed` and `halted` correspond to the ledger, the cutter's
  pending batch, the `timer` channel (nil or not) and the exit channel (closed or not).
  The methods modelling the loop's cases and the chain's entry points are each proved to perform
  exactly one of those transitions: `HandleMessage`, `ProcessConfig`, `ProcessNormal`,
  `HandleTimer`, `HandleEvent`, `Loop`, `Order`, `Configure` and `Halt`.
  `Cut`, `Ordered` and `WriteBlock` stand for the block cutter and the ledger writer, and are
  proved against `CutterOrdered` and `AppendBlock`. `Errored` changes nothing and reports the
  exit signal.
- **The system-channel processor** (`orderer/common/msgprocessor/systemchannel.go`). It routes by
  channel ID and builds the channel-creation transaction. A config update for another channel
  becomes a CONFIG envelope for that channel. That envelope is wrapped in an ORDERER_TRANSACTION
  envelope addressed to the system channel, and the result carries the system channel's sequence.
- **The shared definitions** (`orderer/common/msgprocessor/msgprocessor.go`). These are the
  two-valued `Classification`, the version and epoch stamped on created envelopes, the
  `ErrChannelDoesNotExist` sentinel, and the `Processor` contract.

Files and modules:

- `wrappers.dfy`: `Option` and `Result`.
- `protos.dfy`: envelopes, channel headers, channel-ID extraction and signed-envelope creation.
- `msgprocessor.dfy`: enum, constants, sentinel error, `Processor`.
- `systemchannel.dfy`: the system-channel processor.
- `solo.dfy`: the solo chain, covering the step functions, the invariant, the lemmas and the class.

Collaborators whose code is not part of this model are function-valued fields of support
datatypes. That covers the standard channel's `ClassifyMsg`/`ProcessNormalMsg`/`ProcessConfigUpdateMsg`,
`NewChannelConfig`, the configuration manager's `ProposeConfigUpdate`, and the signer.
Beyond what the Dafny types say, the model assumes one thing: the classifier succeeds on every
envelope that reaches the chain's loop, which the ingress has already classified once. This is the
`Classified` precondition of `Solo.Chain.Order`, `Solo.Chain.HandleMessage` and the step functions.

The block cutter is a minimal order-preserving model. A message joins the pending batch. The batch
is cut once it holds `maxMessageCount` messages. `ok` reports that messages remain pending.

## Model

| member | source | states |
|---|---|---|
| `Msgprocessor.ClassificationValue` | orderer/common/msgprocessor/msgprocessor.go:27-38 | NormalMsg is 0 and ConfigUpdateMsg is 1, and these are the only values |
| `Msgprocessor.ClassificationOf` | orderer/common/msgprocessor/msgprocessor.go:27-38 | an integer names a classification exactly when it is 0 or 1, and decoding inverts the encoding |
| `Msgprocessor.ClassificationRoundTrip` | orderer/common/msgprocessor/msgprocessor.go:27-38 | the two classes are distinct and the encoding round-trips |
| `Msgprocessor.SentinelIsIdentity` | orderer/common/msgprocessor/msgprocessor.go:23-25 | ErrChannelDoesNotExist is one distinguished value; an error that only has the same text is a different error |
| `Protos.GetChannelHeader` | orderer/consensus/solo/consensus.go:100-103 | header extraction succeeds exactly when the header decodes, and yields that header; otherwise it yields the bad-header error (used by `Solo.Chain.HandleMessage`) |
| `Protos.ChannelID` | orderer/common/msgprocessor/systemchannel.go:38-41 | channel-ID extraction succeeds exactly when the header decodes, and yields its channel ID; otherwise it yields the bad-header error |
| `Protos.CreateSignedEnvelope` | orderer/common/msgprocessor/systemchannel.go:81-89 | the created envelope carries exactly the requested type, channel, version and epoch, and the given payload; it fails, returning no envelope, exactly when signing fails |
| `SystemChannel.NewSystemChannel` | orderer/common/msgprocessor/systemchannel.go:27-33 | the processor embeds a standard channel built from the given support, and keeps the system-channel support |
| `SystemChannel.ProcessNormalMsg` | orderer/common/msgprocessor/systemchannel.go:37-52 | an extraction failure gives (0, that error); a channel ID other than the system chain ID gives (0, ErrChannelDoesNotExist); the system chain ID gives the standard processor's result unchanged |
| `SystemChannel.AcceptedNormalIsForSystemChannel` | orderer/common/msgprocessor/systemchannel.go:43-51 | any normal message the system channel accepts is addressed to the system channel and is accepted by the standard processor |
| `SystemChannel.ProposeNewChannel` | orderer/common/msgprocessor/systemchannel.go:71-79 | a failing NewChannelConfig propagates its error; otherwise the result is the fresh manager's ProposeConfigUpdate of the request |
| `SystemChannel.GenesisEnvelope` | orderer/common/msgprocessor/systemchannel.go:81-84 | the new channel's genesis envelope is a CONFIG envelope for that channel, stamped with MsgVersion/Epoch, whose payload is the proposed config; it fails exactly when signing fails, with the signer's error |
| `SystemChannel.WrapOrdererTransaction` | orderer/common/msgprocessor/systemchannel.go:86-89 | the wrapper is an ORDERER_TRANSACTION for the system chain ID, stamped with MsgVersion/Epoch, whose payload is the genesis envelope; it fails exactly when signing fails, with the signer's error |
| `SystemChannel.ChannelCreationOf` | orderer/common/msgprocessor/systemchannel.go:81-93 | reference definition, without a contract of its own: what a reader of the system channel's ledger extracts from a channel-creation transaction (the new channel's ID and its genesis config), used as the round-trip partner of `CreateChannelTx` |
| `SystemChannel.CreateChannelTx` | orderer/common/msgprocessor/systemchannel.go:67-93 | creation succeeds exactly when ProposeNewChannel, the genesis envelope and the wrapping envelope all succeed. Each failing step, including the final signing, yields (nil, 0, err) with that step's own error. On success the result is an ORDERER_TRANSACTION for the system chain ID wrapping a CONFIG envelope for the target channel whose payload is exactly the proposed config. That inner envelope is exactly the genesis envelope, signature included. Both headers carry MsgVersion/Epoch, and configSeq is the system channel's Sequence() |
| `SystemChannel.ProcessConfigUpdateMsg` | orderer/common/msgprocessor/systemchannel.go:57-94 | an extraction failure gives (nil, 0, err); the system chain ID delegates to the standard processor unchanged; any other ID gives exactly the channel-creation result for that ID (`CreateChannelTx`) |
| `SystemChannel.AsProcessor` | orderer/common/msgprocessor/systemchannel.go:21-25 | the system channel seen as a Processor: classification is inherited from the embedded standard channel, and the two processing operations are the system channel's own |
| `SystemChannel.SystemChannelFulfilsContract` | orderer/common/msgprocessor/msgprocessor.go:50-53 | if the standard processor keeps the Processor contract on config updates (a config, or an error, never both), the system channel keeps it too |
| `Solo.CutterOrdered` | orderer/consensus/solo/consensus.go:133 | the cutter preserves order: completed batches followed by the new pending batch are the old pending batch plus the message. `ok` holds exactly when something is pending, and completed batches are non-empty |
| `Solo.OnMessage` | orderer/consensus/solo/consensus.go:99-147 | the message case of the loop: a message ProcessNormalMsg rejects changes nothing; otherwise the config or the normal branch runs on its class; it never raises or clears the exit signal (properties in `OnMessageKeepsInv`) |
| `Solo.OnConfigMsg` | orderer/consensus/solo/consensus.go:116-125 | the config branch: the ledger grows by one block for the message, plus one before it when something was pending. The last block is a config block holding only the message, nothing stays pending and the timer is cleared |
| `Solo.OnNormalMsg` | orderer/consensus/solo/consensus.go:133-144 | the normal branch: the new pending batch is the cutter's, and the timer runs exactly while something is pending (the corrected timer rule, see Findings) |
| `Solo.OnTimer` | orderer/consensus/solo/consensus.go:148-159 | the timer case: the timer is cleared and nothing remains pending (which block it writes: `TimerExpiryCuts`) |
| `Solo.Halted` | orderer/consensus/solo/consensus.go:64-71 | closing the exit channel raises the exit signal and touches nothing else |
| `Solo.Step` | orderer/consensus/solo/consensus.go:97-163 | one turn of the select loop: nothing changes once the exit signal is raised (line 162 returns), and the exit event raises it |
| `Solo.OrderResult` | orderer/consensus/solo/consensus.go:74-81 | Order fails exactly when the chain has exited, then with Exiting and no change; otherwise it returns nil |
| `Solo.RunFrom` | orderer/consensus/solo/consensus.go:94-165 | definition of the loop over a suffix of the events, without a contract of its own; its properties are `RunPreservesOrder` and `HaltedRunIsInert` |
| `Solo.Run` | orderer/consensus/solo/consensus.go:94-165 | definition of the loop over a whole event sequence, without a contract of its own; its properties are `LedgerIsAdmissionOrder` and `AdmittedOnceInLedger` |
| `Solo.Admitted` | orderer/consensus/solo/consensus.go:74-81 | reference definition, independent of the loop: the valid envelopes handed over by Order before the exit signal, in hand-over order; `LedgerIsAdmissionOrder` proves the loop against it |
| `Solo.WriteBatches` | orderer/consensus/solo/consensus.go:138-141 | definition of writing each returned batch as one normal block, without a contract of its own; its properties are `WriteBatchesAppends` |
| `Solo.TimerAsWritten` | orderer/consensus/solo/consensus.go:134-144 | the timer rule as written, without a contract of its own: armed on a first pending message, cleared whenever a batch was completed |
| `Solo.TimerCorrected` | orderer/consensus/solo/consensus.go:134-144 | the intended timer rule, without a contract of its own: stopped once nothing is pending, started when something is pending and none runs |
| `Solo.TimerAsWrittenStrandsMessage` | orderer/consensus/solo/consensus.go:138-144 | a cutter result with one completed batch and a message still pending leaves the timer cleared under the rule as written, whether or not it was armed |
| `Solo.TimerCorrectedTracksPending` | orderer/consensus/solo/consensus.go:134-144 | under the corrected rule the timer runs exactly while messages are pending, for every cutter result whose `ok` reports pending messages |
| `Solo.TimerRulesAgree` | orderer/consensus/solo/consensus.go:134-144 | for every outcome of the minimal cutter the rule as written and the corrected rule give the same timer |
| `Solo.AppendBlock` | orderer/consensus/solo/consensus.go:119-124 | CreateNextBlock plus WriteBlock/WriteConfigBlock appends one block, numbered by the ledger height, and leaves all earlier blocks alone |
| `Solo.WriteBatchesAppends` | orderer/consensus/solo/consensus.go:138-141 | each returned batch becomes one normal block, in the returned order, with consecutive numbers; the ledger's contents grow by exactly the batches' concatenation |
| `Solo.ConfigMessageIsolated` | orderer/consensus/solo/consensus.go:110-125 | a valid config message writes a normal block with the pending batch first, if that batch is non-empty. It then writes exactly one config block holding only that message. Afterwards nothing is pending and the timer is cleared |
| `Solo.InvalidMessageDiscarded` | orderer/consensus/solo/consensus.go:111-115 | a message ProcessNormalMsg rejects leaves the whole state unchanged (either branch; also lines 127-131) |
| `Solo.FirstMessageArmsTimer` | orderer/consensus/solo/consensus.go:133-137 | a valid normal message that completes no batch, while the timer is not armed, arms the timer, joins the pending batch and writes no block |
| `Solo.NormalMessageWritesBatches` | orderer/consensus/solo/consensus.go:138-144 | every batch the cutter returns is written as one normal block, in order; the timer ends cleared exactly when at least one batch was returned |
| `Solo.TimerExpiryCuts` | orderer/consensus/solo/consensus.go:148-159 | on expiry the timer is cleared and nothing stays pending; an empty cut writes no block; otherwise exactly one block holding the cut batch is written |
| `Solo.ExpiryAlwaysWrites` | orderer/consensus/solo/consensus.go:152-156 | under the loop invariant, an expiring timer always finds messages pending, so the empty-cut warning path is never taken |
| `Solo.HaltIdempotent` | orderer/consensus/solo/consensus.go:64-71 | halting twice is the same as halting once, and it leaves the ledger and the pending batch alone |
| `Solo.OrderAfterHaltFails` | orderer/consensus/solo/consensus.go:74-81 | once halted, Order returns the Exiting error and changes nothing |
| `Solo.InitialStateInv` | orderer/consensus/solo/consensus.go:52-58 | a new chain (nothing written by it yet, nothing pending, no timer, not halted) satisfies the loop invariant |
| `Solo.OnMessageKeepsInv` | orderer/consensus/solo/consensus.go:99-147 | a message arrival preserves the invariant and appends exactly the accepted envelope (or nothing) to the written-then-pending stream. The invariant covers block numbering, a config block holding exactly one config-class envelope, normal blocks and the pending batch holding only normal-class envelopes, and the timer being armed exactly while something is pending |
| `Solo.OnConfigMsgKeepsInv` | orderer/consensus/solo/consensus.go:116-125 | the config branch keeps the invariant and appends exactly the message to the stream |
| `Solo.OnNormalMsgKeepsInv` | orderer/consensus/solo/consensus.go:133-144 | the normal branch keeps the invariant and appends exactly the message to the stream |
| `Solo.OnTimerKeepsInv` | orderer/consensus/solo/consensus.go:148-159 | timer expiry keeps the invariant and leaves the written-then-pending stream unchanged |
| `Solo.StepExtendsLedger` | orderer/consensus/solo/consensus.go:97-163 | no turn of the loop rewrites a block already written |
| `Solo.HaltedRunIsInert` | orderer/consensus/solo/consensus.go:160-162 | after the exit signal no event changes anything; in particular no block is written |
| `Solo.RunPreservesOrder` | orderer/consensus/solo/consensus.go:94-165 | across any run the invariant holds and the ledger only grows. The written envelopes followed by the pending ones equal the earlier stream plus exactly the valid envelopes admitted before the exit signal, in admission order |
| `Solo.LedgerIsAdmissionOrder` | orderer/consensus/solo/consensus.go:94-165 | from a fresh chain, the ledger's envelopes followed by the pending batch are exactly the admitted valid envelopes in admission order |
| `Solo.NoEnvelopeInTwoBlocks` | orderer/consensus/solo/consensus.go:97-163 | when a ledger's envelopes are pairwise distinct, no envelope appears in two different blocks |
| `Solo.AdmittedOnceInLedger` | orderer/consensus/solo/consensus.go:94-165 | when the admitted envelopes are pairwise distinct, no envelope appears in two different blocks of the ledger a fresh chain writes from them |
| `Solo.ThreeMessagesThenTimeout` | orderer/consensus/solo/consensus.go:133-159 | with a threshold of five, three valid normal messages write no block and leave the timer armed; after expiry there is exactly one block with the three in admission order |
| `Solo.Chain.constructor` | orderer/consensus/solo/consensus.go:48-58 | a new chain has written no block yet, nothing pending, no timer, is not halted, and satisfies the invariant |
| `Solo.Chain.Halt` | orderer/consensus/solo/consensus.go:64-71 | the chain is halted afterwards whether or not it was before; nothing else changes |
| `Solo.Chain.Errored` | orderer/consensus/solo/consensus.go:89-92 | the returned signal is raised exactly when the chain is halted, at the time of the call |
| `Solo.Chain.Order` | orderer/consensus/solo/consensus.go:74-81 | if halted, it fails with Exiting and changes nothing; otherwise it returns no error and the loop's message case runs on the envelope |
| `Solo.Chain.Configure` | orderer/consensus/solo/consensus.go:84-87 | behaves exactly like Order applied to the config envelope; the config update is ignored |
| `Solo.Chain.Cut` | orderer/consensus/solo/consensus.go:117 | returns the pending batch and empties it |
| `Solo.Chain.Ordered` | orderer/consensus/solo/consensus.go:133 | updates the pending batch and returns batches and `ok` as the cutter model prescribes |
| `Solo.Chain.WriteBlock` | orderer/consensus/solo/consensus.go:119-120 | appends one block made from the batch, numbered by the ledger height |
| `Solo.Chain.HandleMessage` | orderer/consensus/solo/consensus.go:99-147 | performs exactly the OnMessage transition and records the envelope as accepted exactly when it is valid |
| `Solo.Chain.ProcessConfig` | orderer/consensus/solo/consensus.go:117-125 | performs exactly the config-branch transition |
| `Solo.Chain.ProcessNormal` | orderer/consensus/solo/consensus.go:133-144 | runs the code as written: the early arming and `continue`, the block-by-block loop and the timer cleared after written batches. It is proved to perform exactly `OnNormalMsg`, because the two timer rules agree for this cutter |
| `Solo.Chain.HandleTimer` | orderer/consensus/solo/consensus.go:148-159 | performs exactly the OnTimer transition |
| `Solo.Chain.HandleEvent` | orderer/consensus/solo/consensus.go:98-163 | one iteration of the select loop: it performs exactly Step, and does nothing once halted |
| `Solo.Chain.Loop` | orderer/consensus/solo/consensus.go:94-165 | the loop over a sequence of events performs exactly Run. The accepted record grows by exactly the valid envelopes admitted before the exit signal |

## Left out

- Goroutines and channels are not modelled: `Start`, the unbuffered `sendChan` hand-off and `select`'s random choice. One loop turn is one sequential method call. The exit signal takes priority over a waiting message. So the Go race in which an `Order` racing with `Halt` can still be accepted is not modelled.
- Wall-clock time is not modelled: no `time.After` and no `BatchTimeout()`. The timer is a boolean, and expiry is an explicit event that can only fire while the timer is armed.
- Logging and the `Panicf` paths at consensus.go lines 102, 107 and 146 are not modelled. That the envelope was already classified upstream is a precondition (`Classified`). Go's `Classification` is an `int` and admits other values, which reach the `default` case. The model's `Classification` type has only the two named values, so it excludes that case.
- Protobuf decoding, marshalling and signing are abstract. An undecodable header is an absent header. Signatures are opaque bytes produced by the signer collaborator, and a marshalling failure counts as a signing failure.
- `StandardChannel`, the configuration manager, `NewChannelConfig` and the classifier are function-valued collaborators. Their internals are not part of this model.
- The chain treats ProcessNormalMsg as a fixed function of the envelope. The configuration sequence moving forward after a config block is not modelled. The `configSeq` arguments of `Order`/`Configure` are ignored, as the source ignores them.
- Solo.CutterOrdered: the block cutter's byte-size rules (preferred and absolute maximum sizes) are not modelled, because the cutter's code is not part of this model. The invariant "timer armed exactly while messages are pending" and `ExpiryAlwaysWrites` depend on this minimal cutter. A cutter that kept a message pending after returning a batch would let lines 142-144 clear the timer while a message is still waiting. That case is recorded under "## Findings", and the step functions use the corrected timer rule.
- Blocks carry a number, a kind and their envelopes. Hashes, the previous-block link and metadata (always nil here) are not modelled.
- The `Exiting` error is one distinguished `Error` constructor. Line 79 builds a fresh `fmt.Errorf("Exiting")` on each call, so Go callers can only compare it by its text.
- `New` (lines 44-46) only returns an empty consenter value and is not modelled. `HandleChain` (lines 48-50) only calls `newChain`, and `newChain` is the class constructor. The `metadata` argument is ignored, as the source ignores it.
- Solo.Chain.constructor: the model's ledger holds only the blocks this chain writes, numbered from 0. It leaves out the genesis block and any blocks the support's ledger already held. The same goes for `Solo.InitialStateInv` and `Solo.LedgerIsAdmissionOrder`. `Solo.RunPreservesOrder` holds from any state satisfying the invariant. But the invariant also requires every block to have the shape this loop produces, which blocks written before this chain need not have.
- Solo.Chain.Errored: it returns a snapshot of the exit signal at the time of the call. In Go the caller receives the live `exitChan`, and sees it close later.

Two points about the code that the model keeps as they are:

- The channel-creation path has no error of its own. Each failing step (NewChannelConfig, ProposeConfigUpdate, either signing) returns its own error unchanged, as systemchannel.go lines 71-89 do.
- `Order` accepts any envelope, although its comment at consensus.go line 73 says "normal messages". The message is classified inside the loop (lines 105-109).

## Findings

| source | as written | input that shows it | evidently intended | confidence | as-written member | corrected member |
|---|---|---|---|---|---|---|
| orderer/consensus/solo/consensus.go:134-144 | the timer is cleared whenever `Ordered` returns a batch, even when `ok` reports that messages remain pending | a cutter result `([[a]], [b], ok = true)`: the pending batch is cut because `b` would overflow the preferred size, and `b` starts a new pending batch; the timer ends cleared with `b` pending, so `b` waits for the next arrival however long that takes | the timer runs exactly while messages are pending: stop it when nothing is pending, start it when something is pending and none runs | medium, not executed | `Solo.TimerAsWrittenStrandsMessage` (on `Solo.TimerAsWritten`) | `Solo.TimerCorrectedTracksPending` (on `Solo.TimerCorrected`, used by `Solo.OnNormalMsg`) |

The minimal cutter never keeps a message pending after completing a batch. So for the cutter in this model the two rules agree (`Solo.TimerRulesAgree`), and `Solo.Chain.ProcessNormal` runs the code as written while meeting the corrected specification.
