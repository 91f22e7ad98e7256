/** The solo consensus chain: one sequencing loop per channel that re-validates
    admitted envelopes, drives a block cutter and a batch timer, and writes
    blocks to the ledger.

    The loop body is given first as pure transition functions over ChainState
    (OnMessage, OnTimer, Step, Run) with the lemmas about them, then as the
    class Chain whose methods change its fields step by step and are proved to
    perform exactly those transitions. */
module Solo {
  import opened Wrappers
  import opened Protos
  import opened Msgprocessor

  type Batch = seq<Envelope>

  /** What the chain needs from its channel: the channel's message processor
      and the block cutter's message-count threshold. */
  datatype ChainSupport = ChainSupport(processor: Processor, maxMessageCount: nat)

  /** Blocks written through WriteBlock are normal, those written through
      WriteConfigBlock are config blocks. */
  datatype BlockKind = NormalBlock | ConfigBlock

  datatype Block = Block(number: nat, kind: BlockKind, envelopes: Batch)

  /** The loop's state: the ledger, the cutter's pending batch, whether the
      batch timer is armed, and whether the exit signal has been raised. */
  datatype ChainState = ChainState(blocks: seq<Block>, pending: Batch, timerArmed: bool, halted: bool)

  /** The three things the loop waits for. */
  datatype Event = Arrival(env: Envelope) | Expiry | Exit

  // ---------------------------------------------------------------------
  // Collaborators

  /** The envelope's header decodes and the processor classifies it: true of
      every envelope that reaches the chain, since ingress classified it once. */
  predicate Classified(sup: ChainSupport, env: Envelope)
  {
    env.header.Some? && sup.processor.classifyMsg(env.header.value).Success?
  }

  predicate ClassifiedAs(sup: ChainSupport, env: Envelope, c: Classification)
  {
    env.header.Some? && sup.processor.classifyMsg(env.header.value) == Success(c)
  }

  function ClassOf(sup: ChainSupport, env: Envelope): (c: Classification)
    requires Classified(sup, env)
    ensures ClassifiedAs(sup, env, c)
  {
    sup.processor.classifyMsg(env.header.value).value
  }

  /** ProcessNormalMsg accepts the envelope. */
  predicate IsValid(sup: ChainSupport, env: Envelope)
  {
    NormalAccepted(sup.processor.processNormalMsg(env))
  }

  /** The envelopes a single arrival contributes to the ledger's stream. */
  function Accepted(sup: ChainSupport, env: Envelope): Batch
  {
    if IsValid(sup, env) then [env] else []
  }

  /** CreateNextBlock followed by WriteBlock / WriteConfigBlock. */
  function AppendBlock(ledger: seq<Block>, kind: BlockKind, batch: Batch): (r: seq<Block>)
    ensures |r| == |ledger| + 1 && r[..|ledger|] == ledger
    ensures r[|ledger|] == Block(|ledger|, kind, batch)
  {
    ledger + [Block(|ledger|, kind, batch)]
  }

  /** Writes each batch as one normal block, in order. */
  function WriteBatches(ledger: seq<Block>, batches: seq<Batch>): seq<Block>
    decreases |batches|
  {
    if batches == [] then ledger
    else WriteBatches(AppendBlock(ledger, NormalBlock, batches[0]), batches[1..])
  }

  /** The outcome of the cutter's Ordered: completed batches, the new pending
      batch, and `ok`, which reports that messages remain pending. */
  datatype Ordering = Ordering(batches: seq<Batch>, pending: Batch, ok: bool)

  /** A minimal order-preserving cutter: the message joins the pending batch,
      which is cut as soon as it holds maxMessageCount messages. */
  function CutterOrdered(maxMessageCount: nat, pending: Batch, msg: Envelope): (o: Ordering)
    ensures Flatten(o.batches) + o.pending == pending + [msg]
    ensures o.ok <==> o.pending != []
    ensures forall i :: 0 <= i < |o.batches| ==> o.batches[i] != []
    ensures o.batches == [] ==> o.pending != []
    ensures o.batches != [] ==> o.pending == []
  {
    var p := pending + [msg];
    if |p| >= maxMessageCount then
      assert Flatten([p]) == p + Flatten([]);
      Ordering([p], [], false)
    else Ordering([], p, true)
  }

  // ---------------------------------------------------------------------
  // Sequences of envelopes

  function Flatten(batches: seq<Batch>): Batch
  {
    if batches == [] then [] else batches[0] + Flatten(batches[1..])
  }

  /** All envelopes of a ledger, block after block. */
  function Contents(ledger: seq<Block>): Batch
  {
    if ledger == [] then [] else ledger[0].envelopes + Contents(ledger[1..])
  }

  lemma {:induction false} ContentsAppend(a: seq<Block>, b: seq<Block>)
    ensures Contents(a + b) == Contents(a) + Contents(b)
  {
    if a == [] {
      assert a + b == b;
    } else {
      assert (a + b)[1..] == a[1..] + b;
      ContentsAppend(a[1..], b);
    }
  }

  lemma ContentsAppendBlock(ledger: seq<Block>, kind: BlockKind, batch: Batch)
    ensures Contents(AppendBlock(ledger, kind, batch)) == Contents(ledger) + batch
  {
    ContentsAppend(ledger, [Block(|ledger|, kind, batch)]);
    assert Contents([Block(|ledger|, kind, batch)]) == batch + Contents([]);
  }

  /** Batches handed to WriteBatches become consecutive normal blocks, each
      holding exactly one batch, in the order the cutter returned them. */
  lemma {:induction false} WriteBatchesAppends(ledger: seq<Block>, batches: seq<Batch>)
    ensures |WriteBatches(ledger, batches)| == |ledger| + |batches|
    ensures WriteBatches(ledger, batches)[..|ledger|] == ledger
    ensures forall i :: 0 <= i < |batches| ==>
      WriteBatches(ledger, batches)[|ledger| + i] == Block(|ledger| + i, NormalBlock, batches[i])
    ensures Contents(WriteBatches(ledger, batches)) == Contents(ledger) + Flatten(batches)
    decreases |batches|
  {
    if batches != [] {
      var next := AppendBlock(ledger, NormalBlock, batches[0]);
      WriteBatchesAppends(next, batches[1..]);
      ContentsAppendBlock(ledger, NormalBlock, batches[0]);
      var r := WriteBatches(ledger, batches);
      assert r == WriteBatches(next, batches[1..]);
      assert r[..|ledger|] == r[..|next|][..|ledger|];
      forall i | 0 <= i < |batches|
        ensures r[|ledger| + i] == Block(|ledger| + i, NormalBlock, batches[i])
      {
        if i > 0 {
          assert r[|next| + (i - 1)] == Block(|next| + (i - 1), NormalBlock, batches[1..][i - 1]);
        } else {
          assert r[..|next|][|ledger|] == next[|ledger|];
        }
      }
    }
  }

  // ---------------------------------------------------------------------
  // The loop's transitions

  /** A message arrives on the admission channel. */
  function OnMessage(sup: ChainSupport, s: ChainState, msg: Envelope): (r: ChainState)
    requires Classified(sup, msg)
    ensures r.halted == s.halted
    ensures !IsValid(sup, msg) ==> r == s
  {
    if !IsValid(sup, msg) then s  // discarded, in either branch
    else match ClassOf(sup, msg)
      case ConfigUpdateMsg => OnConfigMsg(s, msg)
      case NormalMsg => OnNormalMsg(sup, s, msg)
  }

  /** A valid config message: the pending batch is cut and, if non-empty,
      written; then the message gets a config block of its own. */
  function OnConfigMsg(s: ChainState, msg: Envelope): (r: ChainState)
    ensures r.pending == [] && !r.timerArmed && r.halted == s.halted
    ensures |r.blocks| == |s.blocks| + (if s.pending == [] then 1 else 2)
    ensures r.blocks[|r.blocks| - 1] == Block(|r.blocks| - 1, ConfigBlock, [msg])
  {
    var batch := s.pending;  // Cut
    var ledger := if batch != [] then AppendBlock(s.blocks, NormalBlock, batch) else s.blocks;
    ChainState(AppendBlock(ledger, ConfigBlock, [msg]), [], false, s.halted)
  }

  /** Whether the batch timer runs after a normal message, by the rule of the
      source as written: it is armed when no batch was completed, something is
      pending and no timer runs; it is cleared whenever a batch was completed,
      even if the cutter still holds messages. */
  function TimerAsWritten(armed: bool, o: Ordering): bool
  {
    if o.ok && |o.batches| == 0 && !armed then true
    else if |o.batches| > 0 then false
    else armed
  }

  /** The intended rule: a running timer is stopped once nothing is pending,
      and one is started when something is pending and none runs. */
  function TimerCorrected(armed: bool, o: Ordering): bool
  {
    if armed && !o.ok then false
    else if !armed && o.ok then true
    else armed
  }

  /** A cutter may complete a batch and still hold the new message (a message
      that would overflow the preferred batch size starts a new batch): the
      rule as written then clears the timer while a message is pending, and
      that message waits for the next arrival however long it takes. */
  lemma TimerAsWrittenStrandsMessage(a: Envelope, b: Envelope, armed: bool)
    ensures var o := Ordering([[a]], [b], true);
      o.pending != [] && !TimerAsWritten(armed, o)
  {
  }

  /** Under the corrected rule the timer runs exactly while messages are
      pending, for every cutter whose `ok` reports pending messages. */
  lemma TimerCorrectedTracksPending(armed: bool, o: Ordering)
    requires o.ok <==> o.pending != []
    ensures TimerCorrected(armed, o) <==> o.pending != []
  {
  }

  /** The two rules agree on every outcome of the minimal cutter, which never
      keeps a message pending once it completes a batch. */
  lemma TimerRulesAgree(maxMessageCount: nat, pending: Batch, msg: Envelope, armed: bool)
    ensures var o := CutterOrdered(maxMessageCount, pending, msg);
      TimerAsWritten(armed, o) == TimerCorrected(armed, o)
  {
  }

  /** A valid normal message goes to the cutter; completed batches are written
      in order, and the timer follows the corrected rule. */
  function OnNormalMsg(sup: ChainSupport, s: ChainState, msg: Envelope): (r: ChainState)
    ensures r.pending == CutterOrdered(sup.maxMessageCount, s.pending, msg).pending
    ensures r.timerArmed <==> r.pending != []
    ensures r.halted == s.halted
  {
    var o := CutterOrdered(sup.maxMessageCount, s.pending, msg);
    ChainState(WriteBatches(s.blocks, o.batches), o.pending, TimerCorrected(s.timerArmed, o), s.halted)
  }

  /** The batch timer fires: it is cleared and whatever is pending is cut. */
  function OnTimer(s: ChainState): (r: ChainState)
    ensures !r.timerArmed && r.pending == [] && r.halted == s.halted
  {
    var batch := s.pending;  // Cut
    if |batch| == 0 then ChainState(s.blocks, [], false, s.halted)
    else ChainState(AppendBlock(s.blocks, NormalBlock, batch), [], false, s.halted)
  }

  /** The exit signal is raised (Halt closing the exit channel). */
  function Halted(s: ChainState): (r: ChainState)
    ensures r.halted
    ensures r.blocks == s.blocks && r.pending == s.pending && r.timerArmed == s.timerArmed
  {
    s.(halted := true)
  }

  /** Every arrival in the event sequence is of an envelope the ingress
      classified. */
  predicate AllClassified(sup: ChainSupport, evs: seq<Event>)
  {
    forall i :: 0 <= i < |evs| ==> evs[i].Arrival? ==> Classified(sup, evs[i].env)
  }

  /** One turn of the loop. Once the exit signal is raised the loop has
      returned, so nothing happens any more; an unarmed timer never fires. */
  function Step(sup: ChainSupport, s: ChainState, ev: Event): (r: ChainState)
    requires ev.Arrival? ==> Classified(sup, ev.env)
    ensures s.halted ==> r == s
    ensures ev.Exit? ==> r.halted
  {
    if s.halted then s
    else match ev
      case Arrival(env) => OnMessage(sup, s, env)
      case Expiry => if s.timerArmed then OnTimer(s) else s
      case Exit => Halted(s)
  }

  /** The loop run over the events evs[i..]. */
  function RunFrom(sup: ChainSupport, s: ChainState, evs: seq<Event>, i: nat): ChainState
    requires AllClassified(sup, evs) && i <= |evs|
    decreases |evs| - i
  {
    if i == |evs| then s
    else RunFrom(sup, Step(sup, s, evs[i]), evs, i + 1)
  }

  /** The loop run over a whole sequence of events. */
  function Run(sup: ChainSupport, s: ChainState, evs: seq<Event>): ChainState
    requires AllClassified(sup, evs)
  {
    RunFrom(sup, s, evs, 0)
  }

  /** The reference definition of what a run admits: the valid envelopes
      among the arrivals of evs[i..] before the exit signal, in arrival order. */
  function AdmittedFrom(sup: ChainSupport, evs: seq<Event>, i: nat): Batch
    requires i <= |evs|
    decreases |evs| - i
  {
    if i == |evs| then []
    else match evs[i]
      case Arrival(env) => Accepted(sup, env) + AdmittedFrom(sup, evs, i + 1)
      case Expiry => AdmittedFrom(sup, evs, i + 1)
      case Exit => []
  }

  function Admitted(sup: ChainSupport, evs: seq<Event>): Batch
  {
    AdmittedFrom(sup, evs, 0)
  }

  /** What a loop that has (or has not) seen the exit signal still admits from evs[i..]. */
  function StillAdmitted(sup: ChainSupport, halted: bool, evs: seq<Event>, i: nat): Batch
    requires i <= |evs|
  {
    if halted then [] else AdmittedFrom(sup, evs, i)
  }

  /** Order: hands the envelope to the loop unless the chain has exited. */
  function OrderResult(sup: ChainSupport, s: ChainState, env: Envelope): (r: (ChainState, Option<Error>))
    requires Classified(sup, env)
    ensures r.1.Some? <==> s.halted
    ensures r.1.Some? ==> r.1.value == Exiting && r.0 == s
  {
    if s.halted then (s, Some(Exiting)) else (OnMessage(sup, s, env), None)
  }

  // ---------------------------------------------------------------------
  // Invariant

  /** Block i is numbered i and non-empty; a config block holds exactly one
      config-class envelope, a normal block only normal-class envelopes. */
  predicate WellFormedBlock(sup: ChainSupport, b: Block, i: nat)
  {
    && b.number == i
    && b.envelopes != []
    && (b.kind == ConfigBlock ==> |b.envelopes| == 1 && ClassifiedAs(sup, b.envelopes[0], ConfigUpdateMsg))
    && (b.kind == NormalBlock ==> forall j :: 0 <= j < |b.envelopes| ==> ClassifiedAs(sup, b.envelopes[j], NormalMsg))
  }

  predicate WellFormedLedger(sup: ChainSupport, ledger: seq<Block>)
  {
    forall i :: 0 <= i < |ledger| ==> WellFormedBlock(sup, ledger[i], i)
  }

  predicate AllNormal(sup: ChainSupport, batch: Batch)
  {
    forall j :: 0 <= j < |batch| ==> ClassifiedAs(sup, batch[j], NormalMsg)
  }

  /** What every turn of the loop preserves: the ledger is well formed, the
      pending batch holds only normal messages, and the timer is armed exactly
      while something is pending, so no pending message waits unbounded. The
      last part relies on the timer following the corrected rule, which for
      the minimal cutter coincides with the source's (TimerRulesAgree). */
  predicate Inv(sup: ChainSupport, s: ChainState)
  {
    && WellFormedLedger(sup, s.blocks)
    && AllNormal(sup, s.pending)
    && (s.timerArmed <==> s.pending != [])
  }

  function InitialState(): ChainState
  {
    ChainState([], [], false, false)
  }

  lemma InitialStateInv(sup: ChainSupport)
    ensures Inv(sup, InitialState())
  {
  }

  lemma AppendBlockKeepsShape(sup: ChainSupport, ledger: seq<Block>, kind: BlockKind, batch: Batch)
    requires WellFormedLedger(sup, ledger)
    requires WellFormedBlock(sup, Block(|ledger|, kind, batch), |ledger|)
    ensures WellFormedLedger(sup, AppendBlock(ledger, kind, batch))
  {
    var r := AppendBlock(ledger, kind, batch);
    forall i | 0 <= i < |r| ensures WellFormedBlock(sup, r[i], i) {
      if i < |ledger| { assert r[i] == r[..|ledger|][i]; }
    }
  }

  lemma WriteBatchesKeepsShape(sup: ChainSupport, ledger: seq<Block>, batches: seq<Batch>)
    requires WellFormedLedger(sup, ledger)
    requires forall i :: 0 <= i < |batches| ==> batches[i] != [] && AllNormal(sup, batches[i])
    ensures WellFormedLedger(sup, WriteBatches(ledger, batches))
  {
    WriteBatchesAppends(ledger, batches);
    var r := WriteBatches(ledger, batches);
    forall i | 0 <= i < |r| ensures WellFormedBlock(sup, r[i], i) {
      if i < |ledger| {
        assert r[i] == r[..|ledger|][i];
      } else {
        assert r[|ledger| + (i - |ledger|)] == Block(i, NormalBlock, batches[i - |ledger|]);
      }
    }
  }

  /** Cutting an all-normal stream into batches and a rest keeps every part all-normal. */
  lemma {:induction false} FlattenAllNormal(sup: ChainSupport, batches: seq<Batch>, rest: Batch, whole: Batch)
    requires Flatten(batches) + rest == whole && AllNormal(sup, whole)
    ensures forall i :: 0 <= i < |batches| ==> AllNormal(sup, batches[i])
    ensures AllNormal(sup, rest)
    decreases |batches|
  {
    if batches == [] {
      assert rest == whole;
    } else {
      var after := Flatten(batches[1..]) + rest;
      assert whole == batches[0] + after;
      forall j | 0 <= j < |after| ensures ClassifiedAs(sup, after[j], NormalMsg) {
        assert after[j] == whole[|batches[0]| + j];
      }
      FlattenAllNormal(sup, batches[1..], rest, after);
      forall i | 0 <= i < |batches| ensures AllNormal(sup, batches[i]) {
        if i == 0 {
          forall j | 0 <= j < |batches[0]| ensures ClassifiedAs(sup, batches[0][j], NormalMsg) {
            assert batches[0][j] == whole[j];
          }
        } else {
          assert batches[i] == batches[1..][i - 1];
        }
      }
    }
  }

  /** A message arrival preserves the invariant and appends exactly the
      accepted envelope to the stream of written-then-pending envelopes. */
  lemma OnMessageKeepsInv(sup: ChainSupport, s: ChainState, msg: Envelope)
    requires Classified(sup, msg) && Inv(sup, s)
    ensures Inv(sup, OnMessage(sup, s, msg))
    ensures OnMessage(sup, s, msg).halted == s.halted
    ensures Contents(OnMessage(sup, s, msg).blocks) + OnMessage(sup, s, msg).pending
         == Contents(s.blocks) + s.pending + Accepted(sup, msg)
  {
    if IsValid(sup, msg) {
      match ClassOf(sup, msg)
      case ConfigUpdateMsg => OnConfigMsgKeepsInv(sup, s, msg);
      case NormalMsg => OnNormalMsgKeepsInv(sup, s, msg);
    }
  }

  lemma OnConfigMsgKeepsInv(sup: ChainSupport, s: ChainState, msg: Envelope)
    requires ClassifiedAs(sup, msg, ConfigUpdateMsg) && Inv(sup, s)
    ensures Inv(sup, OnConfigMsg(s, msg)) && OnConfigMsg(s, msg).halted == s.halted
    ensures Contents(OnConfigMsg(s, msg).blocks) + OnConfigMsg(s, msg).pending
         == Contents(s.blocks) + s.pending + [msg]
  {
    var ledger := if s.pending != [] then AppendBlock(s.blocks, NormalBlock, s.pending) else s.blocks;
    if s.pending != [] {
      AppendBlockKeepsShape(sup, s.blocks, NormalBlock, s.pending);
      ContentsAppendBlock(s.blocks, NormalBlock, s.pending);
    }
    assert Contents(ledger) == Contents(s.blocks) + s.pending;
    AppendBlockKeepsShape(sup, ledger, ConfigBlock, [msg]);
    ContentsAppendBlock(ledger, ConfigBlock, [msg]);
  }

  lemma OnNormalMsgKeepsInv(sup: ChainSupport, s: ChainState, msg: Envelope)
    requires ClassifiedAs(sup, msg, NormalMsg) && Inv(sup, s)
    ensures Inv(sup, OnNormalMsg(sup, s, msg)) && OnNormalMsg(sup, s, msg).halted == s.halted
    ensures Contents(OnNormalMsg(sup, s, msg).blocks) + OnNormalMsg(sup, s, msg).pending
         == Contents(s.blocks) + s.pending + [msg]
  {
    var o := CutterOrdered(sup.maxMessageCount, s.pending, msg);
    assert AllNormal(sup, s.pending + [msg]);
    FlattenAllNormal(sup, o.batches, o.pending, s.pending + [msg]);
    WriteBatchesKeepsShape(sup, s.blocks, o.batches);
    WriteBatchesAppends(s.blocks, o.batches);
  }

  lemma OnTimerKeepsInv(sup: ChainSupport, s: ChainState)
    requires Inv(sup, s)
    ensures Inv(sup, OnTimer(s))
    ensures OnTimer(s).halted == s.halted
    ensures Contents(OnTimer(s).blocks) + OnTimer(s).pending == Contents(s.blocks) + s.pending
  {
    if s.pending != [] {
      AppendBlockKeepsShape(sup, s.blocks, NormalBlock, s.pending);
      ContentsAppendBlock(s.blocks, NormalBlock, s.pending);
    }
  }

  /** Once the exit signal is raised the loop writes nothing, whatever events follow. */
  lemma {:induction false} HaltedRunIsInert(sup: ChainSupport, s: ChainState, evs: seq<Event>, i: nat)
    requires s.halted && AllClassified(sup, evs) && i <= |evs|
    ensures RunFrom(sup, s, evs, i) == s
    decreases |evs| - i
  {
    if i < |evs| {
      HaltedRunIsInert(sup, s, evs, i + 1);
    }
  }

  /** Across any run: the invariant holds throughout, the ledger only grows,
      and the envelopes of all blocks written, followed by what is still
      pending, are exactly the valid envelopes admitted before the exit
      signal, in admission order. */
  lemma {:induction false} RunPreservesOrder(sup: ChainSupport, s: ChainState, evs: seq<Event>, i: nat)
    requires Inv(sup, s) && AllClassified(sup, evs) && i <= |evs|
    ensures Inv(sup, RunFrom(sup, s, evs, i))
    ensures |RunFrom(sup, s, evs, i).blocks| >= |s.blocks|
    ensures RunFrom(sup, s, evs, i).blocks[..|s.blocks|] == s.blocks
    ensures Contents(RunFrom(sup, s, evs, i).blocks) + RunFrom(sup, s, evs, i).pending
         == Contents(s.blocks) + s.pending + StillAdmitted(sup, s.halted, evs, i)
    decreases |evs| - i
  {
    if i == |evs| {
    } else if s.halted {
      HaltedRunIsInert(sup, s, evs, i);
    } else {
      var s' := Step(sup, s, evs[i]);
      StepExtendsLedger(sup, s, evs[i]);
      match evs[i] {
        case Arrival(env) =>
          OnMessageKeepsInv(sup, s, env);
        case Expiry =>
          if s.timerArmed { OnTimerKeepsInv(sup, s); }
        case Exit =>
          HaltedRunIsInert(sup, s', evs, i + 1);
      }
      RunPreservesOrder(sup, s', evs, i + 1);
      var r := RunFrom(sup, s, evs, i);
      assert r == RunFrom(sup, s', evs, i + 1);
      assert r.blocks[..|s.blocks|] == r.blocks[..|s'.blocks|][..|s.blocks|];
    }
  }

  /** From a fresh chain, the ledger followed by the pending batch is exactly
      the admitted stream: each valid envelope admitted before the exit signal
      is written (or pending) once, in admission order, and nothing else is. */
  lemma LedgerIsAdmissionOrder(sup: ChainSupport, evs: seq<Event>)
    requires AllClassified(sup, evs)
    ensures Inv(sup, Run(sup, InitialState(), evs))
    ensures Contents(Run(sup, InitialState(), evs).blocks) + Run(sup, InitialState(), evs).pending
         == Admitted(sup, evs)
  {
    RunPreservesOrder(sup, InitialState(), evs, 0);
  }

  /** A loop turn never rewrites blocks already in the ledger. */
  lemma StepExtendsLedger(sup: ChainSupport, s: ChainState, ev: Event)
    requires ev.Arrival? ==> Classified(sup, ev.env)
    ensures |Step(sup, s, ev).blocks| >= |s.blocks|
    ensures Step(sup, s, ev).blocks[..|s.blocks|] == s.blocks
  {
    var r := Step(sup, s, ev);
    if !s.halted && ev.Arrival? && IsValid(sup, ev.env) {
      match ClassOf(sup, ev.env)
      case ConfigUpdateMsg =>
        var ledger := if s.pending != [] then AppendBlock(s.blocks, NormalBlock, s.pending) else s.blocks;
        assert r.blocks[..|s.blocks|] == r.blocks[..|ledger|][..|s.blocks|];
      case NormalMsg =>
        WriteBatchesAppends(s.blocks, CutterOrdered(sup.maxMessageCount, s.pending, ev.env).batches);
    }
  }

  /** If the admitted envelopes are pairwise distinct, no envelope is written
      to two different blocks. */
  lemma {:induction false} NoEnvelopeInTwoBlocks(ledger: seq<Block>, i: nat, j: nat, e: Envelope)
    requires i < j < |ledger|
    requires forall a, b :: 0 <= a < b < |Contents(ledger)| ==> Contents(ledger)[a] != Contents(ledger)[b]
    requires e in ledger[i].envelopes
    ensures e !in ledger[j].envelopes
    decreases |ledger|
  {
    var c := Contents(ledger);
    var tail := Contents(ledger[1..]);
    var off := |ledger[0].envelopes|;
    assert c == ledger[0].envelopes + tail;
    if i == 0 {
      var a :| 0 <= a < off && ledger[0].envelopes[a] == e;
      forall x | 0 <= x < |ledger[j].envelopes| ensures ledger[j].envelopes[x] != e {
        var k := ContentsIndex(ledger[1..], j - 1, x);
        assert c[off + k] == ledger[j].envelopes[x];
        assert c[a] == e;
      }
    } else {
      forall a, b | 0 <= a < b < |tail| ensures tail[a] != tail[b] {
        assert tail[a] == c[off + a];
        assert tail[b] == c[off + b];
      }
      NoEnvelopeInTwoBlocks(ledger[1..], i - 1, j - 1, e);
    }
  }

  /** Envelope x of block j sits at position k of the ledger's contents. */
  lemma {:induction false} ContentsIndex(ledger: seq<Block>, j: nat, x: nat) returns (k: nat)
    requires j < |ledger| && x < |ledger[j].envelopes|
    ensures k < |Contents(ledger)| && Contents(ledger)[k] == ledger[j].envelopes[x]
    decreases |ledger|
  {
    assert Contents(ledger) == ledger[0].envelopes + Contents(ledger[1..]);
    if j == 0 {
      k := x;
    } else {
      var k' := ContentsIndex(ledger[1..], j - 1, x);
      k := |ledger[0].envelopes| + k';
    }
  }

  /** If the admitted envelopes are pairwise distinct, no envelope lies in two
      blocks of the ledger a fresh chain writes from them. */
  lemma AdmittedOnceInLedger(sup: ChainSupport, evs: seq<Event>, i: nat, j: nat, e: Envelope)
    requires AllClassified(sup, evs)
    requires forall a, b :: 0 <= a < b < |Admitted(sup, evs)| ==> Admitted(sup, evs)[a] != Admitted(sup, evs)[b]
    requires i < j < |Run(sup, InitialState(), evs).blocks|
    requires e in Run(sup, InitialState(), evs).blocks[i].envelopes
    ensures e !in Run(sup, InitialState(), evs).blocks[j].envelopes
  {
    var r := Run(sup, InitialState(), evs);
    LedgerIsAdmissionOrder(sup, evs);
    var c := Contents(r.blocks);
    forall a, b | 0 <= a < b < |c| ensures c[a] != c[b] {
      assert c[a] == (c + r.pending)[a] && c[b] == (c + r.pending)[b];
    }
    NoEnvelopeInTwoBlocks(r.blocks, i, j, e);
  }

  // ---------------------------------------------------------------------
  // One call at a time

  /** A valid config message flushes any non-empty pending batch as a normal
      block, then is written alone in a config block; the timer is cleared. */
  lemma ConfigMessageIsolated(sup: ChainSupport, s: ChainState, msg: Envelope)
    requires ClassifiedAs(sup, msg, ConfigUpdateMsg) && IsValid(sup, msg)
    ensures var r := OnMessage(sup, s, msg);
      && r.pending == [] && !r.timerArmed && r.halted == s.halted
      && (s.pending != [] ==>
            r.blocks == s.blocks + [Block(|s.blocks|, NormalBlock, s.pending),
                                    Block(|s.blocks| + 1, ConfigBlock, [msg])])
      && (s.pending == [] ==> r.blocks == s.blocks + [Block(|s.blocks|, ConfigBlock, [msg])])
  {
  }

  /** A message ProcessNormalMsg rejects is discarded: nothing changes. */
  lemma InvalidMessageDiscarded(sup: ChainSupport, s: ChainState, msg: Envelope)
    requires Classified(sup, msg) && !IsValid(sup, msg)
    ensures OnMessage(sup, s, msg) == s
  {
  }

  /** A valid normal message that completes no batch, with no timer armed,
      arms the timer and writes no block. */
  lemma FirstMessageArmsTimer(sup: ChainSupport, s: ChainState, msg: Envelope)
    requires ClassifiedAs(sup, msg, NormalMsg) && IsValid(sup, msg)
    requires !s.timerArmed && CutterOrdered(sup.maxMessageCount, s.pending, msg).batches == []
    ensures OnMessage(sup, s, msg) == s.(pending := s.pending + [msg], timerArmed := true)
  {
  }

  /** A valid normal message: the batches the cutter completes become one
      normal block each, in order; the timer is cleared exactly when some
      batch was completed and otherwise ends up armed. */
  lemma NormalMessageWritesBatches(sup: ChainSupport, s: ChainState, msg: Envelope)
    requires ClassifiedAs(sup, msg, NormalMsg) && IsValid(sup, msg)
    ensures var o := CutterOrdered(sup.maxMessageCount, s.pending, msg);
      var r := OnMessage(sup, s, msg);
      && |r.blocks| == |s.blocks| + |o.batches|
      && r.blocks[..|s.blocks|] == s.blocks
      && (forall i :: 0 <= i < |o.batches| ==>
            r.blocks[|s.blocks| + i] == Block(|s.blocks| + i, NormalBlock, o.batches[i]))
      && r.pending == o.pending
      && (r.timerArmed <==> o.batches == [])
  {
    WriteBatchesAppends(s.blocks, CutterOrdered(sup.maxMessageCount, s.pending, msg).batches);
  }

  /** On expiry the timer is cleared; an empty cut writes nothing, otherwise
      the cut batch is written as exactly one block. */
  lemma TimerExpiryCuts(s: ChainState)
    ensures !OnTimer(s).timerArmed && OnTimer(s).pending == []
    ensures s.pending == [] ==> OnTimer(s).blocks == s.blocks
    ensures s.pending != [] ==> OnTimer(s).blocks == s.blocks + [Block(|s.blocks|, NormalBlock, s.pending)]
  {
  }

  /** Under the invariant an expiring timer always finds messages pending:
      the warning path of an empty cut is unreachable. */
  lemma ExpiryAlwaysWrites(sup: ChainSupport, s: ChainState)
    requires Inv(sup, s) && s.timerArmed
    ensures |OnTimer(s).blocks| == |s.blocks| + 1
    ensures OnTimer(s).blocks[|s.blocks|].envelopes == s.pending != []
  {
  }

  /** Halting is idempotent. */
  lemma HaltIdempotent(s: ChainState)
    ensures Halted(Halted(s)) == Halted(s) && Halted(s).halted
    ensures Halted(s).blocks == s.blocks && Halted(s).pending == s.pending
  {
  }

  /** Once halted, Order fails and changes nothing. */
  lemma OrderAfterHaltFails(sup: ChainSupport, s: ChainState, env: Envelope)
    requires Classified(sup, env) && s.halted
    ensures OrderResult(sup, s, env) == (s, Some(Exiting))
  {
  }

  /** Three valid normal messages under a threshold of five: no block until the
      timer fires, then one block with all three in admission order. */
  lemma ThreeMessagesThenTimeout(sup: ChainSupport, a: Envelope, b: Envelope, c: Envelope)
    requires sup.maxMessageCount == 5
    requires ClassifiedAs(sup, a, NormalMsg) && IsValid(sup, a)
    requires ClassifiedAs(sup, b, NormalMsg) && IsValid(sup, b)
    requires ClassifiedAs(sup, c, NormalMsg) && IsValid(sup, c)
    ensures Run(sup, InitialState(), [Arrival(a), Arrival(b), Arrival(c)])
         == ChainState([], [a, b, c], true, false)
    ensures Run(sup, InitialState(), [Arrival(a), Arrival(b), Arrival(c), Expiry])
         == ChainState([Block(0, NormalBlock, [a, b, c])], [], false, false)
  {
    var s0 := InitialState();
    var s1 := Step(sup, s0, Arrival(a));
    assert s1 == ChainState([], [a], true, false);
    var s2 := Step(sup, s1, Arrival(b));
    assert s2 == ChainState([], [a, b], true, false);
    var s3 := Step(sup, s2, Arrival(c));
    assert s3 == ChainState([], [a, b, c], true, false);
    var s4 := Step(sup, s3, Expiry);
    assert s4 == ChainState([Block(0, NormalBlock, [a, b, c])], [], false, false);
    var evs3 := [Arrival(a), Arrival(b), Arrival(c)];
    assert RunFrom(sup, s3, evs3, 3) == s3;
    assert RunFrom(sup, s2, evs3, 2) == s3;
    assert RunFrom(sup, s1, evs3, 1) == s3;
    assert RunFrom(sup, s0, evs3, 0) == s3;
    var evs4 := [Arrival(a), Arrival(b), Arrival(c), Expiry];
    assert RunFrom(sup, s4, evs4, 4) == s4;
    assert RunFrom(sup, s3, evs4, 3) == s4;
    assert RunFrom(sup, s2, evs4, 2) == s4;
    assert RunFrom(sup, s1, evs4, 1) == s4;
    assert RunFrom(sup, s0, evs4, 0) == s4;
  }

  // ---------------------------------------------------------------------
  // The chain object

  /** One solo chain. `halted` stands for the closed exit channel and
      `timerArmed` for a non-nil batch timer; `pending` is the block cutter's
      pending batch and `blocks` the ledger. `accepted` records every envelope
      that passed re-validation, in order. */
  class Chain {
    const support: ChainSupport
    var blocks: seq<Block>
    var pending: Batch
    var timerArmed: bool
    var halted: bool
    ghost var accepted: Batch

    function State(): ChainState
      reads this
    {
      ChainState(blocks, pending, timerArmed, halted)
    }

    /** The loop invariant, and every accepted envelope is either in a block
        or pending, in acceptance order. */
    ghost predicate Valid()
      reads this
    {
      Inv(support, State()) && Contents(blocks) + pending == accepted
    }

    constructor (support: ChainSupport)
      ensures Valid() && this.support == support
      ensures State() == InitialState() && accepted == []
    {
      this.support := support;
      blocks, pending, timerArmed, halted := [], [], false, false;
      accepted := [];
    }

    /** Closes the exit signal; a second call finds it closed and does nothing. */
    method Halt()
      requires Valid()
      modifies this`halted
      ensures Valid() && State() == Halted(old(State()))
    {
      if !halted {
        halted := true;
      }
    }

    /** The exit signal, which is raised exactly when the chain has halted. */
    method Errored() returns (closed: bool)
      ensures closed == halted
    {
      closed := halted;
    }

    /** Admits a message, or fails with Exiting once the chain has halted. */
    method Order(env: Envelope) returns (err: Option<Error>)
      requires Valid() && Classified(support, env)
      modifies this
      ensures Valid() && (State(), err) == OrderResult(support, old(State()), env)
      ensures accepted == old(accepted) + (if old(halted) then [] else Accepted(support, env))
    {
      if halted {
        err := Some(Exiting);
      } else {
        HandleMessage(env);
        err := None;
      }
    }

    /** Admits the resulting config envelope through the same path as Order;
        the config update itself is not used. */
    method Configure(configUpdate: Envelope, config: Envelope) returns (err: Option<Error>)
      requires Valid() && Classified(support, config)
      modifies this
      ensures Valid() && (State(), err) == OrderResult(support, old(State()), config)
      ensures accepted == old(accepted) + (if old(halted) then [] else Accepted(support, config))
    {
      err := Order(config);
    }

    // The block cutter and the ledger writer.

    method Cut() returns (batch: Batch)
      modifies this`pending
      ensures batch == old(pending) && pending == []
    {
      batch := pending;
      pending := [];
    }

    method Ordered(msg: Envelope) returns (batches: seq<Batch>, ok: bool)
      modifies this`pending
      ensures Ordering(batches, pending, ok) == CutterOrdered(support.maxMessageCount, old(pending), msg)
    {
      var o := CutterOrdered(support.maxMessageCount, pending, msg);
      batches, pending, ok := o.batches, o.pending, o.ok;
    }

    method WriteBlock(kind: BlockKind, batch: Batch)
      modifies this`blocks
      ensures blocks == AppendBlock(old(blocks), kind, batch)
    {
      blocks := blocks + [Block(|blocks|, kind, batch)];
    }

    /** The loop's message case. */
    method HandleMessage(msg: Envelope)
      requires Valid() && !halted && Classified(support, msg)
      modifies this
      ensures Valid() && State() == OnMessage(support, old(State()), msg)
      ensures accepted == old(accepted) + Accepted(support, msg)
    {
      OnMessageKeepsInv(support, State(), msg);
      var chdr := GetChannelHeader(msg).value;
      var msgClass := support.processor.classifyMsg(chdr).value;
      var r := support.processor.processNormalMsg(msg);
      if r.err.Some? {
        return;  // discard the bad message
      }
      accepted := accepted + [msg];
      match msgClass {
        case ConfigUpdateMsg =>
          ProcessConfig(msg);
        case NormalMsg =>
          ProcessNormal(msg);
      }
    }

    method ProcessConfig(msg: Envelope)
      modifies this`blocks, this`pending, this`timerArmed
      ensures State() == OnConfigMsg(old(State()), msg)
    {
      var batch := Cut();
      if batch != [] {
        WriteBlock(NormalBlock, batch);
      }
      WriteBlock(ConfigBlock, [msg]);
      timerArmed := false;
    }

    method ProcessNormal(msg: Envelope)
      modifies this`blocks, this`pending, this`timerArmed
      ensures State() == OnNormalMsg(support, old(State()), msg)
    {
      TimerRulesAgree(support.maxMessageCount, pending, msg, timerArmed);
      var batches, ok := Ordered(msg);
      if ok && |batches| == 0 && !timerArmed {
        timerArmed := true;
        return;
      }
      var i := 0;
      while i < |batches|
        invariant 0 <= i <= |batches|
        invariant WriteBatches(blocks, batches[i..]) == WriteBatches(old(blocks), batches)
        invariant pending == CutterOrdered(support.maxMessageCount, old(pending), msg).pending
        invariant timerArmed == old(timerArmed) && halted == old(halted)
      {
        assert batches[i..][1..] == batches[i + 1..];
        WriteBlock(NormalBlock, batches[i]);
        i := i + 1;
      }
      if |batches| > 0 {
        timerArmed := false;
      }
    }

    /** The loop's timer case: it fires only while the timer is armed. */
    method HandleTimer()
      requires Valid() && !halted && timerArmed
      modifies this
      ensures Valid() && State() == OnTimer(old(State())) && accepted == old(accepted)
    {
      OnTimerKeepsInv(support, State());
      timerArmed := false;
      var batch := Cut();
      if |batch| == 0 {
        return;  // warned about: the timer expired with nothing pending
      }
      WriteBlock(NormalBlock, batch);
    }

    /** One turn of the loop. */
    method HandleEvent(ev: Event)
      requires Valid() && (ev.Arrival? ==> Classified(support, ev.env))
      modifies this
      ensures Valid() && State() == Step(support, old(State()), ev)
      ensures accepted == old(accepted) + (if !old(halted) && ev.Arrival? then Accepted(support, ev.env) else [])
    {
      if halted {
        return;  // the loop has returned
      }
      match ev {
        case Arrival(env) =>
          HandleMessage(env);
        case Expiry =>
          if timerArmed {
            HandleTimer();
          }
        case Exit =>
          Halt();
      }
    }

    /** The loop itself, over a sequence of events; it returns on the exit signal. */
    method Loop(evs: seq<Event>)
      requires Valid() && AllClassified(support, evs)
      modifies this
      ensures Valid() && State() == Run(support, old(State()), evs)
      ensures accepted == old(accepted) + StillAdmitted(support, old(halted), evs, 0)
    {
      var i := 0;
      while i < |evs| && !halted
        invariant 0 <= i <= |evs|
        invariant Valid()
        invariant RunFrom(support, State(), evs, i) == RunFrom(support, old(State()), evs, 0)
        decreases |evs| - i
      {
        HandleEvent(evs[i]);
        i := i + 1;
      }
      if halted {
        HaltedRunIsInert(support, State(), evs, i);
      }
      RunPreservesOrder(support, old(State()), evs, 0);
    }
  }
}
