/** Shared definitions of the message processors: the two message classes, the
    version and epoch stamped on envelopes the processors create, the
    channel-does-not-exist sentinel, and the Processor contract. */
module Msgprocessor {
  import opened Wrappers
  import opened Protos

  /** Version stamped on every envelope a processor creates. */
  const MsgVersion: int32 := 0
  /** Epoch stamped on every envelope a processor creates. */
  const Epoch: uint64 := 0

  /** Returned by the system channel for messages addressed to no extant channel. */
  const ErrChannelDoesNotExist: Error := ChannelDoesNotExist

  /** The text the sentinel error carries. */
  function ErrorText(e: Error): string
  {
    match e
    case ChannelDoesNotExist => "channel does not exist"
    case Exiting => "Exiting"
    case BadHeader => "bad header"
    case Failed(reason) => reason
  }

  /** The sentinel is identified by identity, not by its text: an error that
      merely carries the same text is a different error. */
  lemma SentinelIsIdentity(e: Error)
    requires ErrorText(e) == ErrorText(ErrChannelDoesNotExist)
    ensures e == ErrChannelDoesNotExist || e == Failed(ErrorText(ErrChannelDoesNotExist))
    ensures Failed(ErrorText(ErrChannelDoesNotExist)) != ErrChannelDoesNotExist
  {
  }

  /** The class of a message, deciding which processing it receives. */
  datatype Classification = NormalMsg | ConfigUpdateMsg

  /** The integer a Classification stands for (an iota enumeration). */
  function ClassificationValue(c: Classification): (n: int)
    ensures 0 <= n <= 1
    ensures n == 0 <==> c == NormalMsg
  {
    match c
    case NormalMsg => 0
    case ConfigUpdateMsg => 1
  }

  /** The Classification an integer stands for, if any. */
  function ClassificationOf(n: int): (r: Option<Classification>)
    ensures r.Some? <==> n == 0 || n == 1
    ensures r.Some? ==> ClassificationValue(r.value) == n
  {
    if n == 0 then Some(NormalMsg) else if n == 1 then Some(ConfigUpdateMsg) else None
  }

  /** Exactly two distinct classes exist and the encoding round-trips. */
  lemma ClassificationRoundTrip(c: Classification)
    ensures ClassificationOf(ClassificationValue(c)) == Some(c)
    ensures ClassificationValue(NormalMsg) != ClassificationValue(ConfigUpdateMsg)
  {
  }

  /** What ProcessNormalMsg returns: (configSeq, err). */
  datatype NormalResult = NormalResult(configSeq: uint64, err: Option<Error>)

  /** What ProcessConfigUpdateMsg returns: (config, configSeq, err). */
  datatype ConfigResult = ConfigResult(config: Option<Envelope>, configSeq: uint64, err: Option<Error>)

  /** The three operations every message processor offers. */
  datatype Processor = Processor(
    classifyMsg: ChannelHeader -> Result<Classification, Error>,
    processNormalMsg: Envelope -> NormalResult,
    processConfigUpdateMsg: Envelope -> ConfigResult)

  /** A normal-message verdict: a configSeq and no error, or an error. */
  predicate NormalAccepted(r: NormalResult)
  {
    r.err.None?
  }

  /** A config-update verdict: either a resulting config envelope (with the
      configSeq it was computed from) and no error, or an error and no config. */
  predicate ConfigResultWellFormed(r: ConfigResult)
  {
    r.err.None? <==> r.config.Some?
  }

  /** The Processor contract on config updates, for every envelope. */
  ghost predicate FulfilsContract(p: Processor)
  {
    forall env :: ConfigResultWellFormed(p.processConfigUpdateMsg(env))
  }
}
