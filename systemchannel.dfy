/** The system channel's message processor: it delegates to a standard channel
    processor for messages addressed to the system channel itself, rejects
    normal messages for any other channel, and turns a config update for any
    other channel into a channel-creation transaction. */
module SystemChannel {
  import opened Wrappers
  import opened Protos
  import opened Msgprocessor

  /** The channel resources the processors read: ChainID(), Sequence(), Signer(). */
  datatype StandardChannelSupport = StandardChannelSupport(chainId: string, sequence: uint64, signer: Signer)

  /** The standard channel processor; its validation logic is a collaborator. */
  datatype StandardChannel = StandardChannel(support: StandardChannelSupport, processor: Processor)

  /** A configuration manager of a channel: applies a config update and yields
      the marshalled CONFIG payload (a ConfigEnvelope), or fails. */
  datatype ConfigManager = ConfigManager(proposeConfigUpdate: Envelope -> Result<Bytes, Error>)

  /** Builds a template configuration manager for a channel-creation request. */
  datatype SystemChannelSupport = SystemChannelSupport(newChannelConfig: Envelope -> Result<ConfigManager, Error>)

  datatype SystemChannel = SystemChannel(standard: StandardChannel, systemChannelSupport: SystemChannelSupport)

  function NewSystemChannel(support: StandardChannelSupport, processor: Processor,
                            systemChannelSupport: SystemChannelSupport): (s: SystemChannel)
    ensures s.standard.support == support && s.standard.processor == processor
    ensures s.systemChannelSupport == systemChannelSupport
  {
    SystemChannel(StandardChannel(support, processor), systemChannelSupport)
  }

  function SystemChainID(s: SystemChannel): string
  {
    s.standard.support.chainId
  }

  /** Normal messages: only those addressed to the system channel reach the
      standard processor; everything else is (0, ErrChannelDoesNotExist). */
  function ProcessNormalMsg(s: SystemChannel, msg: Envelope): (r: NormalResult)
    ensures ChannelID(msg).Failure? ==> r == NormalResult(0, Some(ChannelID(msg).error))
    ensures ChannelID(msg).Success? && ChannelID(msg).value != SystemChainID(s) ==>
      r == NormalResult(0, Some(ErrChannelDoesNotExist))
    ensures ChannelID(msg) == Success(SystemChainID(s)) ==>
      r == s.standard.processor.processNormalMsg(msg)
  {
    match ChannelID(msg)
    case Failure(e) => NormalResult(0, Some(e))
    case Success(channelId) =>
      if channelId != SystemChainID(s) then NormalResult(0, Some(ErrChannelDoesNotExist))
      else s.standard.processor.processNormalMsg(msg)
  }

  /** Steps 1 and 2 of channel creation: a fresh configuration manager for the
      new channel, and the update applied against it. */
  function ProposeNewChannel(s: SystemChannel, env: Envelope): (r: Result<Bytes, Error>)
    ensures s.systemChannelSupport.newChannelConfig(env).Failure? ==>
      r == Failure(s.systemChannelSupport.newChannelConfig(env).error)
    ensures s.systemChannelSupport.newChannelConfig(env).Success? ==>
      r == s.systemChannelSupport.newChannelConfig(env).value.proposeConfigUpdate(env)
  {
    match s.systemChannelSupport.newChannelConfig(env)
    case Failure(e) => Failure(e)
    case Success(ctxm) => ctxm.proposeConfigUpdate(env)
  }

  /** The genesis CONFIG envelope of the new channel `channelId`. */
  function GenesisEnvelope(s: SystemChannel, channelId: string, configEnv: Bytes): (r: Result<Envelope, Error>)
    ensures r.Success? <==>
      s.standard.support.signer.sign(ChannelHeader(Config, channelId, MsgVersion, Epoch), Data(configEnv)).Success?
    ensures r.Success? ==>
      r.value.header == Some(ChannelHeader(Config, channelId, MsgVersion, Epoch)) && r.value.payload == Data(configEnv)
    ensures r.Failure? ==>
      r.error == s.standard.support.signer.sign(ChannelHeader(Config, channelId, MsgVersion, Epoch), Data(configEnv)).error
  {
    CreateSignedEnvelope(Config, channelId, s.standard.support.signer, Data(configEnv), MsgVersion, Epoch)
  }

  /** Step 5 of channel creation: the genesis envelope wrapped in an
      ORDERER_TRANSACTION addressed to the system channel. */
  function WrapOrdererTransaction(s: SystemChannel, inner: Envelope): (r: Result<Envelope, Error>)
    ensures r.Success? <==>
      s.standard.support.signer.sign(ChannelHeader(OrdererTransaction, SystemChainID(s), MsgVersion, Epoch), Nested(inner)).Success?
    ensures r.Success? ==>
      r.value.header == Some(ChannelHeader(OrdererTransaction, SystemChainID(s), MsgVersion, Epoch))
      && r.value.payload == Nested(inner)
    ensures r.Failure? ==>
      r.error == s.standard.support.signer.sign(ChannelHeader(OrdererTransaction, SystemChainID(s), MsgVersion, Epoch), Nested(inner)).error
  {
    CreateSignedEnvelope(OrdererTransaction, SystemChainID(s), s.standard.support.signer, Nested(inner), MsgVersion, Epoch)
  }

  /** What a consumer of the system channel's ledger reads back from a
      channel-creation transaction: the new channel's ID and its genesis config,
      provided the envelope has the two-level shape the processor builds. */
  function ChannelCreationOf(env: Envelope, systemChainId: string): Option<(string, Bytes)>
  {
    if env.header.Some? && env.header.value.typ == OrdererTransaction
       && env.header.value.channelId == systemChainId && env.payload.Nested?
       && env.payload.inner.header.Some? && env.payload.inner.header.value.typ == Config
       && env.payload.inner.payload.Data?
    then Some((env.payload.inner.header.value.channelId, env.payload.inner.payload.bytes))
    else None
  }

  /** Steps 1 to 5 of channel creation for target channel `channelId`. */
  function CreateChannelTx(s: SystemChannel, env: Envelope, channelId: string): (r: ConfigResult)
    requires channelId != SystemChainID(s)
    // no partial result: a failing step yields (nil, 0, err)
    ensures r.err.Some? ==> r.config.None? && r.configSeq == 0
    ensures ProposeNewChannel(s, env).Failure? ==>
      r == ConfigResult(None, 0, Some(ProposeNewChannel(s, env).error))
    ensures ProposeNewChannel(s, env).Success? &&
            GenesisEnvelope(s, channelId, ProposeNewChannel(s, env).value).Failure? ==>
      r == ConfigResult(None, 0, Some(GenesisEnvelope(s, channelId, ProposeNewChannel(s, env).value).error))
    ensures var p := ProposeNewChannel(s, env);
      p.Success? && GenesisEnvelope(s, channelId, p.value).Success? &&
      WrapOrdererTransaction(s, GenesisEnvelope(s, channelId, p.value).value).Failure? ==>
      r == ConfigResult(None, 0, Some(WrapOrdererTransaction(s, GenesisEnvelope(s, channelId, p.value).value).error))
    // creation succeeds exactly when every step does
    ensures var p := ProposeNewChannel(s, env);
      r.err.None? <==>
        && p.Success?
        && GenesisEnvelope(s, channelId, p.value).Success?
        && WrapOrdererTransaction(s, GenesisEnvelope(s, channelId, p.value).value).Success?
    // success: an ORDERER_TRANSACTION on the system channel wrapping a CONFIG
    // envelope for the new channel whose payload is the proposed config
    ensures r.err.None? ==>
      && ProposeNewChannel(s, env).Success?
      && r.config.Some?
      && r.configSeq == s.standard.support.sequence
      && r.config.value.header == Some(ChannelHeader(OrdererTransaction, SystemChainID(s), MsgVersion, Epoch))
      && r.config.value.payload.Nested?
      && r.config.value.payload.inner.header == Some(ChannelHeader(Config, channelId, MsgVersion, Epoch))
      && r.config.value.payload.inner.payload == Data(ProposeNewChannel(s, env).value)
      && GenesisEnvelope(s, channelId, ProposeNewChannel(s, env).value).Success?
      && r.config.value.payload.inner == GenesisEnvelope(s, channelId, ProposeNewChannel(s, env).value).value
      && ChannelCreationOf(r.config.value, SystemChainID(s)) == Some((channelId, ProposeNewChannel(s, env).value))
  {
    match ProposeNewChannel(s, env)
    case Failure(e) => ConfigResult(None, 0, Some(e))
    case Success(newChannelConfigEnv) =>
      match GenesisEnvelope(s, channelId, newChannelConfigEnv)
      case Failure(e) => ConfigResult(None, 0, Some(e))
      case Success(newChannelEnvConfig) =>
        match WrapOrdererTransaction(s, newChannelEnvConfig)
        case Failure(e) => ConfigResult(None, 0, Some(e))
        case Success(wrappedOrdererTransaction) =>
          ConfigResult(Some(wrappedOrdererTransaction), s.standard.support.sequence, None)
  }

  /** Config updates: the system channel's own updates go to the standard
      processor unchanged; updates for any other channel create that channel. */
  function ProcessConfigUpdateMsg(s: SystemChannel, env: Envelope): (r: ConfigResult)
    ensures ChannelID(env).Failure? ==> r == ConfigResult(None, 0, Some(ChannelID(env).error))
    ensures ChannelID(env) == Success(SystemChainID(s)) ==>
      r == s.standard.processor.processConfigUpdateMsg(env)
    ensures ChannelID(env).Success? && ChannelID(env).value != SystemChainID(s) ==>
      r == CreateChannelTx(s, env, ChannelID(env).value)
  {
    match ChannelID(env)
    case Failure(e) => ConfigResult(None, 0, Some(e))
    case Success(channelId) =>
      if channelId == SystemChainID(s) then s.standard.processor.processConfigUpdateMsg(env)
      else CreateChannelTx(s, env, channelId)
  }

  /** The system channel seen as a Processor: classification is inherited from
      the embedded standard channel, the two processing methods are overridden. */
  function AsProcessor(s: SystemChannel): (p: Processor)
    ensures p.classifyMsg == s.standard.processor.classifyMsg
  {
    Processor(
      s.standard.processor.classifyMsg,
      env => ProcessNormalMsg(s, env),
      env => ProcessConfigUpdateMsg(s, env))
  }

  /** The system channel keeps the Processor contract whenever its standard
      delegate does: every path either yields a config or an error, never both. */
  lemma SystemChannelFulfilsContract(s: SystemChannel)
    requires FulfilsContract(s.standard.processor)
    ensures FulfilsContract(AsProcessor(s))
  {
    forall env ensures ConfigResultWellFormed(AsProcessor(s).processConfigUpdateMsg(env)) {
      assert AsProcessor(s).processConfigUpdateMsg(env) == ProcessConfigUpdateMsg(s, env);
      assert ConfigResultWellFormed(s.standard.processor.processConfigUpdateMsg(env));
    }
  }

  /** A normal message the system channel accepts is addressed to the system
      channel and accepted by the standard processor too. */
  lemma AcceptedNormalIsForSystemChannel(s: SystemChannel, msg: Envelope)
    requires NormalAccepted(ProcessNormalMsg(s, msg))
    ensures ChannelID(msg) == Success(SystemChainID(s))
    ensures NormalAccepted(s.standard.processor.processNormalMsg(msg))
  {
  }
}
