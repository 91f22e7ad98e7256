/** The wire-level shapes the ordering core manipulates: envelopes, their channel
    headers, and the two helpers of the protobuf utilities that the core calls
    (channel-ID extraction and envelope creation). Decoding and signing are
    abstracted: a header that does not decode is an absent header, and a
    signature is whatever the signer returns. */
module Protos {
  import opened Wrappers

  newtype int32 = x: int | -0x8000_0000 <= x < 0x8000_0000
  newtype uint64 = x: int | 0 <= x < 0x1_0000_0000_0000_0000

  type Bytes = seq<bv8>

  /** Go's error values. Sentinel errors are constructors of their own, so two
      errors with the same text can still be told apart. */
  datatype Error =
    | ChannelDoesNotExist
    | Exiting
    | BadHeader
    | Failed(reason: string)

  /** The message type codes of the channel header that this core refers to. */
  datatype HeaderType =
    | Message
    | Config
    | ConfigUpdate
    | EndorserTransaction
    | OrdererTransaction
    | Unrecognized(code: int32)

  datatype ChannelHeader = ChannelHeader(typ: HeaderType, channelId: string, version: int32, epoch: uint64)

  /** A payload is either opaque marshalled data or a whole nested envelope. */
  datatype Payload = Data(bytes: Bytes) | Nested(inner: Envelope)

  /** `header` is None when the envelope's payload header cannot be decoded. */
  datatype Envelope = Envelope(header: Option<ChannelHeader>, payload: Payload, signature: Bytes)

  /** The local signing identity: signs a header and payload, or fails. */
  datatype Signer = Signer(sign: (ChannelHeader, Payload) -> Result<Bytes, Error>)

  /** Extraction of the channel header from an envelope. */
  function GetChannelHeader(env: Envelope): (r: Result<ChannelHeader, Error>)
    ensures r.Success? <==> env.header.Some?
    ensures r.Success? ==> Some(r.value) == env.header
    ensures r.Failure? ==> r.error == BadHeader
  {
    match env.header
    case None => Failure(BadHeader)
    case Some(h) => Success(h)
  }

  /** Extraction of the channel ID an envelope is addressed to. */
  function ChannelID(env: Envelope): (r: Result<string, Error>)
    ensures r.Success? <==> env.header.Some?
    ensures r.Success? ==> r.value == env.header.value.channelId
    ensures r.Failure? ==> r.error == BadHeader
  {
    match GetChannelHeader(env)
    case Failure(e) => Failure(e)
    case Success(h) => Success(h.channelId)
  }

  /** Builds an envelope of type `typ` addressed to `channelId` around `data`,
      stamped with `version` and `epoch` and signed by `signer`; fails exactly
      when signing fails, and then returns no envelope at all. */
  function CreateSignedEnvelope(typ: HeaderType, channelId: string, signer: Signer, data: Payload,
                                version: int32, epoch: uint64): (r: Result<Envelope, Error>)
    ensures r.Success? <==> signer.sign(ChannelHeader(typ, channelId, version, epoch), data).Success?
    ensures r.Success? ==>
      && r.value.header == Some(ChannelHeader(typ, channelId, version, epoch))
      && r.value.payload == data
    ensures r.Failure? ==> r.error == signer.sign(ChannelHeader(typ, channelId, version, epoch), data).error
  {
    var hdr := ChannelHeader(typ, channelId, version, epoch);
    match signer.sign(hdr, data)
    case Failure(e) => Failure(e)
    case Success(sig) => Success(Envelope(Some(hdr), data, sig))
  }
}
