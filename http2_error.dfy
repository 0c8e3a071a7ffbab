/**
  The HTTP/2 error codes of section 7 of RFC 7540, as the transport library's
  `Http2Error` enumeration names them. Each constant carries its 32-bit wire code.
 */
module Http2Errors {

  datatype Http2Error =
    | NoError
    | ProtocolError
    | InternalError
    | FlowControlError
    | SettingsTimeout
    | StreamClosed
    | FrameSizeError
    | RefusedStream
    | Cancel
    | CompressionError
    | ConnectError
    | EnhanceYourCalm
    | InadequateSecurity
    | Http11Required
  {
    /** The wire value of the error code (section 7 of RFC 7540). */
    function Code(): (c: nat)
      ensures c <= 0xd
      ensures c == 0x7 <==> this == RefusedStream
    {
      match this
      case NoError => 0x0
      case ProtocolError => 0x1
      case InternalError => 0x2
      case FlowControlError => 0x3
      case SettingsTimeout => 0x4
      case StreamClosed => 0x5
      case FrameSizeError => 0x6
      case RefusedStream => 0x7
      case Cancel => 0x8
      case CompressionError => 0x9
      case ConnectError => 0xa
      case EnhanceYourCalm => 0xb
      case InadequateSecurity => 0xc
      case Http11Required => 0xd
    }
  }

  /** The code REFUSED_STREAM, which a reset frame's numeric code is compared against. */
  const RefusedStreamCode: nat := RefusedStream.Code()

  /** Distinct error names have distinct codes, so comparing names and comparing codes agree. */
  lemma CodeInjective(a: Http2Error, b: Http2Error)
    ensures a.Code() == b.Code() <==> a == b
  {
  }

  /** Only REFUSED_STREAM has the code 0x7. */
  lemma RefusedStreamCodeIsSeven(e: Http2Error)
    ensures e.Code() == RefusedStreamCode <==> e == RefusedStream
    ensures RefusedStreamCode == 0x7
  {
  }
}
