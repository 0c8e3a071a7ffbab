/**
  Classification of HTTP/2 failures reported by the transport library into
  ServiceTalk's own exception types. A wrapped failure either carries the
  RetryableException marker (safe to retry on a different HTTP/2 parent
  connection) or does not.
 */
module Http2Exception {
  import opened Options
  import opened Http2Errors
  import opened JavaDecimal

  /** Java `int` and `long`. */
  type Int32 = x: int | -0x8000_0000 <= x < 0x8000_0000
  type Int64 = x: int | -0x8000_0000_0000_0000 <= x < 0x8000_0000_0000_0000

  /**
    The transport library's protocol-level HTTP/2 exception. `noMoreStreamIds`
    says whether it is the Http2NoMoreStreamIdsException subtype, raised when
    the connection has used up its stream identifiers (section 5.1.1 of RFC 7540).
    `retryableMarker` says whether its class also implements RetryableException
    (the class is public and not final, so a subclass may do so).
   */
  datatype NettyHttp2Exception =
    NettyHttp2Exception(error: Http2Error, noMoreStreamIds: bool, retryableMarker: bool, detail: string)

  /**
    The transport library's exception about one child stream of a connection;
    `retryableMarker` as for NettyHttp2Exception.
   */
  datatype NettyFrameStreamException =
    NettyFrameStreamException(streamId: Int32, error: Http2Error, retryableMarker: bool, detail: string)

  /** The two kinds of cause StacklessHttp2Exception has a constructor for. */
  datatype StacklessCause =
    | ProtocolCause(h2: NettyHttp2Exception)
    | FrameStreamCause(fs: NettyFrameStreamException)

  /** The failures this classifier may be given or may return. */
  datatype Throwable =
      /** io.netty.handler.codec.http2.Http2Exception, or one of its subtypes */
    | Netty(h2: NettyHttp2Exception)
      /** io.netty.handler.codec.http2.Http2FrameStreamException */
    | NettyFrameStream(fs: NettyFrameStreamException)
      /** ServiceTalk's Http2Exception built from a message */
    | PlainHttp2Exception(message: string)
      /** ServiceTalk's Http2Exception built from a cause */
    | CausedHttp2Exception(wrapped: Throwable)
      /** StacklessHttp2Exception: a wrapper without the retryable marker */
    | Stackless(stacklessCause: StacklessCause)
      /** RetryableStacklessHttp2Exception: a wrapper with the retryable marker */
    | RetryableStackless(retryableCause: NettyHttp2Exception)
      /** H2StreamRefusedException, a retryable subtype of H2StreamResetException */
    | StreamRefused(message: string)
      /** H2StreamResetException */
    | StreamReset(message: string)
      /** any other throwable; `retryable` says whether it implements RetryableException */
    | Foreign(className: string, retryable: bool, message: string)

  /**
    `t instanceof RetryableException`. Of ServiceTalk's own classes only the
    retryable stackless wrapper and the stream-refused exception implement it.
   */
  predicate Retryable(t: Throwable)
    ensures t.PlainHttp2Exception? || t.CausedHttp2Exception? || t.Stackless? || t.StreamReset? ==> !Retryable(t)
  {
    match t
    case Netty(e) => e.retryableMarker
    case NettyFrameStream(f) => f.retryableMarker
    case Foreign(_, marker, _) => marker
    case _ => t.RetryableStackless? || t.StreamRefused?
  }

  /**
    `t instanceof` ServiceTalk's Http2Exception (and so an IOException). None of
    the transport library's exceptions is one.
   */
  predicate IsServiceTalkHttp2Exception(t: Throwable)
    ensures IsServiceTalkHttp2Exception(t) ==> !t.Netty? && !t.NettyFrameStream? && !t.Foreign?
  {
    t.PlainHttp2Exception? || t.CausedHttp2Exception? || t.Stackless? || t.RetryableStackless?
      || t.StreamRefused? || t.StreamReset?
  }

  /** `t instanceof H2StreamResetException`, a subclass of ServiceTalk's Http2Exception. */
  predicate IsStreamResetException(t: Throwable)
    ensures IsStreamResetException(t) ==> IsServiceTalkHttp2Exception(t)
  {
    t.StreamRefused? || t.StreamReset?
  }

  /**
    The class hierarchy: the refused exception is a retryable reset exception,
    the plain reset exception is not retryable, and the ServiceTalk exceptions
    that are retryable are exactly the retryable wrapper and the refused exception.
   */
  lemma ClassHierarchy(t: Throwable)
    ensures t.StreamRefused? ==> IsStreamResetException(t) && Retryable(t)
    ensures t.StreamReset? ==> IsStreamResetException(t) && !Retryable(t)
    ensures IsServiceTalkHttp2Exception(t) ==> (Retryable(t) <==> t.RetryableStackless? || t.StreamRefused?)
  {
  }

  /**
    The cause a ServiceTalk Http2Exception carries: the wrapped failure for the
    exceptions built from a cause, none for those built from a message.
   */
  function Cause(t: Throwable): (c: Option<Throwable>)
    requires IsServiceTalkHttp2Exception(t)
    ensures c.Some? <==> t.CausedHttp2Exception? || t.Stackless? || t.RetryableStackless?
  {
    match t
    case CausedHttp2Exception(w) => Some(w)
    case Stackless(ProtocolCause(e)) => Some(Netty(e))
    case Stackless(FrameStreamCause(f)) => Some(NettyFrameStream(f))
    case RetryableStackless(e) => Some(Netty(e))
    case _ => None
  }

  /**
    Whether a protocol-level HTTP/2 exception may be retried on a different
    parent connection: its error is REFUSED_STREAM, or the connection ran out
    of stream identifiers.
   */
  function IsRetryable(e: NettyHttp2Exception): (r: bool)
    ensures r <==> e.error.Code() == 0x7 || e.noMoreStreamIds
  {
    RefusedStreamCodeIsSeven(e.error);
    e.error == RefusedStream || e.noMoreStreamIds
  }

  /** A raw HTTP/2 failure of the transport library, which `WrapIfNecessary` wraps. */
  predicate IsRawHttp2Failure(t: Throwable) {
    t.Netty? || t.NettyFrameStream?
  }

  /**
    Wraps a raw HTTP/2 failure into a ServiceTalk Http2Exception that keeps it
    as its cause and is retryable exactly when `IsRetryable` says so; any other
    throwable is returned as it is.
   */
  function WrapIfNecessary(t: Throwable): (r: Throwable)
    ensures IsRawHttp2Failure(t) ==> IsServiceTalkHttp2Exception(r) && Cause(r) == Some(t)
    ensures t.Netty? ==> (Retryable(r) <==> t.h2.error == RefusedStream || t.h2.noMoreStreamIds)
    ensures t.NettyFrameStream? ==> !Retryable(r)
    ensures !IsRawHttp2Failure(t) ==> r == t
  {
    match t
    case Netty(e) => if IsRetryable(e) then RetryableStackless(e) else Stackless(ProtocolCause(e))
    case NettyFrameStream(f) => Stackless(FrameStreamCause(f))
    case _ => t
  }

  /** The stream a frame belongs to; only its identifier matters here. */
  datatype Http2FrameStream = Http2FrameStream(id: Int32)

  /** A received RST_STREAM frame (section 6.4 of RFC 7540). */
  datatype Http2ResetFrame = Http2ResetFrame(stream: Option<Http2FrameStream>, errorCode: Int64)

  const ResetPrefix: string := "RST_STREAM received for streamId="
  const RefusedSuffix: string := ", stream refused"
  const ErrorCodeInfix: string := " with error code: "

  /** What a stream-reset message reports. */
  datatype ResetReport = Refused(streamId: int) | Reset(streamId: int, errorCode: int)

  /**
    Reads back a stream-reset message: the stream id and, unless the stream was
    refused, the error code.
   */
  function ParseResetMessage(m: string): (r: Option<ResetReport>)
    ensures r.Some? ==> |ResetPrefix| < |m| && m[..|ResetPrefix|] == ResetPrefix
  {
    if |m| <= |ResetPrefix| || m[..|ResetPrefix|] != ResetPrefix then None
    else
      match ParseDecimal(m[|ResetPrefix|..])
      case None => None
      case Some((id, rest)) =>
        if rest == RefusedSuffix then Some(Refused(id))
        else if |rest| < |ErrorCodeInfix| || rest[..|ErrorCodeInfix|] != ErrorCodeInfix then None
        else
          match ParseDecimal(rest[|ErrorCodeInfix|..])
          case None => None
          case Some((code, tail)) => if tail == [] then Some(Reset(id, code)) else None
  }

  /** The report a reset frame should produce. */
  function ReportOf(frame: Http2ResetFrame): ResetReport
    requires frame.stream.Some?
  {
    if frame.errorCode == RefusedStreamCode then Refused(frame.stream.value.id)
    else Reset(frame.stream.value.id, frame.errorCode)
  }

  /**
    Turns a received RST_STREAM frame into a stream-reset exception. REFUSED_STREAM
    means the peer did not process the stream (section 8.1.4 of RFC 7540), so that
    exception is the retryable refused kind; any other code gives a plain reset.
   */
  function NewStreamResetException(frame: Http2ResetFrame): (r: Throwable)
    requires frame.stream.Some?
    ensures IsStreamResetException(r) && IsServiceTalkHttp2Exception(r)
    ensures r.StreamRefused? <==> frame.errorCode == RefusedStreamCode
    ensures Retryable(r) <==> frame.errorCode == 0x7
    ensures frame.errorCode == RefusedStreamCode ==>
      r.message == "RST_STREAM received for streamId=" + Decimal(frame.stream.value.id) + ", stream refused"
    ensures frame.errorCode != RefusedStreamCode ==>
      r.message == "RST_STREAM received for streamId=" + Decimal(frame.stream.value.id)
        + " with error code: " + Decimal(frame.errorCode)
    ensures ParseResetMessage(r.message) == Some(ReportOf(frame))
  {
    var id := frame.stream.value.id;
    ResetMessageRoundTrip(frame);
    if frame.errorCode == RefusedStreamCode then
      StreamRefused(ResetPrefix + Decimal(id) + RefusedSuffix)
    else
      StreamReset(ResetPrefix + Decimal(id) + ErrorCodeInfix + Decimal(frame.errorCode))
  }

  /** The message of each kind of reset exception reads back as the frame's stream id and code. */
  lemma ResetMessageRoundTrip(frame: Http2ResetFrame)
    requires frame.stream.Some?
    ensures frame.errorCode == RefusedStreamCode ==>
      ParseResetMessage(ResetPrefix + Decimal(frame.stream.value.id) + RefusedSuffix) == Some(ReportOf(frame))
    ensures frame.errorCode != RefusedStreamCode ==>
      ParseResetMessage(ResetPrefix + Decimal(frame.stream.value.id) + ErrorCodeInfix + Decimal(frame.errorCode))
        == Some(ReportOf(frame))
  {
    var id := frame.stream.value.id;
    var code := frame.errorCode;
    if code == RefusedStreamCode {
      var m := ResetPrefix + Decimal(id) + RefusedSuffix;
      assert m[..|ResetPrefix|] == ResetPrefix;
      assert m[|ResetPrefix|..] == Decimal(id) + RefusedSuffix;
      ParseDecimalRoundTrip(id, RefusedSuffix);
    } else {
      var tail := ErrorCodeInfix + Decimal(code);
      var m := ResetPrefix + Decimal(id) + ErrorCodeInfix + Decimal(code);
      assert m == ResetPrefix + (Decimal(id) + tail);
      assert m[..|ResetPrefix|] == ResetPrefix;
      assert m[|ResetPrefix|..] == Decimal(id) + tail;
      ParseDecimalRoundTrip(id, tail);
      assert tail != RefusedSuffix by { assert tail[0] != RefusedSuffix[0]; }
      assert tail[..|ErrorCodeInfix|] == ErrorCodeInfix;
      assert tail[|ErrorCodeInfix|..] == Decimal(code) + [];
      ParseDecimalRoundTrip(code, []);
    }
  }

  /** A protocol-level exception with error REFUSED_STREAM becomes the retryable wrapper around it. */
  lemma RefusedStreamIsRetryable(e: NettyHttp2Exception)
    requires e.error == RefusedStream
    ensures WrapIfNecessary(Netty(e)) == RetryableStackless(e)
    ensures Retryable(WrapIfNecessary(Netty(e)))
  {
  }

  /** Running out of stream identifiers is retryable on a new connection, whatever the error code. */
  lemma NoMoreStreamIdsIsRetryable(e: NettyHttp2Exception)
    requires e.noMoreStreamIds
    ensures WrapIfNecessary(Netty(e)) == RetryableStackless(e)
    ensures Retryable(WrapIfNecessary(Netty(e)))
  {
  }

  /** Any other protocol-level exception becomes the stackless wrapper without the retryable marker. */
  lemma OtherProtocolErrorIsNotRetryable(e: NettyHttp2Exception)
    requires e.error != RefusedStream && !e.noMoreStreamIds
    ensures WrapIfNecessary(Netty(e)) == Stackless(ProtocolCause(e))
    ensures !Retryable(WrapIfNecessary(Netty(e)))
  {
  }

  /** A frame-stream exception always becomes the stackless wrapper without the retryable marker. */
  lemma FrameStreamIsNotRetryable(f: NettyFrameStreamException)
    ensures WrapIfNecessary(NettyFrameStream(f)) == Stackless(FrameStreamCause(f))
    ensures !Retryable(WrapIfNecessary(NettyFrameStream(f)))
  {
  }

  /** Wrapping happens once: a wrapped result is no raw failure, so wrapping it again changes nothing. */
  lemma WrapIfNecessaryIdempotent(t: Throwable)
    ensures !IsRawHttp2Failure(WrapIfNecessary(t))
    ensures WrapIfNecessary(WrapIfNecessary(t)) == WrapIfNecessary(t)
  {
  }

  /**
    Every throwable that is not a raw failure keeps its retryability, and a
    raw protocol exception that the classifier finds retryable stays so.
   */
  lemma WrapNeverDowngrades(t: Throwable)
    ensures !IsRawHttp2Failure(t) ==> (Retryable(WrapIfNecessary(t)) <==> Retryable(t))
    ensures t.Netty? && IsRetryable(t.h2) ==> Retryable(WrapIfNecessary(t))
  {
  }

  /**
    The classifier does not look at a raw failure's own retryable marker: a
    marked transport exception that is not REFUSED_STREAM and not the
    exhaustion subtype, or a marked frame-stream exception, loses the marker.
   */
  lemma WrapIgnoresRawMarker(t: Throwable)
    requires IsRawHttp2Failure(t) && Retryable(t)
    ensures Retryable(WrapIfNecessary(t)) <==> t.Netty? && IsRetryable(t.h2)
  {
  }

  /**
    Two reset frames give the same exception exactly when they report the same
    stream id and, unless both are refusals, the same error code.
   */
  lemma ResetExceptionDeterminesReport(f1: Http2ResetFrame, f2: Http2ResetFrame)
    requires f1.stream.Some? && f2.stream.Some?
    ensures NewStreamResetException(f1) == NewStreamResetException(f2) <==> ReportOf(f1) == ReportOf(f2)
  {
  }

  /**
    The two classifiers agree: a reset frame whose code is that of a protocol
    error's name is retryable exactly when wrapping that protocol error (not the
    stream-ID-exhaustion subtype) is.
   */
  lemma ResetAgreesWithWrap(e: NettyHttp2Exception, frame: Http2ResetFrame)
    requires frame.stream.Some? && frame.errorCode == e.error.Code() && !e.noMoreStreamIds
    ensures Retryable(NewStreamResetException(frame)) <==> Retryable(WrapIfNecessary(Netty(e)))
  {
  }
}
