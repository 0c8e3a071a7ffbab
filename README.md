# HTTP/2 failure classification in ServiceTalk's HTTP transport

This project models `Http2Exception` of ServiceTalk's Netty-based HTTP
transport: the class that turns the HTTP/2 failures the transport library
reports into ServiceTalk exceptions, and decides which of them carry the
`RetryableException` marker, meaning the request is safe to retry on a
different HTTP/2 parent connection.

- `http2_error.dfy` (module `Http2Errors`): the HTTP/2 error codes of section 7
  of RFC 7540, as the transport library's `Http2Error` enumeration names them.
- `java_decimal.dfy` (module `JavaDecimal`): how Java renders an `int` or a
  `long` in a string concatenation, with a parser as its partner and the
  proof that parsing a rendered number gives it back.
- `http2_exception.dfy` (module `Http2Exception`): the throwables involved as
  one sum type `Throwable`: the transport library's protocol-level exception
  (with a flag for its stream-ID-exhaustion subtype), its frame-stream
  exception, ServiceTalk's wrappers (stackless, retryable stackless, stream
  refused, stream reset), the base class built from a message or from a cause,
  and any other throwable. Each transport exception and each foreign throwable
  carries a flag saying whether its class implements `RetryableException`. `WrapIfNecessary`,
  `IsRetryable` and `NewStreamResetException` are functions on it; the class
  hierarchy's `instanceof` tests are the predicates `Retryable`,
  `IsServiceTalkHttp2Exception` and `IsStreamResetException`.
- `options.dfy` (module `Options`): an optional value for Java references that
  may be null.

The transport library's decision of which failures carry REFUSED_STREAM is
outside the model: the error code and the subtype flag are inputs.

## Model

| member | source | states |
|---|---|---|
| Http2Errors.CodeInjective | servicetalk-http-netty/src/main/java/io/servicetalk/http/netty/Http2Exception.java:128 | distinct error names have distinct wire codes, so the name comparison of `isRetryable` and the code comparison of `newStreamResetException` agree |
| Http2Errors.Http2Error.Code | servicetalk-http-netty/src/main/java/io/servicetalk/http/netty/Http2Exception.java:128 | every error name has its RFC 7540 wire code, at most 0xd, and 0x7 is the code of REFUSED_STREAM and of no other name |
| Http2Errors.RefusedStreamCodeIsSeven | servicetalk-http-netty/src/main/java/io/servicetalk/http/netty/Http2Exception.java:128 | the code of REFUSED_STREAM is 0x7 and no other error name has it |
| JavaDecimal.DigitsOf | servicetalk-http-netty/src/main/java/io/servicetalk/http/netty/Http2Exception.java:129 | a magnitude renders as at least one decimal digit, with no leading zero unless it is zero itself |
| JavaDecimal.Decimal | servicetalk-http-netty/src/main/java/io/servicetalk/http/netty/Http2Exception.java:131-132 | a number renders with a leading minus sign exactly when it is negative, followed (or, for a non-negative number, formed) only by digits, with no leading zero unless the number is zero |
| JavaDecimal.ParseDecimalRoundTrip | servicetalk-http-netty/src/main/java/io/servicetalk/http/netty/Http2Exception.java:129 | parsing a rendered number followed by a non-digit returns the number and what follows |
| JavaDecimal.DecimalInjective | servicetalk-http-netty/src/main/java/io/servicetalk/http/netty/Http2Exception.java:131-132 | two numbers render the same exactly when they are equal |
| Http2Exception.Retryable | servicetalk-http-netty/src/main/java/io/servicetalk/http/netty/Http2Exception.java:92 | `instanceof RetryableException`: the base class, the plain stackless wrapper and the plain reset exception never are; a transport or foreign throwable is exactly when its class implements the marker |
| Http2Exception.IsServiceTalkHttp2Exception | servicetalk-http-netty/src/main/java/io/servicetalk/http/netty/Http2Exception.java:31 | `instanceof` ServiceTalk's Http2Exception: the base class and its four subclasses, never a transport exception or a foreign throwable |
| Http2Exception.IsStreamResetException | servicetalk-http-netty/src/main/java/io/servicetalk/http/netty/Http2Exception.java:117 | `instanceof H2StreamResetException`: only the reset and refused exceptions, each also a ServiceTalk Http2Exception |
| Http2Exception.ClassHierarchy | servicetalk-http-netty/src/main/java/io/servicetalk/http/netty/Http2Exception.java:74-123 | the refused exception is a retryable reset exception, the plain reset exception is not retryable, and among ServiceTalk's classes exactly the retryable stackless wrapper and the refused exception carry the marker |
| Http2Exception.Cause | servicetalk-http-netty/src/main/java/io/servicetalk/http/netty/Http2Exception.java:38-40 | the exceptions built from a cause (the base class and the two stackless wrappers) carry it; those built from a message carry none |
| Http2Exception.IsRetryable | servicetalk-http-netty/src/main/java/io/servicetalk/http/netty/Http2Exception.java:63-72 | a protocol-level exception is retryable exactly when its error has code 0x7 (REFUSED_STREAM) or it is the stream-ID-exhaustion subtype |
| Http2Exception.WrapIfNecessary | servicetalk-http-netty/src/main/java/io/servicetalk/http/netty/Http2Exception.java:42-53 | a raw failure becomes a ServiceTalk Http2Exception whose cause is that failure; a protocol-level one is retryable exactly for REFUSED_STREAM or stream-ID exhaustion; a frame-stream one never is; every other throwable comes back unchanged |
| Http2Exception.RefusedStreamIsRetryable | servicetalk-http-netty/src/main/java/io/servicetalk/http/netty/Http2Exception.java:43-46 | a protocol-level exception with REFUSED_STREAM becomes the retryable stackless wrapper around it |
| Http2Exception.NoMoreStreamIdsIsRetryable | servicetalk-http-netty/src/main/java/io/servicetalk/http/netty/Http2Exception.java:70-71 | the stream-ID-exhaustion subtype becomes the retryable stackless wrapper whatever its error code |
| Http2Exception.OtherProtocolErrorIsNotRetryable | servicetalk-http-netty/src/main/java/io/servicetalk/http/netty/Http2Exception.java:46-47 | any other protocol-level exception becomes the stackless wrapper without the retryable marker |
| Http2Exception.FrameStreamIsNotRetryable | servicetalk-http-netty/src/main/java/io/servicetalk/http/netty/Http2Exception.java:49-50 | a frame-stream exception becomes the stackless wrapper without the retryable marker |
| Http2Exception.WrapIfNecessaryIdempotent | servicetalk-http-netty/src/main/java/io/servicetalk/http/netty/Http2Exception.java:52 | a wrapped result is no raw failure, so wrapping the output again returns it unchanged |
| Http2Exception.WrapNeverDowngrades | servicetalk-http-netty/src/main/java/io/servicetalk/http/netty/Http2Exception.java:52 | every throwable that is not a raw failure keeps its retryability, and a raw protocol exception the classifier finds retryable comes out retryable |
| Http2Exception.WrapIgnoresRawMarker | servicetalk-http-netty/src/main/java/io/servicetalk/http/netty/Http2Exception.java:43-50 | for a raw failure that already carries the marker, the result is retryable exactly when the classifier says so: a marked frame-stream exception, or a marked protocol exception that is neither REFUSED_STREAM nor the exhaustion subtype, loses the marker |
| Http2Exception.NewStreamResetException | servicetalk-http-netty/src/main/java/io/servicetalk/http/netty/Http2Exception.java:125-134 | a reset frame becomes a stream-reset exception; it is the refused kind, which is retryable, exactly when the code is 0x7; the message is "RST_STREAM received for streamId=<id>, stream refused" or "RST_STREAM received for streamId=<id> with error code: <code>", and reads back as the frame's id and, for other codes, its code |
| Http2Exception.ResetMessageRoundTrip | servicetalk-http-netty/src/main/java/io/servicetalk/http/netty/Http2Exception.java:128-132 | both message formats can be read back to the stream id and, for a plain reset, the error code |
| Http2Exception.ResetExceptionDeterminesReport | servicetalk-http-netty/src/main/java/io/servicetalk/http/netty/Http2Exception.java:125-134 | two reset frames give the same exception exactly when they have the same stream id and either both are refusals or both have the same code |
| Http2Exception.ResetAgreesWithWrap | servicetalk-http-netty/src/main/java/io/servicetalk/http/netty/Http2Exception.java:128-129 | a reset frame carrying the code of an error name is retryable exactly when wrapping a protocol-level exception with that name (not the exhaustion subtype) is |

## Left out

- The `fillInStackTrace` overrides and the `serialVersionUID` constants: they affect stack-trace capture and serialization only, not classification or messages.
- The detail message that Java's `Throwable(Throwable cause)` constructor derives from the cause's `toString()` for the two stackless wrappers: it is Java runtime behaviour; the model records the cause itself.
- Which failures the transport library reports with REFUSED_STREAM or as the stream-ID-exhaustion subtype (GOAWAY last-stream-id, maximum active streams, a closed channel): that logic is in the transport library, so the error and the subtype flag are inputs.
- `NewStreamResetException`: the Java `assert stream != null` becomes a precondition that the frame's stream is present; with assertions disabled the Java code would fail with a null dereference, which is not modelled.
- The frame-stream exception's stream and the protocol exception's detail text are carried but play no part in classification.
- `WrapIfNecessary` of a null reference, which the Java code returns as it is: `Throwable` has no null value.
- Request-context propagation, execution strategies and offloading, and proxy tunnel negotiation are not part of this model; the test and example files of the repository hold I/O, thread and server-startup code with no classification logic.
