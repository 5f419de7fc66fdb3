/** Trace and span identifiers, trace flags and the span context that carries
    them across a process boundary.

    The validity test is the tracing library's (`SpanContext.isValid`), which
    the interceptors call but do not define; it is stated here as the rule of
    sections 3.2.2.3 and 3.2.2.4 of the W3C Trace Context recommendation: a
    trace id is 32 and a span (parent) id 16 lowercase hex characters, and
    neither is all zeros. */
module TraceContext {
  import opened Lang
  import opened JavaText

  /** One unsigned byte, the representation of the trace flags. */
  type Byte = b: int | 0 <= b < 256

  datatype SpanContext = SpanContext(traceId: string, spanId: string, flags: Byte, remote: bool)

  const InvalidTraceId: string := "00000000000000000000000000000000"
  const InvalidSpanId: string := "0000000000000000"

  /** `TraceFlags.getDefault()`: nothing set, not sampled. */
  const DefaultFlags: Byte := 0

  predicate IsAllZero(s: string) {
    forall i :: 0 <= i < |s| ==> s[i] == '0'
  }

  /** A valid trace id is never the invalid one and holds no dash, so it
      survives being a field of a dash-separated header. */
  predicate IsValidTraceId(s: string): (valid: bool)
    ensures valid ==> s != InvalidTraceId && '-' !in s
  {
    |s| == 32 && IsLowerHex(s) && !IsAllZero(s)
  }

  predicate IsValidSpanId(s: string): (valid: bool)
    ensures valid ==> s != InvalidSpanId && '-' !in s
  {
    |s| == 16 && IsLowerHex(s) && !IsAllZero(s)
  }

  /** `SpanContext.isValid`: a context with either all-zero id is invalid. */
  predicate IsValid(c: SpanContext): (valid: bool)
    ensures valid ==> c.traceId != InvalidTraceId && c.spanId != InvalidSpanId
  {
    IsValidTraceId(c.traceId) && IsValidSpanId(c.spanId)
  }

  /** `SpanContext.createFromRemoteParent`: the ids are kept when both are
      valid; otherwise the context gets the all-zero ids and is invalid. */
  function CreateFromRemoteParent(traceId: string, spanId: string, flags: Byte): (c: SpanContext)
    ensures c.remote && c.flags == flags
    ensures IsValid(c) <==> IsValidTraceId(traceId) && IsValidSpanId(spanId)
    ensures IsValid(c) ==> c.traceId == traceId && c.spanId == spanId
  {
    if IsValidTraceId(traceId) && IsValidSpanId(spanId) then SpanContext(traceId, spanId, flags, true)
    else
      SpanContext(InvalidTraceId, InvalidSpanId, flags, true)
  }

  /** `TraceFlags.asHex()`: two lower-case hex digits. */
  function FlagsHex(flags: Byte): (s: string)
    ensures |s| == 2 && IsLowerHex(s)
  {
    [DigitChar(flags / 16), DigitChar(flags % 16)]
  }

  /** `TraceFlags.fromByte` applied to a Java `byte`: the two's-complement
      bit pattern of the signed value. */
  function FlagsFromByte(v: int): Byte
    requires -128 <= v <= 127
  {
    if v < 0 then v + 256 else v
  }

  /** `Byte.parseByte(…, 16)` reads back the hex form of flags below 0x80 and
      rejects (NumberFormatException) every flags byte from 0x80 up, because
      such a value does not fit a signed byte. */
  lemma FlagsHexParse(flags: Byte)
    ensures flags < 0x80 ==> ParseByte(FlagsHex(flags), 16) == Some(flags)
    ensures flags >= 0x80 ==> ParseByte(FlagsHex(flags), 16) == None
  {
    var s := FlagsHex(flags);
    assert s[..1][..0] == [];
    assert s[..|s| - 1] == s[..1];
    assert DigitsValue(s[..1], 16) == Some(flags / 16);
    assert DigitsValue(s, 16) == Some(flags);
  }
}
