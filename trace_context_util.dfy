/**
 * util/TraceContext.java: static helpers over the MDC. Each method takes
 * the MDC it works on; a UUID is supplied wherever one might be drawn.
 */
module TraceContextUtil {
  import opened Wrappers
  import opened Mdc
  import opened Uuid
  import Text

  method SetTraceId(mdc: MappedDiagnosticContext, traceId: Option<string>)
    modifies mdc
    ensures mdc.entries == PutIfUsable(old(mdc.entries), TraceIdKey, traceId)
  {
    if traceId.Some? && !Text.Blank(traceId.value) {
      mdc.entries := mdc.entries[TraceIdKey := traceId.value];
    }
  }

  method SetOperation(mdc: MappedDiagnosticContext, operation: Option<string>)
    modifies mdc
    ensures mdc.entries == PutIfUsable(old(mdc.entries), OperationKey, operation)
  {
    if operation.Some? && !Text.Blank(operation.value) {
      mdc.entries := mdc.entries[OperationKey := operation.value];
    }
  }

  /** The stored id, or a fresh one (from `uuid`) that is stored and returned. */
  method GetCurrentTraceId(mdc: MappedDiagnosticContext, uuid: Uuid) returns (traceId: string)
    modifies mdc
    ensures (mdc.entries, traceId) == CurrentTraceId(old(mdc.entries), GenerateTraceId(uuid))
    ensures !Text.Blank(traceId) && mdc.Get(TraceIdKey) == Some(traceId)
  {
    var stored := mdc.Get(TraceIdKey);
    if stored.None? || Text.Blank(stored.value) {
      traceId := GenerateTraceId(uuid);
      SetTraceId(mdc, Some(traceId));
    } else {
      traceId := stored.value;
    }
    CurrentTraceIdStored(old(mdc.entries), GenerateTraceId(uuid), GenerateTraceId(uuid));
  }

  function GetCurrentOperation(mdc: MappedDiagnosticContext): (op: Option<string>)
    reads mdc
    ensures op == Lookup(mdc.entries, OperationKey)
  {
    mdc.Get(OperationKey)
  }

  method ClearTrace(mdc: MappedDiagnosticContext)
    modifies mdc
    ensures mdc.entries == WithoutTrace(old(mdc.entries))
  {
    mdc.entries := mdc.entries - {TraceIdKey};
    mdc.entries := mdc.entries - {OperationKey};
    assert mdc.entries == old(mdc.entries) - {TraceIdKey, OperationKey};
  }

  method ClearAll(mdc: MappedDiagnosticContext)
    modifies mdc
    ensures mdc.entries == map[]
  {
    mdc.entries := map[];
  }
}
