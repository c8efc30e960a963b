/**
 * service/TraceContext.java: the same MDC operations as instance methods
 * of a Spring bean, plus a static getCurrentTraceIdStatic that stores a
 * fresh id with a plain MDC.put.
 */
module TraceContextService {
  import opened Wrappers
  import opened Mdc
  import opened Uuid
  import Text

  class TraceContext {
    /** The thread's MDC, which MDC's static methods reach. */
    const mdc: MappedDiagnosticContext

    constructor (mdc: MappedDiagnosticContext)
      ensures this.mdc == mdc
    {
      this.mdc := mdc;
    }

    method SetTraceId(traceId: Option<string>)
      modifies mdc
      ensures mdc.entries == PutIfUsable(old(mdc.entries), TraceIdKey, traceId)
    {
      if traceId.Some? && !Text.Blank(traceId.value) {
        mdc.entries := mdc.entries[TraceIdKey := traceId.value];
      }
    }

    method SetOperation(operation: Option<string>)
      modifies mdc
      ensures mdc.entries == PutIfUsable(old(mdc.entries), OperationKey, operation)
    {
      if operation.Some? && !Text.Blank(operation.value) {
        mdc.entries := mdc.entries[OperationKey := operation.value];
      }
    }

    method GetCurrentTraceId(uuid: Uuid) returns (traceId: string)
      modifies mdc
      ensures (mdc.entries, traceId) == CurrentTraceId(old(mdc.entries), GenerateTraceId(uuid))
      ensures !Text.Blank(traceId) && mdc.Get(TraceIdKey) == Some(traceId)
    {
      var stored := mdc.Get(TraceIdKey);
      if stored.None? || Text.Blank(stored.value) {
        traceId := GenerateTraceId(uuid);
        SetTraceId(Some(traceId));
      } else {
        traceId := stored.value;
      }
      CurrentTraceIdStored(old(mdc.entries), GenerateTraceId(uuid), GenerateTraceId(uuid));
    }

    /** Only reads: never generates an id. */
    function GetCurrentOperation(): (op: Option<string>)
      reads mdc
      ensures op == Lookup(mdc.entries, OperationKey)
    {
      mdc.Get(OperationKey)
    }

    method ClearTrace()
      modifies mdc
      ensures mdc.entries == WithoutTrace(old(mdc.entries))
    {
      mdc.entries := mdc.entries - {TraceIdKey};
      mdc.entries := mdc.entries - {OperationKey};
      assert mdc.entries == old(mdc.entries) - {TraceIdKey, OperationKey};
    }

    method ClearAll()
      modifies mdc
      ensures mdc.entries == map[]
    {
      mdc.entries := map[];
    }
  }

  /**
   * getCurrentTraceIdStatic: the stored id, or a fresh one put into the MDC
   * directly. Same result and same MDC as getCurrentTraceId.
   */
  method GetCurrentTraceIdStatic(mdc: MappedDiagnosticContext, uuid: Uuid) returns (traceId: string)
    modifies mdc
    ensures (mdc.entries, traceId) == CurrentTraceIdUnguarded(old(mdc.entries), GenerateTraceId(uuid))
    ensures (mdc.entries, traceId) == CurrentTraceId(old(mdc.entries), GenerateTraceId(uuid))
    ensures !Text.Blank(traceId) && mdc.Get(TraceIdKey) == Some(traceId)
  {
    var stored := mdc.Get(TraceIdKey);
    if stored.None? || Text.Blank(stored.value) {
      traceId := GenerateTraceId(uuid);
      mdc.entries := mdc.entries[TraceIdKey := traceId];
    } else {
      traceId := stored.value;
    }
    UnguardedAgrees(old(mdc.entries), GenerateTraceId(uuid));
    CurrentTraceIdStored(old(mdc.entries), GenerateTraceId(uuid), GenerateTraceId(uuid));
  }
}
