/**
 * SLF4J's MDC (mapped diagnostic context): a per-thread string map. The
 * model is sequential, so there is one map, shared by everyone who holds
 * the object. The functions here give the effect of the trace-id
 * operations that both TraceContext classes perform.
 */
module Mdc {
  import opened Wrappers
  import Text

  const TraceIdKey: string := "traceId"
  const OperationKey: string := "operation"
  /** The HTTP and Kafka header that carries a trace id. */
  const TraceIdHeader: string := "X-Trace-Id"

  class MappedDiagnosticContext {
    var entries: map<string, string>

    constructor ()
      ensures entries == map[]
    {
      entries := map[];
    }

    /** MDC.get: null when the key is absent. */
    function Get(key: string): (v: Option<string>)
      reads this
      ensures v.Some? <==> key in entries
      ensures v.Some? ==> v.value == entries[key]
    {
      if key in entries then Some(entries[key]) else None
    }
  }

  function Lookup(m: map<string, string>, key: string): (v: Option<string>)
    ensures v.Some? <==> key in m
    ensures v.Some? ==> v.value == m[key]
  {
    if key in m then Some(m[key]) else None
  }

  /** `if (v != null && !v.trim().isEmpty()) MDC.put(key, v)`. */
  function PutIfUsable(m: map<string, string>, key: string, v: Option<string>): (r: map<string, string>)
    ensures Text.Usable(v) ==> r == m[key := v.value]
    ensures !Text.Usable(v) ==> r == m
  {
    if Text.Usable(v) then m[key := v.value] else m
  }

  /** A guarded put changes at most its own key. */
  lemma PutIfUsableFrame(m: map<string, string>, key: string, v: Option<string>, other: string)
    requires other != key
    ensures Lookup(PutIfUsable(m, key, v), other) == Lookup(m, other)
  {
  }

  /**
   * getCurrentTraceId: the stored id when it is present and not blank, and
   * otherwise `generated`, stored through the guarded put. The result is
   * (new map, returned id).
   */
  function CurrentTraceId(m: map<string, string>, generated: string): (r: (map<string, string>, string))
    ensures Text.Usable(Lookup(m, TraceIdKey)) ==> r == (m, m[TraceIdKey])
    ensures !Text.Usable(Lookup(m, TraceIdKey)) ==> r == (PutIfUsable(m, TraceIdKey, Some(generated)), generated)
  {
    var stored := Lookup(m, TraceIdKey);
    if Text.Usable(stored) then (m, stored.value)
    else (PutIfUsable(m, TraceIdKey, Some(generated)), generated)
  }

  /**
   * With a non-blank generated id, the returned id is never blank and is
   * what the map then holds under traceId; only that key may change; and a
   * second lookup returns the same id and changes nothing.
   */
  lemma CurrentTraceIdStored(m: map<string, string>, generated: string, generated': string)
    requires !Text.Blank(generated)
    ensures var (m1, id) := CurrentTraceId(m, generated);
      !Text.Blank(id) && Lookup(m1, TraceIdKey) == Some(id) &&
      (forall k :: k != TraceIdKey ==> Lookup(m1, k) == Lookup(m, k)) &&
      CurrentTraceId(m1, generated') == (m1, id)
  {
  }

  /** getCurrentTraceIdStatic: the same, but the generated id is stored by an unguarded put. */
  function CurrentTraceIdUnguarded(m: map<string, string>, generated: string): (r: (map<string, string>, string))
    ensures Text.Usable(Lookup(m, TraceIdKey)) ==> r == (m, m[TraceIdKey])
    ensures !Text.Usable(Lookup(m, TraceIdKey)) ==> r == (m[TraceIdKey := generated], generated)
  {
    var stored := Lookup(m, TraceIdKey);
    if Text.Usable(stored) then (m, stored.value) else (m[TraceIdKey := generated], generated)
  }

  /** For a non-blank generated id the guard makes no difference. */
  lemma UnguardedAgrees(m: map<string, string>, generated: string)
    requires !Text.Blank(generated)
    ensures CurrentTraceIdUnguarded(m, generated) == CurrentTraceId(m, generated)
  {
  }

  /** clearTrace: MDC.remove(traceId), MDC.remove(operation). */
  function WithoutTrace(m: map<string, string>): (r: map<string, string>)
    ensures TraceIdKey !in r && OperationKey !in r
    ensures forall k :: k != TraceIdKey && k != OperationKey ==> Lookup(r, k) == Lookup(m, k)
  {
    m - {TraceIdKey, OperationKey}
  }

  /** Clearing after a trace-id lookup gives what clearing alone gives: the lookup's write is forgotten. */
  lemma ClearForgetsLookup(m: map<string, string>, generated: string)
    ensures WithoutTrace(CurrentTraceId(m, generated).0) == WithoutTrace(m)
  {
    if !Text.Usable(Lookup(m, TraceIdKey)) && !Text.Blank(generated) {
      var m1 := m[TraceIdKey := generated];
      assert forall k :: k in WithoutTrace(m1) <==> k in WithoutTrace(m);
    }
  }
}
