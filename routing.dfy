/**
 * The routing state: two string keys holding "true" or "false", and the
 * health monitor's decision table over them.
 */
module Routing {
  import opened Types
  import opened Redis

  /** Tells the workers to send payments to the fallback processor. */
  const FALLBACK_FLAG_KEY := "should_call_fallback"
  /** Tells the workers to stop dequeuing (both processors failing). */
  const TIMEOUT_FLAG_KEY := "should_timeout_all_calls"

  /** `value.toString()` of a boolean. */
  function FlagText(b: bool): string
  {
    if b then "true" else "false"
  }

  /** A flag reads true only when its key holds exactly "true". */
  predicate FlagValue(strings: map<string, string>, key: string)
  {
    key in strings && strings[key] == "true"
  }

  /** Reads a flag: true only for the exact text "true"; a missing key or a store error reads false. */
  method GetFlag(store: Store, key: string, fault: bool) returns (b: bool)
    ensures b <==> !fault && FlagValue(store.strings, key)
  {
    if fault {
      return false;
    }
    var value := store.Get(key);
    b := value == Some("true");
  }

  /** Writes a flag as "true" or "false"; a store error is swallowed and changes nothing. */
  method SetFlag(store: Store, key: string, value: bool, fault: bool)
    modifies store
    ensures store.State() == if fault then old(store.State())
                             else old(store.State()).(strings := old(store.strings)[key := FlagText(value)])
  {
    if fault {
      return;
    }
    store.Set(key, FlagText(value));
  }

  lemma FlagRoundTrip(strings: map<string, string>, key: string, other: string, b: bool)
    requires other != key
    ensures FlagValue(strings[key := FlagText(b)], key) == b
    ensures FlagValue(strings[key := FlagText(b)], other) == FlagValue(strings, other)
  {
  }

  /**
   * The monitor's reaction to two health reports, as writes to the flags:
   * both failing halts everything and keeps the processor choice; a healthy
   * default routes to it and resumes; otherwise the fallback is used and
   * work resumes. No other key changes.
   */
  function ApplyHealth(strings: map<string, string>, defaultService: ServiceHealthResponse,
                       fallbackService: ServiceHealthResponse): (r: map<string, string>)
    ensures r - {FALLBACK_FLAG_KEY, TIMEOUT_FLAG_KEY} == strings - {FALLBACK_FLAG_KEY, TIMEOUT_FLAG_KEY}
    ensures TIMEOUT_FLAG_KEY in r
    ensures FlagValue(r, TIMEOUT_FLAG_KEY) <==> defaultService.failing && fallbackService.failing
    ensures defaultService.failing && fallbackService.failing ==>
              (FALLBACK_FLAG_KEY in r <==> FALLBACK_FLAG_KEY in strings)
              && (FALLBACK_FLAG_KEY in r ==> r[FALLBACK_FLAG_KEY] == strings[FALLBACK_FLAG_KEY])
    ensures !(defaultService.failing && fallbackService.failing) ==>
              FALLBACK_FLAG_KEY in r && (FlagValue(r, FALLBACK_FLAG_KEY) <==> defaultService.failing)
  {
    var isDefaultServiceAvailable := !defaultService.failing;
    var isFallbackServiceAvailable := !fallbackService.failing;
    if !isDefaultServiceAvailable && !isFallbackServiceAvailable then
      strings[TIMEOUT_FLAG_KEY := FlagText(true)]
    else if isDefaultServiceAvailable then
      strings[FALLBACK_FLAG_KEY := FlagText(false)][TIMEOUT_FLAG_KEY := FlagText(false)]
    else
      strings[FALLBACK_FLAG_KEY := FlagText(true)][TIMEOUT_FLAG_KEY := FlagText(false)]
  }
}
