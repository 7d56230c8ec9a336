/** Per-call cache-control directives and the pure policy that interprets them.
    Only two header names mean anything to the cache; every other header is
    carried along and ignored. */
module Headers {

  /** Header name to header value. */
  type CacheHeaders = map<string, string>

  /** Delete the record once a read has captured it. */
  const EVICT_AFTER_READ: string := "evict-after-read"
  /** Suppress a write entirely. */
  const DO_NOT_STORE: string := "do-not-store"

  /** `CacheHeaders.NONE`: no directive at all. */
  const NONE: CacheHeaders := map[]

  /** A boolean header is set when its value is "true"; absent or any other value means false. */
  function IsSet(headers: CacheHeaders, name: string): (on: bool)
    ensures name !in headers ==> !on
    ensures name in headers && headers[name] == "true" ==> on
    ensures name in headers && headers[name] == "false" ==> !on
  {
    name in headers && headers[name] == "true"
  }

  /** Read policy: whether a read must evict the record after capturing it. */
  function EvictAfterRead(headers: CacheHeaders): (evict: bool)
    ensures evict <==> EVICT_AFTER_READ in headers && headers[EVICT_AFTER_READ] == "true"
  {
    IsSet(headers, EVICT_AFTER_READ)
  }

  /** Write policy: whether a write must be suppressed. */
  function DoNotStore(headers: CacheHeaders): (suppress: bool)
    ensures suppress <==> DO_NOT_STORE in headers && headers[DO_NOT_STORE] == "true"
  {
    IsSet(headers, DO_NOT_STORE)
  }

  /** `NONE` neither evicts nor suppresses. */
  lemma NoneSetsNothing()
    ensures !EvictAfterRead(NONE) && !DoNotStore(NONE)
  {
  }

  /** The two test header sets: each sets its own directive and not the other. */
  lemma SingleHeaderSetsOnlyItself()
    ensures EvictAfterRead(map[EVICT_AFTER_READ := "true"])
    ensures !DoNotStore(map[EVICT_AFTER_READ := "true"])
    ensures DoNotStore(map[DO_NOT_STORE := "true"])
    ensures !EvictAfterRead(map[DO_NOT_STORE := "true"])
  {
  }

  /** Adding or changing an unrecognised header never changes a decision. */
  lemma UnrecognisedHeaderIgnored(headers: CacheHeaders, name: string, value: string)
    requires name != EVICT_AFTER_READ && name != DO_NOT_STORE
    ensures EvictAfterRead(headers[name := value]) == EvictAfterRead(headers)
    ensures DoNotStore(headers[name := value]) == DoNotStore(headers)
  {
  }
}
