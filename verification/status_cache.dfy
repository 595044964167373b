/**
 * The two per-client memo tables of the COS client: `isJobSuccessful`
 * (has the job that wrote a name left a `_SUCCESS` marker?) and
 * `isSparkOrigin` (does the name carry `data-origin: stocator`?). Both look a
 * key up with `getObjectMetadata` on first use and remember the answer for
 * the lifetime of the client.
 *
 * The store is a function from key to user metadata; `None` stands for both
 * a missing object and a failed request, since `getObjectMetadata(key)` turns
 * every client exception into `null`.
 */
module StatusCache {
  import opened Wrappers
  import opened ObjectNames

  type Metadata = map<string, string>

  /** The bucket the client works in and what `getObjectMetadata` answers for each key. */
  datatype Store = Store(bucket: string, meta: string -> Option<Metadata>)

  /** The user-metadata attribute that marks output written through this connector. */
  const OriginAttribute := "data-origin"
  const OriginValue := "stocator"

  /** The two facts the listing asks about a name. */
  datatype Probe = JobStatus | SparkOrigin

  /** The key looked up for a probe: the name's success marker, or the name itself. */
  function ProbeKey(probe: Probe, bucket: string, name: string): string {
    match probe
    case JobStatus => GetRealKey(bucket, name) + "/" + SuccessMarker
    case SparkOrigin => GetRealKey(bucket, name)
  }

  /** How a probe reads the lookup: a marker only has to exist; an origin must say `stocator`. */
  predicate Decide(probe: Probe, m: Option<Metadata>) {
    match probe
    case JobStatus => m.Some?
    case SparkOrigin => m.Some? && OriginAttribute in m.value && m.value[OriginAttribute] == OriginValue
  }

  /** What the store says right now, with no memo in between. */
  predicate Fact(store: Store, probe: Probe, name: string) {
    Decide(probe, store.meta(ProbeKey(probe, store.bucket, name)))
  }

  /** The answer, the memo table after the call, and the keys the call looked up, in order. */
  datatype Memo = Memo(value: bool, cache: map<string, bool>, lookups: seq<string>)

  /**
   * One memoised probe: a remembered name is answered from the table with no
   * lookup; any other name costs exactly one lookup, whose answer is
   * remembered. No other entry of the table changes.
   */
  function Recall(store: Store, probe: Probe, cache: map<string, bool>, name: string): (r: Memo)
    ensures name in cache ==> r.value == cache[name] && r.cache == cache && r.lookups == []
    ensures name !in cache ==> r.value == Fact(store, probe, name) && r.lookups == [ProbeKey(probe, store.bucket, name)]
    ensures name in r.cache && r.cache[name] == r.value
    ensures forall k :: k != name ==> (k in r.cache <==> k in cache)
    ensures forall k :: k != name && k in cache ==> r.cache[k] == cache[k]
  {
    if name in cache then Memo(cache[name], cache, [])
    else
      var key := ProbeKey(probe, store.bucket, name);
      var v := Decide(probe, store.meta(key));
      Memo(v, cache[name := v], [key])
  }

  /**
   * `isJobSuccessful`: has the job that wrote `name` succeeded? Unless
   * remembered, the answer is whether `<real key>/_SUCCESS` can be looked up;
   * a missing marker and a failed lookup both mean no.
   */
  function IsJobSuccessful(store: Store, cache: map<string, bool>, name: string): (r: Memo)
    ensures name in cache ==> r == Memo(cache[name], cache, [])
    ensures name !in cache ==> r.lookups == [GetRealKey(store.bucket, name) + "/" + "_SUCCESS"]
    ensures name !in cache ==> (r.value <==> store.meta(GetRealKey(store.bucket, name) + "/" + "_SUCCESS").Some?)
    ensures r.cache == cache[name := r.value]
  {
    Recall(store, JobStatus, cache, name)
  }

  /**
   * `isSparkOrigin`: was `name` written through this connector? Unless
   * remembered, the answer is whether its metadata can be looked up and says
   * `data-origin: stocator`; anything else, a failed lookup included, means no.
   */
  function IsSparkOrigin(store: Store, cache: map<string, bool>, name: string): (r: Memo)
    ensures name in cache ==> r == Memo(cache[name], cache, [])
    ensures name !in cache ==> r.lookups == [GetRealKey(store.bucket, name)]
    ensures name !in cache ==> (r.value <==>
      var m := store.meta(GetRealKey(store.bucket, name));
      m.Some? && "data-origin" in m.value && m.value["data-origin"] == "stocator")
    ensures r.cache == cache[name := r.value]
  {
    Recall(store, SparkOrigin, cache, name)
  }

  /** Every remembered answer is what the store says. */
  predicate Sound(store: Store, probe: Probe, cache: map<string, bool>) {
    forall k :: k in cache ==> cache[k] == Fact(store, probe, k)
  }

  /** Over a table that agrees with the store, memoisation is invisible: the answer is the fact, and the table stays in agreement. */
  lemma RecallTransparent(store: Store, probe: Probe, cache: map<string, bool>, name: string)
    requires Sound(store, probe, cache)
    ensures Recall(store, probe, cache, name).value == Fact(store, probe, name)
    ensures Sound(store, probe, Recall(store, probe, cache, name).cache)
  {
  }

  /** `b` keeps every entry of `a`. */
  predicate Extends(a: map<string, bool>, b: map<string, bool>) {
    forall k :: k in a ==> k in b && b[k] == a[k]
  }

  /** A probe only adds to its table, and a table that agrees with the store still agrees afterwards. */
  lemma RecallExtends(store: Store, probe: Probe, cache: map<string, bool>, name: string)
    ensures Extends(cache, Recall(store, probe, cache, name).cache)
    ensures Sound(store, probe, cache) ==> Sound(store, probe, Recall(store, probe, cache, name).cache)
  {
    if Sound(store, probe, cache) {
      RecallTransparent(store, probe, cache, name);
    }
  }

  /** Asking again is free and gives the same answer. */
  lemma RecallIdempotent(store: Store, probe: Probe, cache: map<string, bool>, name: string)
    ensures var r := Recall(store, probe, cache, name);
      Recall(store, probe, r.cache, name) == Memo(r.value, r.cache, [])
  {
  }
}
