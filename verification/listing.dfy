/**
 * `COSAPIClient.list`: the reconciliation of a paged object listing into the
 * entries of a logical directory.
 *
 * The listing is one forward pass over the summaries of all pages, in the
 * order the store returned them, with one pending summary (`prevObj`) that
 * survives page boundaries. The first summary becomes pending without any
 * check. Every later summary is judged, and its fate is one of:
 *   - out of scope: its unified name lies outside the listed object; skipped;
 *   - output of a failed job: written by this connector, no `_SUCCESS` for
 *     its job; skipped, and queued for deletion when automatic delete is on;
 *   - a second attempt at the pending output: the larger of the two stays
 *     pending, the other is dropped, nothing is emitted;
 *   - accepted: the pending summary is emitted (unless it is empty and the
 *     listing is not full) and the new one becomes pending.
 * At the end the pending summary is emitted under the same size rule.
 */
module Listing {
  import opened Wrappers
  import opened Strings
  import opened Subsequences
  import opened ObjectNames
  import opened StatusCache

  /** An `S3ObjectSummary`: key and size (the modification time plays no part in reconciliation). */
  datatype Summary = Summary(key: string, size: int)

  /** What `list` uses of the client: the store, `TaskAttemptID.forName`, and `fModeAutomaticDelete`. */
  datatype Client = Client(store: Store, validAttempt: string -> bool, autoDelete: bool)

  /** The arguments of `list`: the listed path as a string, the host name, and the two flags. */
  datatype Request = Request(path: string, hostName: string, fullListing: bool, prefixBased: bool)

  /** The client's two memo tables. */
  datatype Caches = Caches(jobStatus: map<string, bool>, sparkOrigin: map<string, bool>)

  /** The loop state of `list`: `prevObj`, the entries emitted so far, the keys queued for deletion, the memo tables. */
  datatype ScanState = ScanState(pending: Option<Summary>, entries: seq<Summary>, doomed: seq<string>, caches: Caches)

  /** What a listing produces: its entries, the keys it deletes, and the memo tables it leaves behind. */
  datatype Listing = Listing(entries: seq<Summary>, doomed: seq<string>, caches: Caches)

  function Init(caches: Caches): ScanState {
    ScanState(None, [], [], caches)
  }

  /** The object the listing is scoped to (`curObj`). */
  function Scope(c: Client, req: Request): string {
    CurrentObject(req.path, c.store.bucket, req.hostName)
  }

  /**
   * A unified name belongs to the listing: scoping is off (prefix listing,
   * bucket root, or a path ending in `/`) or the name is the scope object or
   * lies below it.
   */
  predicate InScope(c: Client, req: Request, unified: string) {
    var cur := Scope(c, req);
    req.prefixBased || cur == "" || EndsWith(req.path, "/")
    || unified == cur || StartsWith(unified, cur + "/")
  }

  /** A summary is emitted only if it has content, unless the listing is full. */
  predicate Emittable(req: Request, s: Summary) {
    s.size > 0 || req.fullListing
  }

  /** The pending summary is emitted (if emittable) and `obj` takes its place. */
  function Advance(req: Request, st: ScanState, prev: Summary, obj: Summary): ScanState {
    st.(entries := st.entries + (if Emittable(req, prev) then [prev] else []), pending := Some(obj))
  }

  /** The fate of a summary that follows a pending one. */
  datatype Verdict =
    | OutOfScope     // its unified name lies outside the listed object
    | FailedJob      // written by this connector, and its job left no `_SUCCESS`
    | SameOutput     // another attempt at the pending summary's output
    | Accepted       // listed in its own right

  /** A verdict, and the memo tables after the lookups that reached it. */
  datatype Judgement = Judgement(verdict: Verdict, caches: Caches)

  /**
   * The checks `list` makes on a summary `obj` that follows `prev`, in the
   * order it makes them: scope first (no lookup), then the lookups.
   */
  function Judge(c: Client, req: Request, caches: Caches, prev: Summary, obj: Summary): Judgement {
    var u := UnifiedObjectName(obj.key, c.validAttempt);
    if !InScope(c, req, u) then Judgement(OutOfScope, caches)
    else
      var sameOutput := NameWithoutTaskID(obj.key, c.validAttempt) == NameWithoutTaskID(prev.key, c.validAttempt);
      JudgeInScope(c.store, req.fullListing, caches, u, sameOutput)
  }

  /**
   * The checks on an in-scope summary with unified name `u`: origin (always
   * looked up), then, for connector output in a listing that is not full,
   * job status, then whether the summary shares its `nameWithoutTaskID` with
   * the pending one (`sameOutput`).
   */
  function JudgeInScope(store: Store, fullListing: bool, caches: Caches, u: string, sameOutput: bool): Judgement {
    var origin := IsSparkOrigin(store, caches.sparkOrigin, u);
    var caches1 := caches.(sparkOrigin := origin.cache);
    if origin.value && !fullListing then
      var status := IsJobSuccessful(store, caches1.jobStatus, u);
      var caches2 := caches1.(jobStatus := status.cache);
      if !status.value then Judgement(FailedJob, caches2)
      else if sameOutput then Judgement(SameOutput, caches2)
      else Judgement(Accepted, caches2)
    else Judgement(Accepted, caches1)
  }

  /** What a judgement of `obj`, which follows the pending `prev`, does to the loop state. */
  function Apply(req: Request, autoDelete: bool, st: ScanState, prev: Summary, obj: Summary, j: Judgement): ScanState {
    match j.verdict
    case OutOfScope => st
    case FailedJob => st.(doomed := st.doomed + (if autoDelete then [obj.key] else []), caches := j.caches)
    case SameOutput => st.(pending := Some(if prev.size < obj.size then obj else prev), caches := j.caches)
    case Accepted => Advance(req, st.(caches := j.caches), prev, obj)
  }

  /** One iteration of the inner loop of `list` over the summary `obj`. */
  function Step(c: Client, req: Request, st: ScanState, obj: Summary): ScanState {
    match st.pending
    case None => st.(pending := Some(obj))
    case Some(prev) => Apply(req, c.autoDelete, st, prev, obj, Judge(c, req, st.caches, prev, obj))
  }

  /** The inner loop over the summaries of one page (or of any run of summaries). */
  function Scan(c: Client, req: Request, st: ScanState, objs: seq<Summary>): ScanState
    decreases |objs|
  {
    if |objs| == 0 then st
    else Step(c, req, Scan(c, req, st, objs[..|objs| - 1]), objs[|objs| - 1])
  }

  /** The outer loop over the pages, each page continuing from the state the previous one left. */
  function ScanPages(c: Client, req: Request, st: ScanState, pages: seq<seq<Summary>>): ScanState
    decreases |pages|
  {
    if |pages| == 0 then st
    else Scan(c, req, ScanPages(c, req, st, pages[..|pages| - 1]), pages[|pages| - 1])
  }

  /** The summaries of all pages, in order. */
  function Flatten(pages: seq<seq<Summary>>): seq<Summary>
    decreases |pages|
  {
    if |pages| == 0 then [] else Flatten(pages[..|pages| - 1]) + pages[|pages| - 1]
  }

  /** The entries after the final flush of the pending summary. */
  function Flush(req: Request, st: ScanState): seq<Summary> {
    st.entries + (if st.pending.Some? && Emittable(req, st.pending.value) then [st.pending.value] else [])
  }

  /**
   * `list`: an empty first page ends the listing at once, with nothing looked
   * up; otherwise all pages are scanned and the pending summary flushed.
   */
  function List(c: Client, req: Request, caches: Caches, pages: seq<seq<Summary>>): (r: Listing)
    ensures |pages| == 0 || |pages[0]| == 0 ==> r == Listing([], [], caches)
  {
    if |pages| == 0 || |pages[0]| == 0 then Listing([], [], caches)
    else
      var st := ScanPages(c, req, Init(caches), pages);
      Listing(Flush(req, st), st.doomed, st.caches)
  }

  /**
   * The loops of `list` as written: an outer loop fetching pages, an inner
   * loop over each page's summaries, one `prevObj` across both.
   */
  method ListObjects(c: Client, req: Request, caches: Caches, pages: seq<seq<Summary>>) returns (r: Listing)
    ensures r == List(c, req, caches, pages)
  {
    if |pages| == 0 || |pages[0]| == 0 {
      return Listing([], [], caches);
    }
    var st := Init(caches);
    var p := 0;
    while p < |pages|
      invariant 0 <= p <= |pages|
      invariant st == ScanPages(c, req, Init(caches), pages[..p])
    {
      var page := pages[p];
      var i := 0;
      while i < |page|
        invariant 0 <= i <= |page|
        invariant st == Scan(c, req, ScanPages(c, req, Init(caches), pages[..p]), page[..i])
      {
        assert page[..i + 1][..i] == page[..i];
        st := Step(c, req, st, page[i]);
        i := i + 1;
      }
      assert page[..i] == page;
      assert pages[..p + 1][..p] == pages[..p];
      p := p + 1;
    }
    assert pages[..p] == pages;
    r := Listing(Flush(req, st), st.doomed, st.caches);
  }
}
