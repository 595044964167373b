/**
 * What `COSAPIClient.list` promises about its result, proved of the model in
 * module `Listing`.
 */
module ListingProperties {
  import opened Wrappers
  import opened Strings
  import opened Subsequences
  import opened ObjectNames
  import opened StatusCache
  import opened Listing

  // ---------------------------------------------------------------------------
  // Paging

  /** Scanning a run in two pieces is scanning it whole. */
  lemma {:induction false} ScanAppend(c: Client, req: Request, st: ScanState, a: seq<Summary>, b: seq<Summary>)
    ensures Scan(c, req, st, a + b) == Scan(c, req, Scan(c, req, st, a), b)
    decreases |b|
  {
    if |b| == 0 {
      assert a + b == a;
    } else {
      var b' := b[..|b| - 1];
      assert (a + b)[..|a + b| - 1] == a + b';
      assert (a + b)[|a + b| - 1] == b[|b| - 1];
      ScanAppend(c, req, st, a, b');
    }
  }

  /** The page loop is a scan of the concatenated pages: `prevObj` carries across page boundaries. */
  lemma {:induction false} PagingTransparent(c: Client, req: Request, st: ScanState, pages: seq<seq<Summary>>)
    ensures ScanPages(c, req, st, pages) == Scan(c, req, st, Flatten(pages))
    decreases |pages|
  {
    if |pages| > 0 {
      var front := pages[..|pages| - 1];
      PagingTransparent(c, req, st, front);
      ScanAppend(c, req, st, Flatten(front), pages[|pages| - 1]);
    }
  }

  /**
   * The same summaries split into pages differently give the same listing, as
   * long as neither first page is empty.
   */
  lemma ListIgnoresPaging(c: Client, req: Request, caches: Caches, pages1: seq<seq<Summary>>, pages2: seq<seq<Summary>>)
    requires |pages1| > 0 && |pages1[0]| > 0
    requires |pages2| > 0 && |pages2[0]| > 0
    requires Flatten(pages1) == Flatten(pages2)
    ensures List(c, req, caches, pages1) == List(c, req, caches, pages2)
  {
    PagingTransparent(c, req, Init(caches), pages1);
    PagingTransparent(c, req, Init(caches), pages2);
  }

  // ---------------------------------------------------------------------------
  // The result is an order-preserving subsequence of the input

  function PendingSeq(st: ScanState): seq<Summary> {
    if st.pending.Some? then [st.pending.value] else []
  }

  /** What has been emitted, followed by what is pending, is drawn in order from `base`. */
  predicate Tracks(st: ScanState, base: seq<Summary>) {
    IsSubseq(st.entries + PendingSeq(st), base)
  }

  lemma ApplyTracks(req: Request, autoDelete: bool, st: ScanState, prev: Summary, obj: Summary, j: Judgement, base: seq<Summary>)
    requires st.pending == Some(prev) && Tracks(st, base)
    ensures Tracks(Apply(req, autoDelete, st, prev, obj, j), base + [obj])
  {
    var st' := Apply(req, autoDelete, st, prev, obj, j);
    var xs := st.entries + [prev];
    assert xs[..|xs| - 1] == st.entries;
    if st'.entries + PendingSeq(st') == xs {
      SubseqExtend(xs, base, obj);
    } else {
      // `obj` became pending: behind either the old entries or the old entries and `prev`.
      SubseqDropLast(xs, base);
      if st'.entries == st.entries {
        SubseqSnoc(st.entries, base, obj);
      } else {
        assert st'.entries == xs;
        SubseqSnoc(xs, base, obj);
      }
    }
  }

  lemma StepTracks(c: Client, req: Request, st: ScanState, base: seq<Summary>, obj: Summary)
    requires Tracks(st, base)
    ensures Tracks(Step(c, req, st, obj), base + [obj])
  {
    match st.pending
    case None =>
      assert st.entries + PendingSeq(st) == st.entries;
      SubseqSnoc(st.entries, base, obj);
    case Some(prev) =>
      ApplyTracks(req, c.autoDelete, st, prev, obj, Judge(c, req, st.caches, prev, obj), base);
  }

  lemma {:induction false} ScanTracks(c: Client, req: Request, st: ScanState, base: seq<Summary>, objs: seq<Summary>)
    requires Tracks(st, base)
    ensures Tracks(Scan(c, req, st, objs), base + objs)
    decreases |objs|
  {
    if |objs| == 0 {
      assert base + objs == base;
    } else {
      var front, last := objs[..|objs| - 1], objs[|objs| - 1];
      ScanTracks(c, req, st, base, front);
      var mid := Scan(c, req, st, front);
      ScanLast(c, req, st, objs);
      StepTracks(c, req, mid, base + front, last);
      SnocFront(base, objs);
    }
  }

  /** A scan ends with the step over its last summary. */
  lemma ScanLast(c: Client, req: Request, st: ScanState, objs: seq<Summary>)
    requires |objs| > 0
    ensures Scan(c, req, st, objs) == Step(c, req, Scan(c, req, st, objs[..|objs| - 1]), objs[|objs| - 1])
  {
  }

  lemma SnocFront<T>(base: seq<T>, objs: seq<T>)
    requires |objs| > 0
    ensures base + objs[..|objs| - 1] + [objs[|objs| - 1]] == base + objs
  {
  }

  /** The final flush keeps what was tracked, minus a pending summary too small to emit. */
  lemma FlushTracks(req: Request, st: ScanState, base: seq<Summary>)
    requires Tracks(st, base)
    ensures IsSubseq(Flush(req, st), base)
  {
    var xs := st.entries + PendingSeq(st);
    if st.pending.Some? && Emittable(req, st.pending.value) {
      assert Flush(req, st) == xs;
    } else if st.pending.Some? {
      assert Flush(req, st) == st.entries;
      assert xs[..|xs| - 1] == st.entries;
      SubseqDropLast(xs, base);
    } else {
      assert Flush(req, st) == st.entries;
      assert xs == st.entries;
    }
  }

  /** `list` returns summaries of the listing, in listing order, each at most once per occurrence. */
  lemma ListIsSubsequence(c: Client, req: Request, caches: Caches, pages: seq<seq<Summary>>)
    ensures IsSubseq(List(c, req, caches, pages).entries, Flatten(pages))
  {
    if |pages| > 0 && |pages[0]| > 0 {
      var flat := Flatten(pages);
      var st := ScanPages(c, req, Init(caches), pages);
      assert List(c, req, caches, pages).entries == Flush(req, st);
      PagingTransparent(c, req, Init(caches), pages);
      assert Tracks(Init(caches), []);
      ScanTracks(c, req, Init(caches), [], flat);
      assert [] + flat == flat;
      FlushTracks(req, st, flat);
    }
  }

  // ---------------------------------------------------------------------------
  // Emitted entries obey the size rule

  predicate AllEmittable(req: Request, xs: seq<Summary>) {
    forall i :: 0 <= i < |xs| ==> Emittable(req, xs[i])
  }

  lemma {:induction false} ScanEmittable(c: Client, req: Request, st: ScanState, objs: seq<Summary>)
    requires AllEmittable(req, st.entries)
    ensures AllEmittable(req, Scan(c, req, st, objs).entries)
    decreases |objs|
  {
    if |objs| > 0 {
      var front := objs[..|objs| - 1];
      ScanEmittable(c, req, st, front);
      StepEmittable(c, req, Scan(c, req, st, front), objs[|objs| - 1]);
    }
  }

  lemma StepEmittable(c: Client, req: Request, st: ScanState, obj: Summary)
    requires AllEmittable(req, st.entries)
    ensures AllEmittable(req, Step(c, req, st, obj).entries)
  {
    match st.pending
    case None =>
    case Some(prev) =>
      var j := Judge(c, req, st.caches, prev, obj);
      ApplyEmittable(req, c.autoDelete, st, prev, obj, j);
  }

  lemma ApplyEmittable(req: Request, autoDelete: bool, st: ScanState, prev: Summary, obj: Summary, j: Judgement)
    requires AllEmittable(req, st.entries)
    ensures AllEmittable(req, Apply(req, autoDelete, st, prev, obj, j).entries)
  {
  }

  /**
   * Every entry of a listing has content unless the listing is full: a
   * zero-length object, a directory marker, is never listed as a file.
   */
  lemma ListEntriesHaveContent(c: Client, req: Request, caches: Caches, pages: seq<seq<Summary>>)
    ensures var r := List(c, req, caches, pages);
      forall i :: 0 <= i < |r.entries| ==> r.entries[i].size > 0 || req.fullListing
    ensures var r := List(c, req, caches, pages);
      forall i :: 0 <= i < |r.entries| && !req.fullListing ==> !ObjectRepresentsDirectory(r.entries[i].key, r.entries[i].size)
  {
    if |pages| > 0 && |pages[0]| > 0 {
      ScanPagesEmittable(c, req, Init(caches), pages);
    }
  }

  lemma {:induction false} ScanPagesEmittable(c: Client, req: Request, st: ScanState, pages: seq<seq<Summary>>)
    requires AllEmittable(req, st.entries)
    ensures AllEmittable(req, ScanPages(c, req, st, pages).entries)
    decreases |pages|
  {
    if |pages| > 0 {
      ScanPagesEmittable(c, req, st, pages[..|pages| - 1]);
      ScanEmittable(c, req, ScanPages(c, req, st, pages[..|pages| - 1]), pages[|pages| - 1]);
    }
  }

  // ---------------------------------------------------------------------------
  // Deletion

  function Keys(objs: seq<Summary>): (r: seq<string>)
    ensures |r| == |objs|
    ensures forall i :: 0 <= i < |objs| ==> r[i] == objs[i].key
    decreases |objs|
  {
    if |objs| == 0 then [] else Keys(objs[..|objs| - 1]) + [objs[|objs| - 1].key]
  }

  /** One step queues at most its own key, and only with automatic delete in a listing that is not full. */
  lemma StepDoomed(c: Client, req: Request, st: ScanState, obj: Summary)
    ensures var d := Step(c, req, st, obj).doomed;
      d == st.doomed || (c.autoDelete && !req.fullListing && d == st.doomed + [obj.key])
  {
    match st.pending
    case None =>
    case Some(prev) =>
      var j := Judge(c, req, st.caches, prev, obj);
      JudgeFailedJob(c, req, st.caches, prev, obj);
      ApplyDoomed(req, c.autoDelete, st, prev, obj, j);
  }

  /** Only a listing that is not full looks at job status. */
  lemma JudgeFailedJob(c: Client, req: Request, caches: Caches, prev: Summary, obj: Summary)
    ensures Judge(c, req, caches, prev, obj).verdict in {FailedJob, SameOutput} ==> !req.fullListing
  {
  }

  lemma ApplyDoomed(req: Request, autoDelete: bool, st: ScanState, prev: Summary, obj: Summary, j: Judgement)
    ensures var d := Apply(req, autoDelete, st, prev, obj, j).doomed;
      if j.verdict == FailedJob && autoDelete then d == st.doomed + [obj.key] else d == st.doomed
  {
  }

  lemma {:induction false} ScanDoomed(c: Client, req: Request, st: ScanState, base: seq<string>, objs: seq<Summary>)
    requires IsSubseq(st.doomed, base)
    ensures IsSubseq(Scan(c, req, st, objs).doomed, base + Keys(objs))
    ensures !c.autoDelete || req.fullListing ==> Scan(c, req, st, objs).doomed == st.doomed
    decreases |objs|
  {
    if |objs| == 0 {
      assert base + Keys(objs) == base;
    } else {
      var front := objs[..|objs| - 1];
      var obj := objs[|objs| - 1];
      ScanDoomed(c, req, st, base, front);
      var mid := Scan(c, req, st, front);
      assert Scan(c, req, st, objs) == Step(c, req, mid, obj);
      StepDoomed(c, req, mid, obj);
      assert Keys(objs) == Keys(front) + [obj.key];
      assert base + Keys(objs) == base + Keys(front) + [obj.key];
      if Step(c, req, mid, obj).doomed == mid.doomed {
        SubseqExtend(mid.doomed, base + Keys(front), obj.key);
      } else {
        SubseqSnoc(mid.doomed, base + Keys(front), obj.key);
      }
    }
  }

  /**
   * The keys a listing deletes are keys of listed summaries, in listing
   * order; none are deleted without automatic delete or in a full listing.
   */
  lemma ListDeletesOnlyListedKeys(c: Client, req: Request, caches: Caches, pages: seq<seq<Summary>>)
    ensures IsSubseq(List(c, req, caches, pages).doomed, Keys(Flatten(pages)))
    ensures !c.autoDelete || req.fullListing ==> List(c, req, caches, pages).doomed == []
  {
    if |pages| > 0 && |pages[0]| > 0 {
      PagingTransparent(c, req, Init(caches), pages);
      ScanDoomed(c, req, Init(caches), [], Flatten(pages));
      assert [] + Keys(Flatten(pages)) == Keys(Flatten(pages));
    }
  }

  // ---------------------------------------------------------------------------
  // Memo tables

  /** Both memo tables agree with the store. */
  predicate CachesSound(store: Store, caches: Caches) {
    Sound(store, JobStatus, caches.jobStatus) && Sound(store, SparkOrigin, caches.sparkOrigin)
  }

  /** Both tables only grow, and agreement with the store survives. */
  predicate CachesGrow(store: Store, a: Caches, b: Caches) {
    Extends(a.jobStatus, b.jobStatus) && Extends(a.sparkOrigin, b.sparkOrigin)
    && (CachesSound(store, a) ==> CachesSound(store, b))
  }

  lemma JudgeCaches(c: Client, req: Request, caches: Caches, prev: Summary, obj: Summary)
    ensures CachesGrow(c.store, caches, Judge(c, req, caches, prev, obj).caches)
  {
    var u := UnifiedObjectName(obj.key, c.validAttempt);
    if InScope(c, req, u) {
      var sameOutput := NameWithoutTaskID(obj.key, c.validAttempt) == NameWithoutTaskID(prev.key, c.validAttempt);
      JudgeInScopeCaches(c.store, req.fullListing, caches, u, sameOutput);
    }
  }

  lemma JudgeInScopeCaches(store: Store, fullListing: bool, caches: Caches, u: string, sameOutput: bool)
    ensures CachesGrow(store, caches, JudgeInScope(store, fullListing, caches, u, sameOutput).caches)
  {
    RecallExtends(store, SparkOrigin, caches.sparkOrigin, u);
    RecallExtends(store, JobStatus, caches.jobStatus, u);
  }

  lemma StepCaches(c: Client, req: Request, st: ScanState, obj: Summary)
    ensures CachesGrow(c.store, st.caches, Step(c, req, st, obj).caches)
  {
    match st.pending
    case None =>
    case Some(prev) =>
      var j := Judge(c, req, st.caches, prev, obj);
      JudgeCaches(c, req, st.caches, prev, obj);
      StepJudged(c, req, st, obj);
      ApplyCaches(req, c.autoDelete, st, prev, obj, j);
  }

  /** A judgement leaves the memo tables as it found them or as the judgement left them. */
  lemma ApplyCaches(req: Request, autoDelete: bool, st: ScanState, prev: Summary, obj: Summary, j: Judgement)
    ensures var r := Apply(req, autoDelete, st, prev, obj, j).caches;
      r == (if j.verdict == OutOfScope then st.caches else j.caches)
  {
  }

  lemma {:induction false} ScanCaches(c: Client, req: Request, st: ScanState, objs: seq<Summary>)
    ensures CachesGrow(c.store, st.caches, Scan(c, req, st, objs).caches)
    decreases |objs|
  {
    if |objs| > 0 {
      var front := objs[..|objs| - 1];
      ScanCaches(c, req, st, front);
      var mid := Scan(c, req, st, front);
      assert Scan(c, req, st, objs) == Step(c, req, mid, objs[|objs| - 1]);
      StepCaches(c, req, mid, objs[|objs| - 1]);
    }
  }

  /**
   * A listing only adds to the memo tables, and tables that agree with the
   * store still agree afterwards.
   */
  lemma ListCaches(c: Client, req: Request, caches: Caches, pages: seq<seq<Summary>>)
    ensures var r := List(c, req, caches, pages);
      Extends(caches.jobStatus, r.caches.jobStatus) && Extends(caches.sparkOrigin, r.caches.sparkOrigin)
    ensures CachesSound(c.store, caches) ==> CachesSound(c.store, List(c, req, caches, pages).caches)
  {
    if |pages| == 0 || |pages[0]| == 0 {
      assert List(c, req, caches, pages).caches == caches;
    }
    if |pages| > 0 && |pages[0]| > 0 {
      PagingTransparent(c, req, Init(caches), pages);
      ScanCaches(c, req, Init(caches), Flatten(pages));
    }
  }

  // ---------------------------------------------------------------------------
  // The fate of one summary

  /** The first summary becomes pending unconditionally: no scope check, no lookup. */
  lemma FirstSummaryPending(c: Client, req: Request, caches: Caches, obj: Summary)
    ensures List(c, req, caches, [[obj]]) == Listing(if Emittable(req, obj) then [obj] else [], [], caches)
  {
    ListIsFlushOfScan(c, req, caches, [[obj]]);
    FlattenOne([obj]);
    ScanFromInit(c, req, caches, [obj]);
    assert [obj][1..] == [];
  }

  /** A listing with a non-empty first page is the flushed scan of all its summaries. */
  lemma ListIsFlushOfScan(c: Client, req: Request, caches: Caches, pages: seq<seq<Summary>>)
    requires |pages| > 0 && |pages[0]| > 0
    ensures var st := Scan(c, req, Init(caches), Flatten(pages));
      List(c, req, caches, pages) == Listing(Flush(req, st), st.doomed, st.caches)
  {
    PagingTransparent(c, req, Init(caches), pages);
  }

  lemma FlattenOne(page: seq<Summary>)
    ensures Flatten([page]) == page
  {
    assert [page][..0] == [];
  }

  /** The first summary of a listing becomes pending and the scan goes on from there. */
  lemma ScanFromInit(c: Client, req: Request, caches: Caches, objs: seq<Summary>)
    requires |objs| > 0
    ensures Scan(c, req, Init(caches), objs) == Scan(c, req, Init(caches).(pending := Some(objs[0])), objs[1..])
  {
    assert [objs[0]] + objs[1..] == objs;
    ScanAppend(c, req, Init(caches), [objs[0]], objs[1..]);
    assert [objs[0]][..0] == [];
    assert Scan(c, req, Init(caches), [objs[0]]) == Step(c, req, Init(caches), objs[0]);
  }

  /** A later summary whose unified name is outside the scope changes nothing. */
  lemma OutOfScopeSkipped(c: Client, req: Request, st: ScanState, obj: Summary)
    requires st.pending.Some?
    requires !req.prefixBased && Scope(c, req) != "" && !EndsWith(req.path, "/")
    requires var u := UnifiedObjectName(obj.key, c.validAttempt);
      u != Scope(c, req) && !StartsWith(u, Scope(c, req) + "/")
    ensures Step(c, req, st, obj) == st
  {
  }

  /**
   * The fate of `obj` after the pending `prev` as the store decides it right
   * now, with no memo table in between.
   */
  function Fate(c: Client, req: Request, prev: Summary, obj: Summary): Verdict {
    var u := UnifiedObjectName(obj.key, c.validAttempt);
    if !InScope(c, req, u) then OutOfScope
    else if Fact(c.store, SparkOrigin, u) && !req.fullListing then
      if !Fact(c.store, JobStatus, u) then FailedJob
      else if NameWithoutTaskID(obj.key, c.validAttempt) == NameWithoutTaskID(prev.key, c.validAttempt) then SameOutput
      else Accepted
    else Accepted
  }

  /**
   * Over memo tables that agree with the store, a judgement is the store's
   * verdict, and the tables still agree afterwards.
   */
  lemma JudgeSound(c: Client, req: Request, caches: Caches, prev: Summary, obj: Summary)
    requires CachesSound(c.store, caches)
    ensures Judge(c, req, caches, prev, obj).verdict == Fate(c, req, prev, obj)
    ensures CachesSound(c.store, Judge(c, req, caches, prev, obj).caches)
  {
    var u := UnifiedObjectName(obj.key, c.validAttempt);
    if InScope(c, req, u) {
      var sameOutput := NameWithoutTaskID(obj.key, c.validAttempt) == NameWithoutTaskID(prev.key, c.validAttempt);
      JudgeInScopeSound(c.store, req.fullListing, caches, u, sameOutput);
    }
  }

  /** The lookups of a judgement, over tables that agree with the store, read the store. */
  lemma JudgeInScopeSound(store: Store, fullListing: bool, caches: Caches, u: string, sameOutput: bool)
    requires CachesSound(store, caches)
    ensures var j := JudgeInScope(store, fullListing, caches, u, sameOutput);
      CachesSound(store, j.caches)
      && j.verdict == if Fact(store, SparkOrigin, u) && !fullListing then
        (if !Fact(store, JobStatus, u) then FailedJob else if sameOutput then SameOutput else Accepted)
      else Accepted
  {
    RecallTransparent(store, SparkOrigin, caches.sparkOrigin, u);
    RecallTransparent(store, JobStatus, caches.jobStatus, u);
  }

  /** A step after a pending summary applies the judgement of the new one. */
  lemma StepJudged(c: Client, req: Request, st: ScanState, obj: Summary)
    requires st.pending.Some?
    ensures var prev := st.pending.value;
      Step(c, req, st, obj) == Apply(req, c.autoDelete, st, prev, obj, Judge(c, req, st.caches, prev, obj))
  {
  }

  /**
   * Output of a failed job (written by this connector, no `_SUCCESS` for its
   * unified name) is neither emitted nor made pending in a listing that is
   * not full; it is queued for deletion exactly when automatic delete is on.
   */
  lemma FailedJobOutputDropped(c: Client, req: Request, st: ScanState, obj: Summary)
    requires st.pending.Some? && !req.fullListing
    requires CachesSound(c.store, st.caches)
    requires var u := UnifiedObjectName(obj.key, c.validAttempt);
      InScope(c, req, u) && Fact(c.store, SparkOrigin, u) && !Fact(c.store, JobStatus, u)
    ensures var st' := Step(c, req, st, obj);
      st'.pending == st.pending && st'.entries == st.entries
      && st'.doomed == st.doomed + (if c.autoDelete then [obj.key] else [])
  {
    var prev := st.pending.value;
    JudgeSound(c, req, st.caches, prev, obj);
    StepJudged(c, req, st, obj);
  }

  /**
   * Two attempts at the same output (same `nameWithoutTaskID`) in a listing
   * that is not full, from a successful job: the strictly larger one becomes
   * (or stays) pending, a tie keeps the earlier one, and nothing is emitted.
   */
  lemma AttemptCollisionKeepsLarger(c: Client, req: Request, st: ScanState, obj: Summary)
    requires st.pending.Some? && !req.fullListing
    requires CachesSound(c.store, st.caches)
    requires var u := UnifiedObjectName(obj.key, c.validAttempt);
      InScope(c, req, u) && Fact(c.store, SparkOrigin, u) && Fact(c.store, JobStatus, u)
    requires NameWithoutTaskID(obj.key, c.validAttempt) == NameWithoutTaskID(st.pending.value.key, c.validAttempt)
    ensures var st' := Step(c, req, st, obj);
      st'.entries == st.entries && st'.doomed == st.doomed
      && st'.pending == Some(if st.pending.value.size < obj.size then obj else st.pending.value)
  {
    var prev := st.pending.value;
    var j := Judge(c, req, st.caches, prev, obj);
    JudgeSound(c, req, st.caches, prev, obj);
    assert j.verdict == SameOutput;
    StepJudged(c, req, st, obj);
    ApplySameOutput(req, c.autoDelete, st, prev, obj, j);
  }

  /** A second attempt at the pending output keeps the larger of the two and emits and deletes nothing. */
  lemma ApplySameOutput(req: Request, autoDelete: bool, st: ScanState, prev: Summary, obj: Summary, j: Judgement)
    requires j.verdict == SameOutput
    ensures var st' := Apply(req, autoDelete, st, prev, obj, j);
      st'.entries == st.entries && st'.doomed == st.doomed
      && st'.pending == Some(if prev.size < obj.size then obj else prev)
  {
  }

  /**
   * A summary that is in scope and is neither failed-job output nor a second
   * attempt at the pending output flushes the pending summary (if it has
   * content or the listing is full) and becomes pending itself.
   */
  lemma AcceptedSummaryAdvances(c: Client, req: Request, st: ScanState, obj: Summary)
    requires st.pending.Some?
    requires CachesSound(c.store, st.caches)
    requires var u := UnifiedObjectName(obj.key, c.validAttempt);
      InScope(c, req, u)
      && (req.fullListing || !Fact(c.store, SparkOrigin, u)
          || (Fact(c.store, JobStatus, u)
              && NameWithoutTaskID(obj.key, c.validAttempt) != NameWithoutTaskID(st.pending.value.key, c.validAttempt)))
    ensures var st' := Step(c, req, st, obj);
      st'.pending == Some(obj) && st'.doomed == st.doomed
      && st'.entries == st.entries + (if st.pending.value.size > 0 || req.fullListing then [st.pending.value] else [])
  {
    var prev := st.pending.value;
    JudgeSound(c, req, st.caches, prev, obj);
    StepJudged(c, req, st, obj);
  }

  /**
   * Collision resolution does not depend on the order of the attempts: a
   * one-page listing of two attempts at the same output of a successful job,
   * with different sizes, lists exactly the larger one, whichever comes first.
   */
  lemma CollisionIndependentOfOrder(c: Client, req: Request, caches: Caches, a: Summary, b: Summary)
    requires !req.fullListing && a.size != b.size
    requires CachesSound(c.store, caches)
    requires NameWithoutTaskID(a.key, c.validAttempt) == NameWithoutTaskID(b.key, c.validAttempt)
    requires forall s :: s in [a, b] ==>
      var u := UnifiedObjectName(s.key, c.validAttempt);
      InScope(c, req, u) && Fact(c.store, SparkOrigin, u) && Fact(c.store, JobStatus, u)
    ensures var larger := if a.size < b.size then b else a;
      List(c, req, caches, [[a, b]]).entries == (if larger.size > 0 then [larger] else [])
    ensures List(c, req, caches, [[a, b]]).entries == List(c, req, caches, [[b, a]]).entries
  {
    TwoAttempts(c, req, caches, a, b);
    TwoAttempts(c, req, caches, b, a);
  }

  /**
   * Two attempts at the same output on one page, the second of successful
   * Spark output: the listing holds only the larger, and only when it has
   * content.
   */
  lemma TwoAttempts(c: Client, req: Request, caches: Caches, x: Summary, y: Summary)
    requires !req.fullListing && x.size != y.size
    requires CachesSound(c.store, caches)
    requires NameWithoutTaskID(x.key, c.validAttempt) == NameWithoutTaskID(y.key, c.validAttempt)
    requires var u := UnifiedObjectName(y.key, c.validAttempt);
      InScope(c, req, u) && Fact(c.store, SparkOrigin, u) && Fact(c.store, JobStatus, u)
    ensures var larger := if x.size < y.size then y else x;
      List(c, req, caches, [[x, y]]).entries == (if larger.size > 0 then [larger] else [])
  {
    var larger := if x.size < y.size then y else x;
    var st := Init(caches).(pending := Some(x));
    var st' := Step(c, req, st, y);
    ListOfTwo(c, req, caches, x, y);
    assert List(c, req, caches, [[x, y]]).entries == Flush(req, st');
    AttemptCollisionKeepsLarger(c, req, st, y);
    assert st'.pending == Some(larger);
    assert st'.entries == [];
    FlushOne(req, st', larger);
  }

  /** Flushing a state with no entries and one pending summary lists that summary when it is emittable. */
  lemma FlushOne(req: Request, st: ScanState, s: Summary)
    requires !req.fullListing && st.entries == [] && st.pending == Some(s)
    ensures Flush(req, st) == (if s.size > 0 then [s] else [])
  {
  }

  /** A one-page listing of two summaries is the step over the second with the first pending, flushed. */
  lemma ListOfTwo(c: Client, req: Request, caches: Caches, x: Summary, y: Summary)
    ensures var st := Step(c, req, Init(caches).(pending := Some(x)), y);
      List(c, req, caches, [[x, y]]) == Listing(Flush(req, st), st.doomed, st.caches)
  {
    ListIsFlushOfScan(c, req, caches, [[x, y]]);
    FlattenOne([x, y]);
    ScanFromInit(c, req, caches, [x, y]);
    var st1 := Init(caches).(pending := Some(x));
    assert [x, y][1..] == [y];
    assert [y][..0] == [];
    assert Scan(c, req, st1, [y]) == Step(c, req, st1, y);
  }

  // ---------------------------------------------------------------------------
  // A full listing is a scope filter

  /** The summaries of `objs` whose unified names are in scope, in order. */
  function InScopeOnly(c: Client, req: Request, objs: seq<Summary>): (r: seq<Summary>)
    decreases |objs|
  {
    if |objs| == 0 then []
    else
      var last := objs[|objs| - 1];
      InScopeOnly(c, req, objs[..|objs| - 1])
      + (if InScope(c, req, UnifiedObjectName(last.key, c.validAttempt)) then [last] else [])
  }

  lemma {:induction false} FullScan(c: Client, req: Request, st: ScanState, objs: seq<Summary>)
    requires req.fullListing && st.pending.Some?
    ensures var st' := Scan(c, req, st, objs);
      st'.pending.Some?
      && st'.entries + [st'.pending.value] == st.entries + [st.pending.value] + InScopeOnly(c, req, objs)
      && st'.doomed == st.doomed
    decreases |objs|
  {
    if |objs| > 0 {
      var front := objs[..|objs| - 1];
      var obj := objs[|objs| - 1];
      FullScan(c, req, st, front);
      var mid := Scan(c, req, st, front);
      assert Scan(c, req, st, objs) == Step(c, req, mid, obj);
      FullStep(c, req, mid, obj);
      assert InScopeOnly(c, req, objs) == InScopeOnly(c, req, front)
        + (if InScope(c, req, UnifiedObjectName(obj.key, c.validAttempt)) then [obj] else []);
    }
  }

  /** In a full listing a judgement is about scope alone. */
  lemma JudgeFull(c: Client, req: Request, caches: Caches, prev: Summary, obj: Summary)
    requires req.fullListing
    ensures var v := Judge(c, req, caches, prev, obj).verdict;
      v in {OutOfScope, Accepted} && (v == Accepted <==> InScope(c, req, UnifiedObjectName(obj.key, c.validAttempt)))
  {
  }

  /** In a full listing every in-scope summary flushes the pending one and takes its place. */
  lemma FullStep(c: Client, req: Request, st: ScanState, obj: Summary)
    requires req.fullListing && st.pending.Some?
    ensures var st' := Step(c, req, st, obj);
      st'.pending.Some? && st'.doomed == st.doomed
      && st'.entries + [st'.pending.value] == st.entries + [st.pending.value]
        + (if InScope(c, req, UnifiedObjectName(obj.key, c.validAttempt)) then [obj] else [])
  {
    var prev := st.pending.value;
    var j := Judge(c, req, st.caches, prev, obj);
    JudgeFull(c, req, st.caches, prev, obj);
    assert Step(c, req, st, obj) == Apply(req, c.autoDelete, st, prev, obj, j);
  }

  /**
   * With `fullListing`, nothing is filtered but the scope: the listing is the
   * first summary followed by every later summary whose unified name is in
   * scope, zero-length ones and failed-job output included.
   */
  lemma FullListingIsScopeFilter(c: Client, req: Request, caches: Caches, pages: seq<seq<Summary>>)
    requires req.fullListing && |pages| > 0 && |pages[0]| > 0
    ensures var flat := Flatten(pages);
      |flat| > 0 && List(c, req, caches, pages).entries == [flat[0]] + InScopeOnly(c, req, flat[1..])
  {
    var flat := Flatten(pages);
    FlattenStartsWithFirstPage(pages);
    ListIsFlushOfScan(c, req, caches, pages);
    ScanFromInit(c, req, caches, flat);
    FullScan(c, req, Init(caches).(pending := Some(flat[0])), flat[1..]);
  }

  lemma {:induction false} FlattenStartsWithFirstPage(pages: seq<seq<Summary>>)
    requires |pages| > 0
    ensures |Flatten(pages)| >= |pages[0]|
    ensures Flatten(pages)[..|pages[0]|] == pages[0]
    decreases |pages|
  {
    if |pages| == 1 {
      assert pages[..0] == [];
    } else {
      var front := pages[..|pages| - 1];
      FlattenStartsWithFirstPage(front);
      assert front[0] == pages[0];
      assert Flatten(pages)[..|pages[0]|] == Flatten(front)[..|pages[0]|];
    }
  }
}
