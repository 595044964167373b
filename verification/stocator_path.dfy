/**
 * `StocatorPath`: the resolver that recognises the staging layout of
 * Hadoop's file output committer and maps a staged path to the key its
 * output finally lives under.
 *
 * A path is read as the sequence of its `/`-separated segments once the
 * connector's host prefix (`swift2d://a.service/`, say) is taken off. The one
 * staging template is `_temporary/<job id>/_temporary/attempt_<id>/`, and it
 * is matched at the first `_temporary` segment of the path:
 *   - no `_temporary` segment, or one followed by segments that break the
 *     template (`attampt_...` for `attempt_...`): a final path, left as it is;
 *   - the path stops inside the template (`.../_temporary/0`): a job-level
 *     staging directory, which resolves to the base directory followed by
 *     the job id;
 *   - the whole template is present: a task-level path, whose segments below
 *     the attempt directory are kept and whose leaf may carry the attempt id.
 */
module StocatorPath {
  import opened Strings

  /** `HADOOP_TEMPORARY`: the staging directory name. */
  const Temporary := "_temporary"
  /** The prefix of a task-attempt directory. */
  const AttemptPrefix := "attempt_"
  /** What separates a name from an attempt id embedded in it. */
  const TaskIdMarker := "-attempt_"
  /** The text `getBaseDirectory` truncates at. */
  const BaseMarker := "/_temporary"

  /** How a path relates to the staging template. */
  datatype Shape =
    | Final
    | JobLevel(base: seq<string>, rest: seq<string>)
    | TaskLevel(base: seq<string>, job: string, attempt: string, rel: seq<string>)

  /** The segments of a task-level path: base, the whole template, then the segments below the attempt directory. */
  function Staged(base: seq<string>, job: string, attempt: string, rel: seq<string>): seq<string> {
    base + [Temporary, job, Temporary, attempt] + rel
  }

  /** Where a path stands with respect to the template, matched at its first `_temporary` segment. */
  function Classify(segs: seq<string>): (r: Shape)
    ensures r.TaskLevel? ==>
      segs == Staged(r.base, r.job, r.attempt, r.rel) && Temporary !in r.base && StartsWith(r.attempt, AttemptPrefix)
    ensures r.JobLevel? ==>
      segs == r.base + [Temporary] + r.rest && Temporary !in r.base && |r.rest| <= 2
      && (|r.rest| == 2 ==> r.rest[1] == Temporary)
    ensures Temporary !in segs ==> r.Final?
  {
    var i := FirstIndex(segs, Temporary);
    if i < 0 then
      Final
    else
      var base, tail := segs[..i], segs[i + 1..];
      assert segs == base + [Temporary] + tail;
      assert forall j :: 0 <= j < |base| ==> base[j] == segs[j];
      if |tail| >= 3 then
        if tail[1] == Temporary && StartsWith(tail[2], AttemptPrefix) then
          assert tail == [tail[0], Temporary, tail[2]] + tail[3..];
          TaskLevel(base, tail[0], tail[2], tail[3..])
        else Final
      else if |tail| == 2 && tail[1] != Temporary then Final
      else JobLevel(base, tail)
  }

  // ---------------------------------------------------------------------------
  // Embedding the attempt id in a name

  /** The leaf name before its first `.`. */
  function Stem(leaf: string): (r: string)
    ensures StartsWith(leaf, r) && '.' !in r
  {
    var d := FirstIndex(leaf, '.');
    if d < 0 then leaf else leaf[..d]
  }

  /** The leaf name from its first `.` on (`.snappy.parquet` stays whole), or nothing. */
  function Extension(leaf: string): (r: string)
    ensures leaf == Stem(leaf) + r
    ensures r == "" || r[0] == '.'
  {
    var d := FirstIndex(leaf, '.');
    if d < 0 then "" else leaf[d..]
  }

  /** A leaf read back from a stem without `.` and an extension: the split is at the seam. */
  lemma StemAndExtension(stem: string, ext: string)
    requires '.' !in stem && (ext == "" || ext[0] == '.')
    ensures Stem(stem + ext) == stem && Extension(stem + ext) == ext
  {
    var leaf := stem + ext;
    if ext == "" {
      assert leaf == stem;
      IndexOfCharMissing(leaf, '.');
    } else {
      assert leaf == stem + ['.'] + ext[1..];
      IndexOfCharAfter(stem, '.', ext[1..]);
      assert leaf[..|stem|] == stem;
    }
  }

  /** `-<attempt id>` inserted before the first `.` of the leaf, or appended when it has none. */
  function EmbedAttempt(leaf: string, attempt: string): string {
    Stem(leaf) + "-" + attempt + Extension(leaf)
  }

  /** The attempt id can be read back from an embedded name: distinct attempts give distinct names. */
  lemma EmbedAttemptInjective(leaf: string, a: string, b: string)
    requires EmbedAttempt(leaf, a) == EmbedAttempt(leaf, b)
    ensures a == b
  {
    var x, y := EmbedAttempt(leaf, a), EmbedAttempt(leaf, b);
    var n := |Stem(leaf)| + 1;
    assert |a| == |b|;
    assert x[n..n + |a|] == a;
    assert y[n..n + |b|] == b;
  }

  /** Embedding keeps a segment a segment when the attempt id is one. */
  lemma EmbedAttemptSegment(leaf: string, attempt: string)
    requires IsSegment(leaf) && IsSegment(attempt)
    ensures IsSegment(EmbedAttempt(leaf, attempt))
  {
    var stem, ext := Stem(leaf), Extension(leaf);
    assert forall j :: 0 <= j < |stem| ==> stem[j] == leaf[j];
    assert forall j :: 0 <= j < |ext| ==> ext[j] == leaf[|stem| + j];
    assert '/' !in stem && '/' !in ext;
  }

  /** No `.` in the marker: the first `.` after it lies past its end. */
  lemma MarkerHasNoDot(tail: string)
    requires StartsWith(tail, TaskIdMarker)
    ensures FirstIndex(tail, '.') < 0 || FirstIndex(tail, '.') >= |TaskIdMarker|
  {
    assert forall j :: 0 <= j < |TaskIdMarker| ==> tail[j] == TaskIdMarker[j];
  }

  /**
   * `StocatorPath.nameWithoutTaskID`: `-attempt_<id>` cut out of the name,
   * the extension after it kept; a name without `-attempt_` is unchanged.
   * The id runs to the first `.` after the marker, or to the end.
   */
  function NameWithoutTaskID(name: string): (r: string)
    ensures r == name <==> IndexOf(name, TaskIdMarker) == -1
    ensures IndexOf(name, TaskIdMarker) >= 0 ==>
      |r| <= |name| - |TaskIdMarker| && StartsWith(r, name[..IndexOf(name, TaskIdMarker)])
  {
    var i := IndexOf(name, TaskIdMarker);
    if i < 0 then name
    else
      var tail := name[i..];
      assert tail[..|TaskIdMarker|] == name[i..i + |TaskIdMarker|];
      MarkerHasNoDot(tail);
      var d := FirstIndex(tail, '.');
      if d < 0 then name[..i] else name[..i] + tail[d..]
  }

  /**
   * Cutting the attempt id out of a name it was embedded in gives the name
   * back, as long as the id has no `.` and the stem held no `-attempt_`.
   */
  lemma NameWithoutTaskIDUndoesEmbed(leaf: string, attempt: string)
    requires StartsWith(attempt, AttemptPrefix) && '.' !in attempt
    requires IndexOf(Stem(leaf), TaskIdMarker) == -1
    ensures NameWithoutTaskID(EmbedAttempt(leaf, attempt)) == leaf
  {
    var stem, ext := Stem(leaf), Extension(leaf);
    var b := "-" + attempt + ext;
    var s := EmbedAttempt(leaf, attempt);
    assert s == stem + b;
    CutEmbeddedId(stem, b, attempt, ext);
  }

  /** `-<attempt id>` between a stem and an extension (possibly empty) is cut out. */
  lemma CutEmbeddedId(stem: string, b: string, attempt: string, ext: string)
    requires b == "-" + attempt + ext && StartsWith(attempt, AttemptPrefix) && '.' !in attempt
    requires IndexOf(stem, TaskIdMarker) == -1
    requires ext == "" || ext[0] == '.'
    ensures NameWithoutTaskID(stem + b) == stem + ext
  {
    var s := stem + b;
    EmbeddedMarkerAt(stem, b, attempt, ext);
    FirstDotAfterMarker(attempt, ext);
    assert s[..|stem|] == stem;
    assert s[|stem|..] == b;
    var r := NameWithoutTaskID(s);
    if ext == "" {
      assert r == stem;
    } else {
      assert b[1 + |attempt|..] == ext;
      assert r == stem + ext;
    }
  }

  /** The marker of an embedded id is the first one in the name. */
  lemma EmbeddedMarkerAt(stem: string, b: string, attempt: string, ext: string)
    requires b == "-" + attempt + ext && StartsWith(attempt, AttemptPrefix)
    requires IndexOf(stem, TaskIdMarker) == -1
    ensures IndexOf(stem + b, TaskIdMarker) == |stem|
  {
    assert b[..|TaskIdMarker|] == "-" + attempt[..|AttemptPrefix|];
    assert forall j :: 1 <= j < |TaskIdMarker| ==> TaskIdMarker[j] != TaskIdMarker[0];
    IndexOfAtSeam(stem, b, TaskIdMarker);
  }

  /** The first `.` after an embedded id (which holds none) opens the extension. */
  lemma FirstDotAfterMarker(attempt: string, ext: string)
    requires '.' !in attempt && (ext == "" || ext[0] == '.')
    ensures var b := "-" + attempt + ext;
      FirstIndex(b, '.') == if ext == "" then -1 else 1 + |attempt|
  {
    var b := "-" + attempt + ext;
    if ext == "" {
      assert '.' !in b;
      IndexOfCharMissing(b, '.');
    } else {
      assert b == ("-" + attempt) + ['.'] + ext[1..];
      IndexOfCharAfter("-" + attempt, '.', ext[1..]);
    }
  }

  // ---------------------------------------------------------------------------
  // Resolution

  /** The segments a staged path finally resolves to. */
  function FinalSegments(segs: seq<string>, embed: bool): seq<string> {
    match Classify(segs)
    case Final => segs
    case JobLevel(base, rest) => base + (if |rest| == 0 then [] else [rest[0]])
    case TaskLevel(base, _, attempt, rel) =>
      if |rel| == 0 then base
      else
        var leaf := rel[|rel| - 1];
        base + rel[..|rel| - 1] + [if embed then EmbedAttempt(leaf, attempt) else leaf]
  }

  /** The path with the host prefix taken off, when it has it. */
  function StripHost(p: string, hostName: string): (r: string)
    ensures EndsWith(p, r)
  {
    if StartsWith(p, hostName) then p[|hostName|..] else p
  }

  /** The segments of a path below the host. */
  function PathSegments(p: string, hostName: string): seq<string> {
    Split(StripHost(p, hostName))
  }

  /** `isTemporaryPath`: the path lies in, or is, a staging directory. */
  predicate IsTemporaryPath(p: string, hostName: string) {
    !Classify(PathSegments(p, hostName)).Final?
  }

  /** `isTemporaryPathTarget`: the path is a task-attempt directory itself. */
  predicate IsTemporaryPathTarget(p: string, hostName: string) {
    var shape := Classify(PathSegments(p, hostName));
    shape.TaskLevel? && shape.rel == []
  }

  /**
   * `extractNameFromTempPath(p, addTaskId, hostName)`: the object name a
   * staged path resolves to, relative to the host; a path that is not staged
   * keeps its name.
   */
  function ExtractNameFromTempPath(p: string, addTaskId: bool, hostName: string): (r: string)
    ensures !IsTemporaryPath(p, hostName) ==> r == Join(PathSegments(p, hostName))
  {
    Join(FinalSegments(PathSegments(p, hostName), addTaskId))
  }

  /**
   * `extractFinalKeyFromTemporaryPath(p, addTaskId, dataRoot, withRootPrefix)`:
   * the resolved name, under `<dataRoot>/` when `withRootPrefix`.
   */
  function ExtractFinalKeyFromTemporaryPath(p: string, addTaskId: bool, dataRoot: string, withRootPrefix: bool,
                                            hostName: string): (r: string)
    ensures EndsWith(r, ExtractNameFromTempPath(p, addTaskId, hostName))
    ensures withRootPrefix ==> StartsWith(r, dataRoot + "/") && |r| == |dataRoot| + 1 + |ExtractNameFromTempPath(p, addTaskId, hostName)|
    ensures !withRootPrefix ==> r == ExtractNameFromTempPath(p, addTaskId, hostName)
  {
    var name := ExtractNameFromTempPath(p, addTaskId, hostName);
    if withRootPrefix then
      assert (dataRoot + "/" + name)[..|dataRoot + "/"|] == dataRoot + "/";
      dataRoot + "/" + name
    else name
  }

  /** `modifyPathToFinalDestination`: the resolved name, attempt id embedded, back under the host. */
  function ModifyPathToFinalDestination(p: string, hostName: string): (r: string)
    ensures StartsWith(r, hostName)
    ensures StripHost(r, hostName) == ExtractNameFromTempPath(p, true, hostName)
  {
    var r := hostName + ExtractNameFromTempPath(p, true, hostName);
    assert r[..|hostName|] == hostName;
    r
  }

  /** `getBaseDirectory`: the path cut at its first `/_temporary`; a path without one is its own base. */
  function GetBaseDirectory(p: string): (r: string)
    ensures StartsWith(p, r)
    ensures r == p <==> IndexOf(p, BaseMarker) == -1
    ensures IndexOf(r, BaseMarker) == -1
    ensures r != p ==> |r| == IndexOf(p, BaseMarker)
  {
    var i := IndexOf(p, BaseMarker);
    if i < 0 then p
    else
      var r := p[..i];
      forall k | 0 <= k
        ensures !OccursAt(r, BaseMarker, k)
      {
        if k + |BaseMarker| <= |r| {
          OccursInFront(r, p[i..], BaseMarker, k);
          assert r + p[i..] == p;
        }
      }
      r
  }

  /**
   * A directory holding no `/_temporary`, followed by `/_temporary` and
   * anything at all, has that directory as its base: `/` recurs nowhere in
   * the marker, so no occurrence can straddle the seam.
   */
  lemma BaseDirectoryCutsAtMarker(d: string, rest: string)
    requires IndexOf(d, BaseMarker) == -1
    ensures GetBaseDirectory(d + BaseMarker + rest) == d
  {
    assert forall j :: 1 <= j < |BaseMarker| ==> BaseMarker[j] != BaseMarker[0];
    assert StartsWith(BaseMarker + rest, BaseMarker);
    assert d + BaseMarker + rest == d + (BaseMarker + rest);
    IndexOfAtSeam(d, BaseMarker + rest, BaseMarker);
  }

  // ---------------------------------------------------------------------------
  // Properties of resolution

  /** Reading a staged segment sequence recovers its parts. */
  lemma ClassifyStaged(base: seq<string>, job: string, attempt: string, rel: seq<string>)
    requires Temporary !in base && StartsWith(attempt, AttemptPrefix)
    ensures Classify(Staged(base, job, attempt, rel)) == TaskLevel(base, job, attempt, rel)
  {
    var segs := Staged(base, job, attempt, rel);
    var i := FirstIndex(segs, Temporary);
    assert segs[|base|] == Temporary;
    assert forall j :: 0 <= j < |base| ==> segs[j] == base[j];
    assert i == |base|;
    assert segs[..i] == base;
    assert segs[i + 1..] == [job, Temporary, attempt] + rel;
  }

  /** A staged path is a segment list exactly when its parts are. */
  lemma StagedSegments(base: seq<string>, job: string, attempt: string, rel: seq<string>)
    ensures AllSegments(Staged(base, job, attempt, rel))
      <==> AllSegments(base) && IsSegment(job) && IsSegment(attempt) && AllSegments(rel)
  {
    var mid := [Temporary, job, Temporary, attempt];
    AllSegmentsAppend(base + mid, rel);
    AllSegmentsAppend(base, mid);
    assert AllSegments(mid) <==> IsSegment(job) && IsSegment(attempt) by {
      assert mid[0] == Temporary && mid[1] == job && mid[2] == Temporary && mid[3] == attempt;
      assert IsSegment(Temporary);
    }
  }

  /** A staged path of segments stays a segment list when resolved. */
  lemma FinalSegmentsAreSegments(segs: seq<string>, embed: bool)
    requires AllSegments(segs)
    ensures AllSegments(FinalSegments(segs, embed))
  {
    match Classify(segs)
    case Final =>
    case JobLevel(base, rest) => JobLevelSegments(base, rest);
    case TaskLevel(base, job, attempt, rel) => TaskLevelSegments(base, job, attempt, rel, embed);
  }

  lemma JobLevelSegments(base: seq<string>, rest: seq<string>)
    requires AllSegments(base + [Temporary] + rest)
    ensures AllSegments(base + (if |rest| == 0 then [] else [rest[0]]))
  {
    AllSegmentsAppend(base + [Temporary], rest);
    AllSegmentsAppend(base, [Temporary]);
    var kept := if |rest| == 0 then [] else [rest[0]];
    assert AllSegments(kept);
    AllSegmentsAppend(base, kept);
  }

  lemma TaskLevelSegments(base: seq<string>, job: string, attempt: string, rel: seq<string>, embed: bool)
    requires AllSegments(Staged(base, job, attempt, rel))
    ensures |rel| > 0 ==> var leaf := rel[|rel| - 1];
      AllSegments(base + rel[..|rel| - 1] + [if embed then EmbedAttempt(leaf, attempt) else leaf])
    ensures AllSegments(base)
  {
    StagedSegments(base, job, attempt, rel);
    if |rel| > 0 {
      var leaf := rel[|rel| - 1];
      var dirs := rel[..|rel| - 1];
      assert rel == dirs + [leaf];
      AllSegmentsAppend(dirs, [leaf]);
      var leaf' := if embed then EmbedAttempt(leaf, attempt) else leaf;
      if embed {
        EmbedAttemptSegment(leaf, attempt);
      }
      assert AllSegments([leaf']);
      AllSegmentsAppend(base, dirs);
      AllSegmentsAppend(base + dirs, [leaf']);
    }
  }

  /** The name of a host path is the joined segments after the host. */
  lemma HostPathSegments(hostName: string, segs: seq<string>)
    requires AllSegments(segs)
    ensures PathSegments(hostName + Join(segs), hostName) == segs
  {
    var p := hostName + Join(segs);
    assert p[..|hostName|] == hostName;
    assert p[|hostName|..] == Join(segs);
    SplitJoin(segs);
  }

  /**
   * The task-level resolution, stated on the staged path: the base
   * directory, then every segment between the attempt directory and the
   * leaf character for character, then the leaf, carrying the attempt id
   * when asked to. The attempt directory itself resolves to the base.
   */
  lemma {:induction false} ResolveStaged(hostName: string, base: seq<string>, job: string, attempt: string, rel: seq<string>, embed: bool)
    requires AllSegments(base) && AllSegments(rel) && IsSegment(job) && IsSegment(attempt)
    requires Temporary !in base && StartsWith(attempt, AttemptPrefix)
    ensures var p := hostName + Join(Staged(base, job, attempt, rel));
      IsTemporaryPath(p, hostName) && (IsTemporaryPathTarget(p, hostName) <==> rel == [])
    ensures var p := hostName + Join(Staged(base, job, attempt, rel));
      rel == [] ==> ExtractNameFromTempPath(p, embed, hostName) == Join(base)
    ensures var p := hostName + Join(Staged(base, job, attempt, rel));
      rel != [] ==> var leaf := rel[|rel| - 1];
        ExtractNameFromTempPath(p, embed, hostName)
        == Join(base + rel[..|rel| - 1] + [if embed then EmbedAttempt(leaf, attempt) else leaf])
  {
    var segs := Staged(base, job, attempt, rel);
    StagedSegments(base, job, attempt, rel);
    HostPathSegments(hostName, segs);
    ClassifyStaged(base, job, attempt, rel);
  }

  /**
   * A job-level staging directory (`<base>/_temporary/<job id>`) is staging
   * but no attempt directory, and resolves to the base directory followed by
   * the job id.
   */
  lemma ResolveJobLevel(hostName: string, base: seq<string>, job: string, embed: bool)
    requires AllSegments(base) && IsSegment(job) && Temporary !in base
    ensures var p := hostName + Join(base + [Temporary, job]);
      IsTemporaryPath(p, hostName) && !IsTemporaryPathTarget(p, hostName)
      && ExtractNameFromTempPath(p, embed, hostName) == Join(base + [job])
  {
    var segs := base + [Temporary, job];
    var p := hostName + Join(segs);
    AllSegmentsAppend(base, [Temporary, job]);
    HostPathSegments(hostName, segs);
    assert PathSegments(p, hostName) == segs;
    ClassifyJobLevel(base, job);
    assert FinalSegments(segs, embed) == base + [job];
  }

  /** Reading a job-level segment sequence recovers base and job id. */
  lemma ClassifyJobLevel(base: seq<string>, job: string)
    requires Temporary !in base
    ensures Classify(base + [Temporary, job]) == JobLevel(base, [job])
  {
    var segs := base + [Temporary, job];
    var i := FirstIndex(segs, Temporary);
    assert segs[|base|] == Temporary;
    assert forall j :: 0 <= j < |base| ==> segs[j] == base[j];
    assert i == |base|;
    assert segs[..i] == base;
    assert segs[i + 1..] == [job];
  }

  /**
   * A staging template broken at the attempt directory (`attampt_...` for
   * `attempt_...`) is no staging at all: the path keeps its name.
   */
  lemma ResolveBrokenTemplate(hostName: string, base: seq<string>, job: string, other: string, rel: seq<string>, embed: bool)
    requires AllSegments(Staged(base, job, other, rel)) && Temporary !in base && !StartsWith(other, AttemptPrefix)
    ensures var p := hostName + Join(Staged(base, job, other, rel));
      !IsTemporaryPath(p, hostName) && ExtractNameFromTempPath(p, embed, hostName) == Join(Staged(base, job, other, rel))
  {
    var segs := Staged(base, job, other, rel);
    var p := hostName + Join(segs);
    HostPathSegments(hostName, segs);
    assert PathSegments(p, hostName) == segs;
    ClassifyBrokenTemplate(base, job, other, rel);
    assert FinalSegments(segs, embed) == segs;
  }

  /** A staged sequence whose attempt directory lacks `attempt_` is read as a final path. */
  lemma ClassifyBrokenTemplate(base: seq<string>, job: string, other: string, rel: seq<string>)
    requires Temporary !in base && !StartsWith(other, AttemptPrefix)
    ensures Classify(Staged(base, job, other, rel)).Final?
  {
    var segs := Staged(base, job, other, rel);
    var i := FirstIndex(segs, Temporary);
    assert segs[|base|] == Temporary;
    assert forall j :: 0 <= j < |base| ==> segs[j] == base[j];
    assert i == |base|;
    assert segs[i + 1..] == [job, Temporary, other] + rel;
  }

  /**
   * Partitions survive resolution: reading the resolved name back as a path
   * gives the base, the partition directories unchanged, and the leaf.
   */
  lemma PartitionsPreserved(hostName: string, base: seq<string>, job: string, attempt: string, rel: seq<string>, embed: bool)
    requires AllSegments(base) && AllSegments(rel) && IsSegment(job) && IsSegment(attempt)
    requires Temporary !in base && StartsWith(attempt, AttemptPrefix) && rel != []
    ensures var segs := Split(ExtractNameFromTempPath(hostName + Join(Staged(base, job, attempt, rel)), embed, hostName));
      |segs| == |base| + |rel| && segs[..|base|] == base && segs[|base|..|segs| - 1] == rel[..|rel| - 1]
  {
    ResolveStaged(hostName, base, job, attempt, rel, embed);
    var segs := Staged(base, job, attempt, rel);
    StagedSegments(base, job, attempt, rel);
    FinalSegmentsAreSegments(segs, embed);
    HostPathSegments(hostName, segs);
    var fs := FinalSegments(segs, embed);
    SplitJoin(fs);
    ClassifyStaged(base, job, attempt, rel);
    var leaf := rel[|rel| - 1];
    assert fs == base + rel[..|rel| - 1] + [if embed then EmbedAttempt(leaf, attempt) else leaf];
  }

  /**
   * Attempt ids keep outputs apart: the same staged file written by two
   * different attempts resolves, with embedding, to two different names.
   */
  lemma AttemptEmbeddingUnique(hostName: string, base: seq<string>, job: string, a: string, b: string, rel: seq<string>)
    requires AllSegments(base) && AllSegments(rel) && IsSegment(job) && IsSegment(a) && IsSegment(b)
    requires Temporary !in base && StartsWith(a, AttemptPrefix) && StartsWith(b, AttemptPrefix)
    requires rel != [] && a != b
    ensures ExtractNameFromTempPath(hostName + Join(Staged(base, job, a, rel)), true, hostName)
         != ExtractNameFromTempPath(hostName + Join(Staged(base, job, b, rel)), true, hostName)
  {
    ResolveStaged(hostName, base, job, a, rel, true);
    ResolveStaged(hostName, base, job, b, rel, true);
    var leaf := rel[|rel| - 1];
    var dirs := rel[..|rel| - 1];
    var xs := base + dirs + [EmbedAttempt(leaf, a)];
    var ys := base + dirs + [EmbedAttempt(leaf, b)];
    ClassifyStaged(base, job, a, rel);
    ClassifyStaged(base, job, b, rel);
    StagedSegments(base, job, a, rel);
    StagedSegments(base, job, b, rel);
    FinalSegmentsAreSegments(Staged(base, job, a, rel), true);
    FinalSegmentsAreSegments(Staged(base, job, b, rel), true);
    assert FinalSegments(Staged(base, job, a, rel), true) == xs;
    assert FinalSegments(Staged(base, job, b, rel), true) == ys;
    SplitJoin(xs);
    SplitJoin(ys);
    if Join(xs) == Join(ys) {
      assert xs[|xs| - 1] == ys[|ys| - 1];
      EmbedAttemptInjective(leaf, a, b);
    }
  }

  /**
   * Resolving is idempotent: a resolved name put back under the host
   * resolves to itself, provided resolution left no `_temporary` segment
   * behind (one nested below the attempt directory would be staging again).
   */
  lemma ResolveIdempotent(p: string, embed: bool, hostName: string)
    requires Temporary !in FinalSegments(PathSegments(p, hostName), embed)
    ensures var name := ExtractNameFromTempPath(p, embed, hostName);
      ExtractNameFromTempPath(hostName + name, embed, hostName) == name
  {
    var fs := FinalSegments(PathSegments(p, hostName), embed);
    FinalSegmentsAreSegments(PathSegments(p, hostName), embed);
    HostPathSegments(hostName, fs);
  }

  /** A path with no `_temporary` segment is not staged, and resolves to itself. */
  lemma ResolveUnstaged(hostName: string, segs: seq<string>, embed: bool)
    requires AllSegments(segs) && Temporary !in segs
    ensures var p := hostName + Join(segs);
      !IsTemporaryPath(p, hostName) && ExtractNameFromTempPath(p, embed, hostName) == Join(segs)
  {
    HostPathSegments(hostName, segs);
  }

  /** A path outside any staging directory resolves to its own name, and so does its name. */
  lemma FinalPathUnchanged(p: string, embed: bool, hostName: string)
    requires !IsTemporaryPath(p, hostName)
    ensures ExtractNameFromTempPath(p, embed, hostName) == Join(PathSegments(p, hostName))
    ensures var name := ExtractNameFromTempPath(p, embed, hostName);
      ExtractNameFromTempPath(hostName + name, embed, hostName) == name
  {
    HostPathSegments(hostName, PathSegments(p, hostName));
  }

  /** A trailing separator on a path below the host changes nothing: Hadoop's `Path` drops it. */
  lemma TrailingSeparatorIgnored(p: string, hostName: string)
    requires StartsWith(p, hostName)
    ensures PathSegments(p + "/", hostName) == PathSegments(p, hostName)
  {
    var q := p + "/";
    assert q[..|hostName|] == hostName;
    assert q[|hostName|..] == p[|hostName|..] + "/";
    SplitTrailingSeparator(p[|hostName|..]);
  }
}
