/**
 * The cases of `StocatorPathTest`, stated on the model: host name
 * `swift2d://a.service/`, data root `a`, staging template
 * `_temporary/st_ID/_temporary/attempt_ID/`.
 *
 * An input path is written as the host followed by its segments, so
 * `Host + Join(Staged(["one3.txt"], "0", Attempt15, []))` is the test's
 * `swift2d://a.service/one3.txt/_temporary/0/_temporary/attempt_…_15`, and
 * an expected name as the joined segment list it consists of. Each case is
 * first proved for any attempt id and leaf of the same shape, then for the
 * names the test uses.
 */
module StocatorPathVectors {
  import opened Strings
  import opened StocatorPath

  const Host := "swift2d://a.service/"

  // The long names of the tests, assembled from short pieces.
  const Id15 := "201610052038" + "_0001_m_000007_15"
  const Attempt15 := AttemptPrefix + Id15
  const BadAttempt15 := "attampt_" + Id15
  const Attempt76 := AttemptPrefix + ("20171115113432" + "_0017_m_000076_0")
  const Attempt4 := AttemptPrefix + ("20181009100745" + "_0001_m_000004_0")
  const Part76 := "part-00076" + "-335c9928-ccbb" + "-4830-b7e3" + "-0348a7d7d8f8"
  const Part4 := "part-00004" + "-87428114-b6c6" + "-49fc-9b4c" + "-2415da470115" + "-c000"
  const Snappy := ".snappy.parquet"
  const YearPartition := "YEAR=2003"
  const DatePartition := "D_DATE=2003-01-10" + " 00%3A00%3A00"
  const DataDir := "gilv0505v3cos" + "/a/data/"
  const DataPart := "part-00000" + "-e5eede57-4d16" + "-4cd6-bc51" + "-c877e232ce81"
  const DataAttempt := AttemptPrefix + ("20180405072427" + "_0001_m_000000_0")
  const DriverBase := ["drivertest", "test", "y=2018", "m=10", "d=29", "data2.json"]

  // ---------------------------------------------------------------------------
  // Facts about the names

  /** An attempt directory name: `attempt_` and an id without separator or `.`. */
  lemma AttemptName(id: string)
    requires '/' !in id && '.' !in id
    ensures var a := AttemptPrefix + id;
      IsSegment(a) && StartsWith(a, AttemptPrefix) && '.' !in a
  {
    var a := AttemptPrefix + id;
    assert a[..|AttemptPrefix|] == AttemptPrefix;
  }

  lemma Attempt15Id()
    ensures IsSegment(Attempt15) && StartsWith(Attempt15, AttemptPrefix)
  {
    AttemptName(Id15);
  }

  /** The misspelt attempt directory of the tests is a segment, but no attempt directory. */
  lemma BadAttempt15Id()
    ensures IsSegment(BadAttempt15) && !StartsWith(BadAttempt15, AttemptPrefix)
  {
    NotStartsWith(BadAttempt15, AttemptPrefix, 3);
  }

  lemma Attempt76Id()
    ensures IsSegment(Attempt76) && StartsWith(Attempt76, AttemptPrefix)
  {
    AttemptName("20171115113432" + "_0017_m_000076_0");
  }

  lemma Attempt4Id()
    ensures IsSegment(Attempt4) && StartsWith(Attempt4, AttemptPrefix)
  {
    AttemptName("20181009100745" + "_0001_m_000004_0");
  }

  lemma DataAttemptId()
    ensures StartsWith(DataAttempt, AttemptPrefix) && '.' !in DataAttempt
  {
    AttemptName("20180405072427" + "_0001_m_000000_0");
  }

  lemma Part76Clean()
    ensures '/' !in Part76 && '.' !in Part76
  {
  }

  lemma Part4Clean()
    ensures '/' !in Part4 && '.' !in Part4
  {
  }

  lemma SnappyClean()
    ensures '/' !in Snappy && Snappy[0] == '.'
  {
  }

  lemma YearPartitionSegment()
    ensures IsSegment(YearPartition)
  {
  }

  lemma DatePartitionSegment()
    ensures IsSegment(DatePartition)
  {
  }

  lemma DataStem(stem: string)
    requires stem == DataDir + DataPart
    ensures IndexOf(stem, TaskIdMarker) == -1
  {
    assert TaskIdMarker[8] == '_';
    IndexOfMissingChar(stem, TaskIdMarker, 8);
  }

  lemma RootA()
    ensures "a" + "/" == "a/"
  {
  }

  // ---------------------------------------------------------------------------
  // From segments to names and keys

  /** Under the data root `a`, the final key is the name behind `a/`. */
  lemma UnderRoot(p: string, embed: bool)
    ensures ExtractFinalKeyFromTemporaryPath(p, embed, "a", true, Host) == "a/" + ExtractNameFromTempPath(p, embed, Host)
  {
    RootA();
  }

  /** Without the root prefix, the final key is the name. */
  lemma WithoutRoot(p: string, embed: bool)
    ensures ExtractFinalKeyFromTemporaryPath(p, embed, "a", false, Host) == ExtractNameFromTempPath(p, embed, Host)
  {
  }

  /** A path and the same path with a trailing separator resolve alike. */
  lemma WithTrailingSeparator(p: string, segs: seq<string>, embed: bool)
    requires p == Host + Join(segs)
    ensures ExtractNameFromTempPath(p + "/", embed, Host) == ExtractNameFromTempPath(p, embed, Host)
  {
    assert p[..|Host|] == Host;
    TrailingSeparatorIgnored(p, Host);
  }

  /** Embedding into a leaf `<stem><ext>`, with `ext` starting at the first `.`. */
  lemma EmbedInto(stem: string, ext: string, attempt: string)
    requires '.' !in stem && |ext| > 0 && ext[0] == '.'
    ensures EmbedAttempt(stem + ext, attempt) == stem + "-" + attempt + ext
  {
    StemAndExtension(stem, ext);
  }

  /** Embedding into a leaf without `.` appends the attempt id. */
  lemma EmbedPlain(leaf: string, attempt: string)
    requires '.' !in leaf
    ensures EmbedAttempt(leaf, attempt) == leaf + "-" + attempt
  {
    IndexOfCharMissing(leaf, '.');
    assert Extension(leaf) == "";
  }

  /** With embedding, a leaf right below the attempt directory carries the attempt id. */
  lemma EmbeddedLeaf(p: string, base: seq<string>, a: string, leaf: string, embedded: string)
    requires AllSegments(base) && IsSegment(leaf) && IsSegment(a)
    requires Temporary !in base && StartsWith(a, AttemptPrefix) && EmbedAttempt(leaf, a) == embedded
    requires p == Host + Join(Staged(base, "0", a, [leaf]))
    ensures ExtractNameFromTempPath(p, true, Host) == Join(base + [embedded])
  {
    ResolveStaged(Host, base, "0", a, [leaf], true);
    DropLast(base, [leaf], embedded);
  }

  /** The same with one directory between the attempt directory and the leaf. */
  lemma EmbeddedLeafBelow(p: string, base: seq<string>, a: string, dir: string, leaf: string, embedded: string)
    requires AllSegments(base) && IsSegment(dir) && IsSegment(leaf) && IsSegment(a)
    requires Temporary !in base && StartsWith(a, AttemptPrefix) && EmbedAttempt(leaf, a) == embedded
    requires p == Host + Join(Staged(base, "0", a, [dir, leaf]))
    ensures ExtractNameFromTempPath(p, true, Host) == Join(base + [dir, embedded])
  {
    ResolveStaged(Host, base, "0", a, [dir, leaf], true);
    DropLast(base, [dir, leaf], embedded);
  }

  /** Replacing the last of the segments below the attempt directory. */
  lemma DropLast(base: seq<string>, rel: seq<string>, e: string)
    requires |rel| == 1 || |rel| == 2
    ensures |rel| == 1 ==> base + rel[..|rel| - 1] + [e] == base + [e]
    ensures |rel| == 2 ==> base + rel[..|rel| - 1] + [e] == base + [rel[0], e]
  {
    if |rel| == 2 {
      assert rel[..1] + [e] == [rel[0], e];
    }
  }

  /** Segment lists of two, three and four elements, written out. */
  lemma Lists(x: string, y: string, z: string, e: string)
    ensures [x] + [e] == [x, e]
    ensures [x, y] + [e] == [x, y, e]
    ensures [x, y] + [z, e] == [x, y, z, e]
  {
  }

  // ---------------------------------------------------------------------------
  // The shapes of the test paths, for any attempt id and leaf

  /** `one3.txt/_temporary/0/_temporary/<attempt>` resolves to `one3.txt`, and is an attempt directory. */
  lemma AttemptDirectoryShape(p: string, a: string)
    requires IsSegment(a) && StartsWith(a, AttemptPrefix)
    requires p == Host + Join(Staged(["one3.txt"], "0", a, []))
    ensures IsTemporaryPath(p, Host) && IsTemporaryPathTarget(p, Host)
    ensures ExtractNameFromTempPath(p, false, Host) == "one3.txt"
  {
    var base := ["one3.txt"];
    ResolveStaged(Host, base, "0", a, [], false);
  }

  /** `one3.txt/_temporary/0/_temporary/<attempt>/<leaf>`, with the id embedded, under root `a`. */
  lemma OneTxtLeafShape(p: string, a: string, leaf: string, embedded: string)
    requires IsSegment(a) && StartsWith(a, AttemptPrefix) && IsSegment(leaf) && EmbedAttempt(leaf, a) == embedded
    requires p == Host + Join(Staged(["one3.txt"], "0", a, [leaf]))
    ensures ExtractFinalKeyFromTemporaryPath(p, true, "a", true, Host) == "a/" + Join(["one3.txt", embedded])
  {
    EmbeddedLeaf(p, ["one3.txt"], a, leaf, embedded);
    Lists("one3.txt", "", "", embedded);
    UnderRoot(p, true);
  }

  /** Below the attempt directory, without embedding, segments are kept as they are. */
  lemma PlainShape(p: string, a: string, base: seq<string>, rel: seq<string>)
    requires IsSegment(a) && StartsWith(a, AttemptPrefix)
    requires AllSegments(base) && AllSegments(rel) && Temporary !in base && |rel| > 0
    requires p == Host + Join(Staged(base, "0", a, rel))
    ensures ExtractNameFromTempPath(p, false, Host) == Join(base + rel)
  {
    ResolveStaged(Host, base, "0", a, rel, false);
    LastSplit(base, rel);
  }

  lemma LastSplit(xs: seq<string>, ys: seq<string>)
    requires |ys| > 0
    ensures xs + ys[..|ys| - 1] + [ys[|ys| - 1]] == xs + ys
  {
    assert ys == ys[..|ys| - 1] + [ys[|ys| - 1]];
  }

  /** `aa/abc.parquet/_temporary/0/_temporary/<attempt>/<leaf>`, id embedded, under root `a`. */
  lemma ParquetLeafShape(p: string, a: string, leaf: string, embedded: string)
    requires IsSegment(a) && StartsWith(a, AttemptPrefix) && IsSegment(leaf) && EmbedAttempt(leaf, a) == embedded
    requires p == Host + Join(Staged(["aa", "abc.parquet"], "0", a, [leaf]))
    ensures ExtractFinalKeyFromTemporaryPath(p, true, "a", true, Host) == "a/" + Join(["aa", "abc.parquet", embedded])
  {
    EmbeddedLeaf(p, ["aa", "abc.parquet"], a, leaf, embedded);
    Lists("aa", "abc.parquet", "", embedded);
    UnderRoot(p, true);
  }

  /** The same with one partition directory between the attempt directory and the leaf. */
  lemma ParquetPartitionShape(p: string, a: string, dir: string, leaf: string, embedded: string)
    requires IsSegment(a) && StartsWith(a, AttemptPrefix) && IsSegment(dir) && IsSegment(leaf)
    requires EmbedAttempt(leaf, a) == embedded
    requires p == Host + Join(Staged(["aa", "abc.parquet"], "0", a, [dir, leaf]))
    ensures ExtractFinalKeyFromTemporaryPath(p, true, "a", true, Host)
      == "a/" + Join(["aa", "abc.parquet", dir, embedded])
  {
    EmbeddedLeafBelow(p, ["aa", "abc.parquet"], a, dir, leaf, embedded);
    Lists("aa", "abc.parquet", dir, embedded);
    UnderRoot(p, true);
  }

  /** `test09102018v1/data.parquet/_temporary/0/_temporary/<attempt>/<leaf>` moved to its destination. */
  lemma DestinationShape(p: string, a: string, leaf: string, embedded: string)
    requires IsSegment(a) && StartsWith(a, AttemptPrefix) && IsSegment(leaf) && EmbedAttempt(leaf, a) == embedded
    requires p == Host + Join(Staged(["test09102018v1", "data.parquet"], "0", a, [leaf]))
    ensures ModifyPathToFinalDestination(p, Host) == Host + Join(["test09102018v1", "data.parquet", embedded])
  {
    EmbeddedLeaf(p, ["test09102018v1", "data.parquet"], a, leaf, embedded);
    Lists("test09102018v1", "data.parquet", "", embedded);
  }

  // ---------------------------------------------------------------------------
  // tempPathTest

  /** `one3.txt/_temporary/0/_temporary/attempt_…_15` is staged, and is an attempt directory. */
  lemma AttemptDirectoryIsTarget(p: string)
    requires p == Host + Join(Staged(["one3.txt"], "0", Attempt15, []))
    ensures IsTemporaryPath(p, Host) && IsTemporaryPathTarget(p, Host)
  {
    Attempt15Id();
    AttemptDirectoryShape(p, Attempt15);
  }

  /** The same attempt directory resolves to `a/one3.txt`. */
  lemma AttemptDirectoryResolvesToBase(p: string)
    requires p == Host + Join(Staged(["one3.txt"], "0", Attempt15, []))
    ensures ExtractFinalKeyFromTemporaryPath(p, false, "a", true, Host) == "a/one3.txt"
  {
    Attempt15Id();
    AttemptDirectoryShape(p, Attempt15);
    UnderRoot(p, false);
    OneTxt();
  }

  lemma OneTxt()
    ensures "a/" + "one3.txt" == "a/one3.txt"
  {
  }

  /** `fruit` is no staging path and lands under the data root as `a/fruit`. */
  lemma UnstagedUnderRoot(p: string)
    requires p == Host + "fruit"
    ensures ExtractFinalKeyFromTemporaryPath(p, false, "a", true, Host) == "a/fruit"
  {
    var segs := ["fruit"];
    Fruit();
    Unstaged(p, segs);
    UnderRoot(p, false);
  }

  lemma Fruit()
    ensures Join(["fruit"]) == "fruit" && "a/" + "fruit" == "a/fruit"
    ensures Join(["fruit", "d"]) == "fruit/d"
  {
  }

  lemma Unstaged(p: string, segs: seq<string>)
    requires AllSegments(segs) && Temporary !in segs && p == Host + Join(segs)
    ensures ExtractNameFromTempPath(p, false, Host) == Join(segs)
  {
    ResolveUnstaged(Host, segs, false);
  }

  /** `fruit/d` without the root prefix keeps its name. */
  lemma UnstagedWithoutRoot(p: string)
    requires p == Host + "fruit/d"
    ensures ExtractFinalKeyFromTemporaryPath(p, false, "a", false, Host) == "fruit/d"
  {
    var segs := ["fruit", "d"];
    Fruit();
    Unstaged(p, segs);
    WithoutRoot(p, false);
  }

  /** `part-1` under the attempt directory becomes `a/one3.txt/part-1-attempt_…_15`. */
  lemma LeafWithoutExtension(p: string)
    requires p == Host + Join(Staged(["one3.txt"], "0", Attempt15, ["part-1"]))
    ensures ExtractFinalKeyFromTemporaryPath(p, true, "a", true, Host)
      == "a/" + Join(["one3.txt", "part-1" + "-" + Attempt15])
  {
    Attempt15Id();
    EmbedPlain("part-1", Attempt15);
    OneTxtLeafShape(p, Attempt15, "part-1", "part-1" + "-" + Attempt15);
  }

  /** `part-1.csv` gets the attempt id before its extension: `a/one3.txt/part-1-attempt_…_15.csv`. */
  lemma LeafWithExtension(p: string)
    requires p == Host + Join(Staged(["one3.txt"], "0", Attempt15, ["part-1.csv"]))
    ensures ExtractFinalKeyFromTemporaryPath(p, true, "a", true, Host)
      == "a/" + Join(["one3.txt", "part-1" + "-" + Attempt15 + ".csv"])
  {
    Attempt15Id();
    CsvLeaf("part-1.csv", Attempt15);
    OneTxtLeafShape(p, Attempt15, "part-1.csv", "part-1" + "-" + Attempt15 + ".csv");
  }

  /** `part-1.csv` is a segment, and the id goes before `.csv`. */
  lemma CsvLeaf(leaf: string, a: string)
    requires leaf == "part-1.csv"
    ensures IsSegment(leaf) && EmbedAttempt(leaf, a) == "part-1" + "-" + a + ".csv"
  {
    CsvName();
    EmbedInto("part-1", ".csv", a);
  }

  lemma CsvName()
    ensures "part-1" + ".csv" == "part-1.csv"
  {
  }

  /** A job-level directory `…/data2.json/_temporary/0` resolves to `a/…/data2.json/0`. */
  lemma JobDirectory(p: string)
    requires p == Host + Join(DriverBase + [Temporary, "0"])
    ensures ExtractFinalKeyFromTemporaryPath(p, true, "a", true, Host) == "a/" + Join(DriverBase + ["0"])
  {
    var base, job := DriverBase, "0";
    JobName(p, base, job);
    UnderRoot(p, true);
  }

  lemma JobName(p: string, base: seq<string>, job: string)
    requires AllSegments(base) && IsSegment(job) && Temporary !in base
    requires p == Host + Join(base + [Temporary, job])
    ensures ExtractNameFromTempPath(p, true, Host) == Join(base + [job])
  {
    ResolveJobLevel(Host, base, job, true);
  }

  /** The same directory written with a trailing separator. */
  lemma JobDirectoryTrailingSeparator(p: string, q: string)
    requires q == Host + Join(DriverBase + [Temporary, "0"]) && p == q + "/"
    ensures ExtractFinalKeyFromTemporaryPath(p, true, "a", true, Host) == "a/" + Join(DriverBase + ["0"])
  {
    var base, job := DriverBase, "0";
    JobName(q, base, job);
    WithTrailingSeparator(q, base + [Temporary, job], true);
    UnderRoot(p, true);
  }

  // ---------------------------------------------------------------------------
  // parseHadoopDefaultPathTest

  lemma NestedBase(p: string)
    requires p == Host + Join(Staged(["aa", "bb", "cc", "one3.txt"], "0", Attempt15, ["part-00007"]))
    ensures ExtractNameFromTempPath(p, false, Host) == Join(["aa", "bb", "cc", "one3.txt"] + ["part-00007"])
  {
    Attempt15Id();
    PlainShape(p, Attempt15, ["aa", "bb", "cc", "one3.txt"], ["part-00007"]);
  }

  lemma NestedBelowAttempt(p: string)
    requires p == Host + Join(Staged(["one3.txt"], "0", Attempt15, ["a", "part-00007"]))
    ensures ExtractNameFromTempPath(p, false, Host) == Join(["one3.txt"] + ["a", "part-00007"])
  {
    Attempt15Id();
    PlainShape(p, Attempt15, ["one3.txt"], ["a", "part-00007"]);
  }

  lemma AttemptDirectoryName(p: string)
    requires p == Host + Join(Staged(["one3.txt"], "0", Attempt15, []))
    ensures ExtractNameFromTempPath(p, false, Host) == "one3.txt"
  {
    Attempt15Id();
    AttemptDirectoryShape(p, Attempt15);
  }

  lemma AttemptDirectoryNameTrailingSeparator(p: string, q: string)
    requires q == Host + Join(Staged(["one3.txt"], "0", Attempt15, [])) && p == q + "/"
    ensures ExtractNameFromTempPath(p, false, Host) == "one3.txt"
  {
    AttemptDirectoryName(q);
    WithTrailingSeparator(q, Staged(["one3.txt"], "0", Attempt15, []), false);
  }

  /** With `attampt_` for `attempt_` the path is no staging path and keeps its name. */
  lemma MisspeltAttempt(p: string, dir: string)
    requires dir == "one3.txt" || dir == "one3"
    requires p == Host + Join(Staged([dir], "0", BadAttempt15, []))
    ensures ExtractNameFromTempPath(p, false, Host) == Join(Staged([dir], "0", BadAttempt15, []))
  {
    var a, base := BadAttempt15, [dir];
    BadAttempt15Id();
    BrokenName(p, base, "0", a);
  }

  lemma BrokenName(p: string, base: seq<string>, job: string, other: string)
    requires AllSegments(base) && IsSegment(job) && IsSegment(other)
    requires Temporary !in base && !StartsWith(other, AttemptPrefix)
    requires p == Host + Join(Staged(base, job, other, []))
    ensures ExtractNameFromTempPath(p, false, Host) == Join(Staged(base, job, other, []))
  {
    StagedSegments(base, job, other, []);
    ResolveBrokenTemplate(Host, base, job, other, [], false);
  }

  // ---------------------------------------------------------------------------
  // partitionsPathTest

  /** The leaf directly below the attempt directory. */
  lemma PartitionLeafOnly(p: string)
    requires p == Host + Join(Staged(["aa", "abc.parquet"], "0", Attempt76, [Part76 + Snappy]))
    ensures ExtractFinalKeyFromTemporaryPath(p, true, "a", true, Host)
      == "a/" + Join(["aa", "abc.parquet", Part76 + "-" + Attempt76 + Snappy])
  {
    Attempt76Id();
    Leaf76();
    ParquetLeafShape(p, Attempt76, Part76 + Snappy, Part76 + "-" + Attempt76 + Snappy);
  }

  /** A partition directory `YEAR=2003` survives between base and leaf. */
  lemma PartitionYear(p: string)
    requires p == Host + Join(Staged(["aa", "abc.parquet"], "0", Attempt76, [YearPartition, Part76 + Snappy]))
    ensures ExtractFinalKeyFromTemporaryPath(p, true, "a", true, Host)
      == "a/" + Join(["aa", "abc.parquet", YearPartition, Part76 + "-" + Attempt76 + Snappy])
  {
    Attempt76Id();
    Leaf76();
    YearPartitionSegment();
    ParquetPartitionShape(p, Attempt76, YearPartition, Part76 + Snappy, Part76 + "-" + Attempt76 + Snappy);
  }

  /** A partition directory with a blank and escaped colons survives unchanged. */
  lemma PartitionDate(p: string)
    requires p == Host + Join(Staged(["aa", "abc.parquet"], "0", Attempt76, [DatePartition, Part76 + Snappy]))
    ensures ExtractFinalKeyFromTemporaryPath(p, true, "a", true, Host)
      == "a/" + Join(["aa", "abc.parquet", DatePartition, Part76 + "-" + Attempt76 + Snappy])
  {
    Attempt76Id();
    Leaf76();
    DatePartitionSegment();
    ParquetPartitionShape(p, Attempt76, DatePartition, Part76 + Snappy, Part76 + "-" + Attempt76 + Snappy);
  }

  /** The same partition with a leaf without extension: the id goes at the end. */
  lemma PartitionDateWithoutExtension(p: string)
    requires p == Host + Join(Staged(["aa", "abc.parquet"], "0", Attempt76, [DatePartition, Part76]))
    ensures ExtractFinalKeyFromTemporaryPath(p, true, "a", true, Host)
      == "a/" + Join(["aa", "abc.parquet", DatePartition, Part76 + "-" + Attempt76])
  {
    Attempt76Id();
    Leaf76();
    DatePartitionSegment();
    ParquetPartitionShape(p, Attempt76, DatePartition, Part76, Part76 + "-" + Attempt76);
  }

  /** The leaf of the Parquet tests, with the attempt id embedded before `.snappy.parquet`. */
  lemma Leaf76()
    ensures IsSegment(Part76 + Snappy) && IsSegment(Part76)
    ensures EmbedAttempt(Part76 + Snappy, Attempt76) == Part76 + "-" + Attempt76 + Snappy
    ensures EmbedAttempt(Part76, Attempt76) == Part76 + "-" + Attempt76
  {
    Part76Clean();
    SnappyClean();
    EmbedInto(Part76, Snappy, Attempt76);
    EmbedPlain(Part76, Attempt76);
  }

  // ---------------------------------------------------------------------------
  // getBaseDirectoryTest

  /** A directory free of `_` followed by `/_temporary…` has that directory as its base. */
  lemma BaseAt(dir: string, rest: string)
    requires '_' !in dir && StartsWith(rest, BaseMarker)
    ensures GetBaseDirectory(dir + rest) == dir
  {
    IndexOfMissingChar(dir, BaseMarker, 1);
    var tail := rest[|BaseMarker|..];
    assert dir + rest == dir + BaseMarker + tail;
    BaseDirectoryCutsAtMarker(dir, tail);
  }

  lemma BaseDirectory(p: string, dir: string)
    requires dir == "b.txt" || dir == "m/n/b.txt"
    requires p == Host + dir + "/_temporary/0"
    ensures GetBaseDirectory(p) == Host + dir
  {
    var d, rest := Host + dir, "/_temporary/0";
    assert p == d + rest;
    BaseAt(d, rest);
  }

  // ---------------------------------------------------------------------------
  // extractFromObjectKeyWithTaskIDTest

  lemma CutAfter(key: string, stem: string, a: string, ext: string)
    requires StartsWith(a, AttemptPrefix) && '.' !in a && IndexOf(stem, TaskIdMarker) == -1
    requires ext == "" || ext[0] == '.'
    requires key == stem + "-" + a + ext
    ensures NameWithoutTaskID(key) == stem + ext
  {
    var b := "-" + a + ext;
    assert key == stem + b;
    CutEmbeddedId(stem, b, a, ext);
  }

  /** The data key with an embedded id and `.json` loses the id and keeps `.json`. */
  lemma DataKeyWithExtension(key: string)
    requires key == DataDir + DataPart + "-" + DataAttempt + ".json"
    ensures NameWithoutTaskID(key) == DataDir + DataPart + ".json"
  {
    var a, stem, ext := DataAttempt, DataDir + DataPart, ".json";
    DataAttemptId();
    DataStem(stem);
    CutAfter(key, stem, a, ext);
  }

  /** The same key without extension loses the id. */
  lemma DataKeyWithoutExtension(key: string)
    requires key == DataDir + DataPart + "-" + DataAttempt
    ensures NameWithoutTaskID(key) == DataDir + DataPart
  {
    var a, stem := DataAttempt, DataDir + DataPart;
    DataAttemptId();
    DataStem(stem);
    assert key == stem + "-" + a + "";
    CutAfter(key, stem, a, "");
  }

  /** An attempt id with no `-` in front of it is no embedded id: the key stays. */
  lemma DataKeyBareAttempt(key: string)
    requires key == DataDir + DataAttempt + ".json"
    ensures NameWithoutTaskID(key) == key
  {
    IndexOfMissingChar(key, TaskIdMarker, 0);
  }

  // ---------------------------------------------------------------------------
  // tempPathToStocatorTest

  /** The staged Parquet part moves to `…/data.parquet/part-…-c000-attempt_….snappy.parquet` under the host. */
  lemma FinalDestination(p: string)
    requires p == Host + Join(Staged(["test09102018v1", "data.parquet"], "0", Attempt4, [Part4 + Snappy]))
    ensures ModifyPathToFinalDestination(p, Host)
      == Host + Join(["test09102018v1", "data.parquet", Part4 + "-" + Attempt4 + Snappy])
  {
    Attempt4Id();
    Leaf4();
    DestinationShape(p, Attempt4, Part4 + Snappy, Part4 + "-" + Attempt4 + Snappy);
  }

  lemma Leaf4()
    ensures IsSegment(Part4 + Snappy)
    ensures EmbedAttempt(Part4 + Snappy, Attempt4) == Part4 + "-" + Attempt4 + Snappy
  {
    Part4Clean();
    SnappyClean();
    EmbedInto(Part4, Snappy, Attempt4);
  }
}
