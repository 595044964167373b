/**
 * The key arithmetic of the COS client: recognising a task-attempt suffix in
 * an object key (`extractFromObjectKeyWithTaskID` and its two faces
 * `extractUnifiedObjectName` / `nameWithoutTaskID`), stripping the bucket
 * from a key (`getRealKey`), the directory-marker conventions
 * (`maybeAddTrailingSlash`, `objectRepresentsDirectory`) and the name of the
 * object a listing is scoped to (`curObj` in `list`).
 *
 * Hadoop's `TaskAttemptID.forName` is foreign code; it enters as the
 * parameter `validAttempt`, true exactly when `forName` accepts the text.
 */
module ObjectNames {
  import opened Strings

  /** `HADOOP_ATTEMPT`: the prefix of every task-attempt id. */
  const AttemptPrefix := "attempt_"
  /** `HADOOP_SUCCESS`: the name of a job's success marker. */
  const SuccessMarker := "_SUCCESS"
  /** What separates an output name from the attempt id appended to it. */
  const TaskSuffixMarker := "-attempt_"

  /** The parent of a key: everything before the last `/`, keys taken as plain strings. */
  function Parent(key: string): (r: string)
    ensures StartsWith(key, r)
    ensures '/' !in key ==> r == ""
    ensures '/' in key ==> |r| < |key| && key[|r|] == '/' && '/' !in key[|r| + 1..]
  {
    var i := LastIndexOfChar(key, '/');
    if i < 0 then
      assert forall j :: 0 <= j < |key| ==> key[j] != '/';
      ""
    else
      var tail := key[i + 1..];
      assert forall j :: 0 <= j < |tail| ==> tail[j] == key[i + 1 + j];
      key[..i]
  }

  /** The text after the last `-`, the candidate attempt id of a key (all of it when there is no `-`). */
  function AttemptCandidate(key: string): (r: string)
    ensures EndsWith(key, r)
    ensures '-' !in r
    ensures '-' in key ==> |r| < |key| && key[|key| - |r| - 1] == '-'
    ensures '-' !in key ==> r == key
  {
    var i := LastIndexOfChar(key, '-');
    var tail := key[i + 1..];
    assert EndsWith(key, tail) by {
      assert |key| - |tail| == i + 1;
    }
    assert '-' !in key ==> i == -1 && tail == key;
    assert forall j :: 0 <= j < |tail| ==> tail[j] != '-' by {
      forall j | 0 <= j < |tail| ensures tail[j] != '-' {
        assert tail[j] == key[i + 1 + j];
      }
    }
    tail
  }

  /** The key carries a recognised attempt suffix: `-attempt_` past index 0 and a valid id after the last `-`. */
  predicate HasTaskSuffix(key: string, validAttempt: string -> bool) {
    IndexOf(key, TaskSuffixMarker) > 0 && validAttempt(AttemptCandidate(key))
  }

  /**
   * `extractFromObjectKeyWithTaskID`: with `unified`, the directory that owns
   * an attempt's output (or a success marker); without, the key with its
   * attempt suffix cut off. Keys that carry neither come back unchanged; so
   * does a key whose candidate id `forName` rejects.
   */
  function ExtractFromObjectKeyWithTaskID(key: string, unified: bool, validAttempt: string -> bool): (r: string)
    ensures StartsWith(key, r)
  {
    var index := IndexOf(key, TaskSuffixMarker);
    if index > 0 then
      if validAttempt(AttemptCandidate(key)) then
        if unified then Parent(key) else key[..index]
      else key
    else if unified && IndexOf(key, SuccessMarker) > 0 then Parent(key)
    else key
  }

  /**
   * `extractUnifiedObjectName`: the name whose success marker and origin
   * decide an object's fate in a listing.
   */
  function UnifiedObjectName(key: string, validAttempt: string -> bool): (r: string)
    ensures StartsWith(key, r)
    ensures r != key ==> r == Parent(key)
    ensures HasTaskSuffix(key, validAttempt) ==> r == Parent(key)
    ensures IndexOf(key, TaskSuffixMarker) <= 0 && IndexOf(key, SuccessMarker) > 0 ==> r == Parent(key)
    ensures IndexOf(key, TaskSuffixMarker) > 0 && !validAttempt(AttemptCandidate(key)) ==> r == key
    ensures IndexOf(key, TaskSuffixMarker) <= 0 && IndexOf(key, SuccessMarker) <= 0 ==> r == key
  {
    ExtractFromObjectKeyWithTaskID(key, true, validAttempt)
  }

  /**
   * `COSAPIClient.nameWithoutTaskID`: two attempts at the same output share
   * this name. It is the text before the first `-attempt_` when the key has a
   * recognised suffix, and the key itself otherwise.
   */
  function NameWithoutTaskID(key: string, validAttempt: string -> bool): (r: string)
    ensures StartsWith(key, r)
    ensures r != key <==> HasTaskSuffix(key, validAttempt)
    ensures r != key ==> IndexOf(key, TaskSuffixMarker) == |r| && OccursAt(key, TaskSuffixMarker, |r|)
  {
    ExtractFromObjectKeyWithTaskID(key, false, validAttempt)
  }

  /** In `name-id`, with no `-` in the id, the id is the candidate. */
  lemma CandidateAfterLastDash(name: string, id: string)
    requires '-' !in id
    ensures AttemptCandidate(name + "-" + id) == id
  {
    assert name + "-" + id == name + ['-'] + id;
    LastIndexOfCharBefore(name, '-', id);
  }

  /** A dash before an id that starts with `attempt_` makes the marker. */
  lemma DashAttempt(id: string)
    requires StartsWith(id, AttemptPrefix)
    ensures StartsWith("-" + id, TaskSuffixMarker)
  {
    assert ("-" + id)[..|TaskSuffixMarker|] == "-" + id[..|AttemptPrefix|];
  }

  /** In `name-attempt_...`, with no `-attempt_` in the name, the marker is the one after the name. */
  lemma MarkerAfterName(name: string, b: string, id: string)
    requires b == "-" + id && StartsWith(id, AttemptPrefix)
    requires IndexOf(name, TaskSuffixMarker) == -1
    ensures IndexOf(name + b, TaskSuffixMarker) == |name|
  {
    DashAttempt(id);
    assert forall j :: 1 <= j < |TaskSuffixMarker| ==> TaskSuffixMarker[j] != TaskSuffixMarker[0];
    IndexOfAtSeam(name, b, TaskSuffixMarker);
  }

  /**
   * A key that is a name, `-`, and an id starting `attempt_` with no further
   * `-`: the task-invariant name is the name exactly when `forName` accepts
   * the id, and the key itself otherwise.
   */
  lemma SuffixedKey(name: string, id: string, validAttempt: string -> bool)
    requires name != "" && IndexOf(name, TaskSuffixMarker) == -1
    requires '-' !in id && StartsWith(id, AttemptPrefix)
    ensures NameWithoutTaskID(name + "-" + id, validAttempt) == if validAttempt(id) then name else name + "-" + id
  {
    var key := name + "-" + id;
    CandidateAfterLastDash(name, id);
    MarkerAfterName(name, "-" + id, id);
    assert key == name + ("-" + id);
    assert key[..|name|] == name;
  }

  /**
   * `getRealKey`: a name that starts with `<bucket>/` (and is not just that)
   * loses the bucket; any other name is already a key.
   */
  function GetRealKey(bucket: string, name: string): (r: string)
    ensures EndsWith(name, r)
    ensures r != name ==> name == bucket + "/" + r && r != ""
    ensures r == name ==> !StartsWith(name, bucket + "/") || name == bucket + "/"
  {
    if StartsWith(name, bucket + "/") && name != bucket + "/" then
      assert name == bucket + "/" + name[|bucket| + 1..];
      name[|bucket| + 1..]
    else name
  }

  /** A bucket-qualified name resolves to the key it qualifies. */
  lemma GetRealKeyStripsBucket(bucket: string, key: string)
    requires key != ""
    ensures GetRealKey(bucket, bucket + "/" + key) == key
  {
    var name := bucket + "/" + key;
    assert name[..|bucket + "/"|] == bucket + "/";
    assert name[|bucket| + 1..] == key;
  }

  /**
   * `maybeAddTrailingSlash`: the key of the directory marker for `key`; the
   * root key stays empty.
   */
  function MaybeAddTrailingSlash(key: string): (r: string)
    ensures StartsWith(r, key)
    ensures r == "" <==> key == ""
    ensures r != "" ==> EndsWith(r, "/")
    ensures |r| <= |key| + 1
    ensures EndsWith(key, "/") ==> r == key
  {
    if key != "" && !EndsWith(key, "/") then key + "/" else key
  }

  /** Adding the trailing slash twice is adding it once. */
  lemma TrailingSlashIdempotent(key: string)
    ensures MaybeAddTrailingSlash(MaybeAddTrailingSlash(key)) == MaybeAddTrailingSlash(key)
  {
  }

  /** `objectRepresentsDirectory`: a named, zero-length object is a directory marker. */
  predicate ObjectRepresentsDirectory(name: string, size: int) {
    name != "" && size == 0
  }

  /**
   * The marker object of a directory, as `maybeAddTrailingSlash` names it
   * and stored empty, represents a directory exactly when the directory is
   * not the root; an object with content never does.
   */
  lemma DirectoryMarker(key: string, size: int)
    ensures ObjectRepresentsDirectory(MaybeAddTrailingSlash(key), 0) <==> key != ""
    ensures size != 0 ==> !ObjectRepresentsDirectory(MaybeAddTrailingSlash(key), size)
  {
  }

  /**
   * The object a listing of `path` is scoped to (`curObj`): the path with the
   * bucket name or the host name taken off its front, `""` for the bucket
   * itself. The bucket is tried before the host.
   */
  function CurrentObject(path: string, bucket: string, hostName: string): (r: string)
    ensures EndsWith(path, r)
    ensures path == bucket ==> r == ""
    ensures path != bucket && StartsWith(path, bucket + "/") ==> path == bucket + "/" + r
    ensures path != bucket && !StartsWith(path, bucket + "/") && StartsWith(path, hostName) ==> path == hostName + r
    ensures path != bucket && !StartsWith(path, bucket + "/") && !StartsWith(path, hostName) ==> r == path
  {
    if path == bucket then ""
    else if StartsWith(path, bucket + "/") then
      assert path == bucket + "/" + path[|bucket| + 1..];
      path[|bucket| + 1..]
    else if StartsWith(path, hostName) then
      assert path == hostName + path[|hostName|..];
      path[|hostName|..]
    else path
  }
}
