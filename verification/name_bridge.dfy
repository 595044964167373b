/**
 * How the COS client's reading of object names meets the names the
 * resolver writes. The resolver embeds `-<attempt id>` before the first `.`
 * of a leaf; `COSAPIClient` takes the attempt id to be everything after the
 * last `-` of the key and, when `TaskAttemptID.forName` accepts it, cuts the
 * key at the first `-attempt_`.
 */
module NameBridge {
  import opened Strings
  import ObjectNames
  import StocatorPath

  /** A leaf without `.` gets its attempt id appended. */
  lemma EmbedWithoutExtension(leaf: string, attempt: string)
    requires '.' !in leaf
    ensures StocatorPath.EmbedAttempt(leaf, attempt) == leaf + "-" + attempt
  {
    IndexOfCharMissing(leaf, '.');
  }

  /**
   * On a name without extension the COS client recognises the embedded id
   * and cuts it off when `forName` accepts it.
   */
  lemma ClientStripsEmbeddedId(dir: string, leaf: string, attempt: string, validAttempt: string -> bool)
    requires '.' !in leaf && '-' !in attempt
    requires StartsWith(attempt, StocatorPath.AttemptPrefix) && validAttempt(attempt)
    requires dir + leaf != "" && IndexOf(dir + leaf, StocatorPath.TaskIdMarker) == -1
    ensures ObjectNames.NameWithoutTaskID(dir + StocatorPath.EmbedAttempt(leaf, attempt), validAttempt) == dir + leaf
  {
    EmbedWithoutExtension(leaf, attempt);
    DashJoin(dir, leaf, attempt);
    ObjectNames.SuffixedKey(dir + leaf, attempt, validAttempt);
  }

  /** The resolver's `nameWithoutTaskID` cuts the same id from the same key. */
  lemma ResolverStripsEmbeddedId(dir: string, leaf: string, attempt: string)
    requires '.' !in leaf && '.' !in attempt
    requires StartsWith(attempt, StocatorPath.AttemptPrefix)
    requires IndexOf(dir + leaf, StocatorPath.TaskIdMarker) == -1
    ensures StocatorPath.NameWithoutTaskID(dir + StocatorPath.EmbedAttempt(leaf, attempt)) == dir + leaf
  {
    IndexOfCharMissing(leaf, '.');
    var ext := StocatorPath.Extension(leaf);
    assert StocatorPath.Stem(leaf) == leaf && ext == "";
    var stem, b := dir + leaf, "-" + attempt + ext;
    var key := dir + StocatorPath.EmbedAttempt(leaf, attempt);
    assert key == stem + b;
    StocatorPath.CutEmbeddedId(stem, b, attempt, ext);
  }

  /**
   * On a name without extension the two `nameWithoutTaskID`s agree on
   * every key the resolver writes.
   */
  lemma NamesAgreeWithoutExtension(dir: string, leaf: string, attempt: string, validAttempt: string -> bool)
    requires '.' !in leaf && '-' !in attempt && '.' !in attempt
    requires StartsWith(attempt, StocatorPath.AttemptPrefix) && validAttempt(attempt)
    requires dir + leaf != "" && IndexOf(dir + leaf, StocatorPath.TaskIdMarker) == -1
    ensures var key := dir + StocatorPath.EmbedAttempt(leaf, attempt);
      ObjectNames.NameWithoutTaskID(key, validAttempt) == StocatorPath.NameWithoutTaskID(key)
  {
    ClientStripsEmbeddedId(dir, leaf, attempt, validAttempt);
    ResolverStripsEmbeddedId(dir, leaf, attempt);
  }

  /**
   * With an extension, the text after the last `-` is the attempt id
   * followed by the extension, so the COS client cuts the key only when
   * `forName` accepts `<attempt id><extension>`, and then drops the extension
   * with the id; otherwise the key is its own task-invariant name.
   */
  lemma EmbeddedIdWithExtension(dir: string, leaf: string, attempt: string, validAttempt: string -> bool)
    requires StocatorPath.Extension(leaf) != "" && '-' !in attempt && '-' !in StocatorPath.Extension(leaf)
    requires StartsWith(attempt, StocatorPath.AttemptPrefix)
    requires dir + StocatorPath.Stem(leaf) != "" && IndexOf(dir + StocatorPath.Stem(leaf), StocatorPath.TaskIdMarker) == -1
    ensures var key := dir + StocatorPath.EmbedAttempt(leaf, attempt);
      ObjectNames.NameWithoutTaskID(key, validAttempt)
      == if validAttempt(attempt + StocatorPath.Extension(leaf)) then dir + StocatorPath.Stem(leaf) else key
  {
    var stem, ext := StocatorPath.Stem(leaf), StocatorPath.Extension(leaf);
    var name, id := dir + stem, attempt + ext;
    assert '-' !in id;
    StartsWithAppend(attempt, ext, StocatorPath.AttemptPrefix);
    DashJoin2(dir, stem, attempt, ext);
    ObjectNames.SuffixedKey(name, id, validAttempt);
  }

  lemma DashJoin(dir: string, leaf: string, id: string)
    ensures dir + (leaf + "-" + id) == (dir + leaf) + "-" + id
  {
  }

  lemma DashJoin2(dir: string, stem: string, attempt: string, ext: string)
    ensures dir + (stem + "-" + attempt + ext) == (dir + stem) + "-" + (attempt + ext)
  {
  }
}
