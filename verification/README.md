# Stocator: listing reconciliation and staged-path resolution

This project models two parts of the Stocator Hadoop connector for IBM Cloud
Object Storage (COS) and proves properties about them.

**`COSAPIClient.list`.** This method turns a paged object listing into the
entries of one logical directory. The model is a fold over the object
summaries (module `Listing`). It keeps one pending summary (`prevObj`) across
page boundaries. For every later summary, it first checks the scope of the
listed path. It then consults the two memo tables of the client:
`isSparkOrigin` and `isJobSuccessful` (module `StatusCache`). The outcome is
one of four: the summary is skipped as out of scope, dropped as output of a
failed job, merged with the pending summary as another attempt at the same
output, or accepted. The key arithmetic it relies on lives in module
`ObjectNames`:

- `extractFromObjectKeyWithTaskID` and its two faces;
- `getRealKey`;
- `maybeAddTrailingSlash`;
- `objectRepresentsDirectory`;
- the `curObj` scope.

The checks `WriteOperationHelper` makes before it talks to the store are in
module `WriteOperations`:

- `removeKeys` and `blockRootDelete`;
- the argument validation of `newUploadPartRequest`;
- `newObjectMetadata`.

**The `StocatorPath` resolver.** This component maps a path written by
Hadoop's file output committer under
`_temporary/<job id>/_temporary/attempt_<id>/` to the key where the output
finally lives. It optionally embeds the attempt id in the leaf name (module
`StocatorPath`). Its implementation is not part of this model. Its behaviour
is reconstructed from the cases of `StocatorPathTest`, and every one of those
cases is proved as a lemma (module `StocatorPathVectors`). Module
`NameBridge` relates the resolver's `nameWithoutTaskID` to the COS client's
private one. The two differ: the resolver keeps the extension after the
attempt id, while the client cuts the key at `-attempt_`.

**Inputs the code cannot see.** The environment enters as parameters:

- `getObjectMetadata` is the function `Store.meta` from key to optional user
  metadata. `None` stands for both a missing object and a failed request.
- Hadoop's `TaskAttemptID.forName` is the predicate `validAttempt`.
- The pages of the listing are a `seq<seq<Summary>>`.
- The deletions `list` would issue are returned as the list `doomed`.
- The requests `removeKeys` would send are returned as a list, in order.

## Model

| member | source | states |
|---|---|---|
| ObjectNames.Parent | src/main/java/com/ibm/stocator/fs/cos/COSAPIClient.java:973-988 | The parent of a key is a prefix of it. It is empty when the key has no `/`; otherwise it is followed in the key by its last `/`. |
| ObjectNames.AttemptCandidate | src/main/java/com/ibm/stocator/fs/cos/COSAPIClient.java:976 | The candidate attempt id is the text after the last `-` of the key: a `-`-free suffix preceded in the key by a `-`, or the whole key when the key has no `-`. |
| ObjectNames.ExtractFromObjectKeyWithTaskID | src/main/java/com/ibm/stocator/fs/cos/COSAPIClient.java:972-991 | Both forms of the extraction are prefixes of the key. |
| ObjectNames.UnifiedObjectName | src/main/java/com/ibm/stocator/fs/cos/COSAPIClient.java:946-991 | The result is the parent when `-attempt_` occurs past index 0 and `forName` accepts the candidate. It is also the parent when there is no such marker but `_SUCCESS` occurs past index 0. It is the key itself when the candidate is rejected or neither marker occurs. |
| ObjectNames.NameWithoutTaskID | src/main/java/com/ibm/stocator/fs/cos/COSAPIClient.java:961-991 | The task-invariant name is a prefix of the key. It differs from the key exactly when the key carries a recognised attempt suffix, and then it ends where the first `-attempt_` begins. |
| ObjectNames.SuffixedKey | src/main/java/com/ibm/stocator/fs/cos/COSAPIClient.java:972-986 | Take a key `name-id` where `id` starts with `attempt_` and has no `-`. Its task-invariant name is `name` if `forName` accepts `id`, and the whole key otherwise. |
| ObjectNames.GetRealKey | src/main/java/com/ibm/stocator/fs/cos/COSAPIClient.java:1021-1028 | A name changes only when it is `<bucket>/<non-empty key>`, and then it becomes that key. Every other name, `<bucket>/` included, is returned as is. |
| ObjectNames.GetRealKeyStripsBucket | src/main/java/com/ibm/stocator/fs/cos/COSAPIClient.java:1021-1028 | A bucket-qualified name maps back to the key it qualifies. |
| ObjectNames.MaybeAddTrailingSlash | src/main/java/com/ibm/stocator/fs/cos/COSAPIClient.java:590-596 | The result extends the key by at most one character. It is empty exactly for the root key, and otherwise ends in `/`. A key that already ends in `/` is kept. |
| ObjectNames.TrailingSlashIdempotent | src/main/java/com/ibm/stocator/fs/cos/COSAPIClient.java:590-596 | Adding the trailing slash twice is the same as adding it once. |
| ObjectNames.ObjectRepresentsDirectory | src/main/java/com/ibm/stocator/fs/cos/COSAPIClient.java:605-607 | An object represents a directory exactly when its name is non-empty and its size is zero; `DirectoryMarker` relates it to the names `maybeAddTrailingSlash` gives. |
| ObjectNames.DirectoryMarker | src/main/java/com/ibm/stocator/fs/cos/COSAPIClient.java:590-607 | An empty marker object named by `maybeAddTrailingSlash` represents a directory exactly when the key is not the root. An object with content never does. |
| ObjectNames.CurrentObject | src/main/java/com/ibm/stocator/fs/cos/COSAPIClient.java:788-797 | `curObj` is empty for the bucket itself. Otherwise it is the path with `<bucket>/` removed, else with the host name removed, else the whole path, tried in that order. |
| StatusCache.Recall | src/main/java/com/ibm/stocator/fs/cos/COSAPIClient.java:921-934 | A remembered name is answered from the table with no lookup. Any other name costs exactly one lookup, and its answer is remembered. No other entry of the table changes. |
| StatusCache.IsJobSuccessful | src/main/java/com/ibm/stocator/fs/cos/COSAPIClient.java:921-934 | An unremembered name is looked up once, at `<real key>/_SUCCESS`. It counts as successful exactly when that lookup returns metadata. The answer is added to the table. |
| StatusCache.IsSparkOrigin | src/main/java/com/ibm/stocator/fs/cos/COSAPIClient.java:1000-1019 | An unremembered name is looked up once, at its real key. It counts as connector output exactly when the metadata has `data-origin` equal to `stocator`; a failed lookup means no. The answer is added to the table. |
| StatusCache.RecallExtends | src/main/java/com/ibm/stocator/fs/cos/COSAPIClient.java:1002-1017 | A probe only adds to its table. A table that agrees with the store still agrees after the probe. |
| StatusCache.RecallIdempotent | src/main/java/com/ibm/stocator/fs/cos/COSAPIClient.java:1002-1004 | Asking about the same name again costs no lookup and gives the same answer. |
| Listing.List | src/main/java/com/ibm/stocator/fs/cos/COSAPIClient.java:799-805 | An empty first page ends the listing with no entries, no deletions and untouched memo tables. |
| Listing.ListObjects | src/main/java/com/ibm/stocator/fs/cos/COSAPIClient.java:806-863 | The nested page and summary loops, with one `prevObj` across pages, compute the fold `List`. |
| ListingProperties.PagingTransparent | src/main/java/com/ibm/stocator/fs/cos/COSAPIClient.java:806-859 | Scanning page by page is scanning the concatenated pages. |
| ListingProperties.ListIgnoresPaging | src/main/java/com/ibm/stocator/fs/cos/COSAPIClient.java:806-859 | Two pagings of the same summaries give the same listing, as long as both first pages are non-empty. |
| ListingProperties.ListIsSubsequence | src/main/java/com/ibm/stocator/fs/cos/COSAPIClient.java:806-863 | The entries are an order-preserving subsequence of the concatenated pages. |
| ListingProperties.ListEntriesHaveContent | src/main/java/com/ibm/stocator/fs/cos/COSAPIClient.java:846-863 | Every entry has size > 0 unless the listing is full. So a listing that is not full returns no directory-marker object. |
| ListingProperties.ListDeletesOnlyListedKeys | src/main/java/com/ibm/stocator/fs/cos/COSAPIClient.java:823-828 | The deleted keys are an in-order subsequence of the listed keys. Nothing is deleted without automatic delete, or in a full listing. |
| ListingProperties.StepDoomed | src/main/java/com/ibm/stocator/fs/cos/COSAPIClient.java:821-828 | One summary queues at most its own key for deletion, and only with automatic delete in a listing that is not full. |
| ListingProperties.ListCaches | src/main/java/com/ibm/stocator/fs/cos/COSAPIClient.java:815-835 | A listing only adds entries to both memo tables. Tables that agree with the store still agree afterwards. |
| ListingProperties.JudgeSound | src/main/java/com/ibm/stocator/fs/cos/COSAPIClient.java:814-845 | Over tables that agree with the store, the fate of a summary is `Fate`, the reference decision computed from the store's facts with no tables. |
| ListingProperties.JudgeInScopeSound | src/main/java/com/ibm/stocator/fs/cos/COSAPIClient.java:821-845 | Over sound tables, the lookups decide by origin, job status and task-invariant name, in that order. The tables stay sound. |
| ListingProperties.FirstSummaryPending | src/main/java/com/ibm/stocator/fs/cos/COSAPIClient.java:807-813 | The first summary becomes pending with no scope check and no lookup. It is listed only if it is emittable. |
| ListingProperties.OutOfScopeSkipped | src/main/java/com/ibm/stocator/fs/cos/COSAPIClient.java:816-820 | A later summary whose unified name is outside the scoped object changes nothing. |
| ListingProperties.FailedJobOutputDropped | src/main/java/com/ibm/stocator/fs/cos/COSAPIClient.java:821-828 | In a listing that is not full, output of a failed job is neither emitted nor made pending. It is queued for deletion exactly when automatic delete is on. |
| ListingProperties.AttemptCollisionKeepsLarger | src/main/java/com/ibm/stocator/fs/cos/COSAPIClient.java:835-843 | Another attempt at the pending output replaces the pending summary only if it is strictly larger. A tie keeps the earlier one, and nothing is emitted. |
| ListingProperties.AcceptedSummaryAdvances | src/main/java/com/ibm/stocator/fs/cos/COSAPIClient.java:846-850 | An accepted summary flushes the pending one (if it has content or the listing is full) and becomes pending itself. |
| ListingProperties.TwoAttempts | src/main/java/com/ibm/stocator/fs/cos/COSAPIClient.java:835-863 | A one-page listing of two attempts of different sizes lists only the larger one. |
| ListingProperties.CollisionIndependentOfOrder | src/main/java/com/ibm/stocator/fs/cos/COSAPIClient.java:835-863 | The outcome of a collision does not depend on which attempt comes first. |
| ListingProperties.FullListingIsScopeFilter | src/main/java/com/ibm/stocator/fs/cos/COSAPIClient.java:816-850 | A full listing is the first summary followed by every later summary whose unified name is in scope, in order. |
| WriteOperations.BlockRootDelete | src/main/java/com/ibm/stocator/fs/cos/COSAPIClient.java:1223-1228 | A key is refused exactly when it is `""` or `/`, with the bucket named in the error. |
| WriteOperations.SingleDeletesCover | src/main/java/com/ibm/stocator/fs/cos/COSAPIClient.java:1206-1210 | Deleting key by key deletes exactly the given keys, in order. |
| WriteOperations.RemoveKeys | src/main/java/com/ibm/stocator/fs/cos/COSAPIClient.java:1193-1215 | An empty list issues nothing. A root key anywhere in the list makes the call fail before any request. Otherwise the requests delete exactly the keys, in one batch or one request per key. The list is emptied exactly when `clearKeys`. |
| WriteOperations.NewUploadPartRequest | src/main/java/com/ibm/stocator/fs/cos/COSAPIClient.java:1312-1321 | A request is built exactly when there is an upload id, exactly one data source, a positive size and a part number in 1..10000. Otherwise the first failing check names the error. A built request is a valid part and carries the arguments. |
| WriteOperations.NewObjectMetadata | src/main/java/com/ibm/stocator/fs/cos/COSAPIClient.java:1245-1251 | The content length is set exactly when the length is non-negative, and then to that length. |
| NameBridge.ClientStripsEmbeddedId | src/main/java/com/ibm/stocator/fs/cos/COSAPIClient.java:972-986 | On a name without extension, the client cuts off an attempt id the resolver embedded, provided `forName` accepts the id. |
| NameBridge.EmbeddedIdWithExtension | src/main/java/com/ibm/stocator/fs/cos/COSAPIClient.java:972-986 | With an extension, the client's candidate is `<attempt id><extension>`. The name is cut, and the extension dropped, only if `forName` accepts that candidate. |
| NameBridge.NamesAgreeWithoutExtension | src/test/java/com/ibm/stocator/fs/common/unittests/StocatorPathTest.java:274-279 | On resolver-written names without extension, the two `nameWithoutTaskID`s agree. |
| StocatorPath.Classify | src/test/java/com/ibm/stocator/fs/common/unittests/StocatorPathTest.java:59-71 | A task-level path is its base, the whole template and the rest. A job-level path stops inside the template. A path with no `_temporary` is final. |
| StocatorPath.NameWithoutTaskID | src/test/java/com/ibm/stocator/fs/common/unittests/StocatorPathTest.java:259-281 | A name is unchanged exactly when it has no `-attempt_`. Otherwise the result keeps the text before the marker and is shorter by at least the marker. |
| StocatorPath.NameWithoutTaskIDUndoesEmbed | src/test/java/com/ibm/stocator/fs/common/unittests/StocatorPathTest.java:261-279 | Cutting an embedded attempt id out of a leaf gives the leaf back. |
| StocatorPath.EmbedAttemptInjective | src/test/java/com/ibm/stocator/fs/common/unittests/StocatorPathTest.java:87-101 | Distinct attempt ids give distinct embedded names. |
| StocatorPath.StemAndExtension | src/test/java/com/ibm/stocator/fs/common/unittests/StocatorPathTest.java:95-101 | A leaf splits at its first `.` into stem and extension. |
| StocatorPath.ExtractNameFromTempPath | src/test/java/com/ibm/stocator/fs/common/unittests/StocatorPathTest.java:124-172 | A path that is not staged keeps its name below the host. |
| StocatorPath.ExtractFinalKeyFromTemporaryPath | src/test/java/com/ibm/stocator/fs/common/unittests/StocatorPathTest.java:59-115 | The final key is the resolved name, under `<dataRoot>/` exactly when `withRootPrefix`. |
| StocatorPath.ModifyPathToFinalDestination | src/test/java/com/ibm/stocator/fs/common/unittests/StocatorPathTest.java:285-294 | The destination keeps the host, and below it is the resolved name with the attempt id embedded. |
| StocatorPath.GetBaseDirectory | src/test/java/com/ibm/stocator/fs/common/unittests/StocatorPathTest.java:249-257 | The base is a prefix of the path. It is the whole path exactly when there is no `/_temporary`; otherwise it ends exactly where the first `/_temporary` begins, and it contains no `/_temporary` itself. |
| StocatorPath.BaseDirectoryCutsAtMarker | src/test/java/com/ibm/stocator/fs/common/unittests/StocatorPathTest.java:249-257 | For every directory without `/_temporary` and every continuation, the base of `<directory>/_temporary<continuation>` is that directory. |
| StocatorPath.ResolveStaged | src/test/java/com/ibm/stocator/fs/common/unittests/StocatorPathTest.java:124-154 | A task-level path resolves to the base, the sub-directories and the leaf (carrying the attempt id when asked). The attempt directory itself resolves to the base. |
| StocatorPath.ResolveJobLevel | src/test/java/com/ibm/stocator/fs/common/unittests/StocatorPathTest.java:103-115 | A job-level directory is staging but not an attempt directory, and resolves to the base followed by the job id. |
| StocatorPath.ResolveBrokenTemplate | src/test/java/com/ibm/stocator/fs/common/unittests/StocatorPathTest.java:156-172 | A template broken at the attempt segment is no staging path and keeps its name. |
| StocatorPath.PartitionsPreserved | src/test/java/com/ibm/stocator/fs/common/unittests/StocatorPathTest.java:204-243 | Reading the resolved name back as a path gives the base, the partition directories unchanged, and the leaf. |
| StocatorPath.AttemptEmbeddingUnique | src/test/java/com/ibm/stocator/fs/common/unittests/StocatorPathTest.java:87-101 | Two attempts writing the same staged file resolve, with embedding, to two different names. |
| StocatorPath.ResolveIdempotent | src/test/java/com/ibm/stocator/fs/common/unittests/StocatorPathTest.java:124-154 | A resolved name put back under the host resolves to itself. |
| StocatorPath.ResolveUnstaged | src/test/java/com/ibm/stocator/fs/common/unittests/StocatorPathTest.java:73-85 | A path with no `_temporary` segment is not staged and resolves to its own name. |
| StocatorPath.FinalPathUnchanged | src/test/java/com/ibm/stocator/fs/common/unittests/StocatorPathTest.java:73-85 | A final path resolves to its joined segments, and so does that name. |
| StocatorPath.TrailingSeparatorIgnored | src/test/java/com/ibm/stocator/fs/common/unittests/StocatorPathTest.java:110-115 | A trailing `/` below the host adds no segment. |
| StocatorPathVectors.AttemptDirectoryIsTarget | src/test/java/com/ibm/stocator/fs/common/unittests/StocatorPathTest.java:59-71 | `one3.txt/_temporary/0/_temporary/attempt_…_15` is a temporary path and an attempt directory. |
| StocatorPathVectors.AttemptDirectoryResolvesToBase | src/test/java/com/ibm/stocator/fs/common/unittests/StocatorPathTest.java:59-65 | That attempt directory has the final key `a/one3.txt`. |
| StocatorPathVectors.UnstagedUnderRoot | src/test/java/com/ibm/stocator/fs/common/unittests/StocatorPathTest.java:73-78 | `fruit` has the final key `a/fruit`. |
| StocatorPathVectors.UnstagedWithoutRoot | src/test/java/com/ibm/stocator/fs/common/unittests/StocatorPathTest.java:80-85 | `fruit/d` without the root prefix has the final key `fruit/d`. |
| StocatorPathVectors.LeafWithoutExtension | src/test/java/com/ibm/stocator/fs/common/unittests/StocatorPathTest.java:87-93 | `part-1` becomes `a/one3.txt/part-1-attempt_…_15`. |
| StocatorPathVectors.LeafWithExtension | src/test/java/com/ibm/stocator/fs/common/unittests/StocatorPathTest.java:95-101 | `part-1.csv` becomes `a/one3.txt/part-1-attempt_…_15.csv`. |
| StocatorPathVectors.JobDirectory | src/test/java/com/ibm/stocator/fs/common/unittests/StocatorPathTest.java:103-108 | `…/data2.json/_temporary/0` becomes `a/…/data2.json/0`. |
| StocatorPathVectors.JobDirectoryTrailingSeparator | src/test/java/com/ibm/stocator/fs/common/unittests/StocatorPathTest.java:110-115 | The same result holds with a trailing `/`. |
| StocatorPathVectors.NestedBase | src/test/java/com/ibm/stocator/fs/common/unittests/StocatorPathTest.java:124-130 | A deep base resolves to `aa/bb/cc/one3.txt/part-00007`. |
| StocatorPathVectors.NestedBelowAttempt | src/test/java/com/ibm/stocator/fs/common/unittests/StocatorPathTest.java:132-138 | A sub-directory below the attempt directory is kept: `one3.txt/a/part-00007`. |
| StocatorPathVectors.AttemptDirectoryNameTrailingSeparator | src/test/java/com/ibm/stocator/fs/common/unittests/StocatorPathTest.java:140-146 | The attempt directory with a trailing `/` has the name `one3.txt`. |
| StocatorPathVectors.AttemptDirectoryName | src/test/java/com/ibm/stocator/fs/common/unittests/StocatorPathTest.java:148-154 | The attempt directory has the name `one3.txt`. |
| StocatorPathVectors.MisspeltAttempt | src/test/java/com/ibm/stocator/fs/common/unittests/StocatorPathTest.java:156-172 | With `attampt_` in place of `attempt_`, both test paths keep their names. |
| StocatorPathVectors.PartitionLeafOnly | src/test/java/com/ibm/stocator/fs/common/unittests/StocatorPathTest.java:192-202 | The attempt id goes before `.snappy.parquet`. |
| StocatorPathVectors.PartitionYear | src/test/java/com/ibm/stocator/fs/common/unittests/StocatorPathTest.java:204-216 | The partition `YEAR=2003` survives between base and leaf. |
| StocatorPathVectors.PartitionDate | src/test/java/com/ibm/stocator/fs/common/unittests/StocatorPathTest.java:218-230 | The partition `D_DATE=2003-01-10 00%3A00%3A00` survives character for character. |
| StocatorPathVectors.PartitionDateWithoutExtension | src/test/java/com/ibm/stocator/fs/common/unittests/StocatorPathTest.java:232-243 | A leaf without extension gets the attempt id at its end. |
| StocatorPathVectors.BaseDirectory | src/test/java/com/ibm/stocator/fs/common/unittests/StocatorPathTest.java:249-257 | `…/b.txt/_temporary/0` and `…/m/n/b.txt/_temporary/0` have the bases `…/b.txt` and `…/m/n/b.txt`, host included. |
| StocatorPathVectors.DataKeyWithExtension | src/test/java/com/ibm/stocator/fs/common/unittests/StocatorPathTest.java:261-266 | The data key loses `-attempt_…_0` and keeps `.json`. |
| StocatorPathVectors.DataKeyBareAttempt | src/test/java/com/ibm/stocator/fs/common/unittests/StocatorPathTest.java:268-272 | `…/data/attempt_…_0.json` (no `-` in front) is unchanged. |
| StocatorPathVectors.DataKeyWithoutExtension | src/test/java/com/ibm/stocator/fs/common/unittests/StocatorPathTest.java:274-279 | The data key without extension loses `-attempt_…_0`. |
| StocatorPathVectors.FinalDestination | src/test/java/com/ibm/stocator/fs/common/unittests/StocatorPathTest.java:285-294 | The staged Parquet part moves to `swift2d://a.service/test09102018v1/data.parquet/part-…-c000-attempt_….snappy.parquet`. |

## Left out

- Store I/O is not modelled: `getObject`, object creation, `delete`, the multipart and put helpers, and the HEAD/list fallback inside `getObjectMetadata`. Metadata is the function `Store.meta`; deletions and delete requests are returned as lists.
- `initiate`, configuration parsing, credentials and client construction are left out. They are plumbing around foreign SDK calls.
- Hadoop `Path` normalisation (`pathToKey`, `getMergedPath`) is left out. Keys are plain strings. The parent of a key is everything before its last `/`, or `""` when it has none, where Hadoop would print `.`.
- ObjectNames.UnifiedObjectName, ObjectNames.NameWithoutTaskID and Listing.List take keys as plain strings, so two behaviours of `new Path(objectKey)` (COSAPIClient.java:973) are not modelled. First, Hadoop normalises the key, so the parent of a directory-marker key such as `a/b_SUCCESS/` is `a`, while the model gives `a/b_SUCCESS`. Second, a key with `:` before its first `/` (such as `logs:2020/x`) is read as a URI with a scheme, `new Path` throws `IllegalArgumentException` outside the `try`, and `list` fails, while the model returns a listing.
- The construction of `FileStatus` objects and the `Date`/`lastModified` handling are left out. An entry is the listed summary itself.
- Thread safety of the memo tables is not modelled. The tables are maps threaded through the fold.
- `TaskAttemptID.forName` is the uninterpreted predicate `validAttempt`, because its parser is Hadoop code.
- `removeKeys` calls `blockRootDelete` a second time in the per-key loop. That call cannot fail once the first pass succeeded, so it is not modelled. The `deleteFakeDir` flag has no effect in the method and is not modelled either. Version ids of `KeyVersion` are ignored.
- Java `int` and `long` widths are not modelled. Sizes, part numbers and lengths are unbounded integers. Every comparison the code makes gives the same answer within those widths.
- `Utils.extractAccessURL` and `Utils.extractDataRoot`, exercised by `extractAccessURLTest`, are not part of this model; `Utils` belongs to the connector's configuration code, not to the resolver.
- `StocatorPath` behaviour that the tests do not pin down is not modelled. This includes configurable or multiple staging patterns, and paths with more than one `_temporary` segment beyond the first match. The names `_temporary`, `attempt_` and `_SUCCESS` are the values the tests and the code use.
- StocatorPath.EmbedAttempt: the attempt id goes before the first `.` of the leaf, as StocatorPathTest.java:192-201 requires (`.snappy.parquet` stays whole).
- StocatorPath.IsTemporaryPathTarget: modelled as "the path is an attempt directory". This is the only case the tests pin.
- NameBridge.EmbeddedIdWithExtension: the COS client's candidate id includes the extension (the text after the last `-`). So whether such a key is cut depends on how `forName` treats `<attempt id><extension>`. The model leaves that open.
