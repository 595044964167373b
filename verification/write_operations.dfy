/**
 * The checks `WriteOperationHelper` makes before it talks to the store:
 * `removeKeys` with its guard `blockRootDelete`, the argument validation of
 * `newUploadPartRequest`, and `newObjectMetadata`.
 *
 * The store calls themselves are not made; `removeKeys` returns the delete
 * requests it would issue, in order, and the state of the key list after
 * the call.
 */
module WriteOperations {
  import opened Wrappers

  /** Why a write operation refuses its arguments. */
  datatype WriteError =
    | RootDelete(bucket: string)    // `InvalidRequestException`: "Bucket <bucket> cannot be deleted"
    | NullUploadId                  // `checkNotNull(uploadId)`
    | DataSource                    // not exactly one of stream and file
    | InvalidPartSize(size: int)    // "Invalid partition size"
    | InvalidPartNumber(part: int)  // "partNumber must be between 1 and 10000 inclusive"

  /** The highest part number a multipart upload accepts. */
  const MaxPartNumber := 10000

  // ---------------------------------------------------------------------------
  // removeKeys

  /** A key naming the bucket root: empty, or a lone separator. */
  predicate IsRootKey(key: string) {
    key == "" || key == "/"
  }

  /** `blockRootDelete`: the error for a root key, nothing for any other key. */
  function BlockRootDelete(bucket: string, key: string): (r: Option<WriteError>)
    ensures r.Some? <==> key == "" || key == "/"
    ensures r.Some? ==> r.value == RootDelete(bucket)
  {
    if IsRootKey(key) then Some(RootDelete(bucket)) else None
  }

  /** A request `removeKeys` sends: one multi-object delete, or the delete of one key. */
  datatype DeleteRequest = DeleteBatch(bucket: string, keys: seq<string>) | DeleteSingle(bucket: string, key: string)

  /** The requests a call issued, in order, and the caller's key list afterwards. */
  datatype Removal = Removal(requests: seq<DeleteRequest>, remaining: seq<string>)

  /** The keys a sequence of requests deletes, in order. */
  function DeletedKeys(reqs: seq<DeleteRequest>): seq<string>
    decreases |reqs|
  {
    if |reqs| == 0 then []
    else
      var last := reqs[|reqs| - 1];
      DeletedKeys(reqs[..|reqs| - 1]) + (match last case DeleteBatch(_, ks) => ks case DeleteSingle(_, k) => [k])
  }

  /** One single-object delete per key, in order. */
  function SingleDeletes(bucket: string, keys: seq<string>): (r: seq<DeleteRequest>)
    ensures |r| == |keys|
    ensures forall i :: 0 <= i < |keys| ==> r[i] == DeleteSingle(bucket, keys[i])
    decreases |keys|
  {
    if |keys| == 0 then [] else SingleDeletes(bucket, keys[..|keys| - 1]) + [DeleteSingle(bucket, keys[|keys| - 1])]
  }

  /** Deleting key by key deletes exactly the keys, in order. */
  lemma {:induction false} SingleDeletesCover(bucket: string, keys: seq<string>)
    ensures DeletedKeys(SingleDeletes(bucket, keys)) == keys
    decreases |keys|
  {
    if |keys| > 0 {
      var front := keys[..|keys| - 1];
      var reqs := SingleDeletes(bucket, keys);
      SingleDeletesCover(bucket, front);
      assert reqs[..|reqs| - 1] == SingleDeletes(bucket, front);
      assert keys == front + [keys[|keys| - 1]];
    }
  }

  /**
   * `removeKeys(keysToDelete, clearKeys, deleteFakeDir)`: an empty list
   * issues nothing; otherwise every key is checked against
   * `blockRootDelete` before any request goes out, so a single root key
   * means nothing is deleted and the list is left alone. With multi-object
   * delete enabled all keys go in one request, otherwise one request per key
   * in list order. The list is emptied afterwards exactly when `clearKeys`.
   */
  method RemoveKeys(bucket: string, keys: seq<string>, clearKeys: bool, multiDelete: bool) returns (r: Result<Removal, WriteError>)
    ensures |keys| == 0 ==> r == Success(Removal([], keys))
    ensures r.Failure? <==> exists i :: 0 <= i < |keys| && IsRootKey(keys[i])
    ensures r.Failure? ==> r.error == RootDelete(bucket)
    ensures r.Success? ==> DeletedKeys(r.value.requests) == keys
    ensures r.Success? && |keys| > 0 ==>
      r.value.requests == (if multiDelete then [DeleteBatch(bucket, keys)] else SingleDeletes(bucket, keys))
    ensures r.Success? && |keys| > 0 ==> r.value.remaining == (if clearKeys then [] else keys)
  {
    if |keys| == 0 {
      return Success(Removal([], keys));
    }
    var i := 0;
    while i < |keys|
      invariant 0 <= i <= |keys|
      invariant forall j :: 0 <= j < i ==> !IsRootKey(keys[j])
    {
      var blocked := BlockRootDelete(bucket, keys[i]);
      if blocked.Some? {
        return Failure(blocked.value);
      }
      i := i + 1;
    }
    var requests: seq<DeleteRequest>;
    if multiDelete {
      requests := [DeleteBatch(bucket, keys)];
      assert [DeleteBatch(bucket, keys)][..0] == [];
    } else {
      requests := [];
      i := 0;
      while i < |keys|
        invariant 0 <= i <= |keys|
        invariant requests == SingleDeletes(bucket, keys[..i])
      {
        assert keys[..i + 1][..i] == keys[..i];
        requests := requests + [DeleteSingle(bucket, keys[i])];
        i := i + 1;
      }
      assert keys[..i] == keys;
      SingleDeletesCover(bucket, keys);
    }
    r := Success(Removal(requests, if clearKeys then [] else keys));
  }

  // ---------------------------------------------------------------------------
  // newUploadPartRequest

  /** Where the bytes of a part come from: an open stream (identified, not read) or a file. */
  datatype PartSource = Stream(stream: nat) | File(path: string)

  /** An `UploadPartRequest` as `newUploadPartRequest` fills it in. */
  datatype UploadPart = UploadPart(bucket: string, key: string, uploadId: string, partNumber: int, partSize: int, source: PartSource)

  /** A part request the store can accept: a positive size and a part number in 1..10000. */
  predicate ValidPart(p: UploadPart) {
    p.partSize > 0 && 1 <= p.partNumber <= MaxPartNumber
  }

  /**
   * `newUploadPartRequest(uploadId, partNumber, size, uploadStream,
   * sourceFile)` for the helper's bucket and key. The checks run in order,
   * and the first that fails decides the error: a missing upload id, then
   * not exactly one data source, then a non-positive size, then a part
   * number outside 1..10000. A stream, when given, is the source.
   */
  function NewUploadPartRequest(bucket: string, key: string, uploadId: Option<string>, partNumber: int, size: int,
                                stream: Option<nat>, file: Option<string>): (r: Result<UploadPart, WriteError>)
    ensures r.Success? <==> uploadId.Some? && stream.Some? != file.Some? && size > 0 && 1 <= partNumber <= 10000
    ensures uploadId.None? ==> r == Failure(NullUploadId)
    ensures uploadId.Some? && stream.Some? == file.Some? ==> r == Failure(DataSource)
    ensures uploadId.Some? && stream.Some? != file.Some? && size <= 0 ==> r == Failure(InvalidPartSize(size))
    ensures uploadId.Some? && stream.Some? != file.Some? && size > 0 && !(1 <= partNumber <= 10000) ==>
      r == Failure(InvalidPartNumber(partNumber))
    ensures r.Success? ==> ValidPart(r.value)
    ensures r.Success? ==> r.value.bucket == bucket && r.value.key == key && r.value.uploadId == uploadId.value
    ensures r.Success? ==> r.value.partNumber == partNumber && r.value.partSize == size
    ensures r.Success? ==> r.value.source == (if stream.Some? then Stream(stream.value) else File(file.value))
  {
    if uploadId.None? then Failure(NullUploadId)
    else if stream.Some? == file.Some? then Failure(DataSource)
    else if !(size > 0) then Failure(InvalidPartSize(size))
    else if !(partNumber > 0 && partNumber <= MaxPartNumber) then Failure(InvalidPartNumber(partNumber))
    else
      var source := if stream.Some? then Stream(stream.value) else File(file.value);
      Success(UploadPart(bucket, key, uploadId.value, partNumber, size, source))
  }

  // ---------------------------------------------------------------------------
  // newObjectMetadata

  /** The part of `ObjectMetadata` a new instance sets: the content length, if known. */
  datatype ObjectMetadata = ObjectMetadata(contentLength: Option<int>)

  /** `newObjectMetadata(length)`: a negative length (conventionally -1) means unknown and sets nothing. */
  function NewObjectMetadata(length: int): (r: ObjectMetadata)
    ensures r.contentLength.Some? <==> length >= 0
    ensures r.contentLength.Some? ==> r.contentLength.value == length
  {
    ObjectMetadata(if length >= 0 then Some(length) else None)
  }
}
