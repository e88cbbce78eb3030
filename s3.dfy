/**
  The S3 bucket the service talks to, reduced to what the service can observe:
  the objects it holds, keyed by object key, and the log of SDK operations the
  service has invoked (list, upload, presign). The SDK calls themselves are foreign; whether each one
  fails, and the URL a presign produces, are supplied by the caller.
 */
module S3 {
  import opened Wrappers
  import opened Fnv

  /**
    An SDK operation the service invokes. Listing and uploading are sent to S3;
    presigning only signs a GetObject URL locally and sends nothing.
   */
  datatype Call =
    | ListCall(bucket: string, prefix: string)
    | UploadCall(bucket: string, key: string, contentType: string, body: Bytes)
    | PresignCall(bucket: string, key: string, expiryMins: nat)

  /**
    How the SDK answers the three operations of one submission: the error
    text of a failed listing, whether the upload fails, and the presigned URL
    (None when signing fails). Clocks, credentials and the network decide these
    in the real system.
   */
  datatype Outcomes = Outcomes(listError: Option<string>, uploadFails: bool, presigned: Option<string>)

  /** Number of uploads in a log. */
  function Uploads(calls: seq<Call>): nat {
    if calls == [] then 0 else (if calls[0].UploadCall? then 1 else 0) + Uploads(calls[1..])
  }

  lemma {:induction false} UploadsConcat(a: seq<Call>, b: seq<Call>)
    ensures Uploads(a + b) == Uploads(a) + Uploads(b)
  {
    if a != [] {
      assert (a + b)[0] == a[0] && (a + b)[1..] == a[1..] + b;
      UploadsConcat(a[1..], b);
    } else {
      assert a + b == b;
    }
  }

  lemma {:induction false} NoUploads(calls: seq<Call>)
    requires forall i :: 0 <= i < |calls| ==> !calls[i].UploadCall?
    ensures Uploads(calls) == 0
  {
    if calls != [] {
      NoUploads(calls[1..]);
    }
  }

  class ObjectStore {
    var objects: map<string, Bytes>
    var calls: seq<Call>

    constructor (objects: map<string, Bytes>)
      ensures this.objects == objects && calls == []
    {
      this.objects := objects;
      calls := [];
    }

    /** ListObjects with a prefix: the keys that start with it, or the SDK's error. */
    method ListObjects(bucket: string, prefix: string, error: Option<string>)
      returns (r: Result<set<string>, string>)
      modifies this`calls
      ensures calls == old(calls) + [ListCall(bucket, prefix)]
      ensures error.Some? ==> r == Failure(error.value)
      ensures error.None? ==> r.Success? && (forall k :: k in r.value <==> k in objects && prefix <= k)
    {
      calls := calls + [ListCall(bucket, prefix)];
      if error.Some? {
        r := Failure(error.value);
      } else {
        r := Success(set k | k in objects && prefix <= k);
      }
    }

    /** A single-shot upload: on success the key holds the body; a failed upload stores nothing. */
    method Upload(bucket: string, key: string, contentType: string, body: Bytes, fails: bool)
      returns (ok: bool)
      modifies this
      ensures calls == old(calls) + [UploadCall(bucket, key, contentType, body)]
      ensures ok == !fails
      ensures objects == if ok then old(objects)[key := body] else old(objects)
    {
      calls := calls + [UploadCall(bucket, key, contentType, body)];
      ok := !fails;
      if ok {
        objects := objects[key := body];
      }
    }

    /**
      Signing a GetObject URL valid for the given number of minutes. This is done
      locally by the SDK: nothing is sent to S3 and no object changes.
     */
    method PresignGetObject(bucket: string, key: string, expiryMins: nat, signed: Option<string>)
      returns (url: Option<string>)
      modifies this`calls
      ensures calls == old(calls) + [PresignCall(bucket, key, expiryMins)]
      ensures url == signed
    {
      calls := calls + [PresignCall(bucket, key, expiryMins)];
      url := signed;
    }
  }
}
