/**
  The request path of the whisper service: a posted blob is addressed by the
  FNV-1a 64 hash of its bytes, written to the bucket only if no object with
  that key is listed yet, and answered with a presigned download link; every
  failure is answered with an error line followed by the usage banner.
 */
module Whisper {
  import opened Wrappers
  import opened Decimal
  import opened Fnv
  import opened S3

  /** The backend configuration fixed at start-up: bucket name and link lifetime in minutes. */
  datatype Config = Config(bucket: string, expiryMins: nat)

  /** The configuration the service installs at start-up. */
  const DEFAULT_CONFIG := Config("users-shared-secrets", 30)

  const USAGE: string :=
    "\nUsage examples:\n# from stdin\n- echo 'somesecret' | curl --data-binary @- https://<secrets-server-url>\n# from file: aws_user_secrets\n- curl --data-binary @aws_user_secrets https://<secrets-server-url>\n"

  const EMPTY_REQUEST: string := "error: received empty request"
  const CONTENT_TYPE: string := "text/plain"
  const KEY_SUFFIX: string := ".txt"

  /** The errors storing and signing can return, with the text Error() gives for each. */
  datatype Error =
    | ListFailed(cause: string)
    | UploadFailed(key: string, bucket: string)
    | SignFailed(bucket: string, key: string)
  {
    /**
      A listing error is passed through verbatim; an upload error names the key
      and then the bucket, a signing error the bucket and then the key.
     */
    function Message(): (m: string)
      ensures ListFailed? ==> m == cause
      ensures UploadFailed? ==> |m| == 31 + |key| + |bucket| && m[22..22 + |key|] == key && m[|m| - |bucket|..] == bucket
      ensures SignFailed? ==> |m| == 37 + |bucket| + |key| && m[36..36 + |bucket|] == bucket && m[|m| - |key|..] == key
    {
      match this
      case ListFailed(cause) => cause
      case UploadFailed(key, bucket) => "failed to upload file " + key + " to s3://" + bucket
      case SignFailed(bucket, key) => "failed to sign request for obj s3://" + bucket + "/" + key
    }
  }

  /** The fixed lead-in of the upload and signing errors, ahead of the names they carry. */
  lemma MessageLeadIns(e: Error)
    ensures e.UploadFailed? ==> e.Message()[..22] == "failed to upload file "
    ensures e.SignFailed? ==> e.Message()[..36] == "failed to sign request for obj s3://"
  {
  }

  // ---------------------------------------------------------------------------
  // Content addressing

  /** The decimal rendering of the FNV-1a 64 sum of the bytes: the only rendering that parses back to that sum. */
  function Hash(data: Bytes): (h: string)
    ensures IsCanonical(h) && ParseDecimal(h) == Sum64(data)
    ensures |h| <= 20
  {
    var n := Sum64(data);
    ParseFormat(n);
    Pow10At20();
    FormatLength(n, 20);
    FormatUint(n)
  }

  /** The storage key of a blob: its digest followed by ".txt". */
  function ContentKey(data: Bytes): (key: string)
    ensures |key| > |KEY_SUFFIX| && key[|key| - |KEY_SUFFIX|..] == KEY_SUFFIX
    ensures var digest := key[..|key| - |KEY_SUFFIX|];
      IsCanonical(digest) && ParseDecimal(digest) == Sum64(data)
  {
    var h := Hash(data);
    assert (h + KEY_SUFFIX)[..|h|] == h;
    h + KEY_SUFFIX
  }

  /** Two blobs share a key exactly when their 64-bit sums coincide (a hash collision shares the object). */
  lemma ContentKeySameSum(a: Bytes, b: Bytes)
    ensures ContentKey(a) == ContentKey(b) <==> Sum64(a) == Sum64(b)
  {
    var ka, kb := ContentKey(a), ContentKey(b);
    if ka == kb {
      assert ka[..|ka| - |KEY_SUFFIX|] == kb[..|kb| - |KEY_SUFFIX|];
    }
  }

  /** A listing under a prefix reports something: the condition keyExists tests. */
  predicate KeyPresent(objects: map<string, Bytes>, key: string) {
    exists k :: k in objects && key <= k
  }

  /** Every object is stored under the content key of what it holds. */
  ghost predicate ContentAddressed(objects: map<string, Bytes>) {
    forall k :: k in objects ==> k == ContentKey(objects[k])
  }

  /** In a digest key the first '.' is the one that starts the suffix. */
  lemma FirstDot(h: string)
    requires AllDigits(h)
    ensures (h + KEY_SUFFIX)[|h|] == '.'
    ensures forall i :: 0 <= i < |h| ==> (h + KEY_SUFFIX)[i] != '.'
  {
  }

  /** A digest key is a prefix of another digest key only when the two digests are equal. */
  lemma DigestKeyPrefix(ha: string, hb: string)
    requires AllDigits(ha) && AllDigits(hb)
    requires ha + KEY_SUFFIX <= hb + KEY_SUFFIX
    ensures ha == hb
  {
    var ka, kb := ha + KEY_SUFFIX, hb + KEY_SUFFIX;
    FirstDot(ha);
    FirstDot(hb);
    assert |ha| == |hb|;
    assert ha == ka[..|ha|] && hb == kb[..|hb|];
  }

  /** A content key is a prefix of another content key only when the two are equal. */
  lemma ContentKeyPrefix(a: Bytes, b: Bytes)
    requires ContentKey(a) <= ContentKey(b)
    ensures ContentKey(a) == ContentKey(b)
  {
    DigestKeyPrefix(Hash(a), Hash(b));
  }

  /** In a content-addressed bucket the prefix listing finds a content key exactly when that key is stored. */
  lemma PresentIffStored(objects: map<string, Bytes>, data: Bytes)
    requires ContentAddressed(objects)
    ensures KeyPresent(objects, ContentKey(data)) <==> ContentKey(data) in objects
  {
    if KeyPresent(objects, ContentKey(data)) {
      var k :| k in objects && ContentKey(data) <= k;
      ContentKeyPrefix(data, objects[k]);
    }
  }

  /** A foreign object whose key extends a content key makes the listing report that key without it being stored. */
  lemma PrefixListingCounterexample()
    ensures var objects: map<string, Bytes> := map["1.txt.bak" := []];
      KeyPresent(objects, "1.txt") && "1.txt" !in objects
  {
    var objects: map<string, Bytes> := map["1.txt.bak" := []];
    assert "1.txt.bak" in objects && "1.txt" <= "1.txt.bak";
  }

  // ---------------------------------------------------------------------------
  // The gateway: existence check, conditional write, link signing

  /** What storeSecret returns, the bucket it leaves behind and the SDK operations it invokes. */
  datatype StoreReply = StoreReply(err: Option<Error>, objects: map<string, Bytes>, calls: seq<Call>)

  /** The outcome of storeSecret for secret s against a bucket holding objects. */
  function StoreEffect(cfg: Config, s: Secret, objects: map<string, Bytes>, out: Outcomes): (r: StoreReply)
    ensures 1 <= |r.calls| <= 2 && r.calls[0] == ListCall(cfg.bucket, s.key)
    ensures |r.calls| == 2 <==> out.listError.None? && !KeyPresent(objects, s.key)
    ensures r.err.Some? ==> r.objects == objects
    ensures r.objects == objects || r.objects == objects[s.key := s.data]
    ensures r.err.None? ==> KeyPresent(r.objects, s.key)
  {
    var list := [ListCall(cfg.bucket, s.key)];
    if out.listError.Some? then StoreReply(Some(ListFailed(out.listError.value)), objects, list)
    else if KeyPresent(objects, s.key) then StoreReply(None, objects, list)
    else
      var withUpload := list + [UploadCall(cfg.bucket, s.key, CONTENT_TYPE, s.data)];
      if out.uploadFails then StoreReply(Some(UploadFailed(s.key, cfg.bucket)), objects, withUpload)
      else
        assert s.key in objects[s.key := s.data] && s.key <= s.key;
        StoreReply(None, objects[s.key := s.data], withUpload)
  }

  /** A secret as the handler builds it: the storage key and the raw request body. */
  datatype Secret = Secret(key: string, data: Bytes) {

    method KeyExists(cfg: Config, store: ObjectStore, listError: Option<string>)
      returns (found: bool, err: Option<string>)
      modifies store`calls
      ensures store.calls == old(store.calls) + [ListCall(cfg.bucket, key)]
      ensures err == listError
      ensures found <==> err.None? && KeyPresent(store.objects, key)
    {
      var results := store.ListObjects(cfg.bucket, key, listError);
      if results.Failure? {
        return false, Some(results.error);
      }
      found, err := |results.value| > 0, None;
      if found {
        ghost var k :| k in results.value;
      } else {
        assert results.value == {};
      }
    }

    method StoreSecret(cfg: Config, store: ObjectStore, out: Outcomes) returns (err: Option<Error>)
      modifies store
      ensures var e := StoreEffect(cfg, this, old(store.objects), out);
        err == e.err && store.objects == e.objects && store.calls == old(store.calls) + e.calls
    {
      var found, listErr := KeyExists(cfg, store, out.listError);
      if listErr.Some? {
        return Some(ListFailed(listErr.value));
      } else if found {
        return None;
      }
      var ok := store.Upload(cfg.bucket, key, CONTENT_TYPE, data, out.uploadFails);
      if !ok {
        return Some(UploadFailed(key, cfg.bucket));
      }
      return None;
    }

    method GenerateExpiryUrl(cfg: Config, store: ObjectStore, signed: Option<string>)
      returns (r: Result<string, Error>)
      modifies store`calls
      ensures store.calls == old(store.calls) + [PresignCall(cfg.bucket, key, cfg.expiryMins)]
      ensures signed.Some? ==> r == Success(signed.value + "\n")
      ensures signed.None? ==> r == Failure(SignFailed(cfg.bucket, key))
    {
      var url := store.PresignGetObject(cfg.bucket, key, cfg.expiryMins, signed);
      if url.None? {
        return Failure(SignFailed(cfg.bucket, key));
      }
      return Success(url.value + "\n");
    }
  }

  /** Storing a secret twice leaves the bucket as storing it once did, and the second time never uploads. */
  lemma StoreTwice(cfg: Config, s: Secret, objects: map<string, Bytes>, first: Outcomes, second: Outcomes)
    requires StoreEffect(cfg, s, objects, first).err.None?
    ensures var once := StoreEffect(cfg, s, objects, first);
      var twice := StoreEffect(cfg, s, once.objects, second);
      && twice.objects == once.objects
      && twice.calls == [ListCall(cfg.bucket, s.key)]
      && (second.listError.None? ==> twice.err.None?)
  {
    var once := StoreEffect(cfg, s, objects, first);
    assert s.key in once.objects ==> KeyPresent(once.objects, s.key);
  }

  /** A key the listing reports is not uploaded again: success, the bucket unchanged, only the listing invoked. */
  lemma PresentKeyNotUploaded(cfg: Config, s: Secret, objects: map<string, Bytes>, out: Outcomes)
    requires out.listError.None? && KeyPresent(objects, s.key)
    ensures StoreEffect(cfg, s, objects, out) == StoreReply(None, objects, [ListCall(cfg.bucket, s.key)])
  {
  }

  /**
    A key the listing does not report is uploaded as text/plain with the secret's
    bytes; the upload either stores them under the key or fails naming key and bucket.
   */
  lemma AbsentKeyUploaded(cfg: Config, s: Secret, objects: map<string, Bytes>, out: Outcomes)
    requires out.listError.None? && !KeyPresent(objects, s.key)
    ensures var r := StoreEffect(cfg, s, objects, out);
      && r.calls == [ListCall(cfg.bucket, s.key), UploadCall(cfg.bucket, s.key, CONTENT_TYPE, s.data)]
      && (out.uploadFails ==> r.err == Some(UploadFailed(s.key, cfg.bucket)) && r.objects == objects)
      && (!out.uploadFails ==> r.err.None? && r.objects == objects[s.key := s.data])
  {
  }

  // ---------------------------------------------------------------------------
  // The request handler

  /** The part of http.ResponseWriter the handler uses: the body written so far. */
  class ResponseWriter {
    var body: string

    constructor ()
      ensures body == ""
    {
      body := "";
    }

    method Write(s: string)
      modifies this
      ensures body == old(body) + s
    {
      body := body + s;
    }
  }

  /** An error response: the message followed by the usage banner. */
  function ErrorBody(msg: string): string {
    msg + USAGE
  }

  method WriteError(w: ResponseWriter, msg: string)
    modifies w
    ensures w.body == old(w.body) + ErrorBody(msg)
  {
    w.Write(msg);
    w.Write(USAGE);
  }

  /** What the handler answers: a signed link, or an error line shown above the usage banner. */
  datatype Response = Link(url: string) | ErrorText(msg: string)

  /** The bytes the handler writes for a response: a link and a newline, or an error line and the usage banner. */
  function Body(resp: Response): string {
    match resp
    case Link(url) => url + "\n"
    case ErrorText(msg) => ErrorBody(msg)
  }

  /**
    What is written determines what was meant: two error bodies are equal only
    for equal messages, and two link bodies only for equal URLs.
   */
  lemma BodyRecoverable(a: Response, b: Response)
    requires a.Link? == b.Link?
    ensures Body(a) == Body(b) <==> a == b
  {
  }

  /** The response, the bucket afterwards and the SDK operations invoked, for one submission. */
  datatype Reply = Reply(response: Response, objects: map<string, Bytes>, calls: seq<Call>)

  /**
    One submission: the listing of the content key comes first, at most three
    SDK operations follow, and a link is always the URL the signer produced.
   */
  function Respond(cfg: Config, data: Bytes, objects: map<string, Bytes>, out: Outcomes): (r: Reply)
    ensures |r.calls| <= 3
    ensures r.calls != [] ==> r.calls[0] == ListCall(cfg.bucket, ContentKey(data))
    ensures r.response.Link? ==> |data| > 0 && out.presigned == Some(r.response.url)
  {
    if |data| == 0 then Reply(ErrorText(EMPTY_REQUEST), objects, [])
    else
      var s := Secret(ContentKey(data), data);
      var st := StoreEffect(cfg, s, objects, out);
      if st.err.Some? then Reply(ErrorText("error: " + st.err.value.Message()), st.objects, st.calls)
      else Reply(SignedResponse(cfg, s.key, out.presigned), st.objects,
                 st.calls + [PresignCall(cfg.bucket, s.key, cfg.expiryMins)])
  }

  /** The answer once the secret is stored: the signed link, or the signing error for the key. */
  function SignedResponse(cfg: Config, key: string, signed: Option<string>): Response {
    if signed.Some? then Link(signed.value) else ErrorText("error: " + SignFailed(cfg.bucket, key).Message())
  }

  /** The end of the handler for a stored secret: sign its link, then write it or the signing error. */
  method WriteSignedLink(w: ResponseWriter, s: Secret, cfg: Config, store: ObjectStore, signed: Option<string>)
    modifies w, store`calls
    ensures store.calls == old(store.calls) + [PresignCall(cfg.bucket, s.key, cfg.expiryMins)]
    ensures w.body == old(w.body) + Body(SignedResponse(cfg, s.key, signed))
  {
    var url := s.GenerateExpiryUrl(cfg, store, signed);
    if url.Failure? {
      WriteError(w, "error: " + url.error.Message());
      return;
    }
    w.Write(url.value);
  }

  method Handler(w: ResponseWriter, data: Bytes, cfg: Config, store: ObjectStore, out: Outcomes)
    modifies w, store
    ensures var r := Respond(cfg, data, old(store.objects), out);
      && w.body == old(w.body) + Body(r.response)
      && store.objects == r.objects
      && store.calls == old(store.calls) + r.calls
  {
    if |data| == 0 {
      WriteError(w, EMPTY_REQUEST);
      return;
    }
    var s := Secret(ContentKey(data), data);
    var err := s.StoreSecret(cfg, store, out);
    if err.Some? {
      WriteError(w, "error: " + err.value.Message());
      return;
    }
    WriteSignedLink(w, s, cfg, store, out.presigned);
  }

  // ---------------------------------------------------------------------------
  // What one submission does

  /** The request got as far as signing: the body was not empty and storeSecret reported no error. */
  predicate Stored(cfg: Config, data: Bytes, objects: map<string, Bytes>, out: Outcomes) {
    |data| > 0 && StoreEffect(cfg, Secret(ContentKey(data), data), objects, out).err.None?
  }

  /** A request is answered with a link exactly when it was stored and signed; every other answer is an "error: " line. */
  lemma ResponseKinds(cfg: Config, data: Bytes, objects: map<string, Bytes>, out: Outcomes)
    ensures var r := Respond(cfg, data, objects, out);
      && (r.response.Link? <==> Stored(cfg, data, objects, out) && out.presigned.Some?)
      && (r.response.ErrorText? ==> "error: " <= r.response.msg)
  {
    var r := Respond(cfg, data, objects, out);
    if |data| == 0 {
      assert r.response == ErrorText(EMPTY_REQUEST);
    } else {
      var s := Secret(ContentKey(data), data);
      var st := StoreEffect(cfg, s, objects, out);
      if st.err.Some? {
        assert r.response == ErrorText("error: " + st.err.value.Message());
      } else if out.presigned.None? {
        assert r.response == ErrorText("error: " + SignFailed(cfg.bucket, s.key).Message());
      }
    }
  }

  /** An empty body is answered with the empty-request error before any SDK operation. */
  lemma EmptyRequestRejected(cfg: Config, objects: map<string, Bytes>, out: Outcomes)
    ensures Respond(cfg, [], objects, out) == Reply(ErrorText(EMPTY_REQUEST), objects, [])
  {
  }

  /** A failed existence check ends the request: the listing error is shown and nothing is uploaded or signed. */
  lemma ListFailureStops(cfg: Config, data: Bytes, objects: map<string, Bytes>, out: Outcomes)
    requires |data| > 0 && out.listError.Some?
    ensures Respond(cfg, data, objects, out)
         == Reply(ErrorText("error: " + out.listError.value), objects, [ListCall(cfg.bucket, ContentKey(data))])
  {
  }

  /** A failed upload ends the request with an error naming key and bucket; nothing is signed. */
  lemma UploadFailureStops(cfg: Config, data: Bytes, objects: map<string, Bytes>, out: Outcomes)
    requires |data| > 0 && out.listError.None? && !KeyPresent(objects, ContentKey(data)) && out.uploadFails
    ensures var key := ContentKey(data);
      Respond(cfg, data, objects, out)
      == Reply(ErrorText("error: " + UploadFailed(key, cfg.bucket).Message()), objects,
               [ListCall(cfg.bucket, key), UploadCall(cfg.bucket, key, CONTENT_TYPE, data)])
  {
  }

  /**
    A body whose key is already listed is not written again: the bucket is
    unchanged, only the listing and the signing are invoked, and the answer is
    the signed link or the signing error.
   */
  lemma ExistingKeyNotRewritten(cfg: Config, data: Bytes, objects: map<string, Bytes>, out: Outcomes)
    requires |data| > 0 && out.listError.None? && KeyPresent(objects, ContentKey(data))
    ensures var r, key := Respond(cfg, data, objects, out), ContentKey(data);
      r == Reply(SignedResponse(cfg, key, out.presigned), objects,
                 [ListCall(cfg.bucket, key), PresignCall(cfg.bucket, key, cfg.expiryMins)])
  {
  }

  /** Once stored, the answer is the signed link and a newline, or an error naming bucket and key. */
  lemma SigningOutcome(cfg: Config, data: Bytes, objects: map<string, Bytes>, out: Outcomes)
    requires Stored(cfg, data, objects, out)
    ensures var r, key := Respond(cfg, data, objects, out), ContentKey(data);
      && (out.presigned.Some? ==> r.response == Link(out.presigned.value))
      && (out.presigned.None? ==> r.response == ErrorText("error: " + SignFailed(cfg.bucket, key).Message()))
  {
  }

  /**
    A link is signed exactly when the secret was stored, as the last operation, for
    the content key and the configured lifetime, whether or not the request wrote.
   */
  lemma SignedOnlyWhenStored(cfg: Config, data: Bytes, objects: map<string, Bytes>, out: Outcomes)
    ensures var r := Respond(cfg, data, objects, out);
      && ((exists i :: 0 <= i < |r.calls| && r.calls[i].PresignCall?) <==> Stored(cfg, data, objects, out))
      && (Stored(cfg, data, objects, out) ==>
            r.calls[|r.calls| - 1] == PresignCall(cfg.bucket, ContentKey(data), cfg.expiryMins))
  {
    var r := Respond(cfg, data, objects, out);
    if |data| > 0 {
      var key := ContentKey(data);
      var st := StoreEffect(cfg, Secret(key, data), objects, out);
      if out.listError.None? && KeyPresent(objects, key) {
        PresentKeyNotUploaded(cfg, Secret(key, data), objects, out);
      } else if out.listError.None? {
        AbsentKeyUploaded(cfg, Secret(key, data), objects, out);
      }
      if st.err.None? {
        assert r.calls == st.calls + [PresignCall(cfg.bucket, key, cfg.expiryMins)];
        assert r.calls[|r.calls| - 1].PresignCall?;
      } else {
        assert r.calls == st.calls;
      }
    }
  }


  /** One upload at most, and one exactly when the listing succeeded and reported no object under the key. */
  lemma UploadOnlyWhenAbsent(cfg: Config, data: Bytes, objects: map<string, Bytes>, out: Outcomes)
    ensures var wrote := |data| > 0 && out.listError.None? && !KeyPresent(objects, ContentKey(data));
      Uploads(Respond(cfg, data, objects, out).calls) == if wrote then 1 else 0
  {
    var r := Respond(cfg, data, objects, out);
    var key := ContentKey(data);
    if |data| > 0 {
      var list := [ListCall(cfg.bucket, key)];
      var upload := [UploadCall(cfg.bucket, key, CONTENT_TYPE, data)];
      var presign := [PresignCall(cfg.bucket, key, cfg.expiryMins)];
      NoUploads(list);
      NoUploads(presign);
      assert Uploads(upload) == 1;
      UploadsConcat(list, upload);
      UploadsConcat(list, presign);
      UploadsConcat(list + upload, presign);
    }
  }

  /** Nothing in the bucket changes except that the content key may come to hold the posted bytes. */
  lemma OnlyTheKeyChanges(cfg: Config, data: Bytes, objects: map<string, Bytes>, out: Outcomes)
    ensures var r := Respond(cfg, data, objects, out);
      r.objects == objects || (|data| > 0 && r.objects == objects[ContentKey(data) := data])
  {
    if |data| > 0 {
      var s := Secret(ContentKey(data), data);
      var st := StoreEffect(cfg, s, objects, out);
      assert st.objects == objects || st.objects == objects[s.key := data];
      assert Respond(cfg, data, objects, out).objects == st.objects;
    }
  }

  /** Serving a request keeps every object stored under the content key of what it holds. */
  lemma RespondKeepsContentAddressed(cfg: Config, data: Bytes, objects: map<string, Bytes>, out: Outcomes)
    requires ContentAddressed(objects)
    ensures ContentAddressed(Respond(cfg, data, objects, out).objects)
  {
    var r := Respond(cfg, data, objects, out);
    OnlyTheKeyChanges(cfg, data, objects, out);
    if r.objects != objects {
      var key := ContentKey(data);
      forall k | k in r.objects
        ensures k == ContentKey(r.objects[k])
      {
        if k != key {
          assert r.objects[k] == objects[k];
        }
      }
    }
  }

  /**
    In a content-addressed bucket a stored secret's key names an object whose
    bytes have the same 64-bit sum as the posted ones; they are the posted bytes
    unless another blob with that sum was stored first.
   */
  lemma LinkedObjectHasSameSum(cfg: Config, data: Bytes, objects: map<string, Bytes>, out: Outcomes)
    requires ContentAddressed(objects) && Stored(cfg, data, objects, out)
    ensures var r, key := Respond(cfg, data, objects, out), ContentKey(data);
      && key in r.objects
      && Sum64(r.objects[key]) == Sum64(data)
      && (key !in objects ==> r.objects[key] == data)
  {
    var r, key := Respond(cfg, data, objects, out), ContentKey(data);
    PresentIffStored(objects, data);
    assert out.listError.None?;
    if key in objects {
      assert r.objects == objects;
      ContentKeySameSum(objects[key], data);
    } else {
      assert !out.uploadFails && r.objects == objects[key := data];
    }
  }

  /**
    Posting the same bytes twice writes at most once (unless the first upload
    failed), and once the first was stored the second leaves the bucket alone and
    is answered with a newly signed link even if an upload would fail.
   */
  lemma ResubmissionWritesOnce(cfg: Config, data: Bytes, objects: map<string, Bytes>, first: Outcomes, second: Outcomes)
    ensures var r1 := Respond(cfg, data, objects, first);
      var r2 := Respond(cfg, data, r1.objects, second);
      && (!first.uploadFails ==> Uploads(r1.calls + r2.calls) <= 1)
      && (Stored(cfg, data, objects, first) ==>
            && r2.objects == r1.objects
            && Uploads(r2.calls) == 0
            && (second.listError.None? && second.presigned.Some? ==> r2.response == Link(second.presigned.value)))
  {
    var r1 := Respond(cfg, data, objects, first);
    var r2 := Respond(cfg, data, r1.objects, second);
    var key := ContentKey(data);
    UploadOnlyWhenAbsent(cfg, data, objects, first);
    UploadOnlyWhenAbsent(cfg, data, r1.objects, second);
    UploadsConcat(r1.calls, r2.calls);
    if Stored(cfg, data, objects, first) {
      assert KeyPresent(r1.objects, key) by {
        if key in r1.objects {
          assert key <= key;
        }
      }
    } else if |data| > 0 && !first.uploadFails {
      assert first.listError.Some?;
    }
  }

  /**
    A foreign object whose key extends the content key fools the existence check:
    the request uploads nothing and still answers with a link, to a key the
    bucket does not hold.
   */
  lemma ForeignObjectGivesDeadLink(cfg: Config, data: Bytes, x: Bytes, out: Outcomes)
    requires |data| > 0 && out.listError.None? && out.presigned.Some?
    ensures var objects := map[ContentKey(data) + ".bak" := x];
      var r := Respond(cfg, data, objects, out);
      && r.response == Link(out.presigned.value)
      && ContentKey(data) !in r.objects
      && Uploads(r.calls) == 0
  {
    var key := ContentKey(data);
    var objects := map[key + ".bak" := x];
    assert key + ".bak" in objects && key <= key + ".bak";
    ExistingKeyNotRewritten(cfg, data, objects, out);
    NoUploads([ListCall(cfg.bucket, key), PresignCall(cfg.bucket, key, cfg.expiryMins)]);
  }
}
