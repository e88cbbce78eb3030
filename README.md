# whisper: content-addressed secret drop, modelled in Dafny

whisper is a small HTTP service. A client posts a blob of text. The service
stores the blob in an S3 bucket under a key derived from the blob's bytes and
answers with a presigned, time-limited download link. Identical content is
written only once. Every failure is answered with a line `error: ...` followed
by a usage banner.

This project models the request path of `whisper.go`:

- **Content addresser** (`fnv.dfy`, `decimal.dfy`, the first part of
  `whisper.dfy`). The key of a blob is the FNV-1a 64-bit hash of its bytes
  (Fowler/Noll/Vo, FNV-1a variant, as described in the IETF draft
  draft-eastlake-fnv), rendered as an unsigned decimal number, followed by
  `.txt`. The hash is a left fold over the bytes on `bv64`, so the wrap-around
  modulo 2^64 is exact. The offset basis is 14695981039346656037 and the
  prime is 1099511628211. `strconv.FormatUint(_, 10)` is `Decimal.FormatUint`,
  and `Decimal.ParseDecimal` is its inverse.
- **Secret store gateway** (`s3.dfy`, the rest of `whisper.dfy`). The bucket is
  an `S3.ObjectStore` object. It holds the stored objects as a map from key to
  bytes, plus a log of every SDK operation the service invoked (list, upload,
  presign). Listing and uploading go to S3. Presigning only signs a GetObject
  URL locally (`GetObjectRequest` builds the request value and `PresignRequest`
  signs it), so nothing is sent. A foreign call's result is not decided by the model. Each
  request is given an `Outcomes` value with the listing's error text (if the
  listing fails), whether the upload fails, and the presigned URL (or `None`
  when signing fails). `Secret.KeyExists`, `Secret.StoreSecret`,
  `Secret.GenerateExpiryUrl`, `WriteError` and `Handler` are imperative
  methods that follow the Go code step by step, with the same early returns.
  Each is proved against a pure function: `StoreEffect` for `storeSecret` and
  `Respond` for the whole request. The request policy is then proved as
  lemmas about those functions.

The existence check is a prefix listing, as in the source. In a bucket where
every object sits under the content key of its own bytes (`ContentAddressed`),
a prefix match means the exact key is present (`PresentIffStored`). Every
request keeps that invariant (`RespondKeepsContentAddressed`). A foreign object
such as `1.txt.bak` breaks the equivalence (`PrefixListingCounterexample`). A
request whose content key the foreign key extends then skips the upload and
answers with a link to a missing object (`ForeignObjectGivesDeadLink`).

Two things about the answers:

- Failures are not sorted into kinds. A failed listing is reported with the
  SDK's own error text (`"error: " + err.Error()`).
- Every answer, including every error, is a plain body. Status codes are not
  modelled.

The start-up configuration (bucket `users-shared-secrets`, link lifetime 30
minutes) is the constant `Whisper.DEFAULT_CONFIG`. The model itself works for
any `Config`.

## Model

| member | source | states |
|---|---|---|
| `Fnv.FoldConcat` | whisper.go:101-102 | Hashing `a + b` from state `h` is hashing `a`, then continuing with `b`: the FNV fold processes the bytes in order and can be fed in pieces. |
| `Fnv.Fnv1a64` | whisper.go:101-102 | The state of a fresh New64a hash after `Write` (a `Fold` of `Step` rounds from the offset basis). No bytes leave the offset basis. Otherwise the last byte is the last round, XOR then multiply by the FNV prime modulo 2^64, applied to the state after the bytes before it. |
| `Fnv.TestVectors` | whisper.go:100-103 | The FNV-1a 64 reference values for "", "a" and "foobar" (0xcbf29ce484222325, 0xaf63dc4c8601ec8c, 0x85944171f73967e8). |
| `Fnv.Sum64` | whisper.go:103 | `Sum64()` is the 64-bit state read as an unsigned integer, always below 2^64. |
| `Decimal.FormatUint` | whisper.go:103 | The decimal rendering is non-empty and contains only digits. It has no leading zero unless it is exactly "0", and it starts with '0' exactly when the number is 0. |
| `Decimal.ParseFormat` | whisper.go:103 | Parsing the rendering as decimal gives back the number. |
| `Decimal.FormatParse` | whisper.go:103 | Every canonical digit string is the rendering of its own value (the converse round trip). |
| `Decimal.FormatInjective` | whisper.go:103 | Two numbers have the same rendering exactly when they are equal. |
| `Decimal.FormatLength` | whisper.go:103 | A number below 10^k renders in at most k digits. |
| `Whisper.Hash` | whisper.go:100-104 | `hash(s)` is canonical decimal, at most 20 characters, and parses back to the FNV-1a 64 sum of the bytes. |
| `Whisper.ContentKey` | whisper.go:120 | The storage key ends in ".txt". What precedes the suffix is canonical decimal and parses back to the FNV-1a 64 sum, so the key depends on the data alone. |
| `Whisper.ContentKeySameSum` | whisper.go:120 | Two blobs get the same key exactly when their 64-bit sums are equal: equal inputs give equal keys, and colliding inputs share one key. |
| `Whisper.ContentKeyPrefix` | whisper.go:46 | One content key is a prefix of another only when the two keys are equal. |
| `Whisper.PresentIffStored` | whisper.go:44-52 | In a content-addressed bucket, the prefix listing finds a content key exactly when that key is stored. |
| `Whisper.PrefixListingCounterexample` | whisper.go:46-51 | A bucket holding only "1.txt.bak" makes the listing for "1.txt" report a match although "1.txt" is not stored. |
| `Whisper.ForeignObjectGivesDeadLink` | whisper.go:46-135 | In a bucket holding only the object "KEY.bak", where KEY is the content key, a request whose listing succeeds uploads nothing (lines 46-59). It still answers with the signed link, although KEY is not stored (lines 129-135). |
| `S3.ObjectStore.ListObjects` | whisper.go:46 | The listing is logged. It fails with the given error text, or returns exactly the stored keys that start with the prefix. |
| `S3.ObjectStore.Upload` | whisper.go:62-69 | The upload (bucket, key, content type, body) is logged. On success the key maps to the body and every other object is unchanged. On failure the bucket is unchanged. |
| `S3.ObjectStore.PresignGetObject` | whisper.go:80-85 | The local signing of a GetObject URL, with its lifetime in minutes, is logged as an SDK operation. Nothing is sent to S3. The result is the given URL or a failure, and the bucket is unchanged. |
| `Whisper.Secret.KeyExists` | whisper.go:44-52 | Exactly one listing of the key is invoked. A listing error is passed through and gives `false`. Otherwise the result is true exactly when some stored key has the secret's key as a prefix. |
| `Whisper.StoreEffect` | whisper.go:54-75 | `storeSecret` as a function. At most two operations are invoked, and the first is the listing of the key. A second one (the upload, see `AbsentKeyUploaded`) happens exactly when the listing succeeded and found nothing under the key. An error leaves the bucket unchanged. Otherwise at most the key changes, to the secret's bytes. After success the key is listed. |
| `Whisper.Secret.StoreSecret` | whisper.go:54-75 | The error, the bucket afterwards and the SDK operations invoked are those of `StoreEffect`, so `PresentKeyNotUploaded` and `AbsentKeyUploaded` describe what the method does. |
| `Whisper.StoreTwice` | whisper.go:56-60 | After a successful `storeSecret`, a second call with the same Secret leaves the bucket as the first call left it and invokes only the listing. It succeeds whenever its listing succeeds. |
| `Whisper.PresentKeyNotUploaded` | whisper.go:56-60 | In any bucket, when the listing succeeds and reports something under the key, `storeSecret` succeeds, leaves the bucket unchanged and invokes only the listing. |
| `Whisper.AbsentKeyUploaded` | whisper.go:62-74 | When the listing succeeds and reports nothing, the only further operation is the upload of the secret's bytes under its key as "text/plain" to the configured bucket. A failed upload leaves the bucket unchanged and yields the error naming key and bucket. Otherwise it succeeds and the key holds the bytes. |
| `Whisper.Secret.GenerateExpiryUrl` | whisper.go:77-92 | One local presign operation is invoked, and nothing is sent to S3. It is for the configured bucket, the key and the configured lifetime. The answer is the URL followed by "\n", or the error "failed to sign request for obj s3://BUCKET/KEY". |
| `Whisper.ResponseWriter.Write` | whisper.go:135 | Writing appends the bytes to the response body. |
| `Whisper.WriteError` | whisper.go:106-109 | An error response appends `ErrorBody(msg)`: the message, then the usage banner. |
| `Whisper.Error.Message` | whisper.go:72-88 | A listing error's text is the SDK's own, passed through verbatim. An upload error (line 72) has the key at offset 22 and ends with the bucket. A signing error (line 88) has the bucket at offset 36 and ends with the key. |
| `Whisper.MessageLeadIns` | whisper.go:72-88 | The 22 characters before the key in an upload error are "failed to upload file ". The 36 characters before the bucket in a signing error are "failed to sign request for obj s3://". |
| `Whisper.BodyRecoverable` | whisper.go:91-135 | Each answer can be read back from its body (`Body`: the URL and a newline, lines 91 and 135; `ErrorBody`: the error line and the usage banner, lines 106-108). Two link bodies are equal only for equal URLs, and two error bodies only for equal messages. |
| `Whisper.Respond` | whisper.go:111-136 | The handler as a function. At most three SDK operations are invoked, and the first is always the listing of the content key. A link is sent only for a non-empty body, and it is exactly the URL the signer produced. |
| `Whisper.WriteSignedLink` | whisper.go:129-135 | The end of the handler for a stored secret. One presign operation is logged for the key and the configured lifetime. The body written is the signed link, or the signing error above the usage banner (`SignedResponse`). |
| `Whisper.Handler` | whisper.go:111-136 | The body written (`Body` of the response), the bucket afterwards and the SDK operations invoked are those of `Respond`. |
| `Whisper.ResponseKinds` | whisper.go:111-136 | The answer is a link exactly when the secret was stored and the URL was signed. Every other answer is a line starting with "error: ". |
| `Whisper.EmptyRequestRejected` | whisper.go:114-116 | An empty body is answered "error: received empty request". No SDK operation is invoked and the bucket is unchanged. |
| `Whisper.ListFailureStops` | whisper.go:124-127 | A failed existence check is answered "error: " plus the SDK's error text. Only the listing was invoked: no upload and no presign. The bucket is unchanged. |
| `Whisper.UploadFailureStops` | whisper.go:71-73 | A failed upload is answered "error: failed to upload file KEY to s3://BUCKET". The bucket is unchanged and nothing is signed. |
| `Whisper.ExistingKeyNotRewritten` | whisper.go:119-135 | When the listing reports something under the content key, the request leaves the bucket unchanged. It invokes only the listing and the signing, and is answered with the signed link or the signing error. |
| `Whisper.SigningOutcome` | whisper.go:129-135 | Once the secret is stored, the answer is the signed link, or the signing error naming bucket and key. |
| `Whisper.SignedOnlyWhenStored` | whisper.go:124-133 | A presign operation is invoked exactly when `storeSecret` succeeded. It is the last operation, for the content key and the configured lifetime, whether or not an upload happened. |
| `Whisper.UploadOnlyWhenAbsent` | whisper.go:56-69 | A request uploads at most once. It uploads exactly when the body is non-empty, the listing succeeded and no stored key has the content key as a prefix. |
| `Whisper.OnlyTheKeyChanges` | whisper.go:54-75 | The bucket is either unchanged, or the content key now maps to the posted bytes and every other object is untouched. |
| `Whisper.RespondKeepsContentAddressed` | whisper.go:119-124 | If every object sits under the content key of its bytes before a request, that still holds after it. |
| `Whisper.LinkedObjectHasSameSum` | whisper.go:119-135 | In a content-addressed bucket, a stored secret's key names an object. That object's bytes have the posted bytes' 64-bit sum. They are the posted bytes whenever the key was new. |
| `Whisper.ResubmissionWritesOnce` | whisper.go:54-60 | For every pair of outcomes: posting the same bytes twice uploads at most once, unless the first upload failed. Once the first post was stored, the second leaves the bucket unchanged and uploads nothing. It is answered with the newly signed link, whatever an upload would have done. |

## Left out

- The AWS SDK session, the S3 client and uploader construction, `ListObjects`, `s3manager.Upload` and SigV4 presigning are foreign calls. They are replaced by `S3.ObjectStore`, whose results come from the request's `Outcomes`.
- S3.ObjectStore.Upload: a failed upload is taken to store nothing. The real service gives no guarantee about partial state after a failure.
- S3.ObjectStore.ListObjects: the 1000-keys-per-page cap of a listing is not modelled. The service only tests whether the listing is non-empty, so the cap does not change its result.
- The wall clock and the expiry encoding inside the presigned URL are not modelled. The URL is an opaque string, and the lifetime is recorded in the logged presign operation.
- `main` (environment lookup, session creation, `log.Fatalf`, the HTTP server on port 9090) is process start-up and I/O. Only its configuration values appear, as `DEFAULT_CONFIG`.
- `extractDataFromRequest` reads the request stream. The handler receives the body as already-delivered bytes.
- Concurrent requests and the check-then-act race between them are not modelled: the model covers one request at a time.
- WriteError: `fmt.Fprintf` treats its message as a format string, so a `%` in an error text would be interpreted. The model writes the message verbatim.
- HTTP status codes and headers are not modelled. Every answer is just a body.
