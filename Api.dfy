/** The request shaping of the client's API service: the multipart body and
    headers of an upload, the upload progress percentage, the image URL
    fallbacks and the default Authorization header. The HTTP transport
    itself is not modelled; a request is the value the service would hand
    to it. */
module Api {
  import opened Strings
  import opened Records

  const ContentTypeHeader := "Content-Type"
  const IdempotencyKeyHeader := "Idempotency-Key"
  const AuthorizationHeader := "Authorization"
  const MultipartFormData := "multipart/form-data"

  /** One part of a multipart form body: its field name and the file. */
  datatype Part = Part(field: string, file: FileInfo)

  /** A `POST /images`: the form parts in order, the per-request headers,
      and whether an upload-progress hook is installed. */
  datatype UploadRequest = UploadRequest(parts: seq<Part>, headers: map<string, string>, tracksProgress: bool)

  /** `uploadImages(files, onProgress)`: one `image` part for exactly one
      file, otherwise one `images` part per file in order; the
      Idempotency-Key only for a single file. */
  method UploadImages(files: seq<FileInfo>, hasProgressCallback: bool) returns (req: UploadRequest)
    ensures |files| == 1 ==> req.parts == [Part("image", files[0])]
    ensures |files| != 1 ==> |req.parts| == |files|
    ensures |files| != 1 ==> forall i :: 0 <= i < |files| ==> req.parts[i] == Part("images", files[i])
    ensures ContentTypeHeader in req.headers && req.headers[ContentTypeHeader] == MultipartFormData
    ensures IdempotencyKeyHeader in req.headers <==> |files| == 1
    ensures |files| == 1 ==> req.headers[IdempotencyKeyHeader] == FileKey(files[0])
    ensures req.headers.Keys <= {ContentTypeHeader, IdempotencyKeyHeader}
    ensures req.tracksProgress == hasProgressCallback
  {
    var parts: seq<Part> := [];
    if |files| == 1 {
      parts := parts + [Part("image", files[0])];
    } else {
      for i := 0 to |files|
        invariant |parts| == i
        invariant forall k :: 0 <= k < i ==> parts[k] == Part("images", files[k])
      {
        parts := parts + [Part("images", files[i])];
      }
    }
    var headers := map[ContentTypeHeader := MultipartFormData];
    if |files| == 1 {
      var f := files[0];
      headers := headers[IdempotencyKeyHeader := FileKey(f)];
    }
    req := UploadRequest(parts, headers, hasProgressCallback);
  }

  /** `uploadImage(file, idempotencyKey)`: one `image` part; the key header
      only when a key is given (an empty string stands for `null`). */
  method UploadImage(file: FileInfo, idempotencyKey: string) returns (req: UploadRequest)
    ensures req.parts == [Part("image", file)]
    ensures ContentTypeHeader in req.headers && req.headers[ContentTypeHeader] == MultipartFormData
    ensures IdempotencyKeyHeader in req.headers <==> idempotencyKey != ""
    ensures idempotencyKey != "" ==> req.headers[IdempotencyKeyHeader] == idempotencyKey
    ensures req.headers.Keys <= {ContentTypeHeader, IdempotencyKeyHeader}
    ensures !req.tracksProgress
  {
    var headers := map[ContentTypeHeader := MultipartFormData];
    if idempotencyKey != "" {
      headers := headers[IdempotencyKeyHeader := idempotencyKey];
    }
    req := UploadRequest([Part("image", file)], headers, false);
  }

  /** `Math.round(loaded * 100 / total)`. With `total` zero the quotient is
      not a finite number, shown here as None. Otherwise the result is the
      integer nearest to 100 * loaded / total, a half rounding up. */
  function ProgressPercent(loaded: nat, total: nat): (p: Option<int>)
    ensures p.Some? <==> total > 0
    ensures p.Some? ==> (2 * p.value - 1) * total <= 200 * loaded < (2 * p.value + 1) * total
  {
    if total == 0 then None
    else
      var q := (200 * loaded + total) / (2 * total);
      assert q * (2 * total) <= 200 * loaded + total < (q + 1) * (2 * total);
      Some(q)
  }

  /** While the body is being sent the percentage stays within 0..100,
      and it is 0 at the start and 100 at the end. */
  lemma ProgressPercentBounds(loaded: nat, total: nat)
    requires 0 < total && loaded <= total
    ensures 0 <= ProgressPercent(loaded, total).value <= 100
    ensures loaded == 0 ==> ProgressPercent(loaded, total).value == 0
    ensures loaded == total ==> ProgressPercent(loaded, total).value == 100
  {
    var p := ProgressPercent(loaded, total).value;
    MulCancelLt(0, 2 * p + 1, total);
    MulCancelLe(2 * p - 1, 200, total);
    if loaded == 0 {
      MulCancelLt(2 * p - 1, 1, total);
    }
    if loaded == total {
      MulCancelLt(199, 2 * p + 1, total);
    }
  }

  /** The percentage never decreases as more of the body is sent. */
  lemma ProgressPercentMonotonic(loaded1: nat, loaded2: nat, total: nat)
    requires 0 < total && loaded1 <= loaded2
    ensures ProgressPercent(loaded1, total).value <= ProgressPercent(loaded2, total).value
  {
    var p1, p2 := ProgressPercent(loaded1, total).value, ProgressPercent(loaded2, total).value;
    MulCancelLt(2 * p1 - 1, 2 * p2 + 1, total);
  }

  lemma MulCancelLe(a: int, b: int, t: int)
    requires t > 0 && a * t <= b * t
    ensures a <= b
  {
  }

  lemma MulCancelLt(a: int, b: int, t: int)
    requires t > 0 && a * t < b * t
    ensures a < b
  {
  }

  /** `getImageUrl(id)`: the backend's file route for an image id under the
      configured base URL. */
  function GetImageUrl(base: string, id: string): string
  {
    base + "/images/" + id + "/file"
  }

  /** The file route names the image: distinct ids give distinct URLs. */
  lemma GetImageUrlInjective(base: string, id1: string, id2: string)
    requires GetImageUrl(base, id1) == GetImageUrl(base, id2)
    ensures id1 == id2
  {
    var u := GetImageUrl(base, id1);
    var n := |base| + |"/images/"|;
    assert |id1| == |id2|;
    assert id1 == u[n..n + |id1|] == id2;
  }

  /** `getDirectImageUrl(image)`: the stored original URL, else the file route. */
  function GetDirectImageUrl(base: string, image: Image): (u: string)
    ensures u != ""
    ensures image.originalImageUrl != "" ==> u == image.originalImageUrl
    ensures image.originalImageUrl == "" ==> u == GetImageUrl(base, image.id)
  {
    if image.originalImageUrl != "" then image.originalImageUrl else GetImageUrl(base, image.id)
  }

  /** `getAnnotatedImageUrl(image)`: the annotated URL, else the original
      URL, else the file route; without an annotated URL it is the direct URL. */
  function GetAnnotatedImageUrl(base: string, image: Image): (u: string)
    ensures u != ""
    ensures image.annotatedImageUrl != "" ==> u == image.annotatedImageUrl
    ensures image.annotatedImageUrl == "" ==> u == GetDirectImageUrl(base, image)
  {
    if image.annotatedImageUrl != "" then image.annotatedImageUrl
    else if image.originalImageUrl != "" then image.originalImageUrl
    else GetImageUrl(base, image.id)
  }

  /** The common headers after `setAuthToken(token)`: a truthy token sets
      `Authorization: Bearer <token>`, a falsy one (empty here) removes the
      header; every other header is left as it was. */
  function WithAuthToken(headers: map<string, string>, token: string): (r: map<string, string>)
    ensures AuthorizationHeader in r <==> token != ""
    ensures token != "" ==> r[AuthorizationHeader] == "Bearer " + token
    ensures forall k :: k != AuthorizationHeader ==> (k in r <==> k in headers)
    ensures forall k :: k != AuthorizationHeader && k in headers ==> r[k] == headers[k]
  {
    if token != "" then headers[AuthorizationHeader := "Bearer " + token]
    else headers - {AuthorizationHeader}
  }

  /** The service object; its one piece of mutable state the model keeps is
      the connection's common headers. */
  class ApiService {
    var commonHeaders: map<string, string>

    constructor ()
      ensures commonHeaders == map[]
    {
      commonHeaders := map[];
    }

    method SetAuthToken(token: string)
      modifies this
      ensures commonHeaders == WithAuthToken(old(commonHeaders), token)
    {
      if token != "" {
        commonHeaders := commonHeaders[AuthorizationHeader := "Bearer " + token];
      } else {
        commonHeaders := commonHeaders - {AuthorizationHeader};
      }
    }
  }
}
