/** How the product serializer turns a stored image into the URL the API
    returns: an absolute URL built from the request when there is one, else
    the storage URL itself or one on the configured S3 bucket. */
module ImageUrls {
  import opened Common

  /** `s.startswith(p)` */
  predicate StartsWith(s: string, p: string) {
    |p| <= |s| && s[..|p|] == p
  }

  /** The serializer's context: the request, whose `build_absolute_uri` is
      Django's and is taken as given. */
  datatype Request = Request(buildAbsoluteUri: string -> string)

  /** `AWS_STORAGE_BUCKET_NAME` is set and not empty. */
  predicate BucketConfigured(bucket: Option<string>) {
    bucket.Some? && bucket.value != []
  }

  function BucketUrl(bucket: string, url: string): string {
    "https://" + bucket + ".s3.amazonaws.com" + url
  }

  /** `get_image_url` for one image field: `file` is the stored file's URL,
      absent when the field is empty. The nested `startswith` test is kept
      as the getters write it. */
  function Resolve(file: Option<string>, request: Option<Request>, bucket: Option<string>): (r: Option<string>)
    ensures file.None? ==> r.None?
    ensures file.Some? && request.Some? ==> r == Some(request.value.buildAbsoluteUri(file.value))
    ensures file.Some? && request.None? && StartsWith(file.value, "http") ==> r == file
    ensures file.Some? && request.None? && !StartsWith(file.value, "http") && BucketConfigured(bucket) ==>
      r == Some(BucketUrl(bucket.value, file.value))
    ensures file.Some? && request.None? && !StartsWith(file.value, "http") && !BucketConfigured(bucket) ==>
      r == file
  {
    if file.None? then None
    else
      var url := file.value;
      if request.Some? then Some(request.value.buildAbsoluteUri(url))
      else if StartsWith(url, "http") then Some(url)
      else if BucketConfigured(bucket) then
        Some(if StartsWith(url, "http") then url else BucketUrl(bucket.value, url))
      else Some(url)
  }

  /** Without a request the result is an absolute `http` URL whenever the
      stored URL is one or a bucket is configured; otherwise it is the
      stored (relative) URL unchanged. */
  lemma WithoutRequest(file: string, bucket: Option<string>)
    ensures var r := Resolve(Some(file), None, bucket);
      r.Some? && (StartsWith(r.value, "http") <==> StartsWith(file, "http") || BucketConfigured(bucket))
  {
    var r := Resolve(Some(file), None, bucket);
    if !StartsWith(file, "http") && BucketConfigured(bucket) {
      assert r.value[..4] == "http";
    }
  }

  /** The stored image fields of a product. */
  datatype StoredImages = StoredImages(image: Option<string>, image2: Option<string>,
                                       image3: Option<string>, image4: Option<string>)

  /** `image_url` to `image4_url` of a serialized product: each getter
      applies the same rule to its own field and to no other. */
  function ImageFields(obj: StoredImages, request: Option<Request>, bucket: Option<string>): (r: seq<Option<string>>)
    ensures |r| == 4
    ensures r[0] == Resolve(obj.image, request, bucket) && r[1] == Resolve(obj.image2, request, bucket)
    ensures r[2] == Resolve(obj.image3, request, bucket) && r[3] == Resolve(obj.image4, request, bucket)
  {
    [Resolve(obj.image, request, bucket), Resolve(obj.image2, request, bucket),
     Resolve(obj.image3, request, bucket), Resolve(obj.image4, request, bucket)]
  }

  /** The stored file URLs, in field order. */
  function Stored(obj: StoredImages): seq<Option<string>> {
    [obj.image, obj.image2, obj.image3, obj.image4]
  }

  /** Serving without a request on a server with a bucket configured: a
      field is null exactly when its image is not stored, and every URL
      served is an absolute `http` one. */
  lemma ServedWithBucket(obj: StoredImages, bucket: Option<string>)
    requires BucketConfigured(bucket)
    ensures forall k :: 0 <= k < 4 ==> (ImageFields(obj, None, bucket)[k].None? <==> Stored(obj)[k].None?)
    ensures forall k :: 0 <= k < 4 && ImageFields(obj, None, bucket)[k].Some? ==>
      StartsWith(ImageFields(obj, None, bucket)[k].value, "http")
  {
    var r := ImageFields(obj, None, bucket);
    forall k | 0 <= k < 4 && Stored(obj)[k].Some?
      ensures r[k].Some? && StartsWith(r[k].value, "http")
    {
      WithoutRequest(Stored(obj)[k].value, bucket);
    }
  }

  /** Serving without a request and without a bucket returns the stored
      URLs unchanged, whether relative or not. */
  lemma ServedWithoutBucket(obj: StoredImages, bucket: Option<string>)
    requires !BucketConfigured(bucket)
    ensures ImageFields(obj, None, bucket) == Stored(obj)
  {
  }
}
