/**
 * BSTEncode: derives the S3 key of an encoded audio file from its source URL, builds the
 * public S3 URL, and decides what the encode and upload callbacks receive.
 *
 * The S3 upload and the HTTP call to the encoder service are not modelled as I/O: their
 * results (the upload error, the encoder's status code and message) are inputs.
 */
module BstEncode {
  import opened Wrappers
  import opened JsString

  const S3Prefix := "https://s3.amazonaws.com/"
  const EncodedSuffix := "-encoded.mp3"
  const EncoderHost := "elb-ecs-bespokenencoder-dev-299768275.us-east-1.elb.amazonaws.com"
  const EncoderPath := "/encode"
  const NoConfigurationMessage := "No AWS Configuration parameters defined"

  /** AWS credentials and the bucket encoded files are published to. */
  datatype AwsEncoderConfig = AwsEncoderConfig(bucket: string, accessKeyId: string, secretAccessKey: string)

  /** What the encoder's HTTP response tells the handler. */
  datatype HttpResponse = HttpResponse(statusCode: int, statusMessage: string)

  /** The options of the POST to the encoder service, headers flattened into fields. */
  datatype EncodeRequest = EncodeRequest(
    host: string, path: string, httpMethod: string,
    accessKeyId: string, accessSecretKey: string,
    sourceURL: string, targetBucket: string, targetKey: string)

  /** The arguments of the `(error, encodedURL)` callback; None stands for null. */
  datatype Encoded = Encoded(error: Option<string>, encodedURL: Option<string>)

  /** An error thrown synchronously: an explicit `new Error(message)`, or the TypeError
      raised by reading `property` of an undefined configuration. */
  datatype Thrown = Error(message: string) | TypeError(property: string)

  /** A call that either returns normally or throws. */
  datatype Call<+T> = Returned(value: T) | Threw(thrown: Thrown)

  // ---------------------------------------------------------------- key derivation

  /** `s.substring(s.lastIndexOf("/") + 1)`: the text after the last '/', or all of `s`. */
  function LastSegment(s: string): (r: string)
    ensures '/' !in r
    ensures '/' !in s ==> r == s
    ensures '/' in s ==> |r| < |s| && s[|s| - |r| - 1] == '/'
    ensures r == s[|s| - |r|..]
  {
    var i := LastIndexOf(s, '/');
    var r := SubstringFrom(s, i + 1);
    assert r == s[i + 1..];
    r
  }

  /** The filename with everything from its first '?' dropped. */
  function StripQuery(filename: string): (r: string)
    ensures '?' !in r
    ensures r <= filename
    ensures '?' in filename ==> |r| < |filename| && filename[|r|] == '?'
    ensures '?' !in filename ==> r == filename
  {
    if IndexOf(filename, '?') != -1 then Substring(filename, 0, IndexOf(filename, '?'))
    else filename
  }

  /** `filename.substring(0, filename.indexOf("."))`: the text before the first '.';
      with no '.', indexOf gives -1, substring clamps it to 0 and the result is empty. */
  function BaseName(filename: string): (r: string)
    ensures '.' !in r
    ensures r <= filename
    ensures '.' in filename ==> |r| < |filename| && filename[|r|] == '.'
    ensures '.' !in filename ==> r == ""
  {
    Substring(filename, 0, IndexOf(filename, '.'))
  }

  /** A prefix of a string that lacks `c` lacks `c` too. */
  lemma PrefixLacks(p: string, s: string, c: char)
    requires p <= s && c !in s
    ensures c !in p
  {
  }

  /** `newFilename` in callEncode: the S3 key the encoder is asked to write. */
  function EncodedKey(sourceURL: string): (r: string)
    ensures |r| >= |EncodedSuffix| && r[|r| - |EncodedSuffix|..] == EncodedSuffix
    ensures r[..|r| - |EncodedSuffix|] <= StripQuery(LastSegment(sourceURL)) <= LastSegment(sourceURL)
    ensures var stem := r[..|r| - |EncodedSuffix|]; '.' !in stem && '/' !in stem && '?' !in stem
    ensures var f := StripQuery(LastSegment(sourceURL));
      '.' in f ==> |r| - |EncodedSuffix| < |f| && f[|r| - |EncodedSuffix|] == '.'
    ensures '.' !in StripQuery(LastSegment(sourceURL)) ==> r == EncodedSuffix
  {
    var segment := LastSegment(sourceURL);
    var filename := StripQuery(segment);
    var stem := BaseName(filename);
    PrefixLacks(filename, segment, '/');
    PrefixLacks(stem, filename, '/');
    PrefixLacks(stem, filename, '?');
    var r := stem + EncodedSuffix;
    assert r[..|r| - |EncodedSuffix|] == stem && r[|r| - |EncodedSuffix|..] == EncodedSuffix;
    r
  }

  /** A name that contains neither '/', '?' nor '.' is its own stem. */
  lemma {:induction false} EncodedKeyOfPlainName(name: string)
    requires '/' !in name && '?' !in name && '.' !in name
    ensures EncodedKey(name) == EncodedSuffix
  {
  }

  // ---------------------------------------------------------------- S3 URLs

  /** `urlForS3(bucket, key)`. */
  function UrlForS3(bucket: string, key: string): (r: string)
    ensures |r| == |S3Prefix| + |bucket| + 1 + |key|
    ensures r[..|S3Prefix|] == S3Prefix
    ensures r[|S3Prefix|..|S3Prefix| + |bucket|] == bucket
    ensures r[|r| - |key| - 1..] == "/" + key
  {
    S3Prefix + bucket + "/" + key
  }

  /** Reads the bucket and key back out of a public S3 URL; the bucket ends at the first '/'. */
  function ParseS3Url(url: string): (r: Option<(string, string)>)
    ensures r.Some? ==> '/' !in r.value.0
  {
    if |url| < |S3Prefix| || url[..|S3Prefix|] != S3Prefix then None
    else
      var rest := url[|S3Prefix|..];
      var i := IndexOf(rest, '/');
      if i == -1 then None else Some((rest[..i], rest[i + 1..]))
  }

  /** Bucket names contain no '/', so the URL determines the bucket and the key. */
  lemma S3UrlRoundTrip(bucket: string, key: string)
    requires '/' !in bucket
    ensures ParseS3Url(UrlForS3(bucket, key)) == Some((bucket, key))
  {
    var url := UrlForS3(bucket, key);
    var rest := url[|S3Prefix|..];
    assert rest == bucket + "/" + key;
    var i := IndexOf(rest, '/');
    assert rest[|bucket|] == '/';
    assert i == |bucket|;
    assert rest[..i] == bucket;
    assert rest[i + 1..] == key;
  }

  /** The last segment of an S3 URL is its key, when the key has no '/'. */
  lemma LastSegmentOfS3Url(bucket: string, key: string)
    requires '/' !in key
    ensures LastSegment(UrlForS3(bucket, key)) == key
  {
    var url := UrlForS3(bucket, key);
    var r := LastSegment(url);
    assert url[|url| - |key| - 1] == '/';
    assert |r| == |key|;
  }

  // ---------------------------------------------------------------- encode call

  /** The request callEncode sends for `sourceURL`. */
  function EncodeRequestFor(config: AwsEncoderConfig, sourceURL: string): EncodeRequest
  {
    EncodeRequest(EncoderHost, EncoderPath, "POST", config.accessKeyId, config.secretAccessKey,
                  sourceURL, config.bucket, EncodedKey(sourceURL))
  }

  /**
   * What callEncode promises once it has a configuration: with the configured credentials, it
   * asks the encoder to write the key
   * derived from `sourceURL` into the configured bucket, and calls back with the status message
   * as the error when the status is not 200, and otherwise with the public URL of that key.
   */
  ghost predicate EncodedAsPromised(config: AwsEncoderConfig, sourceURL: string, response: HttpResponse,
                                    request: EncodeRequest, outcome: Encoded)
  {
    && request.host == EncoderHost && request.path == EncoderPath && request.httpMethod == "POST"
    && request.accessKeyId == config.accessKeyId && request.accessSecretKey == config.secretAccessKey
    && request.sourceURL == sourceURL
    && request.targetBucket == config.bucket
    && request.targetKey == EncodedKey(sourceURL)
    && (outcome.error.None? <==> outcome.encodedURL.Some?)
    && (outcome.error.Some? <==> response.statusCode != 200)
    && (response.statusCode != 200 ==> outcome.error == Some(response.statusMessage))
    && (outcome.encodedURL.Some? ==>
          outcome.encodedURL.value == UrlForS3(request.targetBucket, request.targetKey))
  }

  /**
   * callEncode: the request it sends and the arguments of its callback, given the encoder's
   * response. An undefined configuration throws when the headers read `accessKeyId`.
   */
  function CallEncode(config: Option<AwsEncoderConfig>, sourceURL: string, response: HttpResponse)
    : (r: Call<(EncodeRequest, Encoded)>)
    ensures config.None? <==> r.Threw?
    ensures config.None? ==> r.thrown == TypeError("accessKeyId")
    ensures r.Returned? ==> EncodedAsPromised(config.value, sourceURL, response, r.value.0, r.value.1)
  {
    match config
    case None => Threw(TypeError("accessKeyId"))
    case Some(c) =>
      var request := EncodeRequestFor(c, sourceURL);
      if response.statusCode != 200 then
        Returned((request, Encoded(Some(response.statusMessage), None)))
      else
        Returned((request, Encoded(None, Some(UrlForS3(c.bucket, request.targetKey)))))
  }

  /** The URL reported on success names exactly the bucket and key that the encoder was
      asked to write (given a bucket name without '/'). */
  lemma ReportedUrlNamesTarget(config: AwsEncoderConfig, sourceURL: string, response: HttpResponse)
    requires '/' !in config.bucket
    requires response.statusCode == 200
    ensures var r := CallEncode(Some(config), sourceURL, response);
      && r.Returned? && r.value.1.encodedURL.Some?
      && ParseS3Url(r.value.1.encodedURL.value) == Some((config.bucket, r.value.0.targetKey))
      && r.value.0.targetKey == EncodedKey(sourceURL)
  {
    S3UrlRoundTrip(config.bucket, EncodedKey(sourceURL));
  }

  // ---------------------------------------------------------------- upload

  /**
   * uploadFile: throws when the configuration is undefined; otherwise reports the public URL
   * of `name` in `bucket` once putObject calls back, whatever error putObject reported.
   */
  function UploadFile(config: Option<AwsEncoderConfig>, bucket: string, name: string,
                      putError: Option<string>): (r: Call<string>)
    ensures config.None? <==> r == Threw(Error(NoConfigurationMessage))
    ensures config.Some? ==> r == Returned(UrlForS3(bucket, name))
  {
    if config.None? then Threw(Error(NoConfigurationMessage))
    else Returned(UrlForS3(bucket, name))
  }

  /** The path with its trailing '/' characters removed, as path.parse ignores them. */
  function TrimTrailingSlashes(path: string): (r: string)
    ensures r <= path
    ensures r == [] || r[|r| - 1] != '/'
    ensures forall i :: |r| <= i < |path| ==> path[i] == '/'
  {
    if |path| > 0 && path[|path| - 1] == '/' then TrimTrailingSlashes(path[..|path| - 1]) else path
  }

  /** The `name` and `ext` parts of `path.parse` (POSIX rules). */
  datatype ParsedPath = ParsedPath(name: string, ext: string)

  /** path.parse: the last component is split at its last '.', unless there is none, it is the
      component's first character, or the component is "..". */
  function ParsePath(path: string): (r: ParsedPath)
    ensures r.name + r.ext == LastSegment(TrimTrailingSlashes(path))
    ensures r.ext == "" || (r.ext[0] == '.' && '.' !in r.ext[1..] && r.name != "")
  {
    SplitExtension(LastSegment(TrimTrailingSlashes(path)))
  }

  /** The split of one path component into name and extension. */
  function SplitExtension(base: string): (r: ParsedPath)
    ensures r.name + r.ext == base
    ensures r.ext == "" || (r.ext[0] == '.' && '.' !in r.ext[1..] && r.name != "")
  {
    var dot := LastIndexOf(base, '.');
    if dot <= 0 || base == ".." then ParsedPath(base, "")
    else
      assert base[dot..][1..] == base[dot + 1..];
      ParsedPath(base[..dot], base[dot..])
  }

  /** `fp.name + fp.ext` in encodeFileAndPublish: the last component of the file path. */
  function UploadName(filePath: string): (r: string)
    ensures '/' !in r
    ensures r == LastSegment(TrimTrailingSlashes(filePath))
  {
    var fp := ParsePath(filePath);
    fp.name + fp.ext
  }

  // ---------------------------------------------------------------- whole pipelines

  /**
   * encodeFileAndPublish: upload the file under its last path component, then encode the
   * uploaded object. Line 51 reads the bucket of the configuration before uploadFile's guard,
   * so an undefined configuration throws a TypeError there and the guard's message is never seen.
   */
  function EncodeFileAndPublish(config: Option<AwsEncoderConfig>, filePath: string,
                                putError: Option<string>, response: HttpResponse)
    : (r: Call<(EncodeRequest, Encoded)>)
    ensures config.None? ==> r == Threw(TypeError("bucket"))
    ensures r != Threw(Error(NoConfigurationMessage))
    ensures config.Some? ==> r.Returned?
    ensures r.Returned? ==>
      && EncodedAsPromised(config.value, UrlForS3(config.value.bucket, UploadName(filePath)),
                           response, r.value.0, r.value.1)
      && r.value.0.targetKey == EncodedKey(UploadName(filePath))
  {
    match config
    case None => Threw(TypeError("bucket"))
    case Some(c) =>
      var name := UploadName(filePath);
      match UploadFile(config, c.bucket, name, putError)
      case Threw(t) => Threw(t)
      case Returned(url) =>
        LastSegmentOfS3Url(c.bucket, name);
        CallEncode(config, url, response)
  }

  /** encodeURLAndPublish hands the URL straight to callEncode. */
  function EncodeUrlAndPublish(config: Option<AwsEncoderConfig>, sourceURL: string, response: HttpResponse)
    : (r: Call<(EncodeRequest, Encoded)>)
    ensures config.None? <==> r.Threw?
    ensures config.None? ==> r.thrown == TypeError("accessKeyId")
    ensures r.Returned? ==> EncodedAsPromised(config.value, sourceURL, response, r.value.0, r.value.1)
  {
    CallEncode(config, sourceURL, response)
  }
}
