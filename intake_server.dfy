/**
 * The standalone Express server's `POST /session` handler: it checks the
 * five required fields, puts the photos into S3 when S3 is configured (or
 * records placeholder URLs when it is not), pairs detail photo URLs with
 * notes by position, and appends one record to the in-memory metadata list,
 * which it then writes to the metadata file.
 */
module IntakeServer {

  import opened Wrappers
  import opened JsText

  const PLACEHOLDER_URL := "S3_NOT_CONFIGURED"
  const MISSING_REQUIRED := "Missing required fields or images."
  const INTERNAL_ERROR := "Internal server error."
  const IMAGE_PREFIX := "uploads/"
  const DETAIL_PREFIX := "uploads/details/"

  /** The AWS settings read from the environment at start-up; an unset variable is "". */
  datatype S3Config = S3Config(accessKeyId: string, secretAccessKey: string, region: string, bucket: string)

  /** An S3 client is created only with both credentials and a region. */
  predicate HasClient(c: S3Config) {
    c.accessKeyId != "" && c.secretAccessKey != "" && c.region != ""
  }

  /** The handler uploads only with a client, a bucket and a region; otherwise it runs degraded. */
  predicate UploadsEnabled(c: S3Config) {
    HasClient(c) && c.bucket != "" && c.region != ""
  }

  /** A file multer stored: its original name and MIME type (its temporary path is not modelled). */
  datatype UploadedFile = UploadedFile(originalname: string, mimetype: string)

  /** A body field as multer hands it over: absent, one value, or a repeated field's array. */
  datatype BodyValue = Missing | One(value: string) | Many(values: seq<string>)

  datatype IntakeRequest = IntakeRequest(
    name: Option<string>, date: Option<string>, trackingNumber: Option<string>,
    image1: Option<UploadedFile>, image2: Option<UploadedFile>,
    detailsImages: seq<UploadedFile>, detailsNotes: BodyValue)

  /**
   * What the handler cannot compute: `Date.now()` at each upload (by upload
   * number: 0 and 1 for the two photos, 2 + k for detail photo k), whether
   * each S3 put succeeds, `Date.now()` and the random suffix of the id,
   * `new Date().toISOString()`, and whether the metadata file write succeeds.
   */
  datatype RequestEnv = RequestEnv(
    uploadStamp: nat -> nat, putOk: nat -> bool,
    idStamp: nat, randomSuffix: string, createdAt: string, writeOk: bool)

  datatype DetailRecord = DetailRecord(imageUrl: string, note: string)

  datatype SessionRecord = SessionRecord(
    id: string, name: string, date: string, trackingNumber: string,
    image1Url: string, image2Url: string, details: seq<DetailRecord>, createdAt: string)

  datatype Reply = BadRequest(error: string) | ServerError(error: string) | Created(session: SessionRecord)

  /** The metadata file at start-up: missing, not parseable as JSON, or a list of records. */
  datatype StoredMetadata = NoFile | Unparseable | Records(records: seq<SessionRecord>)

  // ---------------------------------------------------------------------
  // Request fields

  predicate Given(v: Option<string>) {
    v.Some? && v.value != ""
  }

  /** The guard of the handler: all five of name, date, trackingNumber, image1 and image2 are truthy. */
  predicate RequiredPresent(req: IntakeRequest) {
    Given(req.name) && Given(req.date) && Given(req.trackingNumber) && req.image1.Some? && req.image2.Some?
  }

  /** The `detailsNotes[]` normalisation: an array as it is, a truthy single value as a one-element list, else none. */
  function NormaliseNotes(v: BodyValue): (notes: seq<string>)
    ensures v.Many? ==> notes == v.values
    ensures v.One? && v.value != "" ==> notes == [v.value]
    ensures v.Missing? || v == One("") ==> notes == []
  {
    match v
    case Many(values) => values
    case One(value) => if value != "" then [value] else []
    case Missing => []
  }

  /**
   * The record's details: one entry per detail photo URL, in order, with the
   * note at the same position or '' when there is none; notes beyond the
   * last photo are dropped.
   */
  function PairDetails(urls: seq<string>, notes: seq<string>): (r: seq<DetailRecord>)
    ensures |r| == |urls|
    ensures forall i :: 0 <= i < |r| ==> r[i].imageUrl == urls[i]
    ensures forall i :: 0 <= i < |r| && i < |notes| ==> r[i].note == notes[i]
    ensures forall i :: |notes| <= i < |r| ==> r[i].note == ""
  {
    seq(|urls|, i requires 0 <= i < |urls| => DetailRecord(urls[i], if i < |notes| then notes[i] else ""))
  }

  // ---------------------------------------------------------------------
  // S3 keys and public URLs

  /**
   * The object key: prefix, the upload's clock reading, '_', the original
   * file name. What follows the prefix splits back into the clock reading
   * and the name.
   */
  function S3Key(prefix: string, stamp: nat, originalname: string): (r: string)
    ensures |prefix| < |r| && r[..|prefix|] == prefix
    ensures SplitStamp(r[|prefix|..]) == Some((stamp, originalname))
  {
    var rest := DecimalString(stamp) + "_" + originalname;
    SplitStampRoundTrip(stamp, originalname);
    assert (prefix + rest)[|prefix|..] == rest;
    prefix + rest
  }

  /** `getS3PublicUrl`: the key can be read back from the URL of the given bucket and region. */
  function PublicUrl(bucket: string, key: string, region: string): (r: string)
    ensures KeyOfPublicUrl(bucket, region, r) == Some(key)
  {
    var stem := UrlStem(bucket, region);
    assert (stem + key)[..|stem|] == stem;
    assert (stem + key)[|stem|..] == key;
    stem + key
  }

  function UrlStem(bucket: string, region: string): string {
    "https://" + bucket + ".s3." + region + ".amazonaws.com/"
  }

  /** Reads the key back out of a public URL of the given bucket and region. */
  function KeyOfPublicUrl(bucket: string, region: string, url: string): Option<string> {
    var stem := UrlStem(bucket, region);
    if |stem| <= |url| && url[..|stem|] == stem then Some(url[|stem|..]) else None
  }

  /** The position of the first `c` in `s`, or its length. */
  function IndexOf(s: string, c: char): (i: nat)
    ensures i <= |s|
    ensures forall j :: 0 <= j < i ==> s[j] != c
    ensures i < |s| ==> s[i] == c
  {
    if s == [] || s[0] == c then 0 else 1 + IndexOf(s[1..], c)
  }

  /** Splits `<digits>_<name>` at its first '_' into the number and the name. */
  function SplitStamp(s: string): Option<(nat, string)> {
    var i := IndexOf(s, '_');
    if 0 < i < |s| && forall j :: 0 <= j < i ==> IsDigit(s[j]) then
      Some((ParseDecimal(s[..i]), s[i + 1..]))
    else
      None
  }

  /** The stamp-and-name part of a key splits back into the stamp and the name. */
  lemma {:induction false} SplitStampRoundTrip(stamp: nat, originalname: string)
    ensures SplitStamp(DecimalString(stamp) + "_" + originalname) == Some((stamp, originalname))
  {
    var d := DecimalString(stamp);
    var s := d + "_" + originalname;
    assert forall j :: 0 <= j < |d| ==> s[j] == d[j] && s[j] != '_';
    assert s[|d|] == '_';
    assert IndexOf(s, '_') == |d|;
    assert s[..|d|] == d && s[|d| + 1..] == originalname;
    DecimalRoundTrip(stamp);
  }

  /** Under one prefix, equal keys mean the same clock reading and the same file name. */
  lemma KeysDetermineStampAndName(prefix: string, t1: nat, n1: string, t2: nat, n2: string)
    requires S3Key(prefix, t1, n1) == S3Key(prefix, t2, n2)
    ensures t1 == t2 && n1 == n2
  {
    var k := S3Key(prefix, t1, n1);
    assert SplitStamp(k[|prefix|..]) == Some((t1, n1));
  }

  /** A primary photo's key never equals a detail photo's key: after `uploads/` one has a digit, the other `d`. */
  lemma PrimaryAndDetailKeysDiffer(t1: nat, n1: string, t2: nat, n2: string)
    ensures S3Key(IMAGE_PREFIX, t1, n1) != S3Key(DETAIL_PREFIX, t2, n2)
  {
    var k1 := S3Key(IMAGE_PREFIX, t1, n1);
    var k2 := S3Key(DETAIL_PREFIX, t2, n2);
    assert k1[8] == DecimalString(t1)[0];
    assert k2[8] == 'd';
  }

  // ---------------------------------------------------------------------
  // The upload plan

  /** The files the handler uploads, in order: image1, image2, then the detail photos. */
  function UploadFiles(req: IntakeRequest): (fs: seq<UploadedFile>)
    requires RequiredPresent(req)
    ensures |fs| == 2 + |req.detailsImages|
  {
    [req.image1.value, req.image2.value] + req.detailsImages
  }

  /** The key prefix of upload k: the two photos under `uploads/`, the detail photos under `uploads/details/`. */
  function PrefixFor(k: nat): string {
    if k < 2 then IMAGE_PREFIX else DETAIL_PREFIX
  }

  /** The key of the k-th upload. */
  function PlannedKey(req: IntakeRequest, env: RequestEnv, k: nat): string
    requires RequiredPresent(req) && k < 2 + |req.detailsImages|
  {
    S3Key(PrefixFor(k), env.uploadStamp(k), UploadFiles(req)[k].originalname)
  }

  /** The keys of the first n uploads, in upload order. */
  function PlannedKeys(req: IntakeRequest, env: RequestEnv, n: nat): (keys: seq<string>)
    requires RequiredPresent(req) && n <= 2 + |req.detailsImages|
    ensures |keys| == n
  {
    if n == 0 then [] else PlannedKeys(req, env, n - 1) + [PlannedKey(req, env, n - 1)]
  }

  /** The public URLs of the first n uploads, in upload order. */
  function PlannedUrls(config: S3Config, req: IntakeRequest, env: RequestEnv, n: nat): (urls: seq<string>)
    requires RequiredPresent(req) && n <= 2 + |req.detailsImages|
    ensures |urls| == n
  {
    if n == 0 then []
    else PlannedUrls(config, req, env, n - 1) + [PublicUrl(config.bucket, PlannedKey(req, env, n - 1), config.region)]
  }

  /** One more successful upload extends the bucket's keys and the URL list by that upload's key and URL. */
  lemma ExtendPlan(config: S3Config, req: IntakeRequest, env: RequestEnv, k: nat, b0: seq<string>, b: seq<string>, us: seq<string>)
    requires RequiredPresent(req) && k < 2 + |req.detailsImages|
    requires b == b0 + PlannedKeys(req, env, k) && us == PlannedUrls(config, req, env, k)
    ensures b + [PlannedKey(req, env, k)] == b0 + PlannedKeys(req, env, k + 1)
    ensures us + [PublicUrl(config.bucket, PlannedKey(req, env, k), config.region)] == PlannedUrls(config, req, env, k + 1)
  {
    assert b + [PlannedKey(req, env, k)] == b0 + (PlannedKeys(req, env, k) + [PlannedKey(req, env, k)]);
  }

  /** The k-th planned URL is the public URL of the k-th upload's key. */
  lemma {:induction false} PlannedUrlAt(config: S3Config, req: IntakeRequest, env: RequestEnv, n: nat, k: nat)
    requires RequiredPresent(req) && k < n <= 2 + |req.detailsImages|
    ensures PlannedUrls(config, req, env, n)[k] == PublicUrl(config.bucket, PlannedKey(req, env, k), config.region)
  {
    if k < n - 1 {
      PlannedUrlAt(config, req, env, n - 1, k);
    }
  }

  /** Each recorded URL gives back the key of its upload. */
  lemma PlannedUrlsGiveKeys(config: S3Config, req: IntakeRequest, env: RequestEnv, n: nat)
    requires RequiredPresent(req) && n <= 2 + |req.detailsImages|
    ensures forall k :: 0 <= k < n ==>
              KeyOfPublicUrl(config.bucket, config.region, PlannedUrls(config, req, env, n)[k]) == Some(PlannedKey(req, env, k))
  {
    forall k | 0 <= k < n
      ensures KeyOfPublicUrl(config.bucket, config.region, PlannedUrls(config, req, env, n)[k]) == Some(PlannedKey(req, env, k))
    {
      PlannedUrlAt(config, req, env, n, k);
    }
  }

  /** The number of the first upload whose put fails, or n when none of the first n fails. */
  function FirstFailedPut(env: RequestEnv, n: nat): (f: nat)
    ensures f <= n
    ensures forall k :: 0 <= k < f ==> env.putOk(k)
    ensures f < n ==> !env.putOk(f)
  {
    if n == 0 then 0
    else
      var f := FirstFailedPut(env, n - 1);
      if f < n - 1 then f else if env.putOk(n - 1) then n else n - 1
  }

  /** Upload k, reached with no failure before it, either succeeds and is not the first failure, or is the first failure. */
  lemma FirstFailedPutAt(env: RequestEnv, n: nat, k: nat)
    requires k < n && k <= FirstFailedPut(env, n)
    ensures env.putOk(k) ==> k + 1 <= FirstFailedPut(env, n)
    ensures !env.putOk(k) ==> FirstFailedPut(env, n) == k
  {
  }

  /** The record id: the clock reading, '_', and the random suffix, which split back out of it. */
  function SessionId(env: RequestEnv): (r: string)
    ensures SplitStamp(r) == Some((env.idStamp, env.randomSuffix))
  {
    SplitStampRoundTrip(env.idStamp, env.randomSuffix);
    DecimalString(env.idStamp) + "_" + env.randomSuffix
  }

  /** The record the handler builds once the photos are dealt with. */
  function BuildRecord(req: IntakeRequest, image1Url: string, image2Url: string, detailUrls: seq<string>,
                       env: RequestEnv): (r: SessionRecord)
    requires RequiredPresent(req)
    ensures r.name == req.name.value && r.date == req.date.value && r.trackingNumber == req.trackingNumber.value
    ensures r.image1Url == image1Url && r.image2Url == image2Url
    ensures r.details == PairDetails(detailUrls, NormaliseNotes(req.detailsNotes))
  {
    SessionRecord(SessionId(env), req.name.value, req.date.value, req.trackingNumber.value,
                  image1Url, image2Url, PairDetails(detailUrls, NormaliseNotes(req.detailsNotes)), env.createdAt)
  }

  /** The record written in degraded mode: placeholder URLs and no details, whatever was sent. */
  lemma DegradedRecordHasNoDetails(req: IntakeRequest, env: RequestEnv)
    requires RequiredPresent(req)
    ensures var r := BuildRecord(req, PLACEHOLDER_URL, PLACEHOLDER_URL, [], env);
            r.image1Url == PLACEHOLDER_URL && r.image2Url == PLACEHOLDER_URL && r.details == []
  {
  }

  /** The metadata list loaded at start-up: a missing or unparseable file gives an empty list. */
  function InitialMetadata(stored: StoredMetadata): (records: seq<SessionRecord>)
    ensures stored.Records? ==> records == stored.records
    ensures !stored.Records? ==> records == []
  {
    match stored
    case Records(records) => records
    case _ => []
  }

  datatype UploadResult = NotConfigured | StoredAs(key: string) | PutFailed

  /** The server process: its configuration, the in-memory list, the metadata file and the S3 bucket. */
  class SessionServer {
    const config: S3Config
    var sessionMetadata: seq<SessionRecord>
    var metadataFile: StoredMetadata
    /** The keys of the objects put into the bucket, in order. */
    var bucket: seq<string>

    constructor (config: S3Config, stored: StoredMetadata)
      ensures this.config == config && metadataFile == stored && bucket == []
      ensures sessionMetadata == InitialMetadata(stored)
    {
      this.config := config;
      metadataFile := stored;
      bucket := [];
      sessionMetadata := match stored case Records(records) => records case _ => [];
    }

    /** `uploadToS3V3`: null without a client or bucket, else the key of the stored object; a failed put throws. */
    method UploadToS3(file: UploadedFile, keyPrefix: string, upload: nat, env: RequestEnv) returns (result: UploadResult)
      modifies this`bucket
      ensures !(HasClient(config) && config.bucket != "") ==> result == NotConfigured && bucket == old(bucket)
      ensures HasClient(config) && config.bucket != "" && !env.putOk(upload) ==>
                result == PutFailed && bucket == old(bucket)
      ensures HasClient(config) && config.bucket != "" && env.putOk(upload) ==>
                var key := S3Key(keyPrefix, env.uploadStamp(upload), file.originalname);
                result == StoredAs(key) && bucket == old(bucket) + [key]
    {
      if !(HasClient(config) && config.bucket != "") {
        return NotConfigured;
      }
      var key := keyPrefix + DecimalString(env.uploadStamp(upload)) + "_" + file.originalname;
      if !env.putOk(upload) {
        return PutFailed;
      }
      bucket := bucket + [key];
      result := StoredAs(key);
    }

    /**
     * The upload branch of the handler: image1 and image2 under `uploads/`,
     * then each detail photo in turn under `uploads/details/`, written as
     * one loop over the uploads in that order. It stops at the first failed
     * put; what was stored before that stays in the bucket. On success it
     * gives the public URL of every upload, in order.
     */
    method UploadAll(req: IntakeRequest, env: RequestEnv) returns (urls: Option<seq<string>>)
      requires RequiredPresent(req) && UploadsEnabled(config)
      modifies this`bucket
      ensures var n := 2 + |req.detailsImages|;
              var f := FirstFailedPut(env, n);
              && bucket == old(bucket) + PlannedKeys(req, env, f)
              && (urls.Some? <==> f == n)
              && (urls.Some? ==> urls.value == PlannedUrls(config, req, env, n))
    {
      ghost var n := 2 + |req.detailsImages|;
      ghost var f := FirstFailedPut(env, n);
      var files := UploadFiles(req);
      var stored: seq<string> := [];
      for k := 0 to |files|
        invariant k <= f
        invariant bucket == old(bucket) + PlannedKeys(req, env, k)
        invariant stored == PlannedUrls(config, req, env, k)
      {
        ExtendPlan(config, req, env, k, old(bucket), bucket, stored);
        FirstFailedPutAt(env, n, k);
        var result := UploadToS3(files[k], PrefixFor(k), k, env);
        if !result.StoredAs? {
          return None;
        }
        stored := stored + [PublicUrl(config.bucket, result.key, config.region)];
      }
      urls := Some(stored);
    }

    /**
     * The `POST /session` handler. A missing required field changes nothing.
     * Otherwise exactly one record is appended to the in-memory list, unless
     * an S3 put fails first; the file is rewritten with the whole list when
     * the write succeeds, and a failed write still leaves the record in
     * memory but answers with a server error.
     */
    method HandleSession(req: IntakeRequest, env: RequestEnv) returns (reply: Reply)
      modifies this`sessionMetadata, this`metadataFile, this`bucket
      ensures !RequiredPresent(req) ==>
                && reply == BadRequest(MISSING_REQUIRED)
                && sessionMetadata == old(sessionMetadata) && metadataFile == old(metadataFile)
                && bucket == old(bucket)
      ensures RequiredPresent(req) && !UploadsEnabled(config) ==>
                var record := BuildRecord(req, PLACEHOLDER_URL, PLACEHOLDER_URL, [], env);
                && bucket == old(bucket)
                && sessionMetadata == old(sessionMetadata) + [record]
                && metadataFile == (if env.writeOk then Records(sessionMetadata) else old(metadataFile))
                && reply == (if env.writeOk then Created(record) else ServerError(INTERNAL_ERROR))
      ensures RequiredPresent(req) && UploadsEnabled(config) ==>
                var n := 2 + |req.detailsImages|;
                var f := FirstFailedPut(env, n);
                && bucket == old(bucket) + PlannedKeys(req, env, f)
                && (f < n ==> reply == ServerError(INTERNAL_ERROR)
                              && sessionMetadata == old(sessionMetadata) && metadataFile == old(metadataFile))
      ensures RequiredPresent(req) && UploadsEnabled(config) && FirstFailedPut(env, 2 + |req.detailsImages|) == 2 + |req.detailsImages| ==>
                var n := 2 + |req.detailsImages|;
                var urls := PlannedUrls(config, req, env, n);
                var record := BuildRecord(req, urls[0], urls[1], urls[2..], env);
                && sessionMetadata == old(sessionMetadata) + [record]
                && metadataFile == (if env.writeOk then Records(sessionMetadata) else old(metadataFile))
                && reply == (if env.writeOk then Created(record) else ServerError(INTERNAL_ERROR))
    {
      if !RequiredPresent(req) {
        return BadRequest(MISSING_REQUIRED);
      }
      var image1Url := PLACEHOLDER_URL;
      var image2Url := PLACEHOLDER_URL;
      var detailsImageUrls: seq<string> := [];
      if UploadsEnabled(config) {
        var urls := UploadAll(req, env);
        if urls.None? {
          return ServerError(INTERNAL_ERROR);
        }
        image1Url := urls.value[0];
        image2Url := urls.value[1];
        detailsImageUrls := urls.value[2..];
      }
      var notes := NormaliseNotes(req.detailsNotes);
      var session := SessionRecord(SessionId(env), req.name.value, req.date.value, req.trackingNumber.value,
                                   image1Url, image2Url, PairDetails(detailsImageUrls, notes), env.createdAt);
      sessionMetadata := sessionMetadata + [session];
      if !env.writeOk {
        return ServerError(INTERNAL_ERROR);
      }
      metadataFile := Records(sessionMetadata);
      reply := Created(session);
    }
  }
}
