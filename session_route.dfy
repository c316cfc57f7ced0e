/**
 * The Next.js `POST /api/session` route the form posts to: an ordered chain
 * of guards over the multipart body (required text fields, both images,
 * allowed MIME types, the 5 MiB size limit), then a simulated session.
 */
module SessionRoute {

  import opened Wrappers
  import opened JsText
  import opened Multipart

  const MISSING_FIELDS := "Missing required fields"
  const MISSING_IMAGES := "Both images are required"
  const INVALID_TYPE := "Invalid file type. Only JPEG and PNG are allowed."
  const TOO_LARGE := "File size too large. Maximum 5MB per image."
  const INTERNAL_ERROR := "Internal server error"
  const CREATED := "Session created successfully"
  const SESSION_PREFIX := "session_"

  const ALLOWED_TYPES: seq<string> := ["image/jpeg", "image/png", "image/jpg"]
  const MAX_SIZE: nat := 5 * 1024 * 1024

  datatype Body = ErrorBody(error: string) | SessionBody(success: bool, sessionId: string, message: string)

  datatype Response = Response(status: nat, body: Body)

  /** `allowedTypes.includes(image.type)`; a text value has no `type`, so it never passes. */
  predicate HasAllowedType(v: Value) {
    v.Blob? && v.file.mimeType in ALLOWED_TYPES
  }

  /** `image.size > maxSize`; a text value has no `size`, and `undefined > n` is false. */
  predicate IsTooLarge(v: Value) {
    v.Blob? && v.file.size > MAX_SIZE
  }

  predicate FieldsPresent(fields: seq<Field>) {
    Present(Get(fields, "name")) && Present(Get(fields, "date")) && Present(Get(fields, "trackingNumber"))
  }

  predicate ImagesPresent(fields: seq<Field>) {
    Present(Get(fields, "image1")) && Present(Get(fields, "image2"))
  }

  predicate TypesAllowed(fields: seq<Field>)
    requires ImagesPresent(fields)
  {
    HasAllowedType(Get(fields, "image1").value) && HasAllowedType(Get(fields, "image2").value)
  }

  predicate SizesAllowed(fields: seq<Field>)
    requires ImagesPresent(fields)
  {
    !IsTooLarge(Get(fields, "image1").value) && !IsTooLarge(Get(fields, "image2").value)
  }

  /** The four guards in the order the route applies them. */
  predicate Acceptable(fields: seq<Field>) {
    FieldsPresent(fields) && ImagesPresent(fields) && TypesAllowed(fields) && SizesAllowed(fields)
  }

  /**
   * The route. `form` is the parsed multipart body, `None` when
   * `request.formData()` throws; `now` is `Date.now()`. Each guard fails only
   * when every earlier one passed, and the first failure decides the answer.
   */
  function Post(form: Option<seq<Field>>, now: nat): (r: Response)
    ensures form.None? ==> r == Response(500, ErrorBody(INTERNAL_ERROR))
    ensures form.Some? && !FieldsPresent(form.value) ==> r == Response(400, ErrorBody(MISSING_FIELDS))
    ensures form.Some? && FieldsPresent(form.value) && !ImagesPresent(form.value)
            ==> r == Response(400, ErrorBody(MISSING_IMAGES))
    ensures form.Some? && FieldsPresent(form.value) && ImagesPresent(form.value) && !TypesAllowed(form.value)
            ==> r == Response(400, ErrorBody(INVALID_TYPE))
    ensures form.Some? && FieldsPresent(form.value) && ImagesPresent(form.value) && TypesAllowed(form.value)
            && !SizesAllowed(form.value)
            ==> r == Response(400, ErrorBody(TOO_LARGE))
    ensures r.status == 200 <==> form.Some? && Acceptable(form.value)
    ensures r.status == 200 ==> r.body == SessionBody(true, SESSION_PREFIX + DecimalString(now), CREATED)
  {
    if form.None? then Response(500, ErrorBody(INTERNAL_ERROR))
    else
      var fields := form.value;
      var image1 := Get(fields, "image1");
      var image2 := Get(fields, "image2");
      if !Present(Get(fields, "name")) || !Present(Get(fields, "date")) || !Present(Get(fields, "trackingNumber")) then
        Response(400, ErrorBody(MISSING_FIELDS))
      else if !Present(image1) || !Present(image2) then
        Response(400, ErrorBody(MISSING_IMAGES))
      else if !HasAllowedType(image1.value) || !HasAllowedType(image2.value) then
        Response(400, ErrorBody(INVALID_TYPE))
      else if image1.value.file.size > MAX_SIZE || image2.value.file.size > MAX_SIZE then
        Response(400, ErrorBody(TOO_LARGE))
      else
        Response(200, SessionBody(true, SESSION_PREFIX + DecimalString(now), CREATED))
  }

  /** The MIME allow-list is exactly JPEG, PNG and the `image/jpg` alias. */
  lemma AllowedTypesAreExactly(f: File)
    ensures HasAllowedType(Blob(f)) <==> f.mimeType in {"image/jpeg", "image/png", "image/jpg"}
  {
  }

  /** The limit is strict: an image of exactly 5 MiB passes, one byte more fails. */
  lemma SizeLimitIsStrict(f: File)
    ensures f.size == 5242880 ==> !IsTooLarge(Blob(f))
    ensures f.size == 5242881 ==> IsTooLarge(Blob(f))
  {
  }

  /** A session id is `session_` followed by the decimal clock reading, which it determines. */
  lemma {:induction false} SessionIdEncodesClock(form: Option<seq<Field>>, now: nat)
    requires Post(form, now).status == 200
    ensures var id := Post(form, now).body.sessionId;
            |id| > |SESSION_PREFIX| && id[..|SESSION_PREFIX|] == SESSION_PREFIX
            && (forall i :: |SESSION_PREFIX| <= i < |id| ==> IsDigit(id[i]))
            && ParseDecimal(id[|SESSION_PREFIX|..]) == now
  {
    var id := Post(form, now).body.sessionId;
    assert id[|SESSION_PREFIX|..] == DecimalString(now);
    DecimalRoundTrip(now);
  }
}
