/**
 * How the form's payload meets the two receivers: the Next.js route it
 * posts to, and the standalone server's positional pairing of detail
 * photos with detail notes.
 */
module EndToEnd {

  import opened Wrappers
  import opened Multipart
  import opened IntakeForm
  import opened SessionRoute
  import IntakeServer

  /** A file the route's type and size guards let through. */
  predicate RouteAcceptsFile(f: File) {
    f.mimeType in ALLOWED_TYPES && f.size <= MAX_SIZE
  }

  /**
   * A payload built by the form with a non-empty operator name and date,
   * a non-empty tracking number and two acceptable photos is accepted by the
   * route, whatever the details.
   */
  lemma PayloadAcceptedByRoute(name: string, date: string, tracking: string, image1: File, image2: File,
                               ds: seq<Detail>, now: nat)
    requires name != "" && date != "" && tracking != ""
    requires RouteAcceptsFile(image1) && RouteAcceptsFile(image2)
    ensures Post(Some(Payload(name, date, tracking, image1, image2, ds)), now).status == 200
  {
    PayloadShape(name, date, tracking, image1, image2, ds);
  }

  /**
   * The form itself checks neither type nor size: a form that validates
   * is sent with an oversized photo, and only the route refuses it.
   */
  lemma OversizedPhotoRefusedOnlyByRoute(name: string, date: string, tracking: string, image1: File, image2: File,
                                         ds: seq<Detail>, now: nat)
    requires name != "" && date != "" && Validate(tracking, Some(image1), Some(image2)).None?
    requires image1.mimeType in ALLOWED_TYPES && image2.mimeType in ALLOWED_TYPES
    requires image1.size > MAX_SIZE
    ensures Post(Some(Payload(name, date, tracking, image1, image2, ds)), now) == Response(400, ErrorBody(TOO_LARGE))
  {
    PayloadShape(name, date, tracking, image1, image2, ds);
    JsText.TrimEmptyIffBlank(tracking);
  }

  /** The notes the form sends, one per detail. */
  function Notes(ds: seq<Detail>): (notes: seq<string>)
    ensures |notes| == |ds|
  {
    seq(|ds|, i requires 0 <= i < |ds| => ds[i].note)
  }

  /**
   * When every detail has a photo, the server's positional pairing gives
   * each uploaded photo's URL the note the operator typed beside it. The
   * notes are taken as the handler reads them under the key
   * `detailsNotes[]`; the multipart parser that would deliver them is not
   * part of this model.
   */
  lemma PairingKeepsNotesWhenEveryDetailHasPhoto(ds: seq<Detail>, urls: seq<string>)
    requires forall i :: 0 <= i < |ds| ==> ds[i].image.Some?
    requires |urls| == |ImagesOf(ds)|
    ensures var details := IntakeServer.PairDetails(urls, Notes(ds));
            |details| == |ds| && forall i :: 0 <= i < |ds| ==> details[i].note == ds[i].note
  {
  }

  /**
   * When a detail without a photo comes before one with a photo, the
   * server gives that photo the earlier detail's note: the form sends no
   * image field for a detail without a photo, so positions shift. As
   * above, the notes are taken as read under the key `detailsNotes[]`.
   */
  lemma PairingShiftsNotesPastDetailsWithoutPhoto(f: File, url: string)
    ensures var ds := [Detail(None, "scratch"), Detail(Some(f), "dent")];
            && ImagesOf(ds) == [f]
            && IntakeServer.PairDetails([url], Notes(ds)) == [IntakeServer.DetailRecord(url, "scratch")]
  {
    var ds := [Detail(None, "scratch"), Detail(Some(f), "dent")];
    assert ds[..1] == [Detail(None, "scratch")] && ds[..1][..0] == [];
  }
}
