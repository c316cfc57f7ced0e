/**
 * The intake form page: the operator identity, the tracking number, two
 * primary photo slots and up to five optional detail entries, the ordered
 * validation, the multipart payload it posts, and what a success or a
 * failure does to the form.
 */
module IntakeForm {

  import opened Wrappers
  import opened JsText
  import opened Multipart
  import opened Storage
  import opened OperatorGate

  const MAX_DETAILS := 5

  const MSG_TRACKING := "Please enter a tracking number"
  const MSG_FRONT := "Please capture Tracking and Front of Device"
  const MSG_BACK := "Please capture Tracking and Back of Device"
  const MSG_SUBMIT_FAILED := "Failed to submit form. Please try again."

  /** One detail entry: an optional photo and a note. */
  datatype Detail = Detail(image: Option<File>, note: string)

  /** The two primary photo slots (`imageNumber` 1 and 2). */
  datatype ImageSlot = Slot1 | Slot2

  datatype SubmitStatus = Idle | Succeeded | Failed

  // ---------------------------------------------------------------------
  // Detail list transforms

  /** `handleAddDetail`: one empty entry at the end while there are fewer than five. */
  function AddDetail(ds: seq<Detail>): (r: seq<Detail>)
    ensures |ds| < MAX_DETAILS ==> r == ds + [Detail(None, "")]
    ensures |ds| >= MAX_DETAILS ==> r == ds
    ensures |ds| <= MAX_DETAILS ==> |r| <= MAX_DETAILS
  {
    if |ds| < MAX_DETAILS then ds + [Detail(None, "")] else ds
  }

  /** The `details.map` of the detail image handlers: entry `idx` gets `image`, nothing else changes. */
  function WithDetailImage(ds: seq<Detail>, idx: int, image: Option<File>): (r: seq<Detail>)
    ensures |r| == |ds|
    ensures forall i :: 0 <= i < |ds| && i != idx ==> r[i] == ds[i]
    ensures 0 <= idx < |ds| ==> r[idx] == Detail(image, ds[idx].note)
  {
    seq(|ds|, i requires 0 <= i < |ds| => if i == idx then ds[i].(image := image) else ds[i])
  }

  /** The `details.map` of the note handler: entry `idx` gets `note`, nothing else changes. */
  function WithDetailNote(ds: seq<Detail>, idx: int, note: string): (r: seq<Detail>)
    ensures |r| == |ds|
    ensures forall i :: 0 <= i < |ds| && i != idx ==> r[i] == ds[i]
    ensures 0 <= idx < |ds| ==> r[idx] == Detail(ds[idx].image, note)
  {
    seq(|ds|, i requires 0 <= i < |ds| => if i == idx then ds[i].(note := note) else ds[i])
  }

  // ---------------------------------------------------------------------
  // Validation

  lemma MessagesDiffer()
    ensures MSG_TRACKING != MSG_FRONT && MSG_TRACKING != MSG_BACK && MSG_FRONT != MSG_BACK
  {
    assert MSG_TRACKING[7] != MSG_FRONT[7];
    assert MSG_TRACKING[7] != MSG_BACK[7];
    assert MSG_FRONT[28] != MSG_BACK[28];
  }

  /**
   * `validateForm`: `None` when the form may be submitted, otherwise the
   * message of the first failing check, in the order tracking number (after
   * trimming), front photo, back photo.
   */
  function Validate(tracking: string, image1: Option<File>, image2: Option<File>): (r: Option<string>)
    ensures r.None? <==> Trim(tracking) != "" && image1.Some? && image2.Some?
    ensures r == Some(MSG_TRACKING) <==> Trim(tracking) == ""
    ensures r == Some(MSG_FRONT) <==> Trim(tracking) != "" && image1.None?
    ensures r == Some(MSG_BACK) <==> Trim(tracking) != "" && image1.Some? && image2.None?
  {
    MessagesDiffer();
    if Trim(tracking) == "" then Some(MSG_TRACKING)
    else if image1.None? then Some(MSG_FRONT)
    else if image2.None? then Some(MSG_BACK)
    else None
  }

  /**
   * `isFormValid`, which enables the submit button. It does not trim, so
   * with the button enabled `validateForm` can still refuse, but only over
   * a tracking number of whitespace.
   */
  predicate IsFormValid(tracking: string, image1: Option<File>, image2: Option<File>)
    ensures IsFormValid(tracking, image1, image2) ==>
              Validate(tracking, image1, image2) in {None, Some(MSG_TRACKING)}
  {
    tracking != "" && image1.Some? && image2.Some?
  }

  /** A form that validates has the submit button enabled. */
  lemma ValidatedFormIsSubmittable(tracking: string, image1: Option<File>, image2: Option<File>)
    ensures Validate(tracking, image1, image2).None? ==> IsFormValid(tracking, image1, image2)
  {
  }

  /** The converse fails: a tracking number of spaces enables the button but does not validate. */
  lemma BlankTrackingEnablesButNotValidates(f1: File, f2: File)
    ensures IsFormValid(" ", Some(f1), Some(f2))
    ensures Validate(" ", Some(f1), Some(f2)) == Some(MSG_TRACKING)
  {
    TrimEmptyIffBlank(" ");
  }

  // ---------------------------------------------------------------------
  // The multipart payload

  /** The five fields every submission starts with. */
  function RequiredFields(name: string, date: string, tracking: string, image1: File, image2: File): seq<Field> {
    [ Field("name", Text(name)), Field("date", Text(date)), Field("trackingNumber", Text(tracking)),
      Field("image1", Blob(image1)), Field("image2", Blob(image2)) ]
  }

  /** One detail's fields: its photo only when it has one, then always its note. */
  function EntryFields(d: Detail): seq<Field> {
    (if d.image.Some? then [Field("detailsImages[]", Blob(d.image.value))] else [])
    + [Field("detailsNotes[]", Text(d.note))]
  }

  /** The fields of all details, in order. */
  function DetailFields(ds: seq<Detail>): seq<Field> {
    if ds == [] then [] else DetailFields(ds[..|ds| - 1]) + EntryFields(ds[|ds| - 1])
  }

  /** The payload `handleSubmit` posts: the five required fields, then the detail fields. */
  function Payload(name: string, date: string, tracking: string, image1: File, image2: File, ds: seq<Detail>): (r: seq<Field>)
    ensures |r| >= 5 && r[..5] == RequiredFields(name, date, tracking, image1, image2)
  {
    RequiredFields(name, date, tracking, image1, image2) + DetailFields(ds)
  }

  /** Every detail's note, as sent. */
  function NoteValues(ds: seq<Detail>): (r: seq<Value>)
    ensures |r| == |ds|
  {
    seq(|ds|, i requires 0 <= i < |ds| => Text(ds[i].note))
  }

  /** The photos of the details that have one, in order. */
  function ImagesOf(ds: seq<Detail>): (r: seq<File>)
    ensures |r| <= |ds|
    ensures |r| == |ds| <==> forall i :: 0 <= i < |ds| ==> ds[i].image.Some?
    ensures (forall i :: 0 <= i < |ds| ==> ds[i].image.Some?) ==>
              forall i :: 0 <= i < |ds| ==> r[i] == ds[i].image.value
  {
    if ds == [] then []
    else
      var init := ImagesOf(ds[..|ds| - 1]);
      var last := ds[|ds| - 1];
      if last.image.Some? then init + [last.image.value] else init
  }

  function Blobs(fs: seq<File>): (r: seq<Value>)
    ensures |r| == |fs|
  {
    seq(|fs|, i requires 0 <= i < |fs| => Blob(fs[i]))
  }

  /** One detail's fields: one note, and a photo exactly when it has one. */
  lemma EntryFieldsCarry(d: Detail)
    ensures GetAll(EntryFields(d), "detailsNotes[]") == [Text(d.note)]
    ensures GetAll(EntryFields(d), "detailsImages[]") == if d.image.Some? then [Blob(d.image.value)] else []
  {
    assert "detailsNotes[]"[7] != "detailsImages[]"[7];
    if d.image.Some? {
      assert EntryFields(d)[1..] == [Field("detailsNotes[]", Text(d.note))];
    }
  }

  /** The payload's detail fields carry one note per detail, in order. */
  lemma {:induction false} DetailNotesCarried(ds: seq<Detail>)
    ensures GetAll(DetailFields(ds), "detailsNotes[]") == NoteValues(ds)
  {
    if ds != [] {
      var init := ds[..|ds| - 1];
      var last := ds[|ds| - 1];
      DetailNotesCarried(init);
      GetAllAppend(DetailFields(init), EntryFields(last), "detailsNotes[]");
      EntryFieldsCarry(last);
      assert NoteValues(ds) == NoteValues(init) + [Text(last.note)];
    }
  }

  /** The payload's detail fields carry one photo per detail that has one, in order. */
  lemma {:induction false} DetailImagesCarried(ds: seq<Detail>)
    ensures GetAll(DetailFields(ds), "detailsImages[]") == Blobs(ImagesOf(ds))
  {
    if ds != [] {
      var init := ds[..|ds| - 1];
      var last := ds[|ds| - 1];
      DetailImagesCarried(init);
      GetAllAppend(DetailFields(init), EntryFields(last), "detailsImages[]");
      EntryFieldsCarry(last);
      if last.image.Some? {
        assert Blobs(ImagesOf(ds)) == Blobs(ImagesOf(init)) + [Blob(last.image.value)];
      }
    }
  }

  /** The seven field names of the payload are distinct. */
  lemma FieldNamesDiffer()
    ensures "name" != "date" && "name" != "trackingNumber" && "date" != "trackingNumber"
    ensures "image1" !in {"name", "date", "trackingNumber"} && "image2" !in {"name", "date", "trackingNumber", "image1"}
    ensures "detailsNotes[]" !in {"name", "date", "trackingNumber", "image1", "image2"}
    ensures "detailsImages[]" !in {"name", "date", "trackingNumber", "image1", "image2"}
  {
    assert "name"[0] != "date"[0] && "name"[0] != "trackingNumber"[0] && "date"[0] != "trackingNumber"[0];
    assert "image1"[0] != "name"[0] && "image1"[0] != "date"[0] && "image1"[0] != "trackingNumber"[0];
    assert "image2"[0] != "name"[0] && "image2"[0] != "date"[0] && "image2"[0] != "trackingNumber"[0];
    assert "image2"[5] != "image1"[5];
    assert "d"[0] !in {"name"[0], "trackingNumber"[0], "image1"[0], "image2"[0]};
    assert "date"[1] != "detailsNotes[]"[1] && "date"[1] != "detailsImages[]"[1];
  }

  /** `get` finds each required field in the five the payload starts with. */
  lemma RequiredFieldsFound(name: string, date: string, tracking: string, image1: File, image2: File)
    ensures var req := RequiredFields(name, date, tracking, image1, image2);
            && Get(req, "name") == Some(Text(name)) && Get(req, "date") == Some(Text(date))
            && Get(req, "trackingNumber") == Some(Text(tracking))
            && Get(req, "image1") == Some(Blob(image1)) && Get(req, "image2") == Some(Blob(image2))
  {
    var req := RequiredFields(name, date, tracking, image1, image2);
    assert Get(req, "name") == Some(Text(name)) by {
      GetAt(req, "name", 0);
    }
    assert Get(req, "date") == Some(Text(date)) by {
      FieldNamesDiffer();
      GetAt(req, "date", 1);
    }
    assert Get(req, "trackingNumber") == Some(Text(tracking)) by {
      FieldNamesDiffer();
      GetAt(req, "trackingNumber", 2);
    }
    assert Get(req, "image1") == Some(Blob(image1)) by {
      FieldNamesDiffer();
      GetAt(req, "image1", 3);
    }
    assert Get(req, "image2") == Some(Blob(image2)) by {
      FieldNamesDiffer();
      GetAt(req, "image2", 4);
    }
  }

  /** The five required fields hold no detail field. */
  lemma RequiredFieldsHoldNoDetails(name: string, date: string, tracking: string, image1: File, image2: File)
    ensures var req := RequiredFields(name, date, tracking, image1, image2);
            GetAll(req, "detailsNotes[]") == [] && GetAll(req, "detailsImages[]") == []
  {
    var req := RequiredFields(name, date, tracking, image1, image2);
    FieldNamesDiffer();
    GetAllAbsent(req, "detailsNotes[]");
    GetAllAbsent(req, "detailsImages[]");
  }


  /**
   * The shape of the payload: the five required fields first, in that
   * order; then as many `detailsNotes[]` fields as there are details, in
   * order, and one `detailsImages[]` field per detail with a photo, in order.
   */
  lemma PayloadShape(name: string, date: string, tracking: string, image1: File, image2: File, ds: seq<Detail>)
    ensures var p := Payload(name, date, tracking, image1, image2, ds);
            && p[..5] == RequiredFields(name, date, tracking, image1, image2)
            && GetAll(p, "detailsNotes[]") == NoteValues(ds)
            && GetAll(p, "detailsImages[]") == Blobs(ImagesOf(ds))
            && Get(p, "name") == Some(Text(name)) && Get(p, "date") == Some(Text(date))
            && Get(p, "trackingNumber") == Some(Text(tracking))
            && Get(p, "image1") == Some(Blob(image1)) && Get(p, "image2") == Some(Blob(image2))
  {
    var req := RequiredFields(name, date, tracking, image1, image2);
    var rest := DetailFields(ds);
    RequiredFieldsFound(name, date, tracking, image1, image2);
    RequiredFieldsHoldNoDetails(name, date, tracking, image1, image2);
    DetailNotesCarried(ds);
    DetailImagesCarried(ds);
    GetAllAppend(req, rest, "detailsNotes[]");
    GetAllAppend(req, rest, "detailsImages[]");
    GetPrefix(req, rest, "name");
    GetPrefix(req, rest, "date");
    GetPrefix(req, rest, "trackingNumber");
    GetPrefix(req, rest, "image1");
    GetPrefix(req, rest, "image2");
  }

  /** One more detail appends its own fields. */
  lemma DetailFieldsStep(ds: seq<Detail>, i: nat)
    requires i < |ds|
    ensures DetailFields(ds[..i + 1]) == DetailFields(ds[..i]) + EntryFields(ds[i])
  {
    assert ds[..i + 1][..i] == ds[..i];
  }

  /** The `details.forEach` loop of `handleSubmit`, appending to a fresh `FormData`. */
  method BuildPayload(name: string, date: string, tracking: string, image1: File, image2: File, ds: seq<Detail>)
    returns (fields: seq<Field>)
    ensures fields == Payload(name, date, tracking, image1, image2, ds)
  {
    fields := [Field("name", Text(name)), Field("date", Text(date)), Field("trackingNumber", Text(tracking))];
    fields := fields + [Field("image1", Blob(image1)), Field("image2", Blob(image2))];
    for i := 0 to |ds|
      invariant fields == RequiredFields(name, date, tracking, image1, image2) + DetailFields(ds[..i])
    {
      DetailFieldsStep(ds, i);
      var d := ds[i];
      if d.image.Some? {
        fields := fields + [Field("detailsImages[]", Blob(d.image.value))];
      }
      fields := fields + [Field("detailsNotes[]", Text(d.note))];
    }
    assert ds[..|ds|] == ds;
  }

  // ---------------------------------------------------------------------
  // The page component

  /** The `Home` component: its state hooks are fields, its handlers methods. */
  class FormPage {
    var operatorConfirmed: bool
    var operatorName: string
    var operatorDate: string
    var trackingNumber: string
    var image1: Option<File>
    var image2: Option<File>
    var isSubmitting: bool
    var submitStatus: SubmitStatus
    var errorMessage: string
    var details: seq<Detail>

    /** The detail list never holds more than five entries. */
    ghost predicate Valid()
      reads this
    {
      |details| <= MAX_DETAILS
    }

    /** The submit button is enabled (`disabled={!isFormValid || isSubmitting}`). */
    function SubmitEnabled(): bool
      reads this
    {
      IsFormValid(trackingNumber, image1, image2) && !isSubmitting
    }

    /** The initial state hooks; `today` is `getToday()`. */
    constructor (today: string)
      ensures Valid()
      ensures !operatorConfirmed && operatorName == "" && operatorDate == today
      ensures trackingNumber == "" && image1.None? && image2.None? && details == []
      ensures !isSubmitting && submitStatus == Idle && errorMessage == ""
    {
      operatorConfirmed := false;
      operatorName := "";
      operatorDate := today;
      trackingNumber := "";
      image1 := None;
      image2 := None;
      isSubmitting := false;
      submitStatus := Idle;
      errorMessage := "";
      details := [];
    }

    /** The mount effect: a saved name or date replaces the current one only when it is not empty. */
    method LoadSavedOperator(store: LocalStorage)
      modifies this`operatorName, this`operatorDate
      ensures var saved := if store.available then Loaded(store.items) else EMPTY;
              && operatorName == (if saved.name != "" then saved.name else old(operatorName))
              && operatorDate == (if saved.date != "" then saved.date else old(operatorDate))
    {
      var saved := LoadOperatorData(store);
      if saved.name != "" {
        operatorName := saved.name;
      }
      if saved.date != "" {
        operatorDate := saved.date;
      }
    }

    /**
     * The first render followed by the mount effect, in the order React runs
     * them: the unconfirmed page renders the modal, whose
     * `useState(initialName)` and `useState(initialDate)` read the page's
     * values at that moment; only then does the effect load the saved
     * identity into the page, too late for the modal.
     */
    method Mount(store: LocalStorage) returns (modal: OperatorModal)
      requires !operatorConfirmed
      modifies this`operatorName, this`operatorDate
      ensures fresh(modal)
      ensures modal.State() == Initial(old(operatorName), old(operatorDate))
      ensures var saved := if store.available then Loaded(store.items) else EMPTY;
              && operatorName == (if saved.name != "" then saved.name else old(operatorName))
              && operatorDate == (if saved.date != "" then saved.date else old(operatorDate))
    {
      modal := new OperatorModal(operatorName, operatorDate);
      LoadSavedOperator(store);
    }

    /**
     * The mount as intended: the saved identity is loaded before the modal
     * reads its initial name, so a saved name pre-fills the modal.
     */
    method MountPrefilled(store: LocalStorage) returns (modal: OperatorModal)
      requires !operatorConfirmed
      modifies this`operatorName, this`operatorDate
      ensures fresh(modal)
      ensures modal.State() == Initial(operatorName, operatorDate)
      ensures store.available && Loaded(store.items).name != "" ==> modal.name == Loaded(store.items).name
    {
      LoadSavedOperator(store);
      modal := new OperatorModal(operatorName, operatorDate);
    }

    /** `handleOperatorConfirm`: adopts the identity, saves it, and unlocks the form. */
    method HandleOperatorConfirm(name: string, date: string, store: LocalStorage)
      modifies this`operatorName, this`operatorDate, this`operatorConfirmed, store`items
      ensures operatorName == name && operatorDate == date && operatorConfirmed
      ensures store.items == if store.available then Saved(old(store.items), StoredData(name, date)) else old(store.items)
    {
      operatorName := name;
      operatorDate := date;
      SaveOperatorData(store, StoredData(name, date));
      operatorConfirmed := true;
    }

    /**
     * One event delivered to the operator modal, which the page renders
     * only while the operator is unconfirmed; its `onConfirm` is
     * `handleOperatorConfirm`.
     */
    method DeliverToModal(modal: OperatorModal, e: UiEvent, store: LocalStorage)
      requires !operatorConfirmed
      modifies this`operatorName, this`operatorDate, this`operatorConfirmed, modal, store`items
      ensures modal.State() == Step(old(modal.State()), e).gate
      ensures operatorConfirmed <==> Step(old(modal.State()), e).confirmed.Some?
      ensures operatorConfirmed ==> operatorName == Trim(old(modal.name)) && operatorDate == modal.date
      ensures operatorConfirmed && store.available ==> Loaded(store.items) == StoredData(operatorName, operatorDate)
      ensures !operatorConfirmed ==> operatorName == old(operatorName) && operatorDate == old(operatorDate)
                                     && store.items == old(store.items)
    {
      var called := modal.Deliver(e);
      if called.Some? {
        HandleOperatorConfirm(called.value.name, called.value.date, store);
        LoadAfterSave(old(store.items), StoredData(called.value.name, called.value.date));
      }
    }

    method HandleInputChange(value: string)
      modifies this`trackingNumber
      ensures trackingNumber == value
    {
      trackingNumber := value;
    }

    /** A capture into a primary slot fills that slot only. */
    method HandleImageCapture(slot: ImageSlot, file: File)
      modifies this`image1, this`image2
      ensures image1 == if slot == Slot1 then Some(file) else old(image1)
      ensures image2 == if slot == Slot2 then Some(file) else old(image2)
    {
      if slot == Slot1 {
        image1 := Some(file);
      } else {
        image2 := Some(file);
      }
    }

    /** Removing a primary photo empties that slot only. */
    method HandleImageRemove(slot: ImageSlot)
      modifies this`image1, this`image2
      ensures image1 == if slot == Slot1 then None else old(image1)
      ensures image2 == if slot == Slot2 then None else old(image2)
    {
      if slot == Slot1 {
        image1 := None;
      } else {
        image2 := None;
      }
    }

    method HandleAddDetail()
      requires Valid()
      modifies this`details
      ensures Valid()
      ensures details == AddDetail(old(details))
    {
      if |details| < MAX_DETAILS {
        details := details + [Detail(None, "")];
      }
    }

    method HandleDetailImage(idx: int, file: File)
      requires Valid()
      modifies this`details
      ensures Valid()
      ensures details == WithDetailImage(old(details), idx, Some(file))
    {
      details := WithDetailImage(details, idx, Some(file));
    }

    method HandleDetailRemoveImage(idx: int)
      requires Valid()
      modifies this`details
      ensures Valid()
      ensures details == WithDetailImage(old(details), idx, None)
    {
      details := WithDetailImage(details, idx, None);
    }

    method HandleDetailNote(idx: int, note: string)
      requires Valid()
      modifies this`details
      ensures Valid()
      ensures details == WithDetailNote(old(details), idx, note)
    {
      details := WithDetailNote(details, idx, note);
    }

    /** `validateForm`: reports the first failing check in `errorMessage`. */
    method ValidateForm() returns (ok: bool)
      modifies this`errorMessage
      ensures ok <==> Validate(trackingNumber, image1, image2).None?
      ensures !ok ==> errorMessage == Validate(trackingNumber, image1, image2).value
      ensures ok ==> errorMessage == old(errorMessage)
    {
      if Trim(trackingNumber) == "" {
        errorMessage := MSG_TRACKING;
        return false;
      }
      if image1.None? {
        errorMessage := MSG_FRONT;
        return false;
      }
      if image2.None? {
        errorMessage := MSG_BACK;
        return false;
      }
      return true;
    }

    /**
     * The `try` block of `handleSubmit`, reached once the form validated:
     * builds and posts the payload, then either resets the form (keeping the
     * operator) or keeps it for a retry. `fetchOk` is whether the POST
     * answered with an OK status; the result is the payload sent.
     */
    method Send(fetchOk: bool) returns (sent: seq<Field>)
      requires Valid() && image1.Some? && image2.Some?
      modifies this`isSubmitting, this`submitStatus, this`errorMessage,
               this`trackingNumber, this`image1, this`image2, this`details
      ensures Valid() && !isSubmitting
      ensures sent == Payload(operatorName, operatorDate, old(trackingNumber),
                              old(image1).value, old(image2).value, old(details))
      ensures fetchOk ==>
                && submitStatus == Succeeded && errorMessage == ""
                && trackingNumber == "" && image1.None? && image2.None? && details == []
                && !SubmitEnabled()
      ensures !fetchOk ==>
                && submitStatus == Failed && errorMessage == MSG_SUBMIT_FAILED
                && trackingNumber == old(trackingNumber) && image1 == old(image1)
                && image2 == old(image2) && details == old(details)
                && SubmitEnabled() == IsFormValid(old(trackingNumber), old(image1), old(image2))
    {
      isSubmitting := true;
      submitStatus := Idle;
      errorMessage := "";
      sent := BuildPayload(operatorName, operatorDate, trackingNumber, image1.value, image2.value, details);
      if fetchOk {
        submitStatus := Succeeded;
        trackingNumber := "";
        image1 := None;
        image2 := None;
        details := [];
      } else {
        submitStatus := Failed;
        errorMessage := MSG_SUBMIT_FAILED;
      }
      isSubmitting := false;
    }

    /**
     * `handleSubmit`: validation first; a form that fails it is not sent and
     * nothing but the error message changes. The result is the payload sent,
     * `None` when validation stopped the submission.
     */
    method HandleSubmit(fetchOk: bool) returns (sent: Option<seq<Field>>)
      requires Valid()
      modifies this`isSubmitting, this`submitStatus, this`errorMessage,
               this`trackingNumber, this`image1, this`image2, this`details
      ensures Valid()
      ensures var verdict := Validate(old(trackingNumber), old(image1), old(image2));
              verdict.Some? ==>
                && sent.None? && errorMessage == verdict.value
                && isSubmitting == old(isSubmitting) && submitStatus == old(submitStatus)
                && trackingNumber == old(trackingNumber) && image1 == old(image1)
                && image2 == old(image2) && details == old(details)
      ensures Validate(old(trackingNumber), old(image1), old(image2)).None? ==>
                && sent == Some(Payload(operatorName, operatorDate, old(trackingNumber),
                                        old(image1).value, old(image2).value, old(details)))
                && !isSubmitting
                && (fetchOk ==>
                      && submitStatus == Succeeded && errorMessage == ""
                      && trackingNumber == "" && image1.None? && image2.None? && details == []
                      && !SubmitEnabled())
                && (!fetchOk ==>
                      && submitStatus == Failed && errorMessage == MSG_SUBMIT_FAILED
                      && trackingNumber == old(trackingNumber) && image1 == old(image1)
                      && image2 == old(image2) && details == old(details)
                      && SubmitEnabled())
    {
      var ok := ValidateForm();
      if !ok {
        return None;
      }
      var fields := Send(fetchOk);
      sent := Some(fields);
    }
  }

  /**
   * On a fresh page, the mount as written leaves the modal's name empty even
   * though the store holds a saved name, which the page itself does adopt.
   */
  method SavedNameNeverPrefills(today: string, store: LocalStorage) returns (page: FormPage, modal: OperatorModal)
    requires store.available && Loaded(store.items).name != ""
    ensures page.operatorName == Loaded(store.items).name
    ensures modal.name == "" && modal.name != page.operatorName
  {
    page := new FormPage(today);
    modal := page.Mount(store);
  }

  /** With the intended order the same store pre-fills the modal with the saved name. */
  method SavedNamePrefillsWhenLoadedFirst(today: string, store: LocalStorage) returns (page: FormPage, modal: OperatorModal)
    requires store.available && Loaded(store.items).name != ""
    ensures modal.name == page.operatorName == Loaded(store.items).name
  {
    page := new FormPage(today);
    modal := page.MountPrefilled(store);
  }
}
