/** The nomination form's state and its submit handler: validate, build the record, write it once,
    then either reset the form or keep it with a retry message. */
module Submission {
  import opened Strings
  import opened Numerals
  import opened Domain
  import opened Validation

  /** What the one write attempt of a submit runs into: the SDK global is missing, the write
      throws, or the write completes. */
  datatype StoreOutcome = SdkMissing | WriteFails | WriteSucceeds

  const SdkMissingMessage: string := "Firebase SDK not loaded. Cannot submit."
  const RetryMessage: string := "Failed to register. Please try again."

  /** The record written for a validated form: the name and number trimmed, the upper-cased flat
      number split at its hyphen into the wing and the rest. */
  function MakeNomination(userId: string, form: Form, now: int): (r: Nomination)
    requires IsFlatNo(Upper(form.flatNo))
    ensures r.wing + "-" + r.flatNo == Upper(form.flatNo)
    ensures |r.wing| == 1 && IsWing(r.wing[0]) && IsFloorAndFlat(r.flatNo)
    ensures r.fullName == Trim(form.fullName) && r.whatsappNo == Trim(form.whatsappNo)
    ensures r.userId == userId && r.selectedDate == form.selectedDate && r.selectedSlot == form.selectedSlot
    ensures r.bringOwnThali == form.bringOwnThali && r.timestamp == now
  {
    var u := Upper(form.flatNo);
    SplitOnce(u, '-', 1);
    var parts := Split(u, '-');
    assert u == parts[0] + "-" + parts[1];
    Nomination(userId, Trim(form.fullName), parts[1], parts[0], Trim(form.whatsappNo),
               form.selectedDate, form.selectedSlot, form.bringOwnThali, now)
  }

  /** What every record this form writes satisfies. A date the parser rejects is let through by
      the validation, so a stored date is only known to be in the window when it is a day. */
  predicate WellFormed(r: Nomination, w: Window) {
    r.fullName != [] && Trim(r.fullName) == r.fullName
    && |r.wing| == 1 && IsWing(r.wing[0]) && IsFloorAndFlat(r.flatNo)
    && IsWhatsappNo(r.whatsappNo)
    && r.selectedDate != NoDate && (r.selectedDate.Day? ==> w.first <= r.selectedDate.day <= w.last)
    && r.selectedSlot != []
  }

  /** A record built from a valid form is well formed and stores the WhatsApp number exactly as
      typed. */
  lemma ValidFormGivesWellFormedRecord(userId: string, form: Form, w: Window, now: int)
    requires FormValid(form, w)
    ensures WellFormed(MakeNomination(userId, form, now), w)
    ensures MakeNomination(userId, form, now).whatsappNo == form.whatsappNo
  {
    var r := MakeNomination(userId, form, now);
    assert r.fullName != [] && Trim(r.fullName) == r.fullName by {
      TrimEmptyIff(form.fullName);
      TrimIdempotent(form.fullName);
    }
    assert r.whatsappNo == form.whatsappNo by {
      WhatsappHasNoSpace(form.whatsappNo);
      TrimNoSpace(form.whatsappNo);
    }
  }

  /** The wing and the floor-and-flat part of a stored record name an existing flat. */
  lemma RecordNamesExistingFlat(userId: string, form: Form, now: int)
    requires IsFlatNo(Upper(form.flatNo))
    ensures var r := MakeNomination(userId, form, now);
            exists floor, flat :: 1 <= floor <= 13 && 1 <= flat <= 4
                                && r.wing + "-" + r.flatNo == FlatLabel(r.wing[0], floor, flat)
  {
    var r := MakeNomination(userId, form, now);
    var u := Upper(form.flatNo);
    MatchIsFlatLabel(u);
    assert u[0] == r.wing[0];
    var floor, flat := FloorOf(u), FlatOf(u);
    assert r.wing + "-" + r.flatNo == FlatLabel(r.wing[0], floor, flat);
  }

  lemma WhatsappHasNoSpace(s: string)
    requires IsWhatsappNo(s)
    ensures NoSpace(s)
  {
    forall i | 0 <= i < |s| ensures !IsJsSpace(s[i]) {
      assert IsDigit(s[i]);
    }
  }

  /** The map's entry for `f` is the message `e` carries, if any. */
  predicate Agrees(m: map<Field, string>, f: Field, e: Option<string>) {
    (f in m <==> e.Some?) && (f in m ==> m[f] == e.value)
  }

  /** Records the message of a failing rule under its field, leaving the other entries alone. */
  method AddError(m: map<Field, string>, f: Field, e: Option<string>) returns (r: map<Field, string>)
    requires f !in m
    ensures Agrees(r, f, e)
    ensures forall g :: g != f ==> (g in r <==> g in m) && (g in m ==> r[g] == m[g])
  {
    r := m;
    if e.Some? {
      r := m[f := e.value];
    }
  }

  /** A map that agrees with every field's rule is the error map. */
  lemma ErrorMapFromEntries(m: map<Field, string>, form: Form, w: Window)
    requires Agrees(m, FullName, NameError(form.fullName))
    requires Agrees(m, FlatNo, FlatNoError(form.flatNo))
    requires Agrees(m, WhatsappNo, WhatsappNoError(form.whatsappNo))
    requires Agrees(m, SelectedDate, DateError(form.selectedDate, w))
    requires Agrees(m, SelectedSlot, SlotError(form.selectedSlot))
    ensures m == FormErrors(form, w)
  {
    var e := FormErrors(form, w);
    forall f ensures (f in m <==> f in e) && (f in m ==> m[f] == e[f]) {
      FormErrorsEntries(form, w, f);
      match f
      case FullName =>
      case FlatNo =>
      case WhatsappNo =>
      case SelectedDate =>
      case SelectedSlot =>
    }
    assert m.Keys == e.Keys;
  }

  class NominationForm {
    const window: Window
    const userId: string

    var fullName: string
    var flatNo: string
    var whatsappNo: string
    var selectedDate: DateValue
    var selectedSlot: string
    var bringOwnThali: bool
    var errors: map<Field, string>
    var loading: bool
    var success: bool
    var registrationData: seq<Nomination>
    var submitError: string

    /** The current input values. */
    function Input(): Form
      reads this`fullName, this`flatNo, this`whatsappNo, this`selectedDate, this`selectedSlot,
            this`bringOwnThali
    {
      Form(fullName, flatNo, whatsappNo, selectedDate, selectedSlot, bringOwnThali)
    }

    /** The empty form of a signed-in user. */
    constructor (window: Window, userId: string)
      ensures this.window == window && this.userId == userId
      ensures Input() == Form("", "", "", NoDate, "", false)
      ensures errors == map[] && !loading && !success && registrationData == [] && submitError == ""
    {
      this.window := window;
      this.userId := userId;
      fullName, flatNo, whatsappNo := "", "", "";
      selectedDate, selectedSlot, bringOwnThali := NoDate, "", false;
      errors := map[];
      loading, success := false, false;
      registrationData := [];
      submitError := "";
    }

    /** A snapshot of the collection arrives: the records are replaced wholesale. */
    method ReceiveSnapshot(records: seq<Nomination>)
      modifies this`registrationData
      ensures registrationData == records
    {
      registrationData := records;
    }

    /** `validateForm`: fill a fresh error map field by field, store it, and report whether it
        stayed empty. */
    method ValidateForm() returns (ok: bool)
      modifies this`errors
      ensures errors == FormErrors(Input(), window)
      ensures ok <==> FormValid(Input(), window)
    {
      var form, w := Input(), window;
      var newErrors: map<Field, string> := map[];
      newErrors := AddError(newErrors, FullName, NameError(form.fullName));
      newErrors := AddError(newErrors, FlatNo, FlatNoError(form.flatNo));
      newErrors := AddError(newErrors, WhatsappNo, WhatsappNoError(form.whatsappNo));
      newErrors := AddError(newErrors, SelectedDate, DateError(form.selectedDate, w));
      newErrors := AddError(newErrors, SelectedSlot, SlotError(form.selectedSlot));
      ErrorMapFromEntries(newErrors, form, w);
      errors := newErrors;
      ok := |newErrors| == 0;
      NoKeysIffValid(form, w);
    }

    /** `handleSubmit` as one atomic step. Returns the record handed to the store, if the write
        was attempted; the store's answer is `store`, the clock's reading `now`. */
    method HandleSubmit(store: StoreOutcome, now: int) returns (attempt: Option<Nomination>)
      modifies this
      ensures registrationData == old(registrationData)
      // An invalid form: the errors are shown and nothing else happens.
      ensures !FormValid(old(Input()), window) ==>
                attempt == None && errors == FormErrors(old(Input()), window) && errors != map[]
                && Input() == old(Input()) && loading == old(loading) && success == old(success)
                && submitError == ""
      // A valid form: exactly one write is attempted unless the SDK is missing.
      ensures FormValid(old(Input()), window) ==>
                !loading
                && (attempt.Some? <==> store != SdkMissing)
                && (attempt.Some? ==> (attempt.value == MakeNomination(userId, old(Input()), now)
                                       && WellFormed(attempt.value, window)))
      // The write succeeded: the form is reset.
      ensures FormValid(old(Input()), window) && store == WriteSucceeds ==>
                success && Input() == Form("", "", "", NoDate, "", false)
                && errors == map[] && submitError == ""
      // The write was not made or failed: the inputs are kept for another try.
      ensures FormValid(old(Input()), window) && store != WriteSucceeds ==>
                Input() == old(Input()) && success == old(success) && errors == map[]
                && submitError == (if store == SdkMissing then SdkMissingMessage else RetryMessage)
    {
      var form := Input();
      submitError := "";
      var valid := ValidateForm();
      NoErrorsIffValid(form, window);
      if !valid {
        return None;
      }
      var record := MakeNomination(userId, form, now);
      ValidFormGivesWellFormedRecord(userId, form, window, now);
      attempt := Store(store, record);
    }

    /** The `try`/`finally` part of `handleSubmit`, entered with a validated form, a cleared error
        map and no message: mark the form busy, write `record` unless the SDK is missing, reset the
        form after a successful write or keep it with a message otherwise, and mark it idle again. */
    method Store(store: StoreOutcome, record: Nomination) returns (attempt: Option<Nomination>)
      requires errors == map[] && submitError == ""
      modifies this
      ensures registrationData == old(registrationData) && !loading && errors == map[]
      ensures attempt == (if store == SdkMissing then None else Some(record))
      ensures store == WriteSucceeds ==>
                success && Input() == Form("", "", "", NoDate, "", false) && submitError == ""
      ensures store != WriteSucceeds ==>
                Input() == old(Input()) && success == old(success)
                && submitError == (if store == SdkMissing then SdkMissingMessage else RetryMessage)
    {
      loading := true;
      if store == SdkMissing {
        submitError := SdkMissingMessage;
        loading := false;
        return None;
      }
      attempt := Some(record);
      if store == WriteSucceeds {
        success := true;
        fullName, flatNo, whatsappNo := "", "", "";
        selectedDate, selectedSlot, bringOwnThali := NoDate, "", false;
        errors := map[];
      } else {
        submitError := RetryMessage;
      }
      loading := false;
    }
  }
}
