/** The field rules of the nomination form and the error map `validateForm` produces. */
module Validation {
  import opened Strings
  import opened Numerals
  import opened Domain

  /** The keys of the error map, one per validated input. */
  datatype Field = FullName | FlatNo | WhatsappNo | SelectedDate | SelectedSlot

  const AllFields: set<Field> := {FullName, FlatNo, WhatsappNo, SelectedDate, SelectedSlot}

  /** The current values of the form's inputs. */
  datatype Form = Form(
    fullName: string,
    flatNo: string,
    whatsappNo: string,
    selectedDate: DateValue,
    selectedSlot: string,
    bringOwnThali: bool)

  const NameRequired: string := "Full Name is required."
  const FlatRequired: string := "Flat No. is required."
  const FlatInvalid: string := "Invalid Flat No. (e.g., A-101, B-902, F-1002, F-1304)."
  const WhatsappRequired: string := "WhatsApp Number is required."
  const WhatsappInvalid: string := "Invalid WhatsApp Number (10 digits, starts with 6-9)."
  const DateRequired: string := "Date is required."
  const SlotRequired: string := "Please select a slot."

  function RangeMessage(w: Window): string {
    "Date must be between " + w.firstLabel + " and " + w.lastLabel + "."
  }

  // ---------------------------------------------------------------------------------------------
  // The flat-number pattern ^[A-F]-((10[1-4])|([2-9]0[1-4])|(1[0-3]0[1-4]))$

  predicate IsWing(c: char) {
    'A' <= c <= 'F'
  }

  predicate IsFlatDigit(c: char) {
    '1' <= c <= '4'
  }

  /** The part after the hyphen: floor 1, floors 2 to 9, or floors 10 to 13, then `0` and flat 1 to 4. */
  predicate IsFloorAndFlat(t: string) {
    (|t| == 3 && t[0] == '1' && t[1] == '0' && IsFlatDigit(t[2]))
    || (|t| == 3 && '2' <= t[0] <= '9' && t[1] == '0' && IsFlatDigit(t[2]))
    || (|t| == 4 && t[0] == '1' && '0' <= t[1] <= '3' && t[2] == '0' && IsFlatDigit(t[3]))
  }

  predicate IsFlatNo(s: string) {
    |s| >= 2 && IsWing(s[0]) && s[1] == '-' && IsFloorAndFlat(s[2..])
  }

  /** The label of flat `flat` on floor `floor` of wing `wing`, as the society writes it: `B-902`. */
  function FlatLabel(wing: char, floor: nat, flat: nat): string
    requires 1 <= flat <= 4
  {
    [wing, '-'] + Numeral(floor) + ['0', DigitChar(flat)]
  }

  /** The floor a flat number names. */
  function FloorOf(s: string): nat
    requires IsFlatNo(s)
  {
    if |s| == 5 then DigitValue(s[2]) else 10 + DigitValue(s[3])
  }

  /** The flat on its floor that a flat number names. */
  function FlatOf(s: string): nat
    requires IsFlatNo(s)
  {
    DigitValue(s[|s| - 1])
  }

  /** Every label of an existing flat (wings A to F, floors 1 to 13, flats 1 to 4) matches the
      pattern, and reads back as the same wing, floor and flat. */
  lemma FlatLabelMatches(wing: char, floor: nat, flat: nat)
    requires IsWing(wing) && 1 <= floor <= 13 && 1 <= flat <= 4
    ensures IsFlatNo(FlatLabel(wing, floor, flat))
    ensures var s := FlatLabel(wing, floor, flat); s[0] == wing && FloorOf(s) == floor && FlatOf(s) == flat
  {
    if floor >= 10 {
      assert Numeral(floor) == Numeral(1) + [DigitChar(floor - 10)];
    }
  }

  /** Every string the pattern accepts is the label of an existing flat. */
  lemma MatchIsFlatLabel(s: string)
    requires IsFlatNo(s)
    ensures IsWing(s[0]) && 1 <= FloorOf(s) <= 13 && 1 <= FlatOf(s) <= 4
    ensures s == FlatLabel(s[0], FloorOf(s), FlatOf(s))
  {
    var floor := FloorOf(s);
    if |s| == 5 {
      assert Numeral(floor) == [s[2]];
    } else {
      assert Numeral(floor) == Numeral(1) + [DigitChar(floor - 10)];
      assert Numeral(floor) == s[2..4];
    }
  }

  // ---------------------------------------------------------------------------------------------
  // The WhatsApp pattern ^[6-9]\d{9}$

  predicate IsWhatsappNo(s: string) {
    |s| == 10 && '6' <= s[0] <= '9' && AllDigits(s)
  }

  lemma TenDigitPowers()
    ensures Pow10(9) == 1000000000 && Pow10(10) == 10000000000
  {
    assert Pow10(3) == 1000;
    assert Pow10(6) == 1000 * Pow10(3);
    assert Pow10(9) == 1000 * Pow10(6);
  }

  /** Every number the pattern accepts is the numeral of a number from 6000000000 to 9999999999. */
  lemma WhatsappIsNumeral(s: string)
    requires IsWhatsappNo(s)
    ensures 6000000000 <= ValueOf(s) <= 9999999999 && Numeral(ValueOf(s)) == s
  {
    ValueBounds(s);
    TenDigitPowers();
    NumeralOfValue(s);
  }

  /** The numeral of every number from 6000000000 to 9999999999 matches the pattern. */
  lemma NumeralIsWhatsapp(n: nat)
    requires 6000000000 <= n <= 9999999999
    ensures IsWhatsappNo(Numeral(n))
  {
    var s := Numeral(n);
    TenDigitPowers();
    NumeralLength(n, 9);
    ValueOfNumeral(n);
    ValueBounds(s);
  }

  // ---------------------------------------------------------------------------------------------
  // Field rules, each looking at its own input only

  function NameError(fullName: string): Option<string> {
    if Trim(fullName) == [] then Some(NameRequired) else None
  }

  /** The required check trims; the pattern is tried on the upper-cased, untrimmed input. */
  function FlatNoError(flatNo: string): Option<string> {
    if Trim(flatNo) == [] then Some(FlatRequired)
    else if !IsFlatNo(Upper(flatNo)) then Some(FlatInvalid)
    else None
  }

  /** The required check trims; the pattern is tried on the input as typed. */
  function WhatsappNoError(whatsappNo: string): Option<string> {
    if Trim(whatsappNo) == [] then Some(WhatsappRequired)
    else if !IsWhatsappNo(whatsappNo) then Some(WhatsappInvalid)
    else None
  }

  /** A day before the window or after it is out of range. Text that does not parse becomes an
      invalid date, and both comparisons with an invalid date are false: it passes. */
  function DateError(d: DateValue, w: Window): Option<string> {
    match d
    case NoDate => Some(DateRequired)
    case Day(n) => if n < w.first || n > w.last then Some(RangeMessage(w)) else None
    case Other(_) => None
  }

  function SlotError(slot: string): Option<string> {
    if slot == [] then Some(SlotRequired) else None
  }

  function FieldError(form: Form, w: Window, f: Field): Option<string> {
    match f
    case FullName => NameError(form.fullName)
    case FlatNo => FlatNoError(form.flatNo)
    case WhatsappNo => WhatsappNoError(form.whatsappNo)
    case SelectedDate => DateError(form.selectedDate, w)
    case SelectedSlot => SlotError(form.selectedSlot)
  }

  /** The error map: an entry for exactly the fields whose rule fails. */
  function FormErrors(form: Form, w: Window): map<Field, string> {
    map f | f in AllFields && FieldError(form, w, f).Some? :: FieldError(form, w, f).value
  }

  predicate DateAccepted(d: DateValue, w: Window) {
    match d
    case NoDate => false
    case Day(n) => w.first <= n <= w.last
    case Other(_) => true
  }

  /** The conditions under which the form can be submitted, stated directly on the inputs. */
  predicate FormValid(form: Form, w: Window) {
    !AllSpace(form.fullName)
    && IsFlatNo(Upper(form.flatNo))
    && IsWhatsappNo(form.whatsappNo)
    && DateAccepted(form.selectedDate, w)
    && form.selectedSlot != []
  }

  // ---------------------------------------------------------------------------------------------
  // Properties of the rules

  /** The name is accepted exactly when it is not all white space; otherwise it is required. */
  lemma NameRule(fullName: string)
    ensures NameError(fullName) == None <==> !AllSpace(fullName)
    ensures NameError(fullName) != None ==> NameError(fullName) == Some(NameRequired)
  {
    TrimEmptyIff(fullName);
  }

  /** A flat number is accepted exactly when its upper-cased form matches the pattern: the
      pattern alone already rules out blank input. */
  lemma FlatNoRule(flatNo: string)
    ensures FlatNoError(flatNo) == None <==> IsFlatNo(Upper(flatNo))
  {
    TrimEmptyIff(flatNo);
    if IsFlatNo(Upper(flatNo)) {
      assert !IsJsSpace(flatNo[0]);
    }
  }

  /** So the accepted flat numbers are, up to case, the labels of the 6 * 13 * 4 existing flats. */
  lemma FlatNoAcceptsLabels(flatNo: string)
    ensures FlatNoError(flatNo) == None <==>
              exists wing, floor, flat :: IsWing(wing) && 1 <= floor <= 13 && 1 <= flat <= 4
                                         && Upper(flatNo) == FlatLabel(wing, floor, flat)
  {
    FlatNoRule(flatNo);
    var u := Upper(flatNo);
    if IsFlatNo(u) {
      MatchIsFlatLabel(u);
    }
    if exists wing, floor, flat :: IsWing(wing) && 1 <= floor <= 13 && 1 <= flat <= 4
                                 && u == FlatLabel(wing, floor, flat) {
      var wing, floor, flat :| IsWing(wing) && 1 <= floor <= 13 && 1 <= flat <= 4
                           && u == FlatLabel(wing, floor, flat);
      FlatLabelMatches(wing, floor, flat);
    }
  }

  /** A WhatsApp number is accepted exactly when it matches the pattern as typed. */
  lemma WhatsappNoRule(whatsappNo: string)
    ensures WhatsappNoError(whatsappNo) == None <==> IsWhatsappNo(whatsappNo)
  {
    TrimEmptyIff(whatsappNo);
    if IsWhatsappNo(whatsappNo) {
      assert IsDigit(whatsappNo[0]);
    }
  }

  /** Blank input gets the "required" message and never the format message, and the "required"
      message is given for blank input only. */
  lemma RequiredBeforeFormat(s: string)
    ensures FlatNoError(s) == Some(FlatRequired) <==> AllSpace(s)
    ensures WhatsappNoError(s) == Some(WhatsappRequired) <==> AllSpace(s)
    ensures AllSpace(s) ==> FlatNoError(s) != Some(FlatInvalid) && WhatsappNoError(s) != Some(WhatsappInvalid)
  {
    TrimEmptyIff(s);
  }

  /** White space anywhere, leading and trailing included, makes both patterns fail: only the
      required check trims. */
  lemma SpacesAreRejected(s: string, i: nat)
    requires i < |s| && IsJsSpace(s[i])
    ensures FlatNoError(s).Some? && WhatsappNoError(s).Some?
  {
    var u := Upper(s);
    assert u[i] == s[i];
    if IsFlatNo(u) {
      assert false;
    }
  }

  /** The date rule: blank is required, a day is accepted exactly within the window, both ends
      included, and unparseable text passes. */
  lemma DateRule(d: DateValue, w: Window)
    ensures DateError(d, w) == None <==> DateAccepted(d, w)
    ensures d == NoDate ==> DateError(d, w) == Some(DateRequired)
    ensures d.Day? && w.first <= w.last && (d.day == w.first || d.day == w.last) ==> DateError(d, w) == None
  {
  }

  /** The error map has an entry for a field exactly when that field's own rule fails, with that
      rule's message. */
  lemma FormErrorsEntries(form: Form, w: Window, f: Field)
    ensures f in FormErrors(form, w) <==> FieldError(form, w, f).Some?
    ensures f in FormErrors(form, w) ==> FormErrors(form, w)[f] == FieldError(form, w, f).value
  {
  }

  predicate SameEntry(m1: map<Field, string>, m2: map<Field, string>, f: Field) {
    (f in m1 <==> f in m2) && (f in m1 ==> m1[f] == m2[f])
  }

  /** Each field's entry depends on that field's input alone. */
  lemma EntriesAreIndependent(a: Form, b: Form, w: Window)
    ensures a.fullName == b.fullName ==> SameEntry(FormErrors(a, w), FormErrors(b, w), FullName)
    ensures a.flatNo == b.flatNo ==> SameEntry(FormErrors(a, w), FormErrors(b, w), FlatNo)
    ensures a.whatsappNo == b.whatsappNo ==> SameEntry(FormErrors(a, w), FormErrors(b, w), WhatsappNo)
    ensures a.selectedDate == b.selectedDate ==> SameEntry(FormErrors(a, w), FormErrors(b, w), SelectedDate)
    ensures a.selectedSlot == b.selectedSlot ==> SameEntry(FormErrors(a, w), FormErrors(b, w), SelectedSlot)
  {
  }

  /** No field's rule fails. */
  predicate NoFieldFails(form: Form, w: Window) {
    NameError(form.fullName).None? && FlatNoError(form.flatNo).None?
    && WhatsappNoError(form.whatsappNo).None? && DateError(form.selectedDate, w).None?
    && SlotError(form.selectedSlot).None?
  }

  /** The error map is empty exactly when no field's rule fails. */
  lemma NoErrorsIffNoFieldFails(form: Form, w: Window)
    ensures FormErrors(form, w) == map[] <==> NoFieldFails(form, w)
  {
    var m := FormErrors(form, w);
    if m == map[] {
      assert FullName !in m && FlatNo !in m && WhatsappNo !in m && SelectedDate !in m && SelectedSlot !in m;
    } else {
      var f :| f in m;
      assert FieldError(form, w, f).Some?;
      match f
      case FullName =>
      case FlatNo =>
      case WhatsappNo =>
      case SelectedDate =>
      case SelectedSlot =>
    }
  }

  /** The form validates (the error map is empty) exactly when every input meets its rule. */
  lemma NoErrorsIffValid(form: Form, w: Window)
    ensures FormErrors(form, w) == map[] <==> FormValid(form, w)
  {
    NoErrorsIffNoFieldFails(form, w);
    assert NoFieldFails(form, w) <==> FormValid(form, w) by {
      NameRule(form.fullName);
      FlatNoRule(form.flatNo);
      WhatsappNoRule(form.whatsappNo);
      DateRule(form.selectedDate, w);
    }
  }

  /** `Object.keys(newErrors).length === 0` holds exactly when the form is valid. */
  lemma NoKeysIffValid(form: Form, w: Window)
    ensures |FormErrors(form, w)| == 0 <==> FormValid(form, w)
  {
    NoErrorsIffValid(form, w);
    var m := FormErrors(form, w);
    if m != map[] {
      var f :| f in m;
      assert f in m.Keys;
    }
  }

  /** Input that is not blank but does not match gets the format message. */
  lemma FlatNoFormat(flatNo: string)
    requires !AllSpace(flatNo) && !IsFlatNo(Upper(flatNo))
    ensures FlatNoError(flatNo) == Some(FlatInvalid)
  {
    TrimEmptyIff(flatNo);
  }

  lemma WhatsappNoFormat(whatsappNo: string)
    requires !AllSpace(whatsappNo) && !IsWhatsappNo(whatsappNo)
    ensures WhatsappNoError(whatsappNo) == Some(WhatsappInvalid)
  {
    TrimEmptyIff(whatsappNo);
  }

  /** The examples the form's hint and the society's numbering give. */
  lemma FlatNoAcceptedExamples()
    ensures FlatNoError("A-101") == None && FlatNoError("B-902") == None && FlatNoError("b-902") == None
    ensures FlatNoError("F-1002") == None && FlatNoError("F-1304") == None
  {
    assert IsFlatNo(Upper("A-101")) by { assert Upper("A-101") == "A-101"; }
    assert IsFlatNo(Upper("B-902")) by { assert Upper("B-902") == "B-902"; }
    assert IsFlatNo(Upper("b-902")) by { assert Upper("b-902") == "B-902"; }
    assert IsFlatNo(Upper("F-1002")) by { assert Upper("F-1002") == "F-1002"; }
    assert IsFlatNo(Upper("F-1304")) by { assert Upper("F-1304") == "F-1304"; }
    FlatNoRule("A-101");
    FlatNoRule("B-902");
    FlatNoRule("b-902");
    FlatNoRule("F-1002");
    FlatNoRule("F-1304");
  }

  /** Flat 00, and floors 13 and 14 with a fifth flat or past the top, are not flats. */
  lemma FlatNoOutOfRangeExamples()
    ensures FlatNoError("A-100") == Some(FlatInvalid) && FlatNoError("A-1305") == Some(FlatInvalid)
    ensures FlatNoError("A-1401") == Some(FlatInvalid)
  {
    assert !IsFlatNo(Upper("A-100")) by { assert Upper("A-100") == "A-100"; }
    assert !IsFlatNo(Upper("A-1305")) by { assert Upper("A-1305") == "A-1305"; }
    assert !IsFlatNo(Upper("A-1401")) by { assert Upper("A-1401") == "A-1401"; }
    assert !AllSpace("A-100") by { assert !IsJsSpace("A-100"[0]); }
    assert !AllSpace("A-1305") by { assert !IsJsSpace("A-1305"[0]); }
    assert !AllSpace("A-1401") by { assert !IsJsSpace("A-1401"[0]); }
    FlatNoFormat("A-100");
    FlatNoFormat("A-1305");
    FlatNoFormat("A-1401");
  }

  /** Wing G does not exist, a leading space is not trimmed away, and blank input is required. */
  lemma FlatNoMalformedExamples()
    ensures FlatNoError("G-101") == Some(FlatInvalid) && FlatNoError(" A-101") == Some(FlatInvalid)
    ensures FlatNoError("") == Some(FlatRequired)
  {
    assert !IsFlatNo(Upper("G-101")) by { assert Upper("G-101") == "G-101"; }
    assert !IsFlatNo(Upper(" A-101")) by { assert Upper(" A-101") == " A-101"; }
    assert !AllSpace("G-101") by { assert !IsJsSpace("G-101"[0]); }
    assert !AllSpace(" A-101") by { assert !IsJsSpace(" A-101"[1]); }
    FlatNoFormat("G-101");
    FlatNoFormat(" A-101");
  }

  lemma WhatsappNoAcceptedExample()
    ensures WhatsappNoError("9876543210") == None
  {
    assert IsWhatsappNo("9876543210");
    WhatsappNoRule("9876543210");
  }

  lemma WhatsappNoRejectedExamples()
    ensures WhatsappNoError("5876543210") == Some(WhatsappInvalid)
    ensures WhatsappNoError("987654321") == Some(WhatsappInvalid)
    ensures WhatsappNoError("") == Some(WhatsappRequired)
  {
    assert WhatsappNoError("5876543210") == Some(WhatsappInvalid) by {
      assert !IsJsSpace("5876543210"[0]);
      WhatsappNoFormat("5876543210");
    }
    assert WhatsappNoError("987654321") == Some(WhatsappInvalid) by {
      assert !IsJsSpace("987654321"[0]);
      WhatsappNoFormat("987654321");
    }
  }
}
