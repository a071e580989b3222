/**
  The setup screen of CalorieBurnout (ViewControllers/SetupViewController.swift):
  the two-row gender picker, the form's ordered guards, the dictionary the save
  builds, and the controller whose `selectedGender` the picker writes.
 */
module ViewControllers {
  import opened Wrappers
  import opened Database

  // ---------------------------------------------------------------------------
  // The gender picker.

  const Male: string := "Male"
  const Female: string := "Female"

  /** `numberOfComponents(in:)`: the picker has a single column. */
  function NumberOfComponents(): (n: int)
    ensures n == 1
  {
    1
  }

  /** `pickerView(_:numberOfRowsInComponent:)`: the same for every component. */
  function NumberOfRows(component: int): (n: int)
    ensures n == 2
  {
    2
  }

  /** `pickerView(_:titleForRow:forComponent:)`: row 0 is "Male", every other row "Female". */
  function TitleForRow(row: int): (t: string)
    ensures t == Male <==> row == 0
    ensures t == Male || t == Female
  {
    if row == 0 then Male else Female
  }

  /** The picker is one column of two rows, offering two different, non-empty titles. */
  lemma PickerShape()
    ensures NumberOfComponents() == 1
    ensures forall c :: NumberOfRows(c) == 2
    ensures TitleForRow(0) == Male && TitleForRow(1) == Female
    ensures TitleForRow(0) != TitleForRow(1)
    ensures forall row :: TitleForRow(row) != ""
  {
  }

  // ---------------------------------------------------------------------------
  // The save action, as a function of the form.

  /** The four guards of `saveUserInformation`, in the order they run. */
  datatype Check = NameEntered | AgeEntered | WeightEntered | GenderSelected

  function Rank(c: Check): nat
  {
    match c
    case NameEntered => 0
    case AgeEntered => 1
    case WeightEntered => 2
    case GenderSelected => 3
  }

  /** What the save reads: three text fields (whose text may be nil) and `selectedGender`. */
  datatype Form = Form(name: Option<string>, age: Option<string>, weight: Option<string>, gender: string)

  /** `guard let x = field.text, x.count > 0` */
  predicate Filled(text: Option<string>)
  {
    text.Some? && |text.value| > 0
  }

  predicate Passes(f: Form, c: Check)
  {
    match c
    case NameEntered => Filled(f.name)
    case AgeEntered => Filled(f.age)
    case WeightEntered => Filled(f.weight)
    case GenderSelected => |f.gender| > 0
  }

  /** The guard that stops the save, if any: the first one, in order, that fails. */
  function FirstFailure(f: Form): (r: Option<Check>)
    ensures r.None? <==> forall c :: Passes(f, c)
    ensures r.Some? ==> !Passes(f, r.value) && forall c :: Rank(c) < Rank(r.value) ==> Passes(f, c)
  {
    if !Passes(f, NameEntered) then Some(NameEntered)
    else if !Passes(f, AgeEntered) then Some(AgeEntered)
    else if !Passes(f, WeightEntered) then Some(WeightEntered)
    else if !Passes(f, GenderSelected) then Some(GenderSelected)
    else None
  }

  /**
    What a tap on save ends in: the alert (the same "All fields are mandatory"
    popup for every guard; `failed` names the guard that raised it), or the
    record handed to the store followed by the home screen.
   */
  datatype SaveOutcome = ErrorPopup(failed: Check) | PresentedHome(saved: UserInformation)

  /** The record a save with these inputs builds. */
  function Submitted(name: string, age: string, gender: string, weight: string): UserInformation
  {
    Decode(Encode(UserInformation(true, name, age, gender, weight)))
  }

  /** `saveUserInformation`, as a function of what it reads. */
  function Save(f: Form): (r: SaveOutcome)
    ensures r.ErrorPopup? <==> exists c :: !Passes(f, c)
    ensures r.ErrorPopup? ==> Some(r.failed) == FirstFailure(f)
  {
    match FirstFailure(f)
    case Some(c) => ErrorPopup(c)
    case None => PresentedHome(Submitted(f.name.value, f.age.value, f.gender, f.weight.value))
  }

  /** An empty or nil name, age or weight, or an unselected gender, rejects the save. */
  lemma SaveRejectsIncompleteForm(f: Form)
    ensures Save(f).ErrorPopup? <==>
      !Filled(f.name) || !Filled(f.age) || !Filled(f.weight) || f.gender == ""
  {
    if f.gender == "" {
      assert !Passes(f, GenderSelected);
    }
  }

  /**
    Until the picker has been used `selectedGender` is "", and a save then fails
    whatever was typed: on the gender guard when the three texts are filled.
   */
  lemma SaveBeforeSelectionFails(name: Option<string>, age: Option<string>, weight: Option<string>)
    ensures Save(Form(name, age, weight, "")).ErrorPopup?
    ensures Filled(name) && Filled(age) && Filled(weight) ==>
      Save(Form(name, age, weight, "")) == ErrorPopup(GenderSelected)
  {
    assert !Passes(Form(name, age, weight, ""), GenderSelected);
  }

  /**
    A successful save hands over the record of exactly what was entered, marked
    valid, with all four text fields non-empty.
   */
  lemma SaveStoresEnteredRecord(f: Form)
    requires Save(f).PresentedHome?
    ensures Filled(f.name) && Filled(f.age) && Filled(f.weight) && f.gender != ""
    ensures Save(f).saved == UserInformation(true, f.name.value, f.age.value, f.gender, f.weight.value)
    ensures Save(f).saved.validInformation
    ensures Save(f).saved.name != "" && Save(f).saved.age != ""
    ensures Save(f).saved.gender != "" && Save(f).saved.weight != ""
  {
    DecodeEncode(UserInformation(true, f.name.value, f.age.value, f.gender, f.weight.value));
  }

  // ---------------------------------------------------------------------------
  // The controller.

  /**
    The `userInfo` dictionary of `saveUserInformation`, built one insertion at a
    time: exactly the five keys, `ValidInformation` true and the entered text
    under the others.
   */
  method BuildUserInfo(name: string, age: string, gender: string, weight: string)
    returns (userInfo: Dictionary)
    ensures userInfo == Encode(UserInformation(true, name, age, gender, weight))
    ensures WellFormed(userInfo)
  {
    userInfo := map[];
    userInfo := userInfo[ValidInformationKey := BoolV(true)];
    userInfo := userInfo[NameKey := StrV(name)];
    userInfo := userInfo[AgeKey := StrV(age)];
    userInfo := userInfo[GenderKey := StrV(gender)];
    userInfo := userInfo[WeightKey := StrV(weight)];
  }

  class SetupViewController {
    /** The picker's last selection; "" until one is made. */
    var selectedGender: string

    constructor ()
      ensures selectedGender == ""
    {
      selectedGender := "";
    }

    /** `pickerView(_:didSelectRow:inComponent:)`: the gender becomes the row's title. */
    method DidSelectRow(row: int)
      modifies this
      ensures selectedGender == TitleForRow(row)
      ensures selectedGender == Male || selectedGender == Female
    {
      selectedGender := if row == 0 then Male else Female;
    }

    /**
      `saveUserInformation`: the four guards in order, then the dictionary, the
      record, and the store update, whose Bool is discarded. The outcome does not
      depend on `written`; nothing is stored unless every guard passes.
     */
    method SaveUserInformation(nameText: Option<string>, ageText: Option<string>, weightText: Option<string>,
                               store: PlistStore, written: bool)
      returns (outcome: SaveOutcome)
      modifies store
      ensures outcome == Save(Form(nameText, ageText, weightText, selectedGender))
      ensures store.slot == if outcome.PresentedHome? && written then Some(outcome.saved) else old(store.slot)
    {
      if nameText.None? || |nameText.value| == 0 {
        return ErrorPopup(NameEntered);
      }
      var name := nameText.value;
      if ageText.None? || |ageText.value| == 0 {
        return ErrorPopup(AgeEntered);
      }
      var age := ageText.value;
      if weightText.None? || |weightText.value| == 0 {
        return ErrorPopup(WeightEntered);
      }
      var weight := weightText.value;
      if |selectedGender| == 0 {
        return ErrorPopup(GenderSelected);
      }
      var userInfo := BuildUserInfo(name, age, selectedGender, weight);
      var record := Decode(userInfo);
      var _ := store.Update(record, written);
      outcome := PresentedHome(record);
    }

    /** Runs one user event against this controller and the store. */
    method Handle(e: Event, store: PlistStore)
      modifies this, store
      ensures State(selectedGender, store.slot) == Step(old(State(selectedGender, store.slot)), e)
    {
      match e
      case SelectRow(row) =>
        DidSelectRow(row);
      case TapSave(name, age, weight, written) =>
        var _ := SaveUserInformation(name, age, weight, store, written);
    }
  }

  // ---------------------------------------------------------------------------
  // Sequences of user events on the setup screen.

  /**
    A picker selection, or a tap on save with the fields' texts; `written` is
    whether the store's write succeeds.
   */
  datatype Event =
    | SelectRow(row: int)
    | TapSave(name: Option<string>, age: Option<string>, weight: Option<string>, written: bool)

  /** The controller's gender selection and the store's slot. */
  datatype State = State(selectedGender: string, slot: Option<UserInformation>)

  function Step(s: State, e: Event): State
  {
    match e
    case SelectRow(row) => State(TitleForRow(row), s.slot)
    case TapSave(name, age, weight, written) =>
      var outcome := Save(Form(name, age, weight, s.selectedGender));
      if outcome.PresentedHome? && written then State(s.selectedGender, Some(outcome.saved)) else s
  }

  /** The state after the events, in order. */
  function Replay(s: State, events: seq<Event>): State
    decreases |events|
  {
    if events == [] then s else Replay(Step(s, events[0]), events[1..])
  }

  /** A record a successful save can have stored. */
  predicate Complete(u: UserInformation)
  {
    && u.validInformation
    && u.name != "" && u.age != "" && u.weight != ""
    && (u.gender == Male || u.gender == Female)
  }

  /**
    What holds from a fresh install on: the gender is unselected or a picker
    title, and any stored record is valid and complete.
   */
  predicate Consistent(s: State)
  {
    && (s.selectedGender == "" || s.selectedGender == Male || s.selectedGender == Female)
    && (s.slot.Some? ==> Complete(s.slot.value))
  }

  lemma StepKeepsConsistent(s: State, e: Event)
    requires Consistent(s)
    ensures Consistent(Step(s, e))
  {
    if e.TapSave? {
      var f := Form(e.name, e.age, e.weight, s.selectedGender);
      if Save(f).PresentedHome? {
        SaveStoresEnteredRecord(f);
      }
    }
  }

  /** Every sequence of events keeps the state consistent. */
  lemma {:induction false} ReplayKeepsConsistent(s: State, events: seq<Event>)
    requires Consistent(s)
    ensures Consistent(Replay(s, events))
    decreases |events|
  {
    if events != [] {
      StepKeepsConsistent(s, events[0]);
      ReplayKeepsConsistent(Step(s, events[0]), events[1..]);
    }
  }

  /** Without a picker selection, no sequence of saves changes anything. */
  lemma {:induction false} NoSelectionNoSave(s: State, events: seq<Event>)
    requires s.selectedGender == ""
    requires forall i :: 0 <= i < |events| ==> events[i].TapSave?
    ensures Replay(s, events) == s
    decreases |events|
  {
    if events != [] {
      var e := events[0];
      SaveBeforeSelectionFails(e.name, e.age, e.weight);
      assert Step(s, e) == s;
      NoSelectionNoSave(s, events[1..]);
    }
  }

  /** Once a gender has been picked it stays picked: nothing resets it to "". */
  lemma {:induction false} SelectionPersists(s: State, events: seq<Event>)
    requires s.selectedGender != ""
    ensures Replay(s, events).selectedGender != ""
    decreases |events|
  {
    if events != [] {
      SelectionPersists(Step(s, events[0]), events[1..]);
    }
  }
}
