# CalorieBurnout profile logic in Dafny

CalorieBurnout is a two-screen iOS app: a setup form collects a name, age,
weight and gender, stores them as one `UserInformation` record, and every
launch opens on the home screen or the setup screen depending on that record.
This project models the three pieces of logic around that record and proves
what they promise:

- `database.dfy` (module `Database`, from `Database/UserInformation.swift`):
  the five-field record, its initializer from a loosely typed `[String: Any]`
  dictionary (here `map<string, Value>` with `Value = BoolV | StrV | IntV |
  OtherV`), where each field is a checked cast with a default
  (`Decode`), the five-key dictionary the save action builds (`Encode`), and
  the store, reduced to a slot holding at most one record (`PlistStore`).
- `view_controllers.dfy` (module `ViewControllers`, from
  `ViewControllers/SetupViewController.swift`): the two-row gender picker, the
  save action's four guards run in order (name, age, weight, gender), the
  dictionary built one insertion at a time, and the `SetupViewController`
  class whose `selectedGender` field the picker writes and the save reads.
  `Save` is the save action as a function of what it reads; the class method
  `SaveUserInformation` is proved to produce exactly that outcome and to touch
  the store only on success. `Replay` runs a sequence of picker selections and
  save taps, and lemmas prove what holds after any such sequence.
- `application.dfy` (module `Application`, from `AppDelegate.swift`): the
  launch routing rule `RootScreen`, the `AppDelegate` class whose launch
  method roots a new window at that screen and returns true, and the link
  between the pieces: a record a successful save stores routes to Home.
- `wrappers.dfy`: the `Option` type standing for Swift's optionals.

The save action's alert ("All fields are mandatory") is the same whichever
guard fails; the model's `ErrorPopup(failed)` also names the guard, so that the
order of the guards can be stated. The Bool returned by the store update is
discarded by the save action: the model takes whether the write succeeds as a
parameter `written`, and proves the outcome (alert or home screen) does not
depend on it. When the write fails the home screen is still presented while
the store keeps its old content.

The record has no resting heart rate and there is no "Unknown" gender: its
`gender` is a free `String`, which only the picker limits to "Male" or
"Female".

## Model

| member | source | states |
|---|---|---|
| `Database.Decode` | CalorieBurnout/Database/UserInformation.swift:18-24 | the record is valid exactly when the dictionary holds `true` as a Bool under "ValidInformation"; a non-empty text field was read verbatim as a String under its own key |
| `Database.DecodeField` | CalorieBurnout/Database/UserInformation.swift:19-23 | each field is the value under its key when that value has the field's type (Bool for `ValidInformation`, String for the others), and `false` or `""` otherwise |
| `Database.DecodeCopiesWellTyped` | CalorieBurnout/Database/UserInformation.swift:19-23 | a key present with the right type is copied unchanged into its field |
| `Database.DecodeDefaultsMissing` | CalorieBurnout/Database/UserInformation.swift:19-23 | a missing key gives the field's default |
| `Database.DecodeDefaultsWrongType` | CalorieBurnout/Database/UserInformation.swift:19-23 | a key present with the wrong type gives the default instead of failing |
| `Database.DecodeEmpty` | CalorieBurnout/Database/UserInformation.swift:18-24 | the empty dictionary decodes to the all-default record, which is not valid |
| `Database.DecodeDeterminedByKeys` | CalorieBurnout/Database/UserInformation.swift:19-23 | dictionaries that agree on the five keys decode to the same record |
| `Database.DecodeIgnoresOtherKeys` | CalorieBurnout/Database/UserInformation.swift:19-23 | adding or changing any key other than the five leaves the record unchanged |
| `Database.DecodeIsCaseSensitive` | CalorieBurnout/Database/UserInformation.swift:20 | a lower-case "name" key is not read |
| `Database.AgeAndWeightAreText` | CalorieBurnout/Database/UserInformation.swift:21-23 | any String under "Age" or "Weight" is kept verbatim, and a number there is not accepted (the field is "") |
| `Database.DecodeEncode` | CalorieBurnout/Database/UserInformation.swift:18-24 | a record written under the five keys with matching types decodes back to itself |
| `Database.EncodeDecode` | CalorieBurnout/Database/UserInformation.swift:18-24 | a dictionary of exactly the five well-typed keys is the encoding of the record it decodes to |
| `Database.PlistStore.Fetch` | CalorieBurnout/Database/UserInformation.swift:26-28 | returns the record the slot holds, if any |
| `Database.PlistStore.Update` | CalorieBurnout/Database/UserInformation.swift:30-32 | a successful write replaces the slot wholesale, a failed one leaves it; the Bool reports which |
| `ViewControllers.NumberOfComponents` | CalorieBurnout/ViewControllers/SetupViewController.swift:80-82 | the picker has one component |
| `ViewControllers.NumberOfRows` | CalorieBurnout/ViewControllers/SetupViewController.swift:84-86 | every component has two rows |
| `ViewControllers.TitleForRow` | CalorieBurnout/ViewControllers/SetupViewController.swift:88-90 | the title is "Male" exactly for row 0, "Female" for every other row |
| `ViewControllers.PickerShape` | CalorieBurnout/ViewControllers/SetupViewController.swift:80-90 | one component of two rows, titled "Male" and "Female", distinct and non-empty |
| `ViewControllers.FirstFailure` | CalorieBurnout/ViewControllers/SetupViewController.swift:36-54 | no guard fails exactly when all four pass; otherwise the guard reported fails and every earlier one passes |
| `ViewControllers.Save` | CalorieBurnout/ViewControllers/SetupViewController.swift:35-67 | the save ends in the alert exactly when some guard fails, and the alert is raised by the first failing guard |
| `ViewControllers.SaveRejectsIncompleteForm` | CalorieBurnout/ViewControllers/SetupViewController.swift:36-54 | the save is rejected exactly when name, age or weight is nil or empty or no gender is selected |
| `ViewControllers.SaveBeforeSelectionFails` | CalorieBurnout/ViewControllers/SetupViewController.swift:51-54 | with `selectedGender` still "" every save fails, on the gender guard when the texts are filled |
| `ViewControllers.SaveStoresEnteredRecord` | CalorieBurnout/ViewControllers/SetupViewController.swift:56-63 | the record a successful save hands to the store is exactly the entered texts and selected gender, marked valid, all four non-empty |
| `ViewControllers.BuildUserInfo` | CalorieBurnout/ViewControllers/SetupViewController.swift:56-61 | the dictionary holds exactly the five keys, `true` under "ValidInformation" and the inputs unchanged under the others |
| `ViewControllers.SetupViewController.constructor` | CalorieBurnout/ViewControllers/SetupViewController.swift:19 | `selectedGender` starts as "" |
| `ViewControllers.SetupViewController.DidSelectRow` | CalorieBurnout/ViewControllers/SetupViewController.swift:92-94 | `selectedGender` becomes the selected row's title, so "Male" or "Female" |
| `ViewControllers.SetupViewController.SaveUserInformation` | CalorieBurnout/ViewControllers/SetupViewController.swift:35-67 | the outcome is `Save` of the form whatever the store reports; the store changes only on success, to the saved record |
| `ViewControllers.SetupViewController.Handle` | CalorieBurnout/ViewControllers/SetupViewController.swift:35-94 | handling a selection or a save tap changes the controller and store exactly as `Step` says |
| `ViewControllers.StepKeepsConsistent` | CalorieBurnout/ViewControllers/SetupViewController.swift:51-63 | one selection or save keeps the gender unselected or a picker title, and any stored record valid and complete |
| `ViewControllers.ReplayKeepsConsistent` | CalorieBurnout/ViewControllers/SetupViewController.swift:35-94 | after any sequence of selections and saves, any stored record is valid, with non-empty texts and gender "Male" or "Female" |
| `ViewControllers.NoSelectionNoSave` | CalorieBurnout/ViewControllers/SetupViewController.swift:51-54 | without a picker selection, no sequence of save taps changes the store |
| `ViewControllers.SelectionPersists` | CalorieBurnout/ViewControllers/SetupViewController.swift:92-94 | once a gender is selected, no later event makes it "" again |
| `Application.RootScreen` | CalorieBurnout/AppDelegate.swift:21-27 | the root is Home exactly when a record was fetched and it is valid, Setup otherwise |
| `Application.NoValidRecordRoutesSetup` | CalorieBurnout/AppDelegate.swift:24-26 | no record, or a record not marked valid, routes to Setup |
| `Application.SavedRecordRoutesHome` | CalorieBurnout/AppDelegate.swift:21-23 | the record a successful save hands to the store routes the next launch to Home |
| `Application.LaunchAfterSetup` | CalorieBurnout/AppDelegate.swift:21-27 | from a fresh install, after any setup events, the next launch opens on Home exactly when a record was stored |
| `Application.AppDelegate.constructor` | CalorieBurnout/AppDelegate.swift:14 | `window` starts nil |
| `Application.AppDelegate.DidFinishLaunching` | CalorieBurnout/AppDelegate.swift:16-30 | a new window rooted at the one screen the stored record selects; always returns true |
| `Application.FirstRun` | CalorieBurnout/AppDelegate.swift:21-27 | first launch on Setup, a save before selection alerts, a save after selection stores the entered record, and the next launch opens on Home (the save steps are those of CalorieBurnout/ViewControllers/SetupViewController.swift lines 19, 36-63 and 92-94) |

## Left out

- Persistence internals: the fetch and update functions have empty bodies, so no file format or I/O is modelled; the store is a slot holding at most one record, and whether a write succeeds is a parameter.
- UIKit plumbing: outlets, storyboard instantiation, `present`, the alert's construction, `viewDidLoad` and the window's frame are reduced to the outcomes `ErrorPopup`, `PresentedHome`, `Home` and `Setup`.
- The programmatic `selectRow(0, …)` in `viewDidAppear`: whether UIKit then calls `didSelectRow` is not visible in the code, so it is not assumed to set `selectedGender`.
- Picker arguments: the picker view and component arguments are ignored by the source's functions and are not modelled (the row count is a function of the component only to state that it is the same for each).
- `Value`'s cases stand for the dynamic types a `[String: Any]` may hold; Foundation's bridging of numbers to Bool is not modelled (a Bool cast succeeds only on `BoolV`).
- The `Codable` conformance of `UserInformation` (UserInformation.swift line 11) is not modelled: its generated encoding uses the lower-case property names, which `Decode` does not read, and no modelled code encodes or decodes through it.
- `HomeViewController.swift` has outlets and an empty `viewDidLoad` only; there is no logic to model.
- Calorie or heart-rate calculation: no formula, constants or sensor code is in the source files modelled, and it would be floating point.
- Swift's `count` counts grapheme clusters; the model uses the length of the character sequence, which agrees on whether the text is empty, the only use the source makes of it.
