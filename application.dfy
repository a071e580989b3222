/**
  The launch of CalorieBurnout (AppDelegate.swift): the window's root screen is
  Home exactly when a stored record exists and is marked valid, Setup otherwise.
 */
module Application {
  import opened Wrappers
  import opened Database
  import opened ViewControllers

  /** The two screens the window can be rooted at. */
  datatype Screen = Home | Setup

  /** The routing test of the launch handler. */
  function RootScreen(fetched: Option<UserInformation>): (s: Screen)
    ensures s == Home <==> fetched.Some? && fetched.value.validInformation
  {
    if fetched.Some? && fetched.value.validInformation then Home else Setup
  }

  /** Without a stored record, or with one not marked valid, the app opens on Setup. */
  lemma NoValidRecordRoutesSetup(fetched: Option<UserInformation>)
    requires fetched.None? || !fetched.value.validInformation
    ensures RootScreen(fetched) == Setup
  {
  }

  /** A record a successful save hands to the store routes the next launch to Home. */
  lemma SavedRecordRoutesHome(f: Form)
    requires Save(f).PresentedHome?
    ensures RootScreen(Some(Save(f).saved)) == Home
  {
    SaveStoresEnteredRecord(f);
  }

  /**
    From a fresh install, after any events on the setup screen, the next launch
    opens on Home exactly when a record has been stored.
   */
  lemma LaunchAfterSetup(gender: string, events: seq<Event>)
    requires gender == "" || gender == Male || gender == Female
    ensures RootScreen(Replay(State(gender, None), events).slot) == Home <==>
      Replay(State(gender, None), events).slot.Some?
  {
    ReplayKeepsConsistent(State(gender, None), events);
  }

  /** `UIWindow`, reduced to its root screen. */
  class Window {
    var rootViewController: Option<Screen>

    constructor ()
      ensures rootViewController == None
    {
      rootViewController := None;
    }
  }

  class AppDelegate {
    var window: Window?

    constructor ()
      ensures window == null
    {
      window := null;
    }

    /**
      `application(_:didFinishLaunchingWithOptions:)`: a new window whose root is
      the one screen the stored record selects; always returns true.
     */
    method DidFinishLaunching(store: PlistStore) returns (launched: bool)
      modifies this
      ensures launched
      ensures window != null && fresh(window)
      ensures window.rootViewController == Some(RootScreen(store.slot))
    {
      window := new Window();
      var userInfo := store.Fetch();
      if userInfo.Some? && userInfo.value.validInformation {
        window.rootViewController := Some(Home);
      } else {
        window.rootViewController := Some(Setup);
      }
      launched := true;
    }
  }

  /**
    A first run end to end: the first launch opens on Setup; a save before any
    picker selection raises the alert; after picking a row a save succeeds; and
    the next launch opens on Home.
   */
  method FirstRun(name: string, age: string, weight: string, row: int)
    returns (firstScreen: Screen, firstTap: SaveOutcome, secondTap: SaveOutcome, nextScreen: Screen)
    requires name != "" && age != "" && weight != ""
    ensures firstScreen == Setup
    ensures firstTap == ErrorPopup(GenderSelected)
    ensures secondTap == PresentedHome(UserInformation(true, name, age, TitleForRow(row), weight))
    ensures nextScreen == Home
  {
    var store := new PlistStore();
    var app := new AppDelegate();
    var _ := app.DidFinishLaunching(store);
    firstScreen := app.window.rootViewController.value;

    var setup := new SetupViewController();
    firstTap := setup.SaveUserInformation(Some(name), Some(age), Some(weight), store, true);
    SaveBeforeSelectionFails(Some(name), Some(age), Some(weight));

    setup.DidSelectRow(row);
    secondTap := setup.SaveUserInformation(Some(name), Some(age), Some(weight), store, true);
    SaveStoresEnteredRecord(Form(Some(name), Some(age), Some(weight), setup.selectedGender));

    var relaunch := new AppDelegate();
    var _ := relaunch.DidFinishLaunching(store);
    nextScreen := relaunch.window.rootViewController.value;
  }
}
