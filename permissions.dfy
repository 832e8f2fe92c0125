/**
 * The storage-permission status that MainActivity keeps in `isGrantedPerms`:
 * unloaded (null) until the stored preference is read, then one of
 * NOT_REQUESTED, DENIED_ONCE, DENIED_TWICE and GRANTED. A permission result
 * moves it to GRANTED if anything was granted and otherwise escalates the
 * denial; the status decides whether a request is launched automatically,
 * which dialog is shown and whether the player and navigation are shown.
 *
 * The status is `Option<PermissionStatus>`: `None` is Kotlin's null, and also
 * any stored string that is not one of the four names, since every branch of
 * the activity treats such a string exactly like null.
 */
module Permissions {
  import opened Wrappers

  datatype PermissionStatus = NotRequested | DeniedOnce | DeniedTwice | Granted

  type Status = Option<PermissionStatus>

  /** What a dialog's single option does. */
  datatype DialogAction = LaunchPermissionRequest | OpenAppSettings

  datatype PermissionDialog = PermissionDialog(
    title: string,
    description: string,
    optionLabel: string,
    action: DialogAction,
    dismissOnBackPress: bool,
    dismissOnClickOutside: bool)

  const DialogTitle := "Permissions required"
  const GrantDescription := "BrainzPlayer requires local storage permission to play local songs."
  const SettingsDescription := "Please grant storage permissions from settings for the app to function."

  /** Whether any value of the permission-result map is true. */
  function AnyGranted(results: seq<bool>): (granted: bool)
    ensures granted <==> exists i :: 0 <= i < |results| && results[i]
  {
    if results == [] then false else results[0] || AnyGranted(results[1..])
  }

  /** The status after a permission result, given the status before it. */
  function AfterResult(prev: Status, anyGranted: bool): (next: PermissionStatus)
    ensures anyGranted ==> next == Granted
    ensures !anyGranted ==> next != Granted
    ensures !anyGranted ==> (next == DeniedOnce <==> prev == Some(NotRequested))
    ensures !anyGranted ==> (next == DeniedTwice <==> prev != Some(NotRequested))
  {
    if anyGranted then Granted
    else
      match prev
      case Some(NotRequested) => DeniedOnce
      case Some(DeniedOnce) => DeniedTwice
      case _ => DeniedTwice
  }

  /** A permission request is launched by itself only from NOT_REQUESTED, never under a dialog or beside the player. */
  function ShouldAutoLaunch(status: Status): (launch: bool)
    ensures launch <==> status == Some(NotRequested)
    ensures launch ==> DialogFor(status).None? && !ShowsPlayer(status)
  {
    status == Some(NotRequested)
  }

  /** The player and the navigation are composed only once permission is granted, and then no dialog is up. */
  function ShowsPlayer(status: Status): (shown: bool)
    ensures shown <==> status == Some(Granted)
    ensures shown ==> DialogFor(status).None?
  {
    status == Some(Granted)
  }

  /** The dialog shown for a status, if any. */
  function DialogFor(status: Status): (d: Option<PermissionDialog>)
    ensures d.Some? <==> status == Some(DeniedOnce) || status == Some(DeniedTwice)
    ensures status == Some(DeniedOnce) ==>
      d.value.optionLabel == "Grant" && d.value.action == LaunchPermissionRequest
      && d.value.description == GrantDescription
    ensures status == Some(DeniedTwice) ==>
      d.value.optionLabel == "Open Settings" && d.value.action == OpenAppSettings
      && d.value.description == SettingsDescription
    ensures d.Some? ==>
      d.value.title == DialogTitle && !d.value.dismissOnBackPress && !d.value.dismissOnClickOutside
  {
    match status
    case Some(DeniedOnce) =>
      Some(PermissionDialog(DialogTitle, GrantDescription, "Grant", LaunchPermissionRequest, false, false))
    case Some(DeniedTwice) =>
      Some(PermissionDialog(DialogTitle, SettingsDescription, "Open Settings", OpenAppSettings, false, false))
    case _ => None
  }

  // ---------------------------------------------------------------------------
  // Properties of the transitions
  // ---------------------------------------------------------------------------

  /** A grant wins from every status; a denial never reaches GRANTED. */
  lemma GrantedExactlyWhenSomethingGranted(prev: Status, results: seq<bool>)
    ensures ShowsPlayer(Some(AfterResult(prev, AnyGranted(results))))
        <==> exists i :: 0 <= i < |results| && results[i]
  {
  }

  /** DENIED_TWICE absorbs denials, and two denials in a row always end in DENIED_TWICE. */
  lemma DenialsEscalate(prev: Status)
    ensures AfterResult(Some(DeniedTwice), false) == DeniedTwice
    ensures AfterResult(Some(AfterResult(prev, false)), false) == DeniedTwice
  {
  }

  /** After any result the request is never launched by itself again. */
  lemma NoAutoLaunchAfterResult(prev: Status, anyGranted: bool)
    ensures !ShouldAutoLaunch(Some(AfterResult(prev, anyGranted)))
  {
  }

  /** After a denial a dialog is always up; after a grant none is, and the player is shown. */
  lemma ResultDecidesScreen(prev: Status, anyGranted: bool)
    ensures var next := Some(AfterResult(prev, anyGranted));
      (DialogFor(next).Some? <==> !anyGranted) && (ShowsPlayer(next) <==> anyGranted)
  {
  }

  /** At most one of: automatic request, dialog, player. */
  lemma ScreensExclusive(status: Status)
    ensures !(ShowsPlayer(status) && DialogFor(status).Some?)
    ensures !(ShouldAutoLaunch(status) && (ShowsPlayer(status) || DialogFor(status).Some?))
  {
  }

  // ---------------------------------------------------------------------------
  // The activity's state
  // ---------------------------------------------------------------------------

  /** `isGrantedPerms` and the persisted preference it is loaded from and written back to. */
  class PermissionScreen {
    var status: Status
    var preference: Status

    /** The status starts as null; the stored preference is whatever was persisted. */
    constructor (stored: Status)
      ensures status == None && preference == stored
    {
      status := None;
      preference := stored;
    }

    /** The first effect: load the status from the stored preference. */
    method LoadPreference()
      modifies this
      ensures status == old(preference) && preference == old(preference)
    {
      status := preference;
    }

    /** The permission-result callback: move to the next status and persist it. */
    method OnPermissionResult(results: seq<bool>)
      modifies this
      ensures status == Some(AfterResult(old(status), AnyGranted(results)))
      ensures preference == status
    {
      var isGranted := AnyGranted(results);
      if isGranted {
        status := Some(Granted);
        preference := Some(Granted);
      } else {
        status := Some(match status
          case Some(NotRequested) => DeniedOnce
          case Some(DeniedOnce) => DeniedTwice
          case _ => DeniedTwice);
        preference := status;
      }
    }
  }
}
