# ListenBrainz Android: UI decision logic, modelled in Dafny

The ListenBrainz Android client is mostly Jetpack Compose screens. Three of those screens make decisions worth stating on their own. This project lifts those decisions out of the composables and proves properties about them.

- **BrainzPlayer song overview** (`SongsOverview`, `songs_overview.dfy`). The screen builds 26 buckets keyed `'A'`..`'Z'` and appends each song, in input order, to the bucket of its title's first character. It then draws the non-empty buckets in letter order. A click on a song hands that song and its whole bucket to the play handler. The lookup is case-sensitive (SongsOverviewScreen.kt:46), so a title that starts with anything other than an upper-case ASCII letter finds no bucket and the song is not shown. The screen's three loops are methods: `EmptyBuckets` creates the buckets, `BuildBuckets` fills them and `VisibleSections` draws the non-empty ones. They are proved against the functions `Bucket` and `Kept`, and the lemmas are about those functions.
- **Storage-permission status** (`Permissions`, `permissions.dfy`). `MainActivity` keeps `isGrantedPerms`. It is null until the stored preference is loaded, and afterwards it is `NOT_REQUESTED`, `DENIED_ONCE`, `DENIED_TWICE` or `GRANTED`. A permission result moves it to `GRANTED` if any permission was granted. Otherwise it escalates `NOT_REQUESTED → DENIED_ONCE → DENIED_TWICE`, and every other status goes to `DENIED_TWICE`. Each new status is persisted. The status decides three things: whether a request is launched automatically, which dialog is shown, and whether the player and navigation are shown. The class `PermissionScreen` holds the status and the persisted preference. The transition, the dialog choice and the gates are pure functions. `None` stands for Kotlin's null. It also stands for a stored string that is none of the four names, because every branch treats such a string exactly like null.
- **Profile Taste tab** (`TasteTab`, `taste_screen.dfy`). The state is the loved/hated selector, the collapse flag shared by the loved and hated lists, the separate collapse flag of the pins, and the single `dropdownItemIndex` that decides which row's menu is open. The model also records the calls the screen makes into the view models and the URI handler, in order, as effects. The class `TasteScreenState` holds these fields. Its method `Handle` runs one callback and is proved against the pure transition function `Apply`. The drawn lists and the load-more toggles are pure functions of the state and the screen's input.

## Model

| member | source | states |
|---|---|---|
| `SongsOverview.Letters` | app/src/main/java/org/listenbrainz/android/ui/screens/brainzplayer/SongsOverviewScreen.kt:41-42 | the bucket keys are 26 letters, strictly ascending, and a character is a key iff it is in `'A'..'Z'` |
| `SongsOverview.LetterAt` | app/src/main/java/org/listenbrainz/android/ui/screens/brainzplayer/SongsOverviewScreen.kt:42 | `'A' + i` is an upper-case ASCII letter, the `i`-th one |
| `SongsOverview.EmptyBuckets` | app/src/main/java/org/listenbrainz/android/ui/screens/brainzplayer/SongsOverviewScreen.kt:40-43 | exactly 26 buckets exist, keyed `'A'` through `'Z'`, and all are empty |
| `SongsOverview.BuildBuckets` | app/src/main/java/org/listenbrainz/android/ui/screens/brainzplayer/SongsOverviewScreen.kt:40-47 | the map keeps exactly the 26 keys, and bucket `c` holds exactly the songs whose title starts with `c`, in input order; titles must be non-empty because `title[0]` throws |
| `SongsOverview.VisibleSections` | app/src/main/java/org/listenbrainz/android/ui/screens/brainzplayer/SongsOverviewScreen.kt:49-78 | one section per non-empty bucket and no other, letters strictly ascending, each section holding its whole bucket |
| `SongsOverview.SongsOverviewScreen` | app/src/main/java/org/listenbrainz/android/ui/screens/brainzplayer/SongsOverviewScreen.kt:35-80 | the drawn sections are exactly the upper-case letters 'A'..'Z' that some title starts with, in A→Z order, each with the songs starting with that letter |
| `SongsOverview.OnSongClick` | app/src/main/java/org/listenbrainz/android/ui/screens/brainzplayer/SongsOverviewScreen.kt:67-74 | a click on card `j` hands over the `j`-th song of the section together with the section's whole list, and the song is in that queue |
| `SongsOverview.BucketMembers` | app/src/main/java/org/listenbrainz/android/ui/screens/brainzplayer/SongsOverviewScreen.kt:45-46 | a song is in bucket `c` iff it is an input song whose title starts with `c` (case-sensitive match) |
| `SongsOverview.BucketsDisjoint` | app/src/main/java/org/listenbrainz/android/ui/screens/brainzplayer/SongsOverviewScreen.kt:45-46 | no song is in two different buckets |
| `SongsOverview.BucketKeepsOrder` | app/src/main/java/org/listenbrainz/android/ui/screens/brainzplayer/SongsOverviewScreen.kt:45-46 | the bucket of a concatenation is the concatenation of the buckets, so songs keep their relative input order |
| `SongsOverview.KeptCount` | app/src/main/java/org/listenbrainz/android/ui/screens/brainzplayer/SongsOverviewScreen.kt:46 | at most all songs find a bucket, and all do iff every title starts with an upper-case ASCII letter |
| `SongsOverview.BucketSizesAddUp` | app/src/main/java/org/listenbrainz/android/ui/screens/brainzplayer/SongsOverviewScreen.kt:40-47 | the 26 bucket sizes add up to the number of songs that find a bucket, which is ≤ `songs.size`, with equality iff every title starts with `'A'..'Z'` |
| `SongsOverview.PlayQueueIsWholeBucket` | app/src/main/java/org/listenbrainz/android/ui/screens/brainzplayer/SongsOverviewScreen.kt:67-73 | clicking song `j` of letter `c` plays the `j`-th song of bucket `c`, an input song starting with `c`, queued with exactly the songs starting with `c`, and it is in the queue |
| `Permissions.AnyGranted` | app/src/main/java/org/listenbrainz/android/ui/screens/main/MainActivity.kt:111 | the result counts as a grant iff some entry is true; an empty result is a denial |
| `Permissions.AfterResult` | app/src/main/java/org/listenbrainz/android/ui/screens/main/MainActivity.kt:111-131 | a grant gives `GRANTED` from every status; a denial never gives `GRANTED`, gives `DENIED_ONCE` iff the status was `NOT_REQUESTED`, and `DENIED_TWICE` otherwise (null, `GRANTED` and `DENIED_TWICE` included) |
| `Permissions.DialogFor` | app/src/main/java/org/listenbrainz/android/ui/screens/main/MainActivity.kt:143-171 | a dialog is shown iff the status is `DENIED_ONCE` ("Grant", which requests again, with the local-songs description) or `DENIED_TWICE` ("Open Settings", with the grant-from-settings description); neither dialog can be dismissed by back press or by a click outside |
| `Permissions.ShouldAutoLaunch` | app/src/main/java/org/listenbrainz/android/ui/screens/main/MainActivity.kt:137-141 | a permission request is launched by itself iff the status is `NOT_REQUESTED`, and then no dialog is up and the player is not shown |
| `Permissions.ShowsPlayer` | app/src/main/java/org/listenbrainz/android/ui/screens/main/MainActivity.kt:284 | the player and navigation are composed iff the status is `GRANTED`, and then no dialog is up |
| `Permissions.GrantedExactlyWhenSomethingGranted` | app/src/main/java/org/listenbrainz/android/ui/screens/main/MainActivity.kt:111-116 | after a result the player gate is open iff some permission in the result was granted, whatever the status before |
| `Permissions.DenialsEscalate` | app/src/main/java/org/listenbrainz/android/ui/screens/main/MainActivity.kt:118-131 | `DENIED_TWICE` absorbs denials, and two denials in a row end in `DENIED_TWICE` from any status |
| `Permissions.NoAutoLaunchAfterResult` | app/src/main/java/org/listenbrainz/android/ui/screens/main/MainActivity.kt:137-141 | after any result the status is not `NOT_REQUESTED`, so the request is not launched automatically again |
| `Permissions.ResultDecidesScreen` | app/src/main/java/org/listenbrainz/android/ui/screens/main/MainActivity.kt:110-171 | after a denial a dialog is up and the player is hidden; after a grant no dialog is up and the player is shown (gate at line 284) |
| `Permissions.ScreensExclusive` | app/src/main/java/org/listenbrainz/android/ui/screens/main/MainActivity.kt:137-171 | for every status at most one of automatic request, dialog and player (gate at line 284) is active |
| `Permissions.PermissionScreen.constructor` | app/src/main/java/org/listenbrainz/android/ui/screens/main/MainActivity.kt:100-102 | the status starts as null, beside the stored preference |
| `Permissions.PermissionScreen.LoadPreference` | app/src/main/java/org/listenbrainz/android/ui/screens/main/MainActivity.kt:104-106 | the status becomes the stored preference, which is unchanged |
| `Permissions.PermissionScreen.OnPermissionResult` | app/src/main/java/org/listenbrainz/android/ui/screens/main/MainActivity.kt:108-135 | the status becomes `AfterResult` of the old status and the result, and the persisted preference equals the new status |
| `TasteTab.Window` | app/src/main/java/org/listenbrainz/android/ui/screens/profile/taste/TasteScreen.kt:168-177 | the window is a prefix of the list, of length `min(5, n)` when collapsed and `n` otherwise (`take(5)` versus the whole list) |
| `TasteTab.VisibleFeedback` | app/src/main/java/org/listenbrainz/android/ui/screens/profile/taste/TasteScreen.kt:168-177 | the drawn feedback is a prefix of the selected (loved or hated) list, the first min(5, n) rows when collapsed, the whole list when expanded or when it has at most 5 entries, and empty when the list is absent |
| `TasteTab.VisiblePins` | app/src/main/java/org/listenbrainz/android/ui/screens/profile/taste/TasteScreen.kt:252-255 | the drawn pins follow the same rule with their own flag: the first min(5, n) pins when collapsed, all when expanded, empty when absent |
| `TasteTab.RecordingUri` | app/src/main/java/org/listenbrainz/android/ui/screens/profile/taste/TasteScreen.kt:217 | the opened link is the MusicBrainz recording URL followed by the recording MBID, or by the word `null` when the track metadata or its MBID mapping is absent |
| `TasteTab.ShowFeedbackLoadMore` | app/src/main/java/org/listenbrainz/android/ui/screens/profile/taste/TasteScreen.kt:237-238 | the shared loved/hated toggle is shown iff the loved count or the hated count exceeds 5 (an absent page counts 0); when it is hidden and the counts cover the lists, neither list is longer than the collapsed window |
| `TasteTab.ShowPinsLoadMore` | app/src/main/java/org/listenbrainz/android/ui/screens/profile/taste/TasteScreen.kt:345 | the pins toggle is shown iff the pins count exceeds 5; when it is hidden and the count covers the list, every pin fits in the collapsed window |
| `TasteTab.MenuExpanded` | app/src/main/java/org/listenbrainz/android/ui/screens/profile/taste/TasteScreen.kt:197 | a row's menu is expanded iff the dropdown index equals the row's index, so no other index is expanded; pin rows use the same test at line 293 |
| `TasteTab.Apply` | app/src/main/java/org/listenbrainz/android/ui/screens/profile/taste/TasteScreen.kt:160-351 | "Loved"/"Hated" set the selection; a load-more click flips exactly its own flag; a menu-icon click opens that index; every menu action (dismiss, recommend, personal recommendation, review, pin, open in MusicBrainz, submitted pin) closes the menu and nothing else touches it; personal recommendation, review and pin activate the dialog of that kind for that row, and dialog deactivation (lines 363-365) clears it; effects only grow, by one exactly for the calls out, and each call out appends its own effect (recommend, open the recording URL, pin, review, personal recommendation); a row tap plays its track only when the track metadata is present |
| `TasteTab.InitialView` | app/src/main/java/org/listenbrainz/android/ui/screens/profile/taste/TasteScreen.kt:140-148 | at first the loved list and the pins are drawn collapsed (the first ≤5 entries) and no menu is open |
| `TasteTab.NothingHiddenWithoutToggle` | app/src/main/java/org/listenbrainz/android/ui/screens/profile/taste/TasteScreen.kt:236-356 | when a load-more toggle is not shown (no count over 5), the collapsed list is already the whole list, provided each count covers its list |
| `TasteTab.ToggleTwiceRestores` | app/src/main/java/org/listenbrainz/android/ui/screens/profile/taste/TasteScreen.kt:240-353 | clicking a load-more toggle twice restores the whole state |
| `TasteTab.SelectionIdempotent` | app/src/main/java/org/listenbrainz/android/ui/screens/profile/taste/TasteScreen.kt:160-165 | clicking "Loved" (or "Hated") twice is the same as clicking it once |
| `TasteTab.AtMostOneIndexOpen` | app/src/main/java/org/listenbrainz/android/ui/screens/profile/taste/TasteScreen.kt:192-197 | at most one index is expanded, and a menu-icon click expands exactly its index, for feedback rows and pin rows alike (they share the index space, lines 288-293) |
| `TasteTab.MenuActionCloses` | app/src/main/java/org/listenbrainz/android/ui/screens/profile/taste/TasteScreen.kt:198-225 | after any run of callbacks that ends in a menu action no menu is open (the same resets are at lines 91-98 and 294-329) |
| `TasteTab.CollapseParity` | app/src/main/java/org/listenbrainz/android/ui/screens/profile/taste/TasteScreen.kt:245 | after any run the feedback list is collapsed iff it started collapsed and the toggle was clicked an even number of times, or started expanded and was clicked an odd number |
| `TasteTab.OpenMenuWasClicked` | app/src/main/java/org/listenbrainz/android/ui/screens/profile/taste/TasteScreen.kt:192-194 | a menu that is open after a run and was not open before it was opened by a click on that index's icon |
| `TasteTab.PlaysComeFromRows` | app/src/main/java/org/listenbrainz/android/ui/screens/profile/taste/TasteScreen.kt:230-234 | earlier calls are kept, and every new play request in a run comes from a tap on a row whose track metadata is present |
| `TasteTab.TasteScreenState.constructor` | app/src/main/java/org/listenbrainz/android/ui/screens/profile/taste/TasteScreen.kt:140-148 | loved is selected, both lists are collapsed, no menu or dialog is open and nothing was called (the dropdown index starts null at lines 79-81) |
| `TasteTab.TasteScreenState.Handle` | app/src/main/java/org/listenbrainz/android/ui/screens/profile/taste/TasteScreen.kt:88-351 | each callback overwrites the state holders so that the new state is `Apply` of the old state and the event |

## Left out

- Rendering: colours, padding, fonts, chip styling (`LovedHatedBar`), list layout, the section heading text and the cards' titles, artists and cover art.
- The backdrop offset and alpha computation in `MainActivity`. It is floating-point animation arithmetic on framework state.
- Spotify connect and disconnect, `startListenService`, navigation, the search screens and the view-model wiring. These are lifecycle plumbing and calls into code that is not part of this model.
- The stored permission preference is a field of `PermissionScreen`. Reading and writing it through the dashboard view model is not modelled, and neither is `updatePermissionPreference`.
- The permission result map is modelled as the sequence of its values. The permission names and `neededPermissions` are not modelled.
- What the dialogs' buttons do is recorded only as `DialogAction`. Launching the request again and opening the system settings are platform calls.
- `OpenInMusicBrainzClicked` records an `OpenUri` effect and closes the menu. The snackbar shown when opening the link throws an `Error` is asynchronous platform I/O and is not modelled. The source catches only `Error` (TasteScreen.kt:219, 323). An `Exception` from the URI handler would propagate and skip the menu reset at lines 224 and 328; the model does not capture that path.
- `activateDialog` is recorded as the dialog kind and the row index. The constant first argument of the dialog bundle is dropped. What the dialogs then do is not modelled: `Dialogs`, `rememberDialogsState` and `ListenDialogBundleKeys` are not part of this model. This includes which list they read the index from.
- The dropdown index is saved across configuration changes while the selection and both collapse flags are not (TasteScreen.kt:79-81 against 140-148). The model has no configuration-change event, so this difference is not captured.
- `searchUsers`, `isCritiqueBrainzLinked`, `onErrorShown` and `onMessageShown` only pass through to view models and are not modelled.
- The review entity type is modelled as a string, because `ReviewEntityType` is not part of this model.
- The nullability of `feedback`, `count` and `pinnedRecordings` inside a present page is not visible. The model takes them as present and lets only the page be absent.
- `Song` keeps only the title, artist and album art. `Log.v` is left out.
- `Extension.kt` and `RecordingTag.kt` are plain records with optional fields and no logic.
