# Barcode scanner app: a Dafny model of its decision logic

This project models the parts of the barcode/QR scanner app that make decisions. Around them the app is rendering only. The parts are:

- **History store** (`BarcodeHistory`). A most-recent-first list of scan records under one storage key. A save prepends and cuts the list to 1000 entries, a delete filters by id, and a clear removes the key. Reads degrade to the empty list.
- **Settings store** (`BarcodeSettings`). The stored list of enabled code types. It falls back to the platform's default list. Enable appends when absent, disable filters, and enable-all / disable-all overwrite. A membership check fails open.
- **Platform defaults** (`Constants`). The iOS and Android identifier lists and the platform selector.
- **Scan session** (`CameraView`). The camera screen's callbacks: accepting a detection with de-duplication, closing the result sheet and the 1000 ms settle timer, the permission result, the torch toggle and the choice of screen.
- **Result sheet** (`ScanResultModal`). The `isUrl` test, the address "Open URL" opens, the guards on empty values, the type caption and the empty render for a missing code.
- **Foreground detector** (`AppStateHook`). The `change` listener of `useAppState`, which calls `onForeground` on an inactive/background → active move.

`JsString` models the JavaScript string methods used (`startsWith`, `includes`, `toUpperCase`). `Barcode` holds the record types, and `Wrappers` holds `Option` and `Outcome`.

How the external world appears:

- AsyncStorage is one slot per key: nothing stored, a parsed payload, or `Unreadable` (`getItem` threw or `JSON.parse` failed). JSON encoding is an exact round trip.
- Each write takes a parameter `accepted` that says whether the storage layer took it. A rejected write leaves the slot unchanged, and the operation returns `Fail`. This models the rethrown error.
- Ids and timestamps (`Date.now()`, `Math.random()`) are parameters of `SaveBarcode`.
- The settle timer is an explicit event. `pendingSettles` counts the timers that are scheduled but have not fired.
- The `onForeground` callback is a call counter.
- The camera hooks' `hasPermission` and device are parameters of the render.

Behaviours of note:

- `deleteBarcode` removes every record with the given id (services/barcode-history.ts:70).
- `getEnabledTypes` catches a failed read itself and returns the platform list. So after a failed read `isTypeEnabled` answers with membership in that list, and an unsupported type reads as disabled (`UnreadableUsesPlatformList`). `isTypeEnabled`'s `return true` is reached only when the stored `enabledTypes` is truthy and not a list (`NonListFailsOpen`).
- The camera screen never saves to the history store and never reads the settings store. It passes the platform list straight to the scanner (components/ui/camera-view.tsx:54-57). The pieces are modelled as the code wires them.

## Model

| member | source | states |
|---|---|---|
| `JsString.IncludesIffOccurs` | components/ui/scan-result-modal.tsx:100 | `includes` holds exactly when the pattern occurs at some index |
| `JsString.IncludesChar` | components/ui/scan-result-modal.tsx:100 | `includes` of a one-character pattern is membership of that character |
| `JsString.ShorterExcludes` | hooks/use-app-state.ts:17 | a pattern longer than the text never occurs in it |
| `JsString.StartsWith` | components/ui/scan-result-modal.tsx:98-99 | a string that starts with a prefix agrees with it on every position of the prefix; `StartsWithConcat` shows any prefix put in front is found |
| `JsString.Includes` | components/ui/scan-result-modal.tsx:100 | a pattern that is found is no longer than the text; `IncludesIffOccurs` characterises it exactly |
| `JsString.ToUpperCase` | components/ui/scan-result-modal.tsx:150 | upper-casing keeps the length and maps each character on its own |
| `JsString.UpperCaseIsUpper` | components/ui/scan-result-modal.tsx:150 | upper-cased text has no lower-case letter, and upper-casing is idempotent |
| `Constants.SupportedBarcodeTypes` | constants/constants.ts:40 | the supported list has no duplicates on any platform, contains every Android identifier and only iOS identifiers |
| `Constants.IosListOnlyOnIos` | constants/constants.ts:40 | the iOS list is chosen iff the platform is iOS, and the Android list otherwise |
| `Constants.DefaultListSizes` | constants/constants.ts:4-37 | the iOS list has 16 identifiers and the Android list 13 |
| `Constants.NoDuplicateIdentifiers` | constants/constants.ts:4-37 | neither list repeats an identifier |
| `Constants.AndroidIsIosMinusThree` | constants/constants.ts:4-37 | Android ⊆ iOS, and the difference is exactly gs1-data-bar-expanded, gs1-data-bar-limited and itf-14 |
| `BarcodeHistory.ReadHistory` | services/barcode-history.ts:39-50 | an absent or unreadable entry reads as the empty list, and a non-empty read is exactly the stored list |
| `BarcodeHistory.NewRecord` | services/barcode-history.ts:17-21 | the saved record carries the caller's type, value, validity and error unchanged, plus the given id and timestamp |
| `BarcodeHistory.Take` | services/barcode-history.ts:27 | `slice(0, n)` is the prefix of length min(len, n) |
| `BarcodeHistory.Prepended` | services/barcode-history.ts:23-27 | after a save the new record is first, the rest is a prefix of the old history in order, and the length is min(old + 1, 1000) |
| `BarcodeHistory.SaveRespectsCap` | services/barcode-history.ts:24-27 | the stored list never exceeds `MAX_HISTORY_ITEMS`; below the cap nothing is dropped |
| `BarcodeHistory.SaveDropsOnlyOldest` | services/barcode-history.ts:24-27 | the old history is the kept entries followed by a dropped tail; the tail is non-empty iff the list was at the cap |
| `BarcodeHistory.SaveShiftsByOne` | services/barcode-history.ts:24-27 | every kept older entry moves down exactly one position |
| `BarcodeHistory.SaveOverUnreadableDiscardsIt` | services/barcode-history.ts:16-29 | a save over an unreadable entry stores the new record alone, discarding the old entry |
| `BarcodeHistory.WithoutId` | services/barcode-history.ts:70 | delete keeps exactly the records whose id differs from the given one |
| `BarcodeHistory.WithoutIdConcat` | services/barcode-history.ts:70 | the filter distributes over concatenation, so survivors keep their order |
| `BarcodeHistory.WithoutAbsentId` | services/barcode-history.ts:69-71 | deleting an absent id leaves the list unchanged |
| `BarcodeHistory.DeleteIdempotent` | services/barcode-history.ts:69-71 | deleting the same id twice equals deleting it once |
| `BarcodeHistory.DeleteCount` | services/barcode-history.ts:70 | delete shortens the list by the number of records carrying the id |
| `BarcodeHistory.BarcodeHistoryService.GetHistory` | services/barcode-history.ts:39-50 | the stored list, or the empty list when nothing is stored or the entry is unreadable |
| `BarcodeHistory.BarcodeHistoryService.GetHistoryCount` | services/barcode-history.ts:81-89 | the count is the length of the history, and 0 when nothing usable is stored |
| `BarcodeHistory.BarcodeHistoryService.SaveBarcode` | services/barcode-history.ts:14-34 | a successful save stores the capped prepend of the current history; a failed write is reported and changes nothing |
| `BarcodeHistory.BarcodeHistoryService.SetItem` | services/barcode-history.ts:29 | one `setItem`/`removeItem`: an accepted write replaces the entry, a rejected one reports the failure and changes nothing |
| `BarcodeHistory.BarcodeHistoryService.ClearHistory` | services/barcode-history.ts:55-62 | after a successful clear the history reads as empty; a failed removal is reported |
| `BarcodeHistory.BarcodeHistoryService.DeleteBarcode` | services/barcode-history.ts:67-76 | a successful delete stores the filtered history; a failed write is reported and changes nothing |
| `BarcodeSettings.ReadEnabledTypes` | services/barcode-settings.ts:19-33 | a non-list value is returned iff one is stored; an absent, unreadable or missing field gives the platform list; a stored list is returned as stored (see `DefaultWhenUnset`) |
| `BarcodeSettings.TypeEnabled` | services/barcode-settings.ts:53-61 | a type is disabled only when a list was read and the type is not in it; otherwise it is enabled (see `NonListFailsOpen`) |
| `BarcodeSettings.WithType` | services/barcode-settings.ts:68-71 | enable puts the type in the list and keeps the old list as a prefix; it leaves the list as it is iff the type was present, and otherwise adds exactly one entry |
| `BarcodeSettings.WithoutType` | services/barcode-settings.ts:84 | disable keeps exactly the entries different from the type, each as often as before: the multiset loses all copies of the type and nothing else |
| `BarcodeSettings.DefaultWhenUnset` | services/barcode-settings.ts:19-33 | no entry, an unreadable entry or a missing field all read as the platform list |
| `BarcodeSettings.StoredListReadsBack` | services/barcode-settings.ts:38-43 | a stored list reads back verbatim |
| `BarcodeSettings.StoredEmptyDisablesAll` | services/barcode-settings.ts:27 | a stored empty list is kept, not defaulted, so every type is disabled |
| `BarcodeSettings.NonListFailsOpen` | services/barcode-settings.ts:53-61 | when the membership check throws, the type counts as enabled |
| `BarcodeSettings.UnreadableUsesPlatformList` | services/barcode-settings.ts:28-32 | after a failed read, a type is enabled iff it is in the platform list |
| `BarcodeSettings.WithoutTypeConcat` | services/barcode-settings.ts:84 | the filter distributes over concatenation, so the remaining types keep their order |
| `BarcodeSettings.WithoutAbsentType` | services/barcode-settings.ts:81-85 | disabling an absent type leaves the list unchanged |
| `BarcodeSettings.EnableDisableIdempotent` | services/barcode-settings.ts:66-90 | enabling twice equals enabling once, and disabling twice equals disabling once |
| `BarcodeSettings.DisableAfterEnable` | services/barcode-settings.ts:66-90 | disable after enable equals disable alone |
| `BarcodeSettings.EnableAfterDisable` | services/barcode-settings.ts:66-90 | enable after disable moves the type to the end |
| `BarcodeSettings.BarcodeSettingsService.GetEnabledTypes` | services/barcode-settings.ts:19-33 | the stored list when the field is a list, the stored value (`NonList`) when it is a truthy non-list, otherwise the platform list |
| `BarcodeSettings.BarcodeSettingsService.IsTypeEnabled` | services/barcode-settings.ts:53-61 | membership in the enabled list, or true when the check throws |
| `BarcodeSettings.BarcodeSettingsService.SetEnabledTypes` | services/barcode-settings.ts:38-48 | stores the list verbatim, which a later read returns; a failed write is rethrown and changes nothing |
| `BarcodeSettings.BarcodeSettingsService.EnableType` | services/barcode-settings.ts:66-76 | appends the type (`WithType`) only when absent, with no write when present; a non-list value or a failed write is reported; on success the type is enabled |
| `BarcodeSettings.BarcodeSettingsService.DisableType` | services/barcode-settings.ts:81-90 | writes the filtered list; a non-list value or a failed write is reported; on success the type is disabled |
| `BarcodeSettings.BarcodeSettingsService.EnableAllTypes` | services/barcode-settings.ts:95-102 | stores the platform list, after which a type is enabled iff it is supported |
| `BarcodeSettings.BarcodeSettingsService.DisableAllTypes` | services/barcode-settings.ts:107-114 | stores the empty list, after which no type is enabled |
| `ScanResultModal.IsUrl` | components/ui/scan-result-modal.tsx:97-101 | only a present, non-empty value can be a URL; `IsUrlIff` gives the exact condition |
| `ScanResultModal.OpenUrlTarget` | components/ui/scan-result-modal.tsx:77-82 | an address is produced iff the value is present and non-empty, and it always has a web scheme (see `UrlForCases`) |
| `ScanResultModal.CopyText` | components/ui/scan-result-modal.tsx:65-69 | copy produces text iff the value is present and non-empty, and the text is the value itself |
| `ScanResultModal.TypeLabel` | components/ui/scan-result-modal.tsx:150 | the caption is never empty; `TypeLabelSpec` states it in full |
| `ScanResultModal.UrlFor` | components/ui/scan-result-modal.tsx:80-82 | the address always has a web scheme and ends with the scanned value |
| `ScanResultModal.Render` | components/ui/scan-result-modal.tsx:103 | the sheet renders iff there is a code, with the given visibility |
| `ScanResultModal.EmptyValueGuards` | components/ui/scan-result-modal.tsx:65-78 | an absent or empty value is not a URL, and copy and open-URL do nothing |
| `ScanResultModal.IsUrlIff` | components/ui/scan-result-modal.tsx:97-101 | a non-empty value is a URL iff it starts with http:// or https:// or contains '.' |
| `ScanResultModal.UrlForCases` | components/ui/scan-result-modal.tsx:80-82 | the value is kept iff it has a web scheme; otherwise https:// is put before it |
| `ScanResultModal.UrlForIdempotent` | components/ui/scan-result-modal.tsx:80-82 | building the address twice equals building it once |
| `ScanResultModal.OpenUrlButtonOpensWebAddress` | components/ui/scan-result-modal.tsx:179-186 | whenever the Open URL button is shown, it opens an address with a web scheme |
| `ScanResultModal.DottedValueOpensOverHttps` | components/ui/scan-result-modal.tsx:97-100 | "example.com" counts as a URL and opens as https://example.com |
| `ScanResultModal.TypeLabelSpec` | components/ui/scan-result-modal.tsx:150 | the caption is non-empty with no lower-case letter: the upper-cased type, or UNKNOWN for an absent or empty type |
| `ScanResultModal.UnknownTypeCaption` | components/ui/scan-result-modal.tsx:150 | type "unknown" and no type get the same caption |
| `CameraView.Accepts` | components/ui/camera-view.tsx:42 | an accepted code has a non-empty value different from the held one; with nothing held, every code with a non-empty value is accepted |
| `CameraView.OnCodeScanned` | components/ui/camera-view.tsx:37-52 | the sheet is shown afterwards iff it was already shown or the first code is accepted; any change records that code and stops scanning; permission, torch, initialisation and timers are untouched (see `AcceptanceIff`) |
| `CameraView.CloseModal` | components/ui/camera-view.tsx:82-89 | hides the sheet and schedules one timer, keeping the held value and the scanning flag until it fires |
| `CameraView.Settle` | components/ui/camera-view.tsx:85-88 | the timer resumes scanning and clears the held value; every other field, the sheet and the shown code included, stays as it was |
| `CameraView.PermissionResult` | components/ui/camera-view.tsx:68-80 | permission is denied iff the request did not resolve to true (see `PermissionDeniedIff`) |
| `CameraView.ToggleTorch` | components/ui/camera-view.tsx:121-123 | the torch flag flips (see `TorchToggle`) |
| `CameraView.FinishInitializing` | components/ui/camera-view.tsx:60-65 | initialisation ends and nothing else changes |
| `CameraView.RenderScreen` | components/ui/camera-view.tsx:103-140 | the screen order is loading, then permission, then missing device, then camera; each screen shows the current flags |
| `CameraView.InvariantPreserved` | components/ui/camera-view.tsx:36-89 | every callback keeps these facts: nothing is held while scanning, a held value is non-empty, a shown sheet has a code |
| `CameraView.DetectionIgnored` | components/ui/camera-view.tsx:38 | an empty batch, or any batch while the sheet is shown, changes nothing |
| `CameraView.OnlyFirstCodeCounts` | components/ui/camera-view.tsx:39 | only the first code of a batch is considered |
| `CameraView.AcceptanceIff` | components/ui/camera-view.tsx:38-47 | with the sheet hidden, a code is accepted iff its value is non-empty and differs from the last accepted one; acceptance sets exactly the value, code, sheet and scanning flags |
| `CameraView.BeforeSettle` | components/ui/camera-view.tsx:82-89 | after close and before the timer, the same value is refused and a different one is accepted |
| `CameraView.AfterSettle` | components/ui/camera-view.tsx:85-88 | the timer resumes scanning and clears the held value, so the same value is accepted again |
| `CameraView.DebounceScenario` | components/ui/camera-view.tsx:36-89 | a value held in frame is accepted once; after close and settle it is accepted a second time |
| `CameraView.EarlierTimerFiresDuringLaterResult` | components/ui/camera-view.tsx:82-89 | an earlier close's timer can fire while a later result is shown, leaving scanning on with the sheet up |
| `CameraView.PermissionDeniedIff` | components/ui/camera-view.tsx:68-80 | permission is marked denied iff the request did not resolve to true; nothing else changes |
| `CameraView.TorchToggle` | components/ui/camera-view.tsx:121-123 | the torch flips and nothing else changes; two toggles restore the state |
| `CameraView.CameraViewComponent.constructor` | components/ui/camera-view.tsx:25-32 | the initial state: initialising, not denied, no code, sheet hidden, torch off, scanning, nothing held |
| `CameraView.CameraViewComponent.CheckPermission` | components/ui/camera-view.tsx:60-65 | the mount effect ends initialisation |
| `CameraView.CameraViewComponent.OnCodeScannedCallback` | components/ui/camera-view.tsx:37-52 | the callback moves the state as `OnCodeScanned` does |
| `CameraView.CameraViewComponent.HandleCloseModal` | components/ui/camera-view.tsx:82-89 | hides the sheet and schedules one settle timer |
| `CameraView.CameraViewComponent.SettleTimerFires` | components/ui/camera-view.tsx:85-88 | the timer body resumes scanning and clears the held value |
| `CameraView.CameraViewComponent.HandleRequestPermission` | components/ui/camera-view.tsx:68-80 | sets the denied flag from how the request settled |
| `CameraView.CameraViewComponent.HandleToggleTorch` | components/ui/camera-view.tsx:121-123 | flips the torch |
| `CameraView.CameraViewComponent.Render` | components/ui/camera-view.tsx:103-140 | renders the screen `RenderScreen` selects for the current fields |
| `AppStateHook.ComesToForeground` | hooks/use-app-state.ts:16-19 | the listener's test holds iff the previous status is inactive or background and the next is active |
| `AppStateHook.MatchesExactly` | hooks/use-app-state.ts:17 | the regular expression for inactive or background matches exactly the statuses inactive and background |
| `AppStateHook.NoCallbackOutsideForegroundMoves` | hooks/use-app-state.ts:16-19 | active→active, active→background, background→inactive and unknown→active never call back |
| `AppStateHook.AppStateListener.constructor` | hooks/use-app-state.ts:9-12 | the ref and the returned state start at the status at mount |
| `AppStateHook.AppStateListener.OnChange` | hooks/use-app-state.ts:15-26 | fires iff inactive/background → active; calls the callback only when one was supplied; the ref and the returned status always become the new status |

## Left out

- Asynchrony and concurrency. Every operation runs to completion before the next one starts. The read-modify-write races between overlapping saves or settings writes are not modelled. Neither are stale `useCallback` closures or several events landing before React re-renders.
- JSON. A stored history that parses to something other than a list (spreading it would throw) is not modelled. Neither is a stored `enabledTypes` that is a string, whose `includes` would be a substring test. `Unreadable` stands for a failed `getItem` or `JSON.parse`.
- Id and timestamp generation. Both are parameters. Id uniqueness is not claimed, because the code does not guarantee it.
- Logging (`console.log`, `console.error`), haptics, `Alert`, `Clipboard`, `Linking.canOpenURL`/`openURL` and `Linking.openSettings` are platform calls. Only the address and the clipboard text handed to them are modelled.
- Animations, styles and layout, including the purely presentational components (camera-overlay, permission-request-screen, loading-screen, no-camera-device-error) and camera-utils.ts.
- Camera plumbing. `useCameraDevice`, `useCameraPermission`, `useCodeScanner` and frame decoding are external. Their results enter as parameters.
- `handleToggleTorch` (components/ui/camera-view.tsx:121) calls `useCallback` after the early returns, so that hook runs only in the camera branch. The first render always takes the loading branch, because `isInitializing` starts true. So the first re-render that reaches the camera branch calls one hook more than the render before it, and React's rules of hooks make it throw ("Rendered more hooks than during the previous render"). The model does not capture this. `RenderScreen` returns `CameraScreen` where the app would fail on such a render, so that result describes the intended screen, not what the app shows after a loading or permission render.
- Timers still pending when the camera screen unmounts, and the removal of the app-state subscription on unmount.
- `JsString.ToUpperCase`: maps ASCII letters only. Code-type identifiers are ASCII; full Unicode case mapping is not modelled.
- The app's barcode normaliser and validator live outside the modelled files and are not part of this model.
