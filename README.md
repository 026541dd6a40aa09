# Authentication wizard and authentication bottom sheet of mwodeola

This project models two small state machines from the presentation layer of the mwodeola Android password manager and proves properties about them.

- `AuthenticationScreen` (`authentication_screen.dfy`) models the multi-page authentication wizard activity, `BaseAuthenticationActivity`.
  - A purpose code (0..6) fixes the number of pages and the role of each page: authentication, password input or password confirmation.
  - The current page index moves forward and backward within bounds.
  - Each page, when created, registers a back-press interceptor under its position. A back press consults that interceptor. When the press is not swallowed, the screen asks for the exit-confirm dialog.
  - The result record holds the purpose, the auth type and a result code. It starts as CANCELLED. `finishForSucceed`, `finishForFailure` or `finishForAuthenticationExceeded` overwrites it. `finishForSucceed` first asks for the switch to biometric authentication when the user opted in.
- `AuthenticationBottomSheet` (`authentication_bottom_sheet.dfy`) models the bottom-sheet variant, `BaseAuthenticationBottomSheet`.
  - Two flags pick the one listener callback a dismissal fires. Success comes first, then the exceeded limit, otherwise failure.
  - An opt-in flag gates the biometric switch.
  - A row of keypad indicators, each checked and/or enabled, is updated by index. Out-of-range indices are ignored. After a failed attempt the row is cleared, together with the password buffer and the page index.

Each Android class is a Dafny `class` whose fields are the state that the source changes in place. Its methods state the whole new state in terms of pure functions: `PageCount`, `FragmentRole`, `Register`, `BackPressEffects`, `NextPage`, `BackPage`, `DismissCallback`, `SetEnabledAt`, `ClearAll` and `CheckAll`. Lemmas about those functions state the properties that hold across several calls.

The model treats the collaborators as follows:
- Presenter calls and dialog requests become ordered logs: the `effects` sequence on the screen, and the `events` sequence on the sheet. The sheet's log holds both the biometric switch and the listener calls, so their order is kept.
- The exit-confirm dialog is a logged request. Its positive button is `ConfirmExit`, which is only available once the request is in the log.
- Each interceptor is abstracted to the boolean its `onInterceptBackPressed()` returns.
- The listener's calls are `Notify` entries in the sheet's `events` log. A missing listener is `hasListener == false`.
- The presenter's `authFailureLimit` is a field, read when the sheet is dismissed.
- The auth type is an opaque number, passed through untouched.

Four behaviours of the code as written are worth noting:
- `moveNextPage` on the last page does nothing. It does not complete the wizard. Only a finish action completes it.
- `onBackPressed`'s own code never moves back a page. When the press is not intercepted, it asks for exit confirmation on every page, not only on page 0.
- There is no terminal-state guard. The finish actions may run again after the screen has finished, and navigation still works.
- For the single-page purposes, `createFragment` returns the authentication page for any position. Only the multi-page purposes reject a position outside the page count.

An invalid purpose, or an invalid position for a multi-page purpose, makes the source throw `IllegalArgumentException`. The model states these cases as `requires` clauses: `ValidPurpose`, `FragmentDefined` and `PageInvariant`. `onCreate` itself accepts any purpose, so the constructor establishes `PageInvariant()` only for a valid one.

The three `*Scenario` methods and `ClickTwice` are client methods. As client code, they show what a caller can conclude from the contracts alone. Examples: a sign-up wizard that only finishes through `finishForSucceed`; a change wizard left from page 0 that reports CANCELLED; an exceeded limit that never switches to biometric.

## Model

| member | source | states |
|---|---|---|
| AuthenticationScreen.PageCount | app/src/main/java/com/jojo/android/mwodeola/presentation/security/screen/BaseAuthenticationActivity.kt:305-314 | the page count is in 1..3, equals the length of the purpose's page-role table, is 1 exactly for AUTH, SCREEN_LOCK, SIGN_IN and DELETE, 2 exactly for SIGN_UP and CREATE, and 3 exactly for CHANGE; other purposes throw |
| AuthenticationScreen.FragmentRole | app/src/main/java/com/jojo/android/mwodeola/presentation/security/screen/BaseAuthenticationActivity.kt:316-334 | within the page count the created role is the table entry for that position; single-page purposes always give the authentication page; a confirmation page is always the last page |
| AuthenticationScreen.ConfirmFollowsInput | app/src/main/java/com/jojo/android/mwodeola/presentation/security/screen/BaseAuthenticationActivity.kt:322-333 | a confirmation page is never first and always comes right after a password-input page |
| AuthenticationScreen.AuthenticationBeforeInputOnlyForChange | app/src/main/java/com/jojo/android/mwodeola/presentation/security/screen/BaseAuthenticationActivity.kt:322-333 | of the multi-page purposes, only CHANGE starts with the authentication page |
| AuthenticationScreen.Register | app/src/main/java/com/jojo/android/mwodeola/presentation/security/screen/BaseAuthenticationActivity.kt:335 | registering a page adds its position to the registry with that page's answer; every other entry is unchanged |
| AuthenticationScreen.BackPressEffects | app/src/main/java/com/jojo/android/mwodeola/presentation/security/screen/BaseAuthenticationActivity.kt:122-129 | a back press requests nothing exactly when the current page is registered and intercepts; otherwise it requests exactly one exit-confirm dialog |
| AuthenticationScreen.BackPressAfterRegister | app/src/main/java/com/jojo/android/mwodeola/presentation/security/screen/BaseAuthenticationActivity.kt:122-129 | after a page registers, back presses on that page follow that page's answer alone, and back presses on other pages behave as before |
| AuthenticationScreen.NextPage | app/src/main/java/com/jojo/android/mwodeola/presentation/security/screen/BaseAuthenticationActivity.kt:257-261 | the page advances by one exactly when it is before the last page, otherwise it stays; an in-range page stays in range |
| AuthenticationScreen.BackPage | app/src/main/java/com/jojo/android/mwodeola/presentation/security/screen/BaseAuthenticationActivity.kt:251-255 | the page goes back by one exactly when it is above 0, otherwise it stays; it never goes below 0 |
| AuthenticationScreen.NavigateStaysInRange | app/src/main/java/com/jojo/android/mwodeola/presentation/security/screen/BaseAuthenticationActivity.kt:251-261 | no sequence of next and back moves takes the page index out of [0, pageCount-1] |
| AuthenticationScreen.ForwardStopsAtLastPage | app/src/main/java/com/jojo/android/mwodeola/presentation/security/screen/BaseAuthenticationActivity.kt:257-261 | k forward moves reach page + k, or the last page when that is further; the last page is never passed |
| AuthenticationScreen.BackwardStopsAtFirstPage | app/src/main/java/com/jojo/android/mwodeola/presentation/security/screen/BaseAuthenticationActivity.kt:251-255 | k backward moves reach page - k, or page 0 when that is lower |
| AuthenticationScreen.BaseAuthenticationActivity.constructor | app/src/main/java/com/jojo/android/mwodeola/presentation/security/screen/BaseAuthenticationActivity.kt:85-99 | the purpose is the supplied extra, defaulting to PURPOSE_AUTH; the result holds the purpose, the auth type and CANCELLED; the activity result is RESULT_CANCELED; the screen starts on page 0 with no interceptors, no opt-in and no requests |
| AuthenticationScreen.BaseAuthenticationActivity.CreateFragment | app/src/main/java/com/jojo/android/mwodeola/presentation/security/screen/BaseAuthenticationActivity.kt:316-335 | returns the role for the position and registers the new page under that position, leaving the other entries alone |
| AuthenticationScreen.BaseAuthenticationActivity.MoveNextPage | app/src/main/java/com/jojo/android/mwodeola/presentation/security/screen/BaseAuthenticationActivity.kt:257-261 | only the page index changes, as NextPage says; the page stays in range; the result and the finished flag are untouched |
| AuthenticationScreen.BaseAuthenticationActivity.MoveBackPage | app/src/main/java/com/jojo/android/mwodeola/presentation/security/screen/BaseAuthenticationActivity.kt:251-255 | only the page index changes, as BackPage says; an in-range page stays in range |
| AuthenticationScreen.BaseAuthenticationActivity.OnBackPressed | app/src/main/java/com/jojo/android/mwodeola/presentation/security/screen/BaseAuthenticationActivity.kt:122-129 | appends the BackPressEffects of the current page to the request log; the page index and everything else are unchanged |
| AuthenticationScreen.BaseAuthenticationActivity.ConfirmExit | app/src/main/java/com/jojo/android/mwodeola/presentation/security/screen/BaseAuthenticationActivity.kt:283-288 | once a back press has requested the dialog, its positive button finishes the screen and leaves the result as it is |
| AuthenticationScreen.BaseAuthenticationActivity.ClickBiometricConfirm | app/src/main/java/com/jojo/android/mwodeola/presentation/security/screen/BaseAuthenticationActivity.kt:134-137 | each click flips the biometric opt-in and changes nothing else |
| AuthenticationScreen.BaseAuthenticationActivity.FinishForSucceed | app/src/main/java/com/jojo/android/mwodeola/presentation/security/screen/BaseAuthenticationActivity.kt:225-232 | requests the biometric switch exactly when opted in; sets the result code to SUCCEED (0) and the activity result to RESULT_OK; finishes |
| AuthenticationScreen.BaseAuthenticationActivity.FinishForFailure | app/src/main/java/com/jojo/android/mwodeola/presentation/security/screen/BaseAuthenticationActivity.kt:234-238 | sets the result code to CANCELLED (1) and the activity result to RESULT_CANCELED; finishes; no biometric request |
| AuthenticationScreen.BaseAuthenticationActivity.FinishForAuthenticationExceeded | app/src/main/java/com/jojo/android/mwodeola/presentation/security/screen/BaseAuthenticationActivity.kt:240-244 | sets the result code to EXCEEDED_AUTH_LIMIT (2) and the activity result to RESULT_CANCELED; finishes; no biometric request |
| AuthenticationScreen.SignUpScenario | app/src/main/java/com/jojo/android/mwodeola/presentation/security/screen/BaseAuthenticationActivity.kt:148-156 | a sign-up wizard that creates its two pages, moves forward twice and confirms its completion dialog ends finished with SUCCEED and no collaborator requests (its body also asserts that the second forward move leaves it on page 1 and unfinished) |
| AuthenticationScreen.ChangeExitScenario | app/src/main/java/com/jojo/android/mwodeola/presentation/security/screen/BaseAuthenticationActivity.kt:283-288 | a back press on page 0 of a change wizard asks for exit confirmation; confirming finishes the wizard with CANCELLED |
| AuthenticationScreen.ExceededScenario | app/src/main/java/com/jojo/android/mwodeola/presentation/security/screen/BaseAuthenticationActivity.kt:185-193 | after an opt-in, an exceeded limit finishes the wizard with EXCEEDED_AUTH_LIMIT and never requests the biometric switch |
| AuthenticationBottomSheet.DismissCallback | app/src/main/java/com/jojo/android/mwodeola/presentation/security/bottmSheet/BaseAuthenticationBottomSheet.kt:84-91 | onSucceed exactly when the succeed flag is set; onExceedAuthLimit with the limit exactly when the succeed flag is clear and the exceed flag is set; onFailure exactly when both flags are clear |
| AuthenticationBottomSheet.DismissEvents | app/src/main/java/com/jojo/android/mwodeola/presentation/security/bottmSheet/BaseAuthenticationBottomSheet.kt:82-92 | a dismissal delivers exactly one callback, the one DismissCallback selects, or none when there is no listener; it never requests the biometric switch |
| AuthenticationBottomSheet.SetEnabledAt | app/src/main/java/com/jojo/android/mwodeola/presentation/security/bottmSheet/BaseAuthenticationBottomSheet.kt:125-144 | only the indicator at the index changes, and only its enabled state; an out-of-range index changes nothing; the length is kept |
| AuthenticationBottomSheet.LastEnableWins | app/src/main/java/com/jojo/android/mwodeola/presentation/security/bottmSheet/BaseAuthenticationBottomSheet.kt:125-144 | of two updates of the same indicator, the later one decides |
| AuthenticationBottomSheet.SetEnabledAtCommutes | app/src/main/java/com/jojo/android/mwodeola/presentation/security/bottmSheet/BaseAuthenticationBottomSheet.kt:125-144 | updates of different indicators commute |
| AuthenticationBottomSheet.AppendThenRemove | app/src/main/java/com/jojo/android/mwodeola/presentation/security/bottmSheet/BaseAuthenticationBottomSheet.kt:125-144 | appending and then removing an indicator leaves the row as a single removal does |
| AuthenticationBottomSheet.ClearAll | app/src/main/java/com/jojo/android/mwodeola/presentation/security/bottmSheet/BaseAuthenticationBottomSheet.kt:146-151 | clearing keeps the length and leaves every indicator unchecked and disabled |
| AuthenticationBottomSheet.CheckAll | app/src/main/java/com/jojo/android/mwodeola/presentation/security/bottmSheet/BaseAuthenticationBottomSheet.kt:168 | the start action keeps the length, checks every indicator and keeps every enabled state |
| AuthenticationBottomSheet.ClearAllDependsOnLengthOnly | app/src/main/java/com/jojo/android/mwodeola/presentation/security/bottmSheet/BaseAuthenticationBottomSheet.kt:146-151 | two rows of the same length clear to the same row |
| AuthenticationBottomSheet.ClearAllIdempotent | app/src/main/java/com/jojo/android/mwodeola/presentation/security/bottmSheet/BaseAuthenticationBottomSheet.kt:146-151 | clearing twice is the same as clearing once |
| AuthenticationBottomSheet.ClearErasesUpdates | app/src/main/java/com/jojo/android/mwodeola/presentation/security/bottmSheet/BaseAuthenticationBottomSheet.kt:163-175 | the final clear erases both the start action's checking and any earlier enable or disable |
| AuthenticationBottomSheet.BaseAuthenticationBottomSheet.constructor | app/src/main/java/com/jojo/android/mwodeola/presentation/security/bottmSheet/BaseAuthenticationBottomSheet.kt:55-60 | the sheet starts with no indicators, an empty password buffer, all three flags clear and nothing dismissed or called |
| AuthenticationBottomSheet.BaseAuthenticationBottomSheet.Dismiss | app/src/main/java/com/jojo/android/mwodeola/presentation/security/bottmSheet/BaseAuthenticationBottomSheet.kt:82-92 | marks the sheet dismissed and appends exactly the DismissEvents of the current flags; the flags are unchanged |
| AuthenticationBottomSheet.BaseAuthenticationBottomSheet.DismissForSucceed | app/src/main/java/com/jojo/android/mwodeola/presentation/security/bottmSheet/BaseAuthenticationBottomSheet.kt:94-101 | logs the biometric switch exactly when opted in, and before the listener call; sets the succeed flag; dismisses; the one callback is onSucceed |
| AuthenticationBottomSheet.BaseAuthenticationBottomSheet.DismissForExceedAuthLimit | app/src/main/java/com/jojo/android/mwodeola/presentation/security/bottmSheet/BaseAuthenticationBottomSheet.kt:103-106 | sets the exceed flag and dismisses; the callback is onExceedAuthLimit(limit) unless the succeed flag was already set, in which case it is onSucceed; no biometric request |
| AuthenticationBottomSheet.BaseAuthenticationBottomSheet.ClickBiometricConfirm | app/src/main/java/com/jojo/android/mwodeola/presentation/security/bottmSheet/BaseAuthenticationBottomSheet.kt:113-114 | each click flips the biometric opt-in and changes nothing else |
| AuthenticationBottomSheet.ClickTwice | app/src/main/java/com/jojo/android/mwodeola/presentation/security/bottmSheet/BaseAuthenticationBottomSheet.kt:113-114 | two clicks restore the original opt-in |
| AuthenticationBottomSheet.BaseAuthenticationBottomSheet.AppendToggleAt | app/src/main/java/com/jojo/android/mwodeola/presentation/security/bottmSheet/BaseAuthenticationBottomSheet.kt:125-140 | the row becomes SetEnabledAt(row, index, true), so only that indicator becomes enabled |
| AuthenticationBottomSheet.BaseAuthenticationBottomSheet.RemoveToggleAt | app/src/main/java/com/jojo/android/mwodeola/presentation/security/bottmSheet/BaseAuthenticationBottomSheet.kt:142-144 | the row becomes SetEnabledAt(row, index, false), so only that indicator becomes disabled |
| AuthenticationBottomSheet.BaseAuthenticationBottomSheet.ClearToggle | app/src/main/java/com/jojo/android/mwodeola/presentation/security/bottmSheet/BaseAuthenticationBottomSheet.kt:146-151 | the loop over the row leaves it equal to ClearAll of the old row: the same length, every indicator unchecked and disabled |
| AuthenticationBottomSheet.BaseAuthenticationBottomSheet.AuthFailureStartAction | app/src/main/java/com/jojo/android/mwodeola/presentation/security/bottmSheet/BaseAuthenticationBottomSheet.kt:167-170 | the loop over the row leaves it equal to CheckAll of the old row: every indicator checked, enabled states kept |
| AuthenticationBottomSheet.BaseAuthenticationBottomSheet.AuthFailureEndAction | app/src/main/java/com/jojo/android/mwodeola/presentation/security/bottmSheet/BaseAuthenticationBottomSheet.kt:171-175 | clears the row, empties the password buffer and returns to page 0 |
| AuthenticationBottomSheet.BaseAuthenticationBottomSheet.ShowAuthFailure | app/src/main/java/com/jojo/android/mwodeola/presentation/security/bottmSheet/BaseAuthenticationBottomSheet.kt:163-177 | after the whole failure sequence the row is cleared, the password buffer is empty and the page index is 0 |

## Left out

- Everything in `MainActivity.kt` is left out. It is screen wiring. Its double-back-press flag is reset by a background timer, which is concurrency behaviour rather than a sequential rule.
- The presenter's `loadAuthFailureCount`, `checkBiometricEnroll` and `hasNewBiometricEnrolled` are left out, and `changeAuthTypeToBiometric` is only recorded as a request. Their behaviour is behind a presenter contract that is not part of this model.
- The `userName`, `userEmail` and `userPhoneNumber` extras that `onCreate` copies into the presenter are left out. They are passed through and never read by this logic.
- Dialog construction, header texts, window flags, status-bar and navigation-bar colours, button tints and alpha values are left out. They are rendering only. The exit-confirm dialog is kept as a logged request plus its positive button, `ConfirmExit`.
- The animations and the vibration are left out, and so are the dialog sizing and the delayed background change of the bottom sheet. They are platform effects with floating-point display arithmetic. Only the state changes in the start and end actions of `showAuthFailure` are modelled, each as one atomic step.
- Android framework mechanics are left out: `Intent` extras, `setResult`, `finish`, the `FragmentStateAdapter` and `ViewPager2`, `currentFragment` and the fragment manager. They are abstracted to plain fields: the result record, the activity result, the finished flag and the current page.
- The keypad handlers that type into the password buffer and create the indicator views belong to subclasses that are not part of this model. The model holds the buffer and the row as fields those handlers may change.
- The dialogs that call the finish and dismiss actions (completed, exceeded, dormant, locked, not found) are left out. Their only logic is the action their confirm button calls, and those actions are modelled.
- OnBackPressed: each interceptor is a fixed boolean per registered page. The model does not capture a fragment whose `onInterceptBackPressed()` answer changes over time. It also leaves out what the interceptor itself does when called: a page may move the page index (through the public `moveBackPage` and `moveNextPage`) or finish the screen. The promise that the page index is unchanged covers only `onBackPressed`'s own code.
- SetEnabledAt: the row is a sequence of indicator values, while the source holds references to indicator views. The model assumes that each view appears in the row once. A view listed twice would change at two indices, which the model does not capture.
