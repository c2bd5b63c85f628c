# Rapid Response Team front end — a Dafny model

The Rapid Response Team app is a React prototype for animal rescue. A citizen signs in
with a phone number and a one-time code, raises an SOS, attaches photo or video proof,
chats with volunteers, reads notifications, fills in a profile and reports users or bugs.
The app runs in English or Hindi. It keeps its session, SOS state and language in
`localStorage`.

This project models the app's logic in Dafny. Each React provider or screen becomes one
module:

- React state that handlers update becomes the fields of a `class`, changed by `method`s
  that state the whole new state.
- The decisions those handlers take are module-level functions. Lemmas prove the
  properties the app relies on.
- `localStorage` is a class over a `map<string, string>`.
- `JSON.parse` and `JSON.stringify` are a pair of functions supplied from outside
  (`Json.Codec`); parsing returns `None` where JavaScript throws.
- Timers become explicit step methods such as `TimerFires`, `ReplyArrives` and
  `SubmissionResolves`, each with a counter of the timers still running.
- The clock (`Date.now()`, `toLocaleTimeString`) is a parameter.
- Navigation is the route a method returns.

Modules:

- Shared:
  - `Wrappers`: `Option` and `Result`.
  - `Json`: JSON scalars, truthiness and the codec.
  - `Storage`: `localStorage`.
  - `Strings`: JavaScript's `trim`, the `/\D/g` filter, `slice`, `split(' ')`-based
    initials, `replace` with a string pattern, number printing and `padStart`.
- One per source file:
  - `SosContext`, `LanguageContext`, `AuthContext` and `LocationContext`: the providers.
  - `LocationService`: the geolocation-backed store and its module-level cache.
  - `DigitInput`: the digit-box row shared by `OtpScreen` and `LoginScreen`.
  - The screens: `SosActiveScreen`, `NotificationsScreen`, `ChatScreen`,
    `ProfileScreen`, `AddProofScreen`, `CommunityScreen`, `UserProfileScreen`,
    `ReportUserScreen` and `ReportBugScreen`.
  - The components: `BottomNav` and `LanguageSwitcher`.

Some behaviours of the code are easy to miss; the model follows the code in each:

- **A storage event adopts any parsed SOS record.** The startup load keeps only a record
  that is active and has a truthy timestamp. A cross-tab storage event adopts whatever
  parses, without that check (`SosContext.StorageEventAdoptsUncheckedRecord`).
- **A timestamp of 0 counts as no timestamp.** An `activatedAt` of 0 is falsy, so such a
  record reports 0 elapsed seconds (`SosContext.ElapsedScenario`).
- **The SOS-active screen ignores the SOS store.** It runs its own 150-second countdown
  from the moment it mounts.
- **`updateUser` signs the user in after a reload.** It always stores
  `isAuthenticated: true`, even when nobody is signed in
  (`AuthContext.UpdateWhileSignedOutSignsInAfterReload`).
- **The geolocation store's `updateLocation` starts from the module cache.** It overlays
  the new fields on the shared cache, not on the provider's own copy.
- **`detectLocation` in the location context has no guard.** It always starts another
  timer; only `refreshLocation` checks `isLocating`.
- **The report screens clear text typed during a submission.** When the one-second
  submission ends, they clear their fields whatever was typed in the meantime.

One behaviour is modelled as intended rather than as written: the language guard
(see Findings).

## Model

| member | source | states |
|---|---|---|
| SosContext.SosProvider.constructor | frontend/src/context/SOSContext.jsx:8-13 | the session starts inactive with timestamp, initiator and location all null |
| SosContext.LoadFrom | frontend/src/context/SOSContext.jsx:16-31 | a present string that parses to an active record with a truthy timestamp is adopted, and only such a record is; an adopted record keeps the key; the key is removed exactly when something is stored and nothing is adopted (stale or unparsable); nothing stored changes nothing |
| SosContext.SosProvider.LoadFromStorage | frontend/src/context/SOSContext.jsx:16-31 | the provider adopts what `LoadFrom` adopts and keeps its state otherwise; storage loses the key exactly when `LoadFrom` says so |
| SosContext.CorruptStoredRecordIsDiscarded | frontend/src/context/SOSContext.jsx:27-29 | an unparsable stored record is removed and nothing is adopted |
| SosContext.OnStorageEvent | frontend/src/context/SOSContext.jsx:35-54 | an event for another key changes nothing; a null or empty new value resets to the inactive record; a present value is adopted as parsed, or ignored when it does not parse |
| SosContext.SosProvider.HandleStorageChange | frontend/src/context/SOSContext.jsx:35-54 | the provider's record becomes `OnStorageEvent` of the old one |
| SosContext.StorageEventAdoptsUncheckedRecord | frontend/src/context/SOSContext.jsx:22 | a record marked active without a timestamp is adopted by the storage event, although the load would remove the same string, and it reports 0 elapsed seconds |
| SosContext.StorageEventMirrorsOtherTab | frontend/src/context/SOSContext.jsx:36-52 | what one tab writes on activation, delivered as a storage event, makes another tab's record equal to it whatever that tab held; a removal makes it inactive |
| SosContext.Activated | frontend/src/context/SOSContext.jsx:61-67 | the activated record is active, stamped `now`, and carries exactly the given initiator and location |
| SosContext.SosProvider.Activate | frontend/src/context/SOSContext.jsx:61-74 | the whole record is replaced by `Activated`, whatever it was; storage receives that same record, which is also the dispatched event detail |
| SosContext.SosProvider.Deactivate | frontend/src/context/SOSContext.jsx:77-90 | the record becomes the all-null inactive one and the key is removed; the result does not depend on the prior state, so deactivating twice is deactivating once |
| SosContext.SosProvider.HandleSosStateChange | frontend/src/context/SOSContext.jsx:94-96 | the same-tab event's detail becomes the record |
| SosContext.TransitionsKeepWellFormed | frontend/src/context/SOSContext.jsx:16-90 | activation, deactivation and the load all leave a record that is active only with a timestamp and carries no detail when inactive |
| SosContext.LoadRestoresActivation | frontend/src/context/SOSContext.jsx:22-23 | what activation stores is restored unchanged by a later load when the timestamp is not 0 |
| SosContext.ElapsedSeconds | frontend/src/context/SOSContext.jsx:103-108 | 0 unless the record is active with a truthy timestamp; otherwise the whole seconds since activation, rounded down |
| SosContext.ElapsedSinceActivation | frontend/src/context/SOSContext.jsx:103-108 | 0 right after activation, `floor(t/1000)` after `t` ms, and 0 after deactivation |
| SosContext.ElapsedScenario | frontend/src/context/SOSContext.jsx:104-107 | 65 seconds after 65000 ms; always 0 for a record stamped 0 |
| LanguageContext.LanguageProvider.constructor | frontend/src/context/LanguageContext.jsx:390 | the provider starts in 'en' |
| LanguageContext.LanguageProvider.LoadSavedLanguage | frontend/src/context/LanguageContext.jsx:393-398 | a saved language is adopted only when it is non-empty and supported; the language stays supported |
| LanguageContext.LanguageProvider.ChangeLanguage | frontend/src/context/LanguageContext.jsx:401-406 | a supported code sets both the language and storage; any other code changes neither |
| LanguageContext.AsWrittenGuardAcceptsInheritedName | frontend/src/context/LanguageContext.jsx:395 | the guard as written accepts "toString", which is not a supported language and makes neither `isHindi` nor `isEnglish` true |
| LanguageContext.SupportedLanguagesHaveOneFlag | frontend/src/context/LanguageContext.jsx:8-11 | the corrected guard accepts exactly 'en' and 'hi'; for those exactly one of `isHindi`/`isEnglish` holds, and never both |
| LanguageContext.Lookup | frontend/src/context/LanguageContext.jsx:410 | the result is the current-language entry, the English entry or the key, and is never empty for a non-empty key |
| LanguageContext.LookupPrefersCurrentLanguage | frontend/src/context/LanguageContext.jsx:410 | a non-empty current-language entry wins |
| LanguageContext.LookupFallsBackToEnglish | frontend/src/context/LanguageContext.jsx:410 | without a current-language entry, a non-empty English entry is used |
| LanguageContext.LookupFallsBackToKey | frontend/src/context/LanguageContext.jsx:410 | without either entry, the key itself comes back |
| LanguageContext.NoParamsAndFallback | frontend/src/context/LanguageContext.jsx:409-418 | without parameters `t` returns the looked-up string; outside a provider `t` is English `t` without parameters, whatever it is given |
| LanguageContext.FallbackTranslate | frontend/src/context/LanguageContext.jsx:441 | outside a provider the result is the English entry or the key |
| LanguageContext.ApplyParamsWithoutPlaceholders | frontend/src/context/LanguageContext.jsx:413-415 | a text holding none of the parameters' placeholders comes back unchanged: parameters without a placeholder do nothing, placeholders without a parameter stay |
| LanguageContext.OneParam | frontend/src/context/LanguageContext.jsx:413-415 | one parameter replaces the first occurrence of its `{name}` only |
| LanguageContext.ApplyParams | frontend/src/context/LanguageContext.jsx:413-415 | the `forEach` over the parameters, each replacing the first `{name}`; `OneParam` and `ApplyParamsWithoutPlaceholders` state its behaviour |
| LanguageContext.Translate | frontend/src/context/LanguageContext.jsx:409-418 | `t(key, params)`: the lookup followed by `ApplyParams`; the provider's loop `T` is proved equal to it |
| LanguageContext.IsHindi | frontend/src/context/LanguageContext.jsx:425 | `isHindi`: the language is 'hi' |
| LanguageContext.IsEnglish | frontend/src/context/LanguageContext.jsx:426 | `isEnglish`: the language is 'en' |
| LanguageContext.IsLanguageKeyAsWritten | frontend/src/context/LanguageContext.jsx:395 | the guard `LANGUAGES[code]` as written: an own key or a name every object inherits |
| LanguageContext.IsSupportedLanguage | frontend/src/context/LanguageContext.jsx:8-11 | the intended guard: an own key of `LANGUAGES` |
| LanguageContext.LanguageProvider.T | frontend/src/context/LanguageContext.jsx:409-418 | the loop over the parameters yields the lookup followed by one first-occurrence replacement per parameter, in order |
| LanguageContext.HindiFallbackExample | frontend/src/context/LanguageContext.jsx:100 | `t('sosAlerts')` in Hindi gives the English 'SOS Alerts'; an unknown key gives itself |
| LanguageContext.JoinedDaysInEnglish | frontend/src/context/LanguageContext.jsx:157 | `t('joinedDaysAgo', {days})` in English is "Joined " + days + " days ago" for any printed value of days (so 5 gives "Joined 5 days ago") |
| LanguageContext.ReplaceDaysExample | frontend/src/context/LanguageContext.jsx:414 | substituting `days` into the English `joinedDaysAgo` text gives the sentence |
| LanguageSwitcher.ToggledLanguage | frontend/src/components/LanguageSwitcher.jsx:7-10 | `toggleLanguage`'s request: 'hi' from 'en', and 'en' from any other language, including an unsupported one, so the request is always supported |
| LanguageSwitcher.ToggleTwice | frontend/src/components/LanguageSwitcher.jsx:7-10 | toggling twice from 'en' or 'hi' returns to it |
| LanguageSwitcher.CompactLabel | frontend/src/components/LanguageSwitcher.jsx:20 | the compact label names the language a press switches to: 'हिंदी' when that is Hindi, 'EN' otherwise |
| LanguageSwitcher.RequestedCode | frontend/src/components/LanguageSwitcher.jsx:31-48 | the English button requests 'en' and the Hindi button 'hi', each in both directions, so each requests a supported code |
| LanguageSwitcher.IsHighlighted | frontend/src/components/LanguageSwitcher.jsx:33-43 | a button is highlighted when the current language is the code it requests (`language === 'en'` / `language === 'hi'`); `ExactlyOneHighlighted` states that one of the two is |
| LanguageSwitcher.ExactlyOneHighlighted | frontend/src/components/LanguageSwitcher.jsx:32-46 | in a supported language exactly one of the two buttons is highlighted |
| LanguageSwitcher.ToggleLanguage | frontend/src/components/LanguageSwitcher.jsx:7-10 | pressing the compact button sets the provider and storage to the toggled language |
| LanguageSwitcher.PressButton | frontend/src/components/LanguageSwitcher.jsx:31-48 | pressing a button sets the provider and storage to that button's code |
| DigitInput.TypedDigit | frontend/src/pages/OTPScreen.jsx:37 | a typed value becomes a slot value: "" exactly when it holds no ASCII digit, otherwise its last ASCII digit |
| DigitInput.DigitEntry.constructor | frontend/src/pages/OTPScreen.jsx:8 | a row of `size` empty slots |
| DigitInput.DigitEntry.ChangeDigit | frontend/src/pages/OTPScreen.jsx:36-47 | only slot `index` changes, to `TypedDigit`; the focus returned is `AdvanceFocus` |
| DigitInput.AdvanceFocus | frontend/src/pages/OTPScreen.jsx:44-46 | focus advances to `index + 1` exactly when a digit was stored and a next box exists |
| DigitInput.KeyDownFocus | frontend/src/pages/OTPScreen.jsx:49-61 | each key's move, both ways: Backspace moves to `index - 1` exactly on an empty box past the first, ArrowLeft to `index - 1` exactly past the first box, ArrowRight to `index + 1` exactly before the last box, any other key nowhere; `KeyDownMovesAgree` relates the moves |
| DigitInput.KeyDownMovesAgree | frontend/src/pages/OTPScreen.jsx:49-61 | ArrowRight then ArrowLeft comes back to the starting box, and Backspace on an empty box goes where ArrowLeft does |
| DigitInput.PastedDigits | frontend/src/pages/OTPScreen.jsx:65 | a paste keeps the first digits of the text, at most `size` of them and all of them when fewer |
| DigitInput.Pasted | frontend/src/pages/OTPScreen.jsx:66-72 | the slots keep their number |
| DigitInput.DigitEntry.Paste | frontend/src/pages/OTPScreen.jsx:63-80 | the loop writes the pasted digits over slots `0..k-1` and leaves the others as they were; focus is `PasteFocus` |
| DigitInput.FirstEmpty | frontend/src/pages/OTPScreen.jsx:74 | `findIndex(d => !d)`: the first empty slot, or none when every slot is filled |
| DigitInput.PasteFocus | frontend/src/pages/OTPScreen.jsx:74-79 | focus after a paste is the first empty slot, or the last slot when none is empty |
| DigitInput.PasteFocusAfterPrefix | frontend/src/pages/OTPScreen.jsx:68-79 | after pasting `k` digits focus lands at or after slot `k`; a full paste completes the row and focuses the last slot |
| DigitInput.JoinLength | frontend/src/pages/OTPScreen.jsx:83-85 | the joined slots are at most as long as the row, and exactly as long when every slot is filled |
| DigitInput.CompleteIffFullLength | frontend/src/pages/OTPScreen.jsx:85 | the joined-length check and the every-slot-filled check agree |
| DigitInput.Join | frontend/src/pages/OTPScreen.jsx:83 | `digits.join("")`; `JoinLength` states its length |
| DigitInput.IsComplete | frontend/src/pages/OTPScreen.jsx:108 | `digits.every(d => d !== "")` |
| OtpScreen.Screen.constructor | frontend/src/pages/OTPScreen.jsx:8-12 | six empty boxes, timer at 30, resend disabled, not loading, no request running |
| OtpScreen.Screen.DigitChange | frontend/src/pages/OTPScreen.jsx:36-47 | only box `index` changes, to the typed digit; focus moves to `index + 1` exactly when a digit was stored below box 5 |
| OtpScreen.Screen.KeyDown | frontend/src/pages/OTPScreen.jsx:49-61 | the focus move is the row's `KeyDownFocus` with six boxes, so it stays within boxes 0..5 |
| OtpScreen.Screen.Paste | frontend/src/pages/OTPScreen.jsx:63-80 | at most six digits overwrite the first boxes; focus is the first empty box or box 5 |
| OtpScreen.Screen.Verify | frontend/src/pages/OTPScreen.jsx:82-98 | accepted exactly when every box is filled (the six-character check); acceptance starts loading and the request timer and disables the verify button; a rejection starts nothing |
| OtpScreen.Screen.VerifyCompletes | frontend/src/pages/OTPScreen.jsx:93-97 | only the timer of an accepted verification fires; loading stops and the screen goes to "/verified" |
| OtpScreen.Screen.VerifyDisabled | frontend/src/pages/OTPScreen.jsx:205 | the verify button is disabled exactly when some box is empty or a request is loading; stated as the joined code not being 6 characters long, so the button and the check of `handleVerify` agree |
| OtpScreen.Screen.ResendDisabled | frontend/src/pages/OTPScreen.jsx:189 | the resend button is disabled while resending is not allowed |
| OtpScreen.ResendTick | frontend/src/pages/OTPScreen.jsx:27-34 | a positive timer drops by one; at 0 resending becomes allowed |
| OtpScreen.Screen.ResendTimerStep | frontend/src/pages/OTPScreen.jsx:27-34 | one run of the countdown effect; the run that finds 0 enables the resend button |
| OtpScreen.ResendPressed | frontend/src/pages/OTPScreen.jsx:100-106 | nothing happens while resending is disallowed; otherwise it is disallowed again and the timer restarts at 30 |
| OtpScreen.Screen.ResendOtp | frontend/src/pages/OTPScreen.jsx:100-106 | the toast is shown exactly when resending was allowed; afterwards the resend button is disabled |
| OtpScreen.CountdownDecrements | frontend/src/pages/OTPScreen.jsx:27-29 | `k` ticks from `t >= k` leave `t - k`, still disallowed |
| OtpScreen.AfterTicksSplit | frontend/src/pages/OTPScreen.jsx:27-34 | `m + n` ticks are `m` ticks followed by `n` |
| OtpScreen.ResendCycle | frontend/src/pages/OTPScreen.jsx:11-34 | resending stays disallowed for the 30 counting runs, is allowed after the 31st, and a resend then restarts the same countdown |
| LoginScreen.Screen.constructor | frontend/src/pages/LoginScreen.jsx:7-9 | ten empty boxes, not loading |
| LoginScreen.Screen.DigitChange | frontend/src/pages/LoginScreen.jsx:18-30 | only box `index` changes, to the typed digit; focus moves to `index + 1` exactly when a digit was stored below box 9 |
| LoginScreen.Screen.KeyDown | frontend/src/pages/LoginScreen.jsx:32-46 | the focus move is the row's `KeyDownFocus` with ten boxes, so it stays within boxes 0..9 |
| LoginScreen.Screen.Paste | frontend/src/pages/LoginScreen.jsx:48-66 | at most ten digits overwrite the first boxes; focus is the first empty box or box 9 |
| LoginScreen.Screen.Proceed | frontend/src/pages/LoginScreen.jsx:68-84 | accepted exactly when every box is filled, which is the ten-character check; an accepted number starts loading, disables the button and is queued for the toast |
| LoginScreen.Screen.ProceedCompletes | frontend/src/pages/LoginScreen.jsx:79-83 | loading stops and the toast names the number captured when proceed was pressed |
| LoginScreen.Screen.ProceedDisabled | frontend/src/pages/LoginScreen.jsx:160 | the button is disabled exactly when some box is empty (the same as the joined number not being 10 characters long) or a request is loading |
| SosActiveScreen.Screen.constructor | frontend/src/pages/SOSActiveScreen.jsx:10-15 | the countdown starts at 150 seconds with the interval running |
| SosActiveScreen.Screen.Tick | frontend/src/pages/SOSActiveScreen.jsx:15-23 | one tick applies the updater; the interval stops on the tick that finds 0 |
| SosActiveScreen.CountdownReachesZero | frontend/src/pages/SOSActiveScreen.jsx:16-21 | after `n` ticks from `t >= 0` the countdown shows `t - n`, or 0 once it has run out, and it stays at 0 |
| SosActiveScreen.FormatTimeReadsBack | frontend/src/pages/SOSActiveScreen.jsx:30-34 | the display splits at its last ':' into a minutes field of at least two digits and a seconds field of exactly two; `MM*60 + SS` reads back the input; it has 5 characters exactly below 6000 seconds, and the minutes are never truncated |
| SosActiveScreen.PaddedRoundTrip | frontend/src/pages/SOSActiveScreen.jsx:33 | reading a padded field back gives the number printed in it |
| SosActiveScreen.FormatTimeDigits | frontend/src/pages/SOSActiveScreen.jsx:31-33 | below 6000 seconds the display is two minute digits, ':', two second digits |
| SosActiveScreen.FormatTimeAtStart | frontend/src/pages/SOSActiveScreen.jsx:10 | 150 seconds prints as "02:30" |
| SosActiveScreen.FormatTimeAtZero | frontend/src/pages/SOSActiveScreen.jsx:30-34 | 0 prints as "00:00" |
| SosActiveScreen.FormatTime | frontend/src/pages/SOSActiveScreen.jsx:30-34 | `formatTime`: padded minutes, a colon, padded seconds; what it promises is stated by `FormatTimeReadsBack` and `FormatTimeDigits` |
| SosActiveScreen.CountdownTick | frontend/src/pages/SOSActiveScreen.jsx:16-22 | the interval's updater: one second less, never below 0; `CountdownReachesZero` states `n` ticks |
| SosActiveScreen.Screen.StopSos | frontend/src/pages/SOSActiveScreen.jsx:36-40 | the interval stops, the countdown value is kept, the screen goes to "/home" |
| SosActiveScreen.Screen.AddProof | frontend/src/pages/SOSActiveScreen.jsx:42-44 | the screen goes to "/add-proof" |
| NotificationsScreen.Screen.constructor | frontend/src/pages/NotificationsScreen.jsx:51-52 | the three mock cards, with the unread dot shown |
| NotificationsScreen.Without | frontend/src/pages/NotificationsScreen.jsx:60 | a card survives exactly when it was there and has another id; an absent id leaves the list unchanged |
| NotificationsScreen.WithoutAppend | frontend/src/pages/NotificationsScreen.jsx:60 | filtering a list made of two parts filters each part, keeping their order, so the survivors keep their order |
| NotificationsScreen.WithoutTwice | frontend/src/pages/NotificationsScreen.jsx:60 | dismissing an id twice is dismissing it once |
| NotificationsScreen.Screen.Dismiss | frontend/src/pages/NotificationsScreen.jsx:59-62 | the list becomes `Without` of the old list |
| NotificationsScreen.Screen.ViewAlert | frontend/src/pages/NotificationsScreen.jsx:54-57 | the screen goes to "/sos" |
| NotificationsScreen.Screen.PressBell | frontend/src/pages/NotificationsScreen.jsx:128-130 | the unread dot is hidden and the list is kept |
| NotificationsScreen.Title | frontend/src/pages/NotificationsScreen.jsx:87-99 | an unknown type gives the subtitle in both languages |
| NotificationsScreen.AttendingTitleNamesAttendee | frontend/src/pages/NotificationsScreen.jsx:82-93 | an attending card names the attendee, or "Someone" / "कोई" when the name is missing or empty, before the fixed sentence |
| NotificationsScreen.ResolvedAndVolunteerTitles | frontend/src/pages/NotificationsScreen.jsx:83-97 | a resolved card is the prefix plus the location (or nothing); a new-volunteer card is a fixed sentence, in either language |
| NotificationsScreen.TitleIgnoresIdAndAction | frontend/src/pages/NotificationsScreen.jsx:78-102 | the title never depends on the id or the action |
| NotificationsScreen.ButtonFor | frontend/src/pages/NotificationsScreen.jsx:208-229 | 'view' shows View Alert, 'dismiss' shows Dismiss, every other action no button |
| NotificationsScreen.InitialButtons | frontend/src/pages/NotificationsScreen.jsx:9-45 | the mock cards show View Alert, Dismiss and no button, in that order |
| ChatScreen.ChosenVolunteer | frontend/src/pages/ChatScreen.jsx:41-45 | the volunteer from the navigation state, or else the whole default record (Ananya Rao, "AR", available) |
| ChatScreen.Screen.constructor | frontend/src/pages/ChatScreen.jsx:8-45 | the three mock messages, an empty input, no pending reply |
| ChatScreen.SendDisabled | frontend/src/pages/ChatScreen.jsx:251 | the send button is disabled exactly when the trimmed input is empty |
| ChatScreen.OutgoingMessage | frontend/src/pages/ChatScreen.jsx:62-67 | a sent message is from "me", numbered length + 1, stamped with the given time, and its text is the trimmed input, which is non-empty and neither starts nor ends with whitespace |
| ChatScreen.Screen.Type | frontend/src/pages/ChatScreen.jsx:244-246 | typing changes only the input |
| ChatScreen.Screen.SendMessage | frontend/src/pages/ChatScreen.jsx:52-87 | a blank input changes nothing; otherwise the message is appended after the unchanged earlier ones, the input is cleared and a reply numbered length + 2 is scheduled |
| ChatScreen.Screen.ReplyArrives | frontend/src/pages/ChatScreen.jsx:73-86 | the reply, from the volunteer, is appended after whatever the list holds by then |
| ChatScreen.QuickSecondSendSharesReplyId | frontend/src/pages/ChatScreen.jsx:63-75 | a second send made before the first reply arrives gets the id that reply will carry |
| ChatScreen.ReplyId | frontend/src/pages/ChatScreen.jsx:75 | `id: messages.length + 2`, taken from the list as it was when the send happened; `QuickSecondSendSharesReplyId` states what this allows |
| ChatScreen.Screen.KeyPress | frontend/src/pages/ChatScreen.jsx:89-94 | a message is sent exactly for Enter without Shift on a non-blank input, with the whole new state of `SendMessage` (message appended, input cleared, reply queued); otherwise nothing changes |
| ChatScreen.KeySends | frontend/src/pages/ChatScreen.jsx:90 | Enter without Shift |
| ProfileScreen.Screen.constructor | frontend/src/pages/ProfileScreen.jsx:9-34 | an empty form, dropdown closed, address hidden, and the mount's lookup running |
| ProfileScreen.WithField | frontend/src/pages/ProfileScreen.jsx:51-56 | the named field takes the value and every other field keeps its own |
| ProfileScreen.FieldsDetermineForm | frontend/src/pages/ProfileScreen.jsx:14-20 | two forms agreeing on every field are equal, so `WithField` is determined by its contract |
| ProfileScreen.WithFieldLaws | frontend/src/pages/ProfileScreen.jsx:51-56 | writing a field's own value changes nothing; writing a field twice keeps the second value |
| ProfileScreen.Screen.InputChange | frontend/src/pages/ProfileScreen.jsx:51-56 | the form becomes `WithField` of the old form; every other field of the screen is unchanged |
| ProfileScreen.Screen.ToggleRoleDropdown | frontend/src/pages/ProfileScreen.jsx:127 | the dropdown flips; every other field of the screen is unchanged |
| ProfileScreen.Screen.ToggleShowAddress | frontend/src/pages/ProfileScreen.jsx:206 | the address visibility flips; every other field of the screen is unchanged |
| ProfileScreen.Screen.RoleSelect | frontend/src/pages/ProfileScreen.jsx:58-64 | the role is set, the other form fields are kept, the dropdown closes; loading, locating, the address visibility and the timers are unchanged |
| ProfileScreen.Screen.AutoPopulate | frontend/src/pages/ProfileScreen.jsx:36-38 | locating starts and one more lookup timer runs; the form and every other field are unchanged |
| ProfileScreen.Screen.AutoPopulateCompletes | frontend/src/pages/ProfileScreen.jsx:40-47 | address and district take the fixed values and role, name and email keep theirs as they are by then; locating ends, one lookup timer fewer; nothing else changes |
| ProfileScreen.FormValidity | frontend/src/pages/ProfileScreen.jsx:87 | valid exactly when the role is set and the trimmed name is not empty; email, address and district play no part |
| ProfileScreen.IsFormValid | frontend/src/pages/ProfileScreen.jsx:87 | `isFormValid`; `FormValidity` states it in terms of `trim` |
| ProfileScreen.CreateCheck | frontend/src/pages/ProfileScreen.jsx:66-75 | a missing role is reported first, a blank name only with a role, and acceptance coincides with validity |
| ProfileScreen.Screen.CreateAccount | frontend/src/pages/ProfileScreen.jsx:66-85 | the outcome is `CreateCheck` of the form; a rejection changes nothing; an accepted form starts loading and the creation timer and disables the button; the form, locating, the dropdown, the address visibility and the lookups are unchanged |
| ProfileScreen.Screen.CreateCompletes | frontend/src/pages/ProfileScreen.jsx:80-84 | loading stops, one creation timer fewer, the screen goes to "/account-success"; nothing else changes |
| ProfileScreen.CreateDisabled | frontend/src/pages/ProfileScreen.jsx:247 | enabled only for a form the create check accepts and while not loading |
| AddProofScreen.Screen.constructor | frontend/src/pages/AddProofScreen.jsx:10-11 | no media and no type, and the invariant holds |
| AddProofScreen.TypeName | frontend/src/pages/AddProofScreen.jsx:15-22 | the `mediaType` of a capture: "photo" or "video" |
| AddProofScreen.CapturedName | frontend/src/pages/AddProofScreen.jsx:16-23 | the placeholder stored as `capturedMedia` is the media type followed by "_captured" |
| AddProofScreen.Screen.Capture | frontend/src/pages/AddProofScreen.jsx:13-25 | a capture sets the matching media and type, replacing any earlier capture, and keeps the type set exactly when media is held |
| AddProofScreen.Screen.Retake | frontend/src/pages/AddProofScreen.jsx:36-40 | media and type are both cleared; the buttons become disabled |
| AddProofScreen.ActionsDisabled | frontend/src/pages/AddProofScreen.jsx:143-154 | Submit and Retake are disabled exactly when no media is held (an empty name counts as none) |
| AddProofScreen.SubmitRoute | frontend/src/pages/AddProofScreen.jsx:27-34 | a submit without media is rejected; with media the screen goes to "/sos-active" |
| AddProofScreen.Screen.Submit | frontend/src/pages/AddProofScreen.jsx:27-34 | the screen navigates exactly when media is held |
| AddProofScreen.Screen.Cancel | frontend/src/pages/AddProofScreen.jsx:42-44 | the screen goes to "/sos-active" and the capture is kept |
| AuthContext.AuthProvider.constructor | frontend/src/context/AuthContext.jsx:8-10 | signed out, no user, loading |
| AuthContext.LoadSession | frontend/src/context/AuthContext.jsx:13-28 | the key is removed exactly when the stored record does not parse; a session is restored, with the stored user, exactly when it parses with a truthy `isAuthenticated` |
| AuthContext.AuthProvider.Load | frontend/src/context/AuthContext.jsx:13-28 | the provider and storage follow `LoadSession`; loading ends whatever was stored |
| AuthContext.UnauthenticatedRecordIsKept | frontend/src/context/AuthContext.jsx:18-25 | a parsable unauthenticated record is ignored and kept; an unparsable one is removed |
| AuthContext.LoginRecord | frontend/src/context/AuthContext.jsx:31-39 | `login` stores an authenticated record with the given user, or with the default Ananya Rao user when none is given |
| AuthContext.AuthProvider.Login | frontend/src/context/AuthContext.jsx:30-44 | memory and storage receive the same record |
| AuthContext.LoginSurvivesReload | frontend/src/context/AuthContext.jsx:14-41 | what `login` stores is restored by the next startup with the same user |
| AuthContext.AuthProvider.Logout | frontend/src/context/AuthContext.jsx:46-50 | the key is removed and both the flag and the user are cleared |
| AuthContext.MergedUser | frontend/src/context/AuthContext.jsx:53 | the patch's fields override, every other field of the user is kept, and no other field appears |
| AuthContext.MergeLaws | frontend/src/context/AuthContext.jsx:53 | an empty patch keeps the user; applying a patch twice is applying it once |
| AuthContext.UpdateRecord | frontend/src/context/AuthContext.jsx:54-57 | the stored record is always marked authenticated and holds the merged user |
| AuthContext.AuthProvider.UpdateUser | frontend/src/context/AuthContext.jsx:52-60 | the user is merged and stored as an authenticated record; the in-memory flag is left as it was |
| AuthContext.UpdateWhileSignedOutSignsInAfterReload | frontend/src/context/AuthContext.jsx:52-60 | an update made while signed out restores a signed-in session at the next startup |
| LocationContext.LocationProvider.constructor | frontend/src/context/LocationContext.jsx:15-25 | empty address and district, not detected, locating, one detection timer running |
| LocationContext.LocationProvider.DetectLocation | frontend/src/context/LocationContext.jsx:27-29 | no guard: locating starts and another timer runs |
| LocationContext.LocationProvider.RefreshLocation | frontend/src/context/LocationContext.jsx:42-46 | nothing happens while locating; otherwise locating starts |
| LocationContext.LocationProvider.TimerFires | frontend/src/context/LocationContext.jsx:31-39 | the fixed address and district are stored as detected and locating ends |
| LocationContext.Patched | frontend/src/context/LocationContext.jsx:58-64 | the given fields override, the others are kept, and the location is marked detected |
| LocationContext.PatchLaws | frontend/src/context/LocationContext.jsx:58-64 | patching is idempotent; an empty patch only marks the location detected; a patch naming both fields ignores the previous value |
| LocationContext.LocationProvider.UpdateLocation | frontend/src/context/LocationContext.jsx:58-64 | the location becomes `Patched` of the old one; locating is unaffected |
| LocationContext.UseLocationContext | frontend/src/context/LocationContext.jsx:80-93 | the provider's values, or outside a provider the default location, not detected, with locating off |
| LocationService.LocationCache.constructor | frontend/src/utils/locationService.js:8-12 | the cache starts empty and not detected |
| LocationService.LocationProvider.constructor | frontend/src/utils/locationService.js:15-16 | a provider starts from the cache as it is then, not locating |
| LocationService.DetectedData | frontend/src/utils/locationService.js:34-74 | detection stores the fixed address and district, marked detected, with coordinates only when a position is known |
| LocationService.LocationProvider.DetectLocation | frontend/src/utils/locationService.js:18-88 | a detected cache is returned and nothing else changes; otherwise locating starts and either a request is pending or, without a geolocation API, the fallback is stored at once |
| LocationService.LocationProvider.GeolocationAnswers | frontend/src/utils/locationService.js:31-64 | a position stores its coordinates, an error stores none; either way cache and provider hold the same detected value and locating ends |
| LocationService.Overlaid | frontend/src/utils/locationService.js:91 | named fields are replaced and all others kept, `isDetected` included |
| LocationService.OverlayLaws | frontend/src/utils/locationService.js:91 | overlaying is idempotent and an empty update changes nothing |
| LocationService.LocationProvider.UpdateLocation | frontend/src/utils/locationService.js:90-94 | the cache's overlay is stored in the cache and published by the provider |
| LocationService.LocationProvider.ClearLocation | frontend/src/utils/locationService.js:96-103 | cache and provider are reset to empty, not detected |
| LocationService.UseLocation | frontend/src/utils/locationService.js:119-125 | outside a provider the hook fails with its error message; inside it returns the provider's values |
| LocationService.AutoPopulated | frontend/src/utils/locationService.js:139-142 | address and district take the fixed values; every other form field is kept and no other field appears |
| LocationService.AutoPopulateIdempotent | frontend/src/utils/locationService.js:139-142 | filling twice is filling once |
| LocationService.AutoPopulateHost.constructor | frontend/src/utils/locationService.js:128 | the caller's form, not locating |
| LocationService.AutoPopulateHost.AutoPopulateLocation | frontend/src/utils/locationService.js:128-133 | locating starts and the form is kept |
| LocationService.AutoPopulateHost.FillTimerFires | frontend/src/utils/locationService.js:133-151 | the form is filled, locating ends, and the address and district are resolved |
| CommunityScreen.StatusColor | frontend/src/pages/CommunityScreen.jsx:59-66 | green exactly for available, orange exactly for busy, grey for offline and every other status |
| CommunityScreen.OnlyOfflineVolunteerIsDisabled | frontend/src/pages/CommunityScreen.jsx:8-41 | of the listed volunteers exactly the offline one cannot be messaged, and it shows grey |
| CommunityScreen.MessageDisabled | frontend/src/pages/CommunityScreen.jsx:151 | the message button is disabled for an offline volunteer |
| CommunityScreen.ChatVolunteer | frontend/src/pages/CommunityScreen.jsx:50-54 | name and status pass unchanged; the initials are the characters that begin a space-separated word, empty exactly for an all-space name |
| CommunityScreen.HandleMessage | frontend/src/pages/CommunityScreen.jsx:47-57 | the screen goes to "/chat" and the chat then talks to this volunteer |
| CommunityScreen.InitialsExample | frontend/src/pages/CommunityScreen.jsx:52 | "Ananya Rao" gives "AR" |
| Strings.InitialsAreWordStarts | frontend/src/pages/CommunityScreen.jsx:52 | `split(' ').map(n => n[0]).join('')` equals the reference definition: each non-space character that starts the name or follows a space |
| Strings.InitialsEmptyIff | frontend/src/pages/CommunityScreen.jsx:52 | the initials are empty exactly when the name holds only spaces |
| Strings.TwoWordInitials | frontend/src/pages/CommunityScreen.jsx:52 | a first and a last name joined by one space give their two first letters |
| Strings.WordStartsConcat | frontend/src/pages/CommunityScreen.jsx:52 | the word starts of a concatenation are those of each part, the second beginning a word after a trailing space |
| Strings.SplitOnSpace | frontend/src/pages/CommunityScreen.jsx:52 | `split(' ')` gives at least one piece, no piece holds a space, and joining the pieces with single spaces gives back the input |
| Strings.Initials | frontend/src/pages/CommunityScreen.jsx:52 | `name.split(' ').map(n => n[0]).join('')`; `InitialsAreWordStarts` and `InitialsEmptyIff` state what it computes |
| Strings.UpperAscii | frontend/src/pages/UserProfileScreen.jsx:17 | `toUpperCase()` on ASCII: the length is kept and each lower-case ASCII letter becomes its capital, every other character stays |
| Strings.UpperAsciiKeepsNonLower | frontend/src/pages/UserProfileScreen.jsx:17 | `toUpperCase()` leaves a string with no lower-case ASCII letter as it is, and so is idempotent |
| Strings.Trim | frontend/src/pages/ChatScreen.jsx:53 | `trim()` is the slice of the input left once the whitespace at both ends is dropped: everything before and after it is whitespace; it is empty exactly for a whitespace-only string, and otherwise neither starts nor ends with whitespace |
| Strings.KeepDigits | frontend/src/pages/OTPScreen.jsx:37 | `replace(/\D/g, "")` keeps only ASCII digits, is empty exactly when there are none, and keeps an all-digit string whole (`KeepDigitsAppend` states the order) |
| Strings.KeepDigitsAppend | frontend/src/pages/OTPScreen.jsx:37 | the filter works character by character and keeps the order: filtering a concatenation filters each part, and a single character is kept exactly when it is an ASCII digit |
| Strings.KeepDigitsSnoc | frontend/src/pages/OTPScreen.jsx:37 | one more character at the end is kept, at the end, exactly when it is an ASCII digit |
| Strings.LastKeptDigit | frontend/src/pages/OTPScreen.jsx:37 | the last character kept is the last digit of the input |
| Strings.ReplaceFirst | frontend/src/context/LanguageContext.jsx:414 | `replace` with a string pattern changes only the first occurrence and returns a text without it unchanged |
| Strings.ReplaceAfterPrefix | frontend/src/context/LanguageContext.jsx:414 | a pattern after a prefix without its first character is the occurrence `replace` swaps |
| Strings.IndexFrom | frontend/src/context/LanguageContext.jsx:414 | the first occurrence at or after a position, or none |
| Strings.NatToDecimal | frontend/src/pages/SOSActiveScreen.jsx:33 | `toString()` prints digits without a leading zero; one digit exactly below 10, at most two below 100 |
| Strings.DecimalRoundTrip | frontend/src/pages/SOSActiveScreen.jsx:33 | reading back what is printed gives the number |
| Strings.PadStart | frontend/src/pages/SOSActiveScreen.jsx:33 | `padStart` fills in front up to the width and never truncates |
| Strings.LeadingZeros | frontend/src/pages/SOSActiveScreen.jsx:33 | zeros in front do not change the value read back |
| UserProfileScreen.UserName | frontend/src/pages/UserProfileScreen.jsx:17-18 | `user?.name` is used only when it is a non-empty string |
| UserProfileScreen.JoinedDays | frontend/src/pages/UserProfileScreen.jsx:19 | `user?.joinedDays \|\| 0`: a truthy value, or 0 |
| UserProfileScreen.DeriveUserData | frontend/src/pages/UserProfileScreen.jsx:16-20 | without a name: "U" and "User"; with one: the name and the upper-cased first letters of its words; and the joined days |
| UserProfileScreen.SignedOutProfile | frontend/src/pages/UserProfileScreen.jsx:16-20 | a signed-out page shows "U", "User" and 0 days |
| UserProfileScreen.DefaultUserProfile | frontend/src/pages/UserProfileScreen.jsx:16-20 | the default login user shows "AR" and "Ananya Rao", and its joined line in English is "Joined 120 days ago" |
| UserProfileScreen.TwoWordUserProfile | frontend/src/pages/UserProfileScreen.jsx:16-20 | a user whose name is two space-free words and who joined 120 days ago shows the capitals of the two first letters and the name, and the English line "Joined 120 days ago" |
| UserProfileScreen.JoinedLineInEnglish | frontend/src/pages/UserProfileScreen.jsx:95 | the English joined line is "Joined " + the printed days + " days ago" |
| UserProfileScreen.JoinedLineFor120 | frontend/src/pages/UserProfileScreen.jsx:95 | 120 days renders as "Joined 120 days ago" |
| UserProfileScreen.JsString | frontend/src/pages/UserProfileScreen.jsx:95 | how `joinedDays` prints into the sentence: a string as itself, a number in decimal that reads back as that number |
| UserProfileScreen.JoinedLine | frontend/src/pages/UserProfileScreen.jsx:95 | `t('joinedDaysAgo', { days })`; `JoinedLineInEnglish` states it in English |
| UserProfileScreen.HandleLogout | frontend/src/pages/UserProfileScreen.jsx:35-39 | the session is cleared (storage key removed, flag and user cleared, so the page would show the signed-out profile) and then the app goes to "/" |
| Json.OrElse | frontend/src/components/BottomNav.jsx:36 | `x \|\| fallback` on an optional string, as in `activePath \|\| location.pathname` and the `titleParams?.name \|\| ...` fallbacks of NotificationsScreen.jsx:82-87: the value when present and non-empty, the fallback otherwise |
| BottomNav.ActiveIndex | frontend/src/components/BottomNav.jsx:49-51 | the index returned is of an active item, and when none is returned no item is active |
| BottomNav.HomeClauseRedundant | frontend/src/components/BottomNav.jsx:39-51 | the active test is path equality, plus '/sos-active' for the SOS item; the home clause adds nothing |
| BottomNav.AtMostOneActive | frontend/src/components/BottomNav.jsx:38-51 | at most one item is active for any path, it is the one `ActiveIndex` names, and '/sos-active' highlights SOS |
| BottomNav.IsActive | frontend/src/components/BottomNav.jsx:49-51 | the three clauses of `isActive`; `HomeClauseRedundant` and `AtMostOneActive` state what they amount to |
| BottomNav.Label | frontend/src/components/BottomNav.jsx:72 | the label is the lookup of the item's key and is never empty |
| BottomNav.LabelExamples | frontend/src/components/BottomNav.jsx:72 | "Home" in English and "प्रोफाइल" in Hindi |
| BottomNav.Press | frontend/src/components/BottomNav.jsx:57 | pressing an item goes to its path |
| ReportUserScreen.CheckReportOrder | frontend/src/pages/ReportUserScreen.jsx:15-23 | a blank (trimmed-empty) username is reported before the reason is looked at; a blank reason only with a username; both present is accepted |
| ReportUserScreen.CheckReport | frontend/src/pages/ReportUserScreen.jsx:15-23 | the two checks of `handleSubmit`, username first; `CheckReportOrder` states them in terms of `trim` |
| ReportUserScreen.Screen.constructor | frontend/src/pages/ReportUserScreen.jsx:10-12 | empty fields, not submitting |
| ReportUserScreen.Screen.EditUsername | frontend/src/pages/ReportUserScreen.jsx:10 | only the username changes |
| ReportUserScreen.Screen.EditReason | frontend/src/pages/ReportUserScreen.jsx:11 | only the reason changes |
| ReportUserScreen.Screen.Submit | frontend/src/pages/ReportUserScreen.jsx:14-25 | a rejection changes neither field nor the submitting state; an accepted report starts submitting, which disables the button (line 114) |
| ReportUserScreen.Screen.SubmitDisabled | frontend/src/pages/ReportUserScreen.jsx:114 | `disabled={isSubmitting}`: the button is disabled exactly while a submission runs, which `Submit` turns on for an accepted report |
| ReportUserScreen.Screen.SubmissionResolves | frontend/src/pages/ReportUserScreen.jsx:30-38 | both fields are cleared, submitting ends, the button is enabled again, the navigation timer starts |
| ReportUserScreen.Screen.NavigationFires | frontend/src/pages/ReportUserScreen.jsx:36-38 | the screen goes to "/community"; the fields, the submitting state and the submission timers are unchanged |
| ReportBugScreen.AcceptsTrimmed | frontend/src/pages/ReportBugScreen.jsx:14 | a description is accepted exactly when its trimmed form is not empty |
| ReportBugScreen.Accepts | frontend/src/pages/ReportBugScreen.jsx:14 | the description check; `AcceptsTrimmed` states it in terms of `trim` |
| ReportBugScreen.Screen.constructor | frontend/src/pages/ReportBugScreen.jsx:10-11 | an empty description, not submitting |
| ReportBugScreen.Screen.EditDescription | frontend/src/pages/ReportBugScreen.jsx:10 | only the description changes |
| ReportBugScreen.Screen.Submit | frontend/src/pages/ReportBugScreen.jsx:13-19 | a blank description is rejected without entering the submitting state; an accepted one starts submitting, which disables the button (line 91) |
| ReportBugScreen.Screen.SubmitDisabled | frontend/src/pages/ReportBugScreen.jsx:91 | `disabled={isSubmitting}`: the button is disabled exactly while a submission runs, which `Submit` turns on for an accepted report |
| ReportBugScreen.Screen.SubmissionResolves | frontend/src/pages/ReportBugScreen.jsx:24-31 | the description is cleared, submitting ends, the button is enabled again, the navigation timer starts |
| ReportBugScreen.Screen.NavigationFires | frontend/src/pages/ReportBugScreen.jsx:29-31 | the screen goes to "/help-support"; the description, the submitting state and the submission timers are unchanged |

## Left out

- Rendering, styling, icons, animations, scrolling and input focus calls are left out.
  Focus moves are returned as an index instead.
- Toasts are left out. `Sent`, `accepted` or a `CreateOutcome` says which one would be
  shown.
- Navigation is modelled as the route a method returns. `location.state` is a
  parameter.
- Timers and intervals are explicit step methods, and a counter records the timers still
  running. Which timer fires when is up to the caller. Clearing a timeout on unmount is
  not modelled.
- `Date.now()` and `toLocaleTimeString` are parameters.
- `JSON.parse` and `JSON.stringify` are an abstract pair. A record that parses but then
  throws on field access (such as the string "null" at load) counts as unparsable.
  - SosContext.OnStorageEvent: a storage event carrying the string "null" would set the
    record to `null` in JavaScript. Here, an unusable value is ignored.
- Geolocation coordinates are reals. Whether the browser offers a geolocation API is a
  parameter. The `catch` branch of the geolocation store's `detectLocation` is left out:
  nothing in its `try` block can throw.
- `autoPopulateLocation`'s `showToast` flag is left out, as are the promises it and
  `detectLocation` return. Only the resolved value is modelled.
- LanguageContext: the translation tables are a parameter. `Excerpt` holds only the
  entries the worked examples use. A key that names an inherited object member (such as
  "constructor") is not looked up through the prototype chain.
- LanguageContext.ApplyParams: replacement strings are inserted literally. JavaScript's
  `$&`, `$1` and similar replacement patterns are not interpreted.
- `useLanguage` outside a provider: only its `t` is modelled (`FallbackTranslate`). Its
  constant `language`, `isHindi` and `isEnglish` are left out.
- `useAuth` throwing outside a provider is left out. `useSOS` is not part of this model.
- UserProfileScreen.UserName: a truthy `name` that is not a string (on which `split`
  would throw) is treated as missing.
- UserProfileScreen.DeriveUserData: `toUpperCase` is modelled on ASCII letters only.
  Other characters are left as they are.
- UserProfileScreen.JsString: `joinedDays` prints only as a whole number, boolean, null
  or string. Fractions are not modelled.
- The chat's own notification bell and its scroll-to-bottom effect are left out.
- On the notifications screen, each card's time and icon are left out. So is the
  `hasNotification` dot's effect on rendering.
- The screens' own copies of the navigation bar (SOS-active, notifications) are left out.
  Only `BottomNav` is modelled.
- ProfileScreen: the fields are a fixed record of five strings. `handleInputChange` can
  name only one of those five fields.
- LocationContext.Patched and LocationService.Overlaid: an update can carry only the
  store's own fields. Extra keys that JavaScript would spread into the object are not
  modelled.
- LanguageContext.LanguageProvider.LoadSavedLanguage: adopts a saved code only when it is
  'en' or 'hi'. The code as written also adopts inherited names such as "toString"; the
  provider carries the intended guard, and `AsWrittenGuardAcceptsInheritedName` models the
  guard as written (see Findings).
- LanguageContext.LanguageProvider.ChangeLanguage: likewise, `changeLanguage("toString")`
  sets the language and writes storage in the code as written; here it changes nothing.
- Strings.Initials: JavaScript's `n[0]` is a UTF-16 code unit, so a name that starts with
  a character outside the Basic Multilingual Plane (an emoji, say) yields half of a
  surrogate pair. Here a `char` is a whole Unicode scalar value and the initial is the whole
  character.
- `LanguageContext.JoinedDaysInEnglish` states the English joined line for every printed
  value of `days`, rather than evaluating the example of 5 separately.

## Findings

| source | as written | input that shows it | evidently intended | confidence | as-written member | corrected member |
|---|---|---|---|---|---|---|
| frontend/src/context/LanguageContext.jsx:395 | `LANGUAGES[code]` is truthy for every name an object inherits, so the load and `changeLanguage` (line 402) accept them | a saved language of "toString" is adopted, after which neither `isHindi` nor `isEnglish` holds | only the own keys 'en' and 'hi' are accepted | not executed | LanguageContext.AsWrittenGuardAcceptsInheritedName | LanguageContext.SupportedLanguagesHaveOneFlag |

The provider (`LanguageContext.LanguageProvider`) uses the corrected test. Its `Valid`
invariant, that the language is 'en' or 'hi', is kept by every method.
