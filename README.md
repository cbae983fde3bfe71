# Presence switch and profile form: a Dafny model

This project models two pieces of sequential logic from a live-event web client, taken
out of their React components.

- **The availability switch** (`PresenceSwitch`). A participant is shown as
  "Available" or "Do not disturb". The component keeps a local `switchValue`, which
  starts as the store's `isAvailableForCall`. An effect copies the store value into
  `switchValue` whenever the two differ. Changing the switch sets `switchValue` and
  writes the new value for the current session. The switch is enabled only when the
  participant can network, meaning they are not in a conversation. Module
  `Presence` (presence.dfy) has two parts:
  - a pure state machine: `SwitchState` with the steps `SyncStep`, `ChangeStep`,
    `ClickStep` and `StoreStep`, plus `Dispatch` and `Run` over sequences of events;
  - the class `PresenceSwitch`, whose methods are specified by those steps.

  The code has no pending local intent. A click is followed by a re-render, and the
  effect then puts the switch back at the store value until the store itself reports
  the written value (`ClickRevertedUntilEcho`). The code does not keep the clicked value
  until the write is confirmed, and neither does the model.
- **The profile form** (`EditProfileForm`). Module `Profile` (profile.dfy) covers:
  - the default values derived from the signed-in user, including the split of the
    display name into first and last name;
  - the LinkedIn and Twitter URLs derived from the typed handles;
  - the normalisation of the stored profile record;
  - adding an interest chip;
  - the first-name check before an update.

  The class `EditProfileForm` holds `values`, `interestsChips`, `errors` and `updating`,
  plus a log of the update calls. On a successful update the form never clears
  `errors`, so a first-name error from an earlier attempt stays. The model keeps
  this behaviour.
- **JavaScript's string and value semantics**, which both pieces depend on. Module
  `JsText` (js.dfy) holds:
  - `undefined` / `null` / value, as `JsOpt`;
  - `String.prototype.trim`, using the whitespace and line-terminator code points of
    ECMA-262;
  - `split(" ")` and `join(" ")`, with both round trips proved.

Writes to the backend appear as entries in a log. The results of reads, the store's
selector values and generated keys are parameters.

## Model

| member | source | states |
|---|---|---|
| `Presence.Render` | src/Components/EventSession/PresenceSwitch.js:48-73 | the switch shows `switchValue`; it is editable exactly when `canNetwork`; the label is "Available" iff `switchValue` and "Do not disturb" otherwise; the tooltip is "Available to network" / "Not available to network" by `switchValue` when `canNetwork`, else the fixed conversation message |
| `Presence.LabelIgnoresGate` | src/Components/EventSession/PresenceSwitch.js:57-67 | the label is the same in the enabled and the disabled branch |
| `Presence.Initial` | src/Components/EventSession/PresenceSwitch.js:34 | initially `switchValue` equals the store's `isAvailableForCall` and no write has been issued |
| `Presence.SyncStep` | src/Components/EventSession/PresenceSwitch.js:36-40 | after the effect `switchValue` equals the store value; no write is issued and nothing else changes; if the two already agreed the state is unchanged |
| `Presence.SyncIdempotent` | src/Components/EventSession/PresenceSwitch.js:36-40 | running the effect twice is the same as running it once |
| `Presence.ChangeStep` | src/Components/EventSession/PresenceSwitch.js:42-46 | `handleChange(v)` sets `switchValue` to `v` and appends exactly one write `(sessionId, v)` |
| `Presence.ClickStep` | src/Components/EventSession/PresenceSwitch.js:56-71 | a click on the disabled switch (`canNetwork` false) changes nothing and writes nothing; on the enabled switch it flips `switchValue` and writes the flipped value once |
| `Presence.StoreStep` | src/Components/EventSession/PresenceSwitch.js:29-32 | new selector values replace `sessionId`, the store value and `canNetwork`, and leave `switchValue` and the log alone |
| `Presence.ChangeThenSync` | src/Components/EventSession/PresenceSwitch.js:36-46 | a toggle followed by the effect, with the store unchanged, leaves `switchValue` at the old store value while the write of `v` stays in the log |
| `Presence.Dispatch` | src/Components/EventSession/PresenceSwitch.js:34-46 | a store change makes its session, availability and `canNetwork` the new inputs, and a click keeps the old ones; after any event and its effect the switch shows the store value, and the log grew by one write exactly when the event was a click on an enabled switch |
| `Presence.RunSettles` | src/Components/EventSession/PresenceSwitch.js:36-46 | after any non-empty sequence of events the switch shows the store value, which is the value the last store change in the sequence reported (the starting one when there was none) |
| `Presence.RunWritesOnlyOnClick` | src/Components/EventSession/PresenceSwitch.js:36-46 | over any sequence of events the log only grows, by at most one write per click, and is unchanged when there is no click |
| `Presence.GatedRunWritesNothing` | src/Components/EventSession/PresenceSwitch.js:63-72 | while the participant cannot network throughout, no sequence of events issues a write, and after a non-empty one the switch shows the last reported store value |
| `Presence.ClickRevertedUntilEcho` | src/Components/EventSession/PresenceSwitch.js:36-46 | in a settled state a click writes the flipped value but the display returns to the store value; once the store reports the written value, the switch shows it and no further write is issued |
| `Presence.PresenceSwitch.constructor` | src/Components/EventSession/PresenceSwitch.js:29-34 | the first render seeds `switchValue` from the store, with an empty write log |
| `Presence.PresenceSwitch.StoreChanged` | src/Components/EventSession/PresenceSwitch.js:29-32 | the component's state after new selector values is `StoreStep` of the old state |
| `Presence.PresenceSwitch.SyncEffect` | src/Components/EventSession/PresenceSwitch.js:36-40 | the state after the effect is `SyncStep` of the old state: `switchValue` equals the store value and the log is unchanged |
| `Presence.PresenceSwitch.HandleChange` | src/Components/EventSession/PresenceSwitch.js:42-46 | the state after `handleChange(v)` is `ChangeStep` of the old state: `switchValue == v`, with one write appended |
| `Presence.PresenceSwitch.Click` | src/Components/EventSession/PresenceSwitch.js:56-71 | the state after a click is `ClickStep` of the old state |
| `JsText.Trim` | src/Components/EditProfile/EditProfileForm.js:83-87 | `s.trim()` is "" exactly when every character of `s` is whitespace, which is how the model states the blank checks at lines 83, 87, 139 and 155 |
| `JsText.TrimSlice` | src/Components/EditProfile/EditProfileForm.js:83-87 | `s.trim()` is a contiguous slice of `s` with only whitespace before and after it; when it is not empty it starts and ends with a character that is not whitespace |
| `JsText.TextStartSkipsBlank` | src/Components/EditProfile/EditProfileForm.js:83 | the scan for the start of the text passes only whitespace and stops at the first character that is not whitespace |
| `JsText.TextEndSkipsBlank` | src/Components/EditProfile/EditProfileForm.js:83 | the scan for the end of the text passes only whitespace and stops just after the last character that is not whitespace |
| `JsText.TrimEmptyIffBlank` | src/Components/EditProfile/EditProfileForm.js:155 | the two scans meet, leaving nothing, exactly when every character of `s` is whitespace |
| `JsText.Split` | src/Components/EditProfile/EditProfileForm.js:42-43 | `split(" ")` gives at least one piece and no piece contains a space; the first piece is the longest space-free prefix |
| `JsText.SplitJoin` | src/Components/EditProfile/EditProfileForm.js:42 | joining the pieces with single spaces gives back the string |
| `JsText.JoinSplit` | src/Components/EditProfile/EditProfileForm.js:42 | splitting the join of space-free pieces gives the pieces back |
| `JsText.SplitLast` | src/Components/EditProfile/EditProfileForm.js:44 | the last piece of `split(" ")` is the longest space-free suffix |
| `JsText.SplitWord` | src/Components/EditProfile/EditProfileForm.js:42-44 | a string without a space splits into itself alone |
| `Profile.OrEmpty` | src/Components/EditProfile/EditProfileForm.js:112 | a defined string is kept; a missing or null value becomes ""; the result is "" exactly when the input is falsy |
| `Profile.DefaultValues` | src/Components/EditProfile/EditProfileForm.js:37-62 | without a display name the defaults hold only `firstName = ""` and `lastName = ""`; otherwise `email` is the user's email or "", `emailPublic` is false, both URLs are null, the chips are empty, the other text properties are "" |
| `Profile.DefaultNames` | src/Components/EditProfile/EditProfileForm.js:42-44 | the first name is the text before the first space and the last name the text after the last space; a one-word name gives that word for both |
| `Profile.ProfileUrl` | src/Components/EditProfile/EditProfileForm.js:82-88 | the URL is null exactly when the handle is blank; otherwise it is the prefix followed by the untrimmed handle |
| `Profile.ProfileUrlInjective` | src/Components/EditProfile/EditProfileForm.js:82-88 | two non-null equal URLs come from the same handle |
| `Profile.WithField` | src/Components/EditProfile/EditProfileForm.js:78-90 | the named field takes the text and every other field keeps its value; "linkedin" and "twitter" also set their URL by the prefix rule |
| `Profile.WithFieldIdempotent` | src/Components/EditProfile/EditProfileForm.js:78-90 | typing the same text into the same field twice is the same as typing it once |
| `Profile.ChipsOrEmpty` | src/Components/EditProfile/EditProfileForm.js:125 | stored chips are kept, and missing chips become the empty list |
| `Profile.Normalised` | src/Components/EditProfile/EditProfileForm.js:112-128 | every text property becomes a string, with missing, null or empty ones as ""; `emailPublic` is true only for a stored `true`; missing chips become `[]`; `id`, `interest` and `isAnonymous` are kept |
| `Profile.NormalisedIdempotent` | src/Components/EditProfile/EditProfileForm.js:112-128 | normalising with the same record twice is the same as doing it once |
| `Profile.Fetched` | src/Components/EditProfile/EditProfileForm.js:92-132 | with no record nothing changes; with a record the values are normalised and the chip state equals `values.interestsChips` |
| `Profile.WithInterestAsWritten` | src/Components/EditProfile/EditProfileForm.js:138-148 | the handler as written throws exactly when `interest` is missing or null |
| `Profile.WithInterest` | src/Components/EditProfile/EditProfileForm.js:138-148 | a non-blank interest appends exactly one chip, holding the untrimmed text and the given key; it clears `interest` and sets `values.interestsChips` to the new list, with everything else unchanged; a blank interest changes nothing |
| `Profile.WithInterestAgrees` | src/Components/EditProfile/EditProfileForm.js:138-148 | wherever the handler as written does not throw, the corrected handler gives the same result |
| `Profile.AddInterestThrowsWithoutDisplayName` | src/Components/EditProfile/EditProfileForm.js:37-148 | for a user without a display name, the defaults and any fetched record leave `interest` missing, so the handler as written throws, while the corrected one changes nothing |
| `Profile.WithInterestKeepsKeysDistinct` | src/Components/EditProfile/EditProfileForm.js:141-143 | adding a chip with a fresh key keeps the chip keys pairwise different |
| `Profile.EditProfileForm.constructor` | src/Components/EditProfile/EditProfileForm.js:72-75 | the initial state has the user's defaults, no chips, no errors, `updating` false and no update calls |
| `Profile.EditProfileForm.HandleUpdateField` | src/Components/EditProfile/EditProfileForm.js:78-90 | `values` becomes `WithField` of the old values; nothing else changes |
| `Profile.EditProfileForm.HandleEmailPrivacy` | src/Components/EditProfile/EditProfileForm.js:150-152 | only `emailPublic` changes, to the switch position |
| `Profile.EditProfileForm.FetchUser` | src/Components/EditProfile/EditProfileForm.js:92-132 | `values` and the chip state become `Fetched` of the old ones; nothing else changes |
| `Profile.EditProfileForm.HandleAddInterest` | src/Components/EditProfile/EditProfileForm.js:138-148 | `values` and the chip state become `WithInterest` of the old ones |
| `Profile.EditProfileForm.HandleUpdateProfile` | src/Components/EditProfile/EditProfileForm.js:154-168 | the update goes ahead exactly when the first name is not blank; with a blank first name, `errors` becomes `{firstName: "First name can't be empty"}` and nothing else changes; otherwise one update of the old values is issued while `updating` is true, the profile is read back, `updating` ends false and `errors` is left as it was |

## Findings

| source | as written | input that shows it | evidently intended | confidence | as-written member | corrected member |
|---|---|---|---|---|---|---|
| src/Components/EditProfile/EditProfileForm.js:139 | without a display name the defaults hold only the two names, so `values.interest` is `undefined`; `fetchUser` never sets it, and `values.interest.trim()` in `handleAddInterest` throws a TypeError | a user whose `displayName` is empty or missing clicks "Add interest" before typing into the interest input | a missing interest counts as blank, and the handler does nothing | medium; not executed | `Profile.WithInterestAsWritten` | `Profile.WithInterest` |

## Left out

- src/Components/EventSession/AudioVideoCheckDialog.js: dialog and camera rendering and store dispatches only, with no logic of its own.
- Rendering, Material-UI styling and layout, routing, the snackbar message and `profileUpdatedCallback`: these are presentation concerns. The switch's render output is reduced to `SwitchView`.
- The store and its selectors (`getSessionId`, `getUserSession`, `getUserAvailableForCall`): their values are inputs (`StoreChanged`, `StoreStep`).
- `participantCanNetwork`: its result is the boolean `canNetwork`. src/Helpers/participantsHelper.js is not part of this model.
- Backend I/O (`getUserDb`, `updateUser`, `setUserAvailableForCall`): a read result is a parameter, and each write is an entry in a ghost log. Completion, failure and latency of these calls are not modelled.
- `uuidv1`: the chip key is a parameter. `WithInterestKeepsKeysDistinct` states what a fresh key gives.
- Asynchrony: `handleUpdateProfile` runs as one sequential method. The in-between state is visible only through the `updating` flag recorded with the update call. How the switch's write interleaves with the store echo is not modelled.
- Stale closures: the handlers read the `values` of the render that created them. The model reads the current state. The two differ only when renders interleave with pending async work.
- `handleUpdateField` with an arbitrary name: only the eight names the form binds are modelled (`TextField`). An unknown name would add a new property.
- Stored records: properties of other JSON types, such as a number stored as `firstName`, are not modelled. Strings, booleans and chip lists are.
- The `!user && !sessionId` early return, and the failure to destructure a missing `user`: the model always has a user.
- `ProfileChips` and its chip deletion through `setInterestsChips`: ProfileChips.js is not part of this model.
- The limit of five chips: only the disabled input and button enforce it, so it is outside the handler's logic.
- String encoding: JavaScript strings are UTF-16 code units, while Dafny's `char` is a Unicode scalar value, so lone surrogates cannot be represented.
- Profile.EditProfileForm.HandleAddInterest: follows the corrected `WithInterest`, not the throwing code, as given under Findings.
