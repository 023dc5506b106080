# Proxy profile editor (ProxyManager) in Dafny

This project models the editing logic of the `ProxyManager` form in the
desktop app, found in `desktop-app/app/components/NetworkProxy/ProxyManager/index.js`.
The form edits a working copy of a proxy profile. The profile has one record
for each of the four schemes `default`, `http`, `https` and `ftp`, and a
bypass list of hosts that skip the proxy. A non-default scheme can inherit
`default`'s settings through its `useDefault` flag, or it can carry its own
protocol, server, port, user and password. The model covers:

- the edit handler `changeValue`;
- the bypass text area handler `changeBypassList` and how the text area is filled;
- the save handler `onSaveClicked`;
- the read-only questions the form asks of the working copy: display values,
  which inputs are disabled, which server input is flagged, whether Save is
  disabled, whether the password toggle is shown, and what the protocol
  selector offers and shows.

Files and modules:

- `text.dfy`, module `Text`: JavaScript's whitespace class, and trimming as
  lodash `trim` does it. Also JavaScript's `split` and `join` on one separator character,
  with the round trip between them.
- `proxy_profile.dfy`, module `ProxyProfile`: the data model (`Scheme`,
  `Protocol`, `Port`, `SchemeConfig`, `Profile`). What an edit and a save do
  to a profile as values (`Edited`, `ChangeProfile`, `ChangeBypass`,
  `CleanBypassList`, `Saved`). The projections (`DisplayValue`,
  `CanSeePasswordToggle`, `IsTextFieldDisabled`, `HasServerError`,
  `SaveDisabled`, `SelectorOptions`, `SelectedOption`).
- `proxy_manager.dfy`, module `ProxyManager`: class `ProxyEditor`. It holds the
  working copy (`schemes`, `bypassList`) and the handlers that change it in
  place (`ChangeValue`, `ChangeBypassList`, `SaveClicked`). Each handler is
  proved to leave exactly the profile that the matching value function
  describes.
- `proxy_properties.dfy`, module `ProxyProperties`: lemmas about several
  operations together. They cover edits as seen through the projections,
  what save keeps and drops, its idempotence, and the bypass round trip.

A JavaScript property that the object lacks is modelled as `None`. This keeps
`{useDefault: true}`, the record save leaves for an inherited scheme, apart
from the empty inherited record that `getEmptyProxySchemeConfig(true)`
returns.

Some behaviour may be unexpected. The model follows the code on each point:

- Save does not trim the server. `index.js:128` calls `trim(profile[s].server)`
  and discards the result, so a record that does not inherit reaches `onSave`
  unchanged (`ProxyProfile.Saved`).
- Save collapses an inherited `default` too, because the loop runs over all
  four schemes (`index.js:58`, `:124`). `SaveBlanksInheritedDefault` shows
  that such a `default` row then displays blanks.
- The `default` scheme's selector drops only `(use default)` (`index.js:70`),
  so `direct` can be chosen for `default` (`SelectorOptions`, `DirectClearsScheme`).
- The server-required rule applies to all four schemes, `default` included.
  It reads the scheme's own `protocol` and `server`, not the inherited ones
  (`index.js:222-226`, `:321-326`).

`getEmptyProxySchemeConfig` and `isNullOrWhiteSpaces` are defined in
`utils/proxyUtils` and `utils/stringUtils`, which are not part of this model.
The model takes these contracts for them:

- `EmptyConfig(b)` has blank (`''`) server, port, user and password, no
  protocol, and `useDefault = b`.
- `IsNullOrWhiteSpaces(s)` holds when `s` is absent, empty or all whitespace.

## Model

| member | source | states |
|---|---|---|
| `Text.Trim` | desktop-app/app/components/NetworkProxy/ProxyManager/index.js:122 | the trimmed entry is the middle of the input left once its leading and trailing whitespace runs are cut off: it is a slice of the input, what lies before and after it is blank, it neither starts nor ends with whitespace, and it is empty exactly when the input is blank |
| `Text.TrimUntouched` | desktop-app/app/components/NetworkProxy/ProxyManager/index.js:122 | an entry with no whitespace at either end is kept as it is by the trim |
| `Text.TrimIdempotent` | desktop-app/app/components/NetworkProxy/ProxyManager/index.js:122 | trimming an already trimmed entry changes nothing |
| `Text.Split` | desktop-app/app/components/NetworkProxy/ProxyManager/index.js:158 | splitting the text area content on line breaks yields at least one line and no line contains a line break |
| `Text.Join` | desktop-app/app/components/NetworkProxy/ProxyManager/index.js:303 | the joined text starts with the first entry, followed by the separator when there is a second; one entry joins to itself and no entries to the empty text |
| `Text.JoinSplit` | desktop-app/app/components/NetworkProxy/ProxyManager/index.js:157-160 | joining the split lines with line breaks reproduces the typed text exactly, whitespace-only lines included |
| `Text.SplitJoin` | desktop-app/app/components/NetworkProxy/ProxyManager/index.js:303 | splitting the displayed join of a non-empty list whose entries hold no line break gives the list back |
| `ProxyProfile.EmptyConfig` | desktop-app/app/components/NetworkProxy/ProxyManager/index.js:13 | the empty record has the requested `useDefault`, no protocol, and every text input of its row shows '' |
| `ProxyProfile.IsNullOrWhiteSpaces` | desktop-app/app/components/NetworkProxy/ProxyManager/index.js:15 | a value counts as null or white space exactly when it is absent or trims to the empty string |
| `ProxyProfile.Edited` | desktop-app/app/components/NetworkProxy/ProxyManager/index.js:108-116 | an inherited record ignores every edit except a protocol choice; a protocol choice makes the record its own with that protocol, `direct` blanks every input and any other protocol keeps server, port, user and password; `useDefault = true` on an own record empties it, `false` keeps it; a field edit on an own record writes that field and nothing else |
| `ProxyProfile.ChangeProfile` | desktop-app/app/components/NetworkProxy/ProxyManager/index.js:107-118 | `changeValue(s, …)` touches only `profile[s]`: the other three records and the bypass list are unchanged, and an edit of anything but the protocol on an inherited scheme leaves the whole profile unchanged |
| `ProxyProfile.ChangeBypass` | desktop-app/app/components/NetworkProxy/ProxyManager/index.js:157-160 | the scheme records are unchanged, and the new list shown joined by line breaks is exactly the typed text |
| `ProxyProfile.BypassText` | desktop-app/app/components/NetworkProxy/ProxyManager/index.js:303 | the text area shows the entries joined by line breaks, and splitting it again gives the list back whenever the list has an entry and no entry holds a line break |
| `ProxyProfile.CleanBypassList` | desktop-app/app/components/NetworkProxy/ProxyManager/index.js:121-123 | every saved entry is non-empty and already trimmed, and there are no more entries than before |
| `ProxyProfile.Collapse` | desktop-app/app/components/NetworkProxy/ProxyManager/index.js:125-129 | one turn of save keeps a record's `useDefault`; an inherited record loses protocol, server, port, user and password, and an own record is kept as it is |
| `ProxyProfile.Saved` | desktop-app/app/components/NetworkProxy/ProxyManager/index.js:120-132 | the saved profile has the cleaned bypass list; every inherited scheme, `default` included, becomes `{useDefault: true}`; every other record is passed on unchanged, its server untrimmed |
| `ProxyProfile.FieldShown` | desktop-app/app/components/NetworkProxy/ProxyManager/index.js:135-137 | a falsy field shows as '': a field shows as '' exactly when it is absent or empty, or is a port that is blank or 0; only a positive port shows as a number |
| `ProxyProfile.DisplayValue` | desktop-app/app/components/NetworkProxy/ProxyManager/index.js:134-138 | a row displays the fields of the record in effect: `default`'s for `default` and for inherited schemes, the scheme's own otherwise |
| `ProxyProfile.CanSeePasswordToggle` | desktop-app/app/components/NetworkProxy/ProxyManager/index.js:145-149 | the toggle is shown exactly when the protocol in effect for the row (after inheritance) is not `direct` |
| `ProxyProfile.IsTextFieldDisabled` | desktop-app/app/components/NetworkProxy/ProxyManager/index.js:162-166 | when the inputs are enabled, the row shows the scheme's own record, so typed values are what is displayed |
| `ProxyProfile.HasServerError` | desktop-app/app/components/NetworkProxy/ProxyManager/index.js:222-226 | a flagged server input is always enabled, and it displays the scheme's own server value |
| `ProxyProfile.AnyServerError` | desktop-app/app/components/NetworkProxy/ProxyManager/index.js:321-326 | `schemes.some(…)` over a list holds exactly when some listed scheme has a server error |
| `ProxyProfile.SaveDisabled` | desktop-app/app/components/NetworkProxy/ProxyManager/index.js:321-326 | Save is disabled exactly when some scheme among all four, `default` included, has a server error, which is the same predicate that flags that scheme's server input |
| `ProxyProfile.SelectorOptions` | desktop-app/app/components/NetworkProxy/ProxyManager/index.js:60-70 | every scheme's selector offers all five protocols, `direct` included, and `(use default)` is offered exactly for the non-default schemes |
| `ProxyProfile.SelectorValue` | desktop-app/app/components/NetworkProxy/ProxyManager/index.js:199-203 | the selector's value is `(use default)` exactly when the scheme inherits, a protocol exactly when the scheme is its own with that protocol, and absent exactly when an own scheme has no protocol |
| `ProxyProfile.OnSelect` | desktop-app/app/components/NetworkProxy/ProxyManager/index.js:204-208 | picking `(use default)` leaves the scheme inheriting whatever its record was, and picking a protocol leaves it its own with that protocol |
| `ProxyProfile.Find` | desktop-app/app/components/NetworkProxy/ProxyManager/index.js:74 | `find` returns the sought option exactly when it is among the options, and nothing otherwise |
| `ProxyProfile.SelectedOption` | desktop-app/app/components/NetworkProxy/ProxyManager/index.js:69-79 | the selector shows an option it offers: the one matching `useDefault ? 'default' : protocol` when offered, else the first option |
| `ProxyManager.ProxyEditor.constructor` | desktop-app/app/components/NetworkProxy/ProxyManager/index.js:103 | the working copy starts equal to the caller's template, as a separate value |
| `ProxyManager.ProxyEditor.ChangeValue` | desktop-app/app/components/NetworkProxy/ProxyManager/index.js:107-118 | the in-place edit leaves exactly the profile `ChangeProfile` describes |
| `ProxyManager.ProxyEditor.ChangeBypassList` | desktop-app/app/components/NetworkProxy/ProxyManager/index.js:157-160 | the list becomes the typed text's lines, every line kept as typed, and the text area then shows exactly the typed text |
| `ProxyManager.ProxyEditor.SaveClicked` | desktop-app/app/components/NetworkProxy/ProxyManager/index.js:120-132 | after the in-place cleanup over the four schemes in order, the working copy and the returned profile handed to `onSave` are both `Saved` of the profile before the click |
| `ProxyManager.CollapseStep` | desktop-app/app/components/NetworkProxy/ProxyManager/index.js:124-130 | one turn of save's `forEach` collapses the visited scheme when it inherits and leaves every scheme unchanged otherwise |
| `ProxyManager.CollapsedAll` | desktop-app/app/components/NetworkProxy/ProxyManager/index.js:120-131 | once the loop has visited all four schemes, the working copy is the saved profile |
| `ProxyProperties.UseDefaultShowsDefault` | desktop-app/app/components/NetworkProxy/ProxyManager/index.js:108-137 | after `(use default)` on a non-default scheme, the scheme inherits, every input shows what `default`'s row shows, the inputs are read-only with no server error, the password toggle follows `default`'s protocol, and the selector shows `(use default)` |
| `ProxyProperties.DirectClearsScheme` | desktop-app/app/components/NetworkProxy/ProxyManager/index.js:112-116 | after choosing `direct`, for `default` too, the record is empty, not inherited, with protocol `direct`; its inputs are disabled and blank, and it has no server error and no password toggle |
| `ProxyProperties.ProtocolBreaksInheritance` | desktop-app/app/components/NetworkProxy/ProxyManager/index.js:112-116 | choosing any protocol other than `direct` clears `useDefault`, sets the protocol, and keeps server, port, user and password |
| `ProxyProperties.SelectorRoundTrip` | desktop-app/app/components/NetworkProxy/ProxyManager/index.js:199-209 | whatever option the user picks among those offered, the selector then shows that option |
| `ProxyProperties.TypedServerShown` | desktop-app/app/components/NetworkProxy/ProxyManager/index.js:213-226 | typing into an enabled server input displays the typed text, keeps it enabled, and flags it exactly when the text is blank |
| `ProxyProperties.TypedPortShown` | desktop-app/app/components/NetworkProxy/ProxyManager/index.js:230-242 | a positive port typed into an enabled input shows as itself; a blank port or 0 shows as '' |
| `ProxyProperties.TypedCredentialsShown` | desktop-app/app/components/NetworkProxy/ProxyManager/index.js:245-266 | a user name or password typed into an enabled input is what the input displays |
| `ProxyProperties.FormEditsKeepDefaultOwn` | desktop-app/app/components/NetworkProxy/ProxyManager/index.js:204-209 | no edit the form can issue makes `default` inherit, since its selector has no `(use default)` option |
| `ProxyProperties.BypassTextStable` | desktop-app/app/components/NetworkProxy/ProxyManager/index.js:302-307 | filling the text area from the list and reading it back leaves the profile unchanged, when the list is non-empty and no entry holds a line break |
| `ProxyProperties.CleanBypassListAppend` | desktop-app/app/components/NetworkProxy/ProxyManager/index.js:121-123 | cleaning a concatenation gives the concatenation of the cleaned parts, so the saved entries keep their original order |
| `ProxyProperties.CleanBypassListOne` | desktop-app/app/components/NetworkProxy/ProxyManager/index.js:121-123 | a single entry is dropped when blank, and otherwise saved trimmed |
| `ProxyProperties.CleanBypassListFixed` | desktop-app/app/components/NetworkProxy/ProxyManager/index.js:121-123 | a list of non-empty trimmed entries is saved as it is |
| `ProxyProperties.SaveIdempotent` | desktop-app/app/components/NetworkProxy/ProxyManager/index.js:120-130 | saving a saved profile changes nothing more |
| `ProxyProperties.SaveKeepsErrors` | desktop-app/app/components/NetworkProxy/ProxyManager/index.js:124-130 | save keeps every scheme's server error, and with them the state of the Save button |
| `ProxyProperties.SaveKeepsView` | desktop-app/app/components/NetworkProxy/ProxyManager/index.js:124-130 | while `default` is its own, save changes nothing a row shows: values, enablement, password toggle and selector |
| `ProxyProperties.SaveBlanksInheritedDefault` | desktop-app/app/components/NetworkProxy/ProxyManager/index.js:124-127 | an inherited `default` is collapsed by save, so its row then shows blanks |

## Left out

- Rendering: the Grid, TextField, Select and Button widgets and the `selectStyles` objects. These are presentation only.
- `NumberFormatCustom`, which depends on the `react-number-format` library. The port arrives at `changeValue` already as blank or a non-negative integer (`Port`).
- `handleShowPassword` and `visiblePasswords`, which only toggle password visibility in the UI. The `errors` state is never used and is also left out.
- `onMoreInfo`. It opens an external link through Electron, which is I/O.
- The `onSave` callback, a call into the caller. `SaveClicked` returns the profile it would receive.
- `setProfile`, which only re-renders after each edit. `cloneDeep` becomes value semantics: the caller's template is never changed.
- The `validateProxyConfig` import is never used in this file and is not modelled.
- `ChangeValue`: each property takes the value type the form delivers for it. Calls with an unknown property name or a value of another type (which JavaScript would accept) are not modelled.
- `SchemeConfig.useDefault`: an absent flag and `false` are not distinguished. Every test of the flag treats them alike.
- `Profile.bypassList`: an absent list is modelled as the empty list, as the `|| []` guards at `index.js:121` and `:303` treat it. The `|| ''` guard on the text area's value (`index.js:158`) is not modelled, because the model's text is always a string.
- `ProxyManager.ProxyEditor.SaveClicked`: the source hands the working copy itself to `onSave` (`index.js:131`) and never replaces it, and the shallow `{...profile}` copy at `:117` keeps the scheme records shared. Later `changeValue` calls (`:116`) therefore also change the object the caller received. `SaveClicked` returns a value, so this aliasing is not captured.
- A template that lacks one of the four scheme records is not modelled. The source dereferences all four (`profile[scheme].useDefault` at `index.js:108`, `:125` and `:200`) and would throw a TypeError on render or on use. Every member therefore requires `Complete`, which says all four records are present.
- `Text.IsWhitespace` lists the characters of JavaScript's `\s` class. This stands for the whitespace sets of lodash `trim` and of `isNullOrWhiteSpaces`, whose code is not part of this model.

