# Hymn book preference and collection store, in Dafny

This project models the state store of a mobile hymn-book app: the
`AppProvider` component in `app/context/AppProvider.tsx`. The store keeps
the session in memory: font scale, colour theme, the logged-in user, the
favorite hymn numbers, today's playlist and a loading flag. It mirrors these
into an on-device string-keyed store (AsyncStorage). That store holds:

- a user registry under `appUsers`;
- a current-user pointer under `currentUser`;
- global keys for the theme (`appTheme`) and the anonymous font scale (`fontScale`);
- per-user keys `fontScale_<name>`, `favorites_<name>` and `playlist_<name>`.

Layout:

- `wrappers.dfy`: `Option`.
- `lists.dfy` (module `Lists`): the pure list rules. These are `includes`,
  `filter`, the favorites toggle and the set-like playlist insert, with their
  lemmas.
- `storage.dfy` (module `Storage`): key names and per-user namespacing. It
  gives the stored payloads as typed values instead of JSON text. It says how
  a read is interpreted: JavaScript truthiness of the read string, and the
  `catch` that turns a malformed list into `[]`. It also proves that no two
  keys ever collide.
- `session.dfy` (module `Session`): the session as a value `State`, with one
  function per operation giving the state after it. Each `await` is one step
  in sequence. Each fire-and-forget write is applied at once.
- `session_properties.dfy` (module `SessionProperties`): lemmas that span
  several operations, or any sequence of them (`Run`).
- `provider.dfy` (module `Provider`): the class `AppProvider`. Its fields are
  the state hooks plus a `map` for the backing store. Its methods perform the
  component's steps in place. Each method is proved to end in exactly the
  state the matching `Session` function gives.

Behaviour the proofs bring out:

- `login` reloads the font scale and the favorites, but not the playlist. The
  previous session's playlist stays in memory. A restart would instead load
  the user's stored playlist (`LoginThenRestart`).
- `logout` resets the font scale to 1 in memory. A restart would show the
  global font scale instead (`LogoutThenRestart`).
- The user and the theme in memory always match what a restart would show
  (`RunKeepsSynced`).
- The registry never loses an account (`RunKeepsAccounts`).

Other behaviour worth knowing:

- Favorites are an ordered list, and they may hold repeats read from storage.
- A current-user pointer that fails to parse ends bootstrap early, after the
  theme has been applied. It is not treated as an absent key.

## Model

| member | source | states |
|---|---|---|
| Lists.Includes | app/context/AppProvider.tsx:176 | `includes` is true exactly when the number occurs in the list |
| Lists.Without | app/context/AppProvider.tsx:198 | the filter removes every occurrence of the number and keeps every other element with its multiplicity; it is the identity when the number is absent |
| Lists.Toggled | app/context/AppProvider.tsx:176-177 | toggling flips the number's membership, leaves every other number's membership alone, appends an absent number at the end, and removes all copies of a present one |
| Lists.Added | app/context/AppProvider.tsx:189-190 | the playlist insert adds the number if it was absent, keeps the existing entries in place at the front, and grows by one exactly when the number was new |
| Lists.AddedKeepsNoDuplicates | app/context/AppProvider.tsx:189-190 | the insert keeps a duplicate-free playlist duplicate-free |
| Lists.WithoutAppend | app/context/AppProvider.tsx:198 | filtering commutes with concatenation, so the remaining entries keep their relative order |
| Lists.WithoutKeepsNoDuplicates | app/context/AppProvider.tsx:198 | removing from a duplicate-free playlist leaves it duplicate-free |
| Lists.ToggleTwiceAbsent | app/context/AppProvider.tsx:176-177 | toggling an absent number twice restores the exact original list |
| Lists.ToggleTwicePresent | app/context/AppProvider.tsx:176-177 | toggling a present number twice restores membership only: the number ends up once, at the end |
| Lists.AddedThenRemoved | app/context/AppProvider.tsx:187-201 | removing a number just added to a playlist that lacked it gives the playlist back |
| Lists.AddedAllNoDuplicates | app/context/AppProvider.tsx:187-194 | any run of inserts into a duplicate-free playlist keeps it duplicate-free |
| Lists.AddedAllKeepsOrder | app/context/AppProvider.tsx:187-194 | any run of inserts keeps the earlier entries in order at the front, and the result holds exactly the old and the inserted numbers |
| Lists.AddedAllSuppressesRepeats | app/context/AppProvider.tsx:187-194 | inserting a, b, a, c into an empty playlist gives a, b, c |
| Storage.NumberReadAfterWrite | app/context/AppProvider.tsx:70 | a font key reads back as the number last written to it (lines 111 and 115), and a write to another key leaves the read unchanged |
| Storage.NumbersReadAfterWrite | app/context/AppProvider.tsx:71-78 | a favorites or playlist key reads back, as present, as exactly the list last written to it (lines 163, 179, 191, 199, 206) |
| Storage.RegistryReadAfterWrite | app/context/AppProvider.tsx:124-125 | the registry reads back as the map last written to it (line 133) |
| Storage.UserReadAfterWrite | app/context/AppProvider.tsx:61-63 | the pointer reads back as the account last written to it (line 137), and as nobody once removed (line 165) |
| Storage.Present | app/context/AppProvider.tsx:61 | a read counts as present, as in a JavaScript `if`, when the key exists and holds anything but the empty string; the same test is used at lines 71, 79 and 125 |
| Storage.WrittenPayloadsArePresent | app/context/AppProvider.tsx:61-89 | any non-text payload the store writes is present when read back, and a removed key is not |
| Storage.Registered | app/context/AppProvider.tsx:127 | `users[username]` is truthy: the name is in the registry with a non-empty password |
| Storage.RegisteredAfterRegistration | app/context/AppProvider.tsx:131-132 | registering a name with a non-empty password makes it registered with that password, and leaves every other name as it was |
| Storage.KeyLayout | app/context/AppProvider.tsx:32-38 | no per-user key equals a shared key; the font, favorites and playlist families never share a key; each family gives distinct users distinct keys |
| Storage.FixedKeysDistinct | app/context/AppProvider.tsx:32-35 | the four shared keys are pairwise distinct |
| Session.IsTrimmed | app/context/AppProvider.tsx:122 | the characters `trim` removes: the ECMAScript white space and line terminator code points |
| Session.Blank | app/context/AppProvider.tsx:122 | `!s.trim()`: every character of the string is one that `trim` removes |
| Session.ParseTheme | app/context/AppProvider.tsx:57 | the stored theme check accepts exactly the five theme literals and returns the theme each one names |
| Session.StoredTheme | app/context/AppProvider.tsx:52-59 | a stored theme is taken only when the key holds the literal of some theme |
| Session.Load | app/context/AppProvider.tsx:49-99 | bootstrap writes nothing and always ends loading; it applies a valid stored theme and otherwise keeps the current one; with no pointer it reads only the global font key; with an account pointer it takes that user and their stored values; a malformed pointer changes nothing after the theme |
| Session.LoadUser | app/context/AppProvider.tsx:64-85 | per-user bootstrap sets the user; a stored font number is taken; a present favorites or playlist key is parsed, with a malformed one giving []; an absent key keeps the current value |
| Session.SetTheme | app/context/AppProvider.tsx:101-106 | only the theme changes in memory, and only the theme key changes in storage, to the chosen theme |
| Session.SetFontScale | app/context/AppProvider.tsx:108-119 | only the font scale changes in memory; exactly one key changes: the user's font key when logged in, the global one otherwise |
| Session.Login | app/context/AppProvider.tsx:121-157 | blank credentials, an unreadable registry and a wrong password each leave the whole state unchanged, and each is reported exactly in its case; on success the registry is the old one with the name mapped to the password, the pointer and the user are set, the font scale and favorites come from the user's keys (1 and [] when absent), the playlist and theme are kept, and only the two shared keys change |
| Session.Logout | app/context/AppProvider.tsx:159-172 | a logged-in user's font scale and favorites are written to their keys, the pointer is removed, nothing else in storage changes; afterwards the user is none, favorites are empty, the font scale is 1, and the playlist and theme are kept |
| Session.SaveFavorites | app/context/AppProvider.tsx:178-182 | the new favorites are written to the user's key when logged in; otherwise storage is untouched |
| Session.SavePlaylist | app/context/AppProvider.tsx:191 | the new playlist is written to the user's key when logged in; otherwise storage is untouched |
| Session.ToggleFavorite | app/context/AppProvider.tsx:174-185 | the favorites become the toggled list: membership of the number flips, an absent number goes at the end, every other number keeps its membership; the favorites key gets the new list only when a user is logged in, and storage is untouched otherwise; no other session field changes |
| Session.AddToPlaylist | app/context/AppProvider.tsx:187-194 | a present number changes nothing, not even storage; an absent one is appended and, when a user is logged in, the new list is written to their playlist key; with nobody logged in storage is untouched; no duplicates are created; no other session field changes |
| Session.RemoveFromPlaylist | app/context/AppProvider.tsx:196-202 | the playlist becomes the filtered list: every occurrence goes, the rest keep their order and multiplicity, an absent number leaves it as it was; the list is written to the playlist key only when logged in (even when nothing was removed), and storage is untouched otherwise; no other session field changes |
| Session.ClearPlaylist | app/context/AppProvider.tsx:204-207 | the playlist becomes empty; [] is written to the playlist key only when logged in, storage is untouched otherwise; no other session field changes |
| SessionProperties.RestartThemeFromThemeKey | app/context/AppProvider.tsx:52-59 | the theme after a restart depends on the theme key alone |
| SessionProperties.SharedKeysUntouched | app/context/AppProvider.tsx:32-35 | storage that differs only outside the pointer, registry or global font key reads the same pointer, registry or global font scale |
| SessionProperties.StepKeepsSynced | app/context/AppProvider.tsx:101-207 | every operation keeps the user and theme in memory equal to what a restart would load |
| SessionProperties.PerUserWriteKeepsSynced | app/context/AppProvider.tsx:178-206 | a write to a favorites or playlist key keeps the user and theme in step with a restart |
| SessionProperties.BootstrapSynced | app/context/AppProvider.tsx:49-99 | whatever the store holds, bootstrap ends with the user and theme in memory equal to what a restart would load |
| SessionProperties.RunKeepsSynced | app/context/AppProvider.tsx:49-207 | after bootstrap, any sequence of operations keeps the user and theme in step with a restart |
| SessionProperties.StepKeepsAccounts | app/context/AppProvider.tsx:127-133 | no operation removes an account or changes its password |
| SessionProperties.RunKeepsAccounts | app/context/AppProvider.tsx:127-133 | over any sequence of operations the registry only grows |
| SessionProperties.RegisterThenLogin | app/context/AppProvider.tsx:122-137 | a first login registers the name; afterwards the name logs in exactly with that password and fails with IncorrectPassword with any other |
| SessionProperties.LogoutLoginRestores | app/context/AppProvider.tsx:136-168 | logging out and back in as the same account restores the font scale and favorites, and keeps the playlist and theme |
| SessionProperties.LoginIgnoresAnonymousFontScale | app/context/AppProvider.tsx:108-145 | a font scale chosen while logged out never changes the outcome or the font scale of a later login |
| SessionProperties.LoginThenRestart | app/context/AppProvider.tsx:136-152 | after a login, a restart shows the same user, font scale and favorites, but loads the stored playlist while login kept the old one |
| SessionProperties.LogoutThenRestart | app/context/AppProvider.tsx:159-168 | after logout memory shows scale 1 and the old playlist, while a restart would show the global scale and an empty playlist |
| SessionProperties.ThemeSurvivesRestart | app/context/AppProvider.tsx:101-106 | a chosen theme is the one the next start shows |
| SessionProperties.FontScaleSurvivesRestart | app/context/AppProvider.tsx:108-119 | when the pointer holds an account or nothing, a chosen font scale is the one the next start shows, per user or globally |
| SessionProperties.StepKeepsPointerWellFormed | app/context/AppProvider.tsx:137-165 | every operation keeps the pointer key holding an account or nothing |
| SessionProperties.FavoritesSurviveRestart | app/context/AppProvider.tsx:174-185 | a logged-in user's favorites after a toggle are the ones the next start shows |
| SessionProperties.StepKeepsPlaylistSaved | app/context/AppProvider.tsx:187-207 | every operation except login keeps the stored playlist equal to the one in memory |
| SessionProperties.PlaylistSurvivesRestart | app/context/AppProvider.tsx:79-85 | with the playlist saved, a restart shows the same playlist |
| SessionProperties.ToggleFavoriteTwice | app/context/AppProvider.tsx:174-185 | toggling an absent favorite twice restores the session; when logged in, the stored list is the restored one |
| SessionProperties.BootstrapOnEmptyStore | app/context/AppProvider.tsx:41-46 | a start over an empty store gives the defaults and is no longer loading |
| Provider.AppProvider.constructor | app/context/AppProvider.tsx:41-46 | the initial hook values: scale 1, theme system, no user, empty lists, loading |
| Provider.AppProvider.Load | app/context/AppProvider.tsx:49-99 | the bootstrap effect ends in the state `Session.Load` gives |
| Provider.AppProvider.SetTheme | app/context/AppProvider.tsx:101-106 | ends in the state `Session.SetTheme` gives |
| Provider.AppProvider.SetFontScale | app/context/AppProvider.tsx:108-119 | ends in the state `Session.SetFontScale` gives |
| Provider.AppProvider.Login | app/context/AppProvider.tsx:121-157 | returns the result and ends in the state `Session.Login` gives |
| Provider.AppProvider.Logout | app/context/AppProvider.tsx:159-172 | ends in the state `Session.Logout` gives |
| Provider.AppProvider.ToggleFavorite | app/context/AppProvider.tsx:174-185 | ends in the state `Session.ToggleFavorite` gives |
| Provider.AppProvider.AddToPlaylist | app/context/AppProvider.tsx:187-194 | ends in the state `Session.AddToPlaylist` gives |
| Provider.AppProvider.RemoveFromPlaylist | app/context/AppProvider.tsx:196-202 | ends in the state `Session.RemoveFromPlaylist` gives |
| Provider.AppProvider.ClearPlaylist | app/context/AppProvider.tsx:204-207 | ends in the state `Session.ClearPlaylist` gives |
| Provider.AppProvider.IsFavorite | app/context/AppProvider.tsx:209 | true exactly when the number is among the favorites |
| Provider.AppProvider.IsInPlaylist | app/context/AppProvider.tsx:210 | true exactly when the number is in the playlist |
| Provider.RegistrationScenario | app/context/AppProvider.tsx:121-137 | on an empty device, alice registers with p1, is refused p2, and is accepted again with p1 |
| Provider.PlaylistScenario | app/context/AppProvider.tsx:187-194 | adding a, b, a, c gives the playlist a, b, c |

## Left out

- React machinery is not modelled: `useState`, `useEffect`, `useMemo`, context creation, `useAppSettings`, and the render gate that returns nothing while loading. `isLoading` is kept as a plain field.
- Asynchrony is not modelled. `Promise.all` reads and fire-and-forget writes that finish out of order are not captured. Each operation is one sequential step, and each write lands at once, in program order.
- Storage I/O failures are mostly not modelled: reads and writes never fail. A failure of the first two bootstrap reads skips the whole bootstrap. The session fields are then the defaults, the ones `BootstrapOnEmptyStore` shows for an empty store. Partial failures are not modelled. One case is a failed per-user read after the user was set. Failed reads or writes in `login` and failed writes elsewhere are not modelled either. The `console.error` logging is left out. The errors `login` throws on purpose are modelled as results: `IncorrectPassword` and `RegistryUnreadable`.
- JSON text is not modelled; payloads are typed values. So the model does not capture a JSON payload that parses to the wrong shape. Examples: a favorites payload that is an object, or a pointer without a `username`. It treats such payloads as malformed.
- `Text` stands only for text that is not the JSON of a number, a list, a registry or an account. A `Text` payload holding such JSON is read as malformed, whereas the app would parse it.
- `parseFloat` and floating point are not modelled. The font scale is a `real` on which the store does no arithmetic. A font key holding something that is not a number reads as absent. In the app, `parseFloat` would give NaN or a numeric prefix.
- The prototype-key quirk of `users[username]` on a plain object is not modelled. For example, `"constructor"` looks registered there. Here the registry is a `map<string, string>`. A name counts as registered when it has a non-empty password.
- `hooks/use-color-scheme.ts` and `hooks/use-color-scheme.web.ts` (theme-to-OS-scheme choice) are not part of this model. Nor are the navigation layouts, `types/hymn.ts`, the hymn catalog or the screens. They are presentation and types, and keep no store state.
