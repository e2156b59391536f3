/** What the store's operations promise together: invariants every
    operation keeps, what a restart shows after each kind of write, and the
    login and logout round trips. */
module SessionProperties {
  import opened Wrappers
  import opened Lists
  import opened Storage
  import opened Session

  /** One call into the store's public surface. */
  datatype Action =
    | ThemeChosen(theme: AppTheme)
    | FontScaleChosen(scale: real)
    | LoginAttempt(username: string, password: string)
    | LogoutRequested
    | FavoriteToggled(n: int)
    | PlaylistAdded(n: int)
    | PlaylistRemoved(n: int)
    | PlaylistCleared

  function Step(s: State, a: Action): State
  {
    match a
    case ThemeChosen(th) => SetTheme(s, th)
    case FontScaleChosen(v) => SetFontScale(s, v)
    case LoginAttempt(u, p) => Login(s, u, p).1
    case LogoutRequested => Logout(s)
    case FavoriteToggled(n) => ToggleFavorite(s, n)
    case PlaylistAdded(n) => AddToPlaylist(s, n)
    case PlaylistRemoved(n) => RemoveFromPlaylist(s, n)
    case PlaylistCleared => ClearPlaylist(s)
  }

  /** A session: the calls in order, each on the state the previous left. */
  function Run(s: State, acts: seq<Action>): State
    decreases |acts|
  {
    if acts == [] then s else Run(Step(s, acts[0]), acts[1..])
  }

  /** The user and the theme in memory are the ones a restart would show. */
  ghost predicate Synced(s: State)
  {
    s.user == StoredUser(s.storage) && s.theme == ColdStart(s.storage).theme
  }

  /** The pointer key holds an account record, if anything. */
  predicate PointerWellFormed(st: Store)
  {
    Present(st, CurrentUserKey) ==> st[CurrentUserKey].Account?
  }

  /** A restart's theme depends on the theme key alone. */
  lemma RestartThemeFromThemeKey(st1: Store, st2: Store, keys: set<string>)
    requires SameExcept(st1, st2, keys) && ThemeKey !in keys
    ensures ColdStart(st1).theme == ColdStart(st2).theme
  {
    assert StoredTheme(st1) == StoredTheme(st2);
  }

  /** The stored pointer and the registry depend on their own keys alone. */
  lemma SharedKeysUntouched(st1: Store, st2: Store, keys: set<string>)
    requires SameExcept(st1, st2, keys)
    ensures CurrentUserKey !in keys ==> StoredUser(st1) == StoredUser(st2)
    ensures UsersKey !in keys ==> ReadRegistry(st1) == ReadRegistry(st2)
    ensures GlobalFontScaleKey !in keys ==> StoredNumber(st1, GlobalFontScaleKey) == StoredNumber(st2, GlobalFontScaleKey)
  {
    if CurrentUserKey !in keys {
      assert Present(st1, CurrentUserKey) <==> Present(st2, CurrentUserKey);
    }
    if UsersKey !in keys {
      assert Present(st1, UsersKey) <==> Present(st2, UsersKey);
    }
  }

  /** Bootstrap leaves memory in step with the store, whatever it holds. */
  lemma BootstrapSynced(st: Store)
    ensures Synced(ColdStart(st))
  {
  }

  /** Every operation keeps memory in step with the store for the current
      user and the theme. */
  lemma StepKeepsSynced(s: State, a: Action)
    requires Synced(s)
    ensures Synced(Step(s, a))
  {
    var t := Step(s, a);
    var name := if s.user.Some? then s.user.value.username else "";
    FixedKeysDistinct();
    match a
    case ThemeChosen(th) =>
      SharedKeysUntouched(s.storage, t.storage, {ThemeKey});
    case FontScaleChosen(v) =>
      var k := if s.user.Some? then FontScaleKey(s.user.value.username) else GlobalFontScaleKey;
      KeyLayout(if s.user.Some? then s.user.value.username else "", "");
      SharedKeysUntouched(s.storage, t.storage, {k});
      RestartThemeFromThemeKey(s.storage, t.storage, {k});
    case LoginAttempt(u, p) =>
      if Login(s, u, p).0 == Success {
        RestartThemeFromThemeKey(s.storage, t.storage, {UsersKey, CurrentUserKey});
      }
    case LogoutRequested =>
      if s.user.Some? {
        var u := s.user.value.username;
        KeyLayout(u, u);
        RestartThemeFromThemeKey(s.storage, t.storage, {CurrentUserKey, FontScaleKey(u), FavoritesKey(u)});
      } else {
        RestartThemeFromThemeKey(s.storage, t.storage, {CurrentUserKey});
      }
    case FavoriteToggled(n) =>
      PerUserWriteKeepsSynced(s, t, name);
    case PlaylistAdded(n) =>
      PerUserWriteKeepsSynced(s, t, name);
    case PlaylistRemoved(n) =>
      PerUserWriteKeepsSynced(s, t, name);
    case PlaylistCleared =>
      PerUserWriteKeepsSynced(s, t, name);
  }

  /** A write to one of a user's favorites or playlist keys keeps the
      pointer and the theme key as they were. */
  lemma PerUserWriteKeepsSynced(s: State, t: State, u: string)
    requires Synced(s)
    requires t.user == s.user && t.theme == s.theme
    requires SameExcept(s.storage, t.storage, {FavoritesKey(u)}) || SameExcept(s.storage, t.storage, {PlaylistKey(u)})
    ensures Synced(t)
  {
    KeyLayout(u, u);
    if SameExcept(s.storage, t.storage, {FavoritesKey(u)}) {
      SharedKeysUntouched(s.storage, t.storage, {FavoritesKey(u)});
      RestartThemeFromThemeKey(s.storage, t.storage, {FavoritesKey(u)});
    } else {
      SharedKeysUntouched(s.storage, t.storage, {PlaylistKey(u)});
      RestartThemeFromThemeKey(s.storage, t.storage, {PlaylistKey(u)});
    }
  }

  /** Any session after bootstrap stays in step with the store. */
  lemma {:induction false} RunKeepsSynced(s: State, acts: seq<Action>)
    requires Synced(s)
    ensures Synced(Run(s, acts))
    decreases |acts|
  {
    if acts != [] {
      StepKeepsSynced(s, acts[0]);
      RunKeepsSynced(Step(s, acts[0]), acts[1..]);
    }
  }

  /** No operation loses or alters an account: the registry only grows. */
  lemma StepKeepsAccounts(s: State, a: Action, u: string, p: string)
    requires HasAccount(s.storage, u, p)
    ensures HasAccount(Step(s, a).storage, u, p)
  {
    var t := Step(s, a);
    var name := if s.user.Some? then s.user.value.username else "";
    FixedKeysDistinct();
    KeyLayout(name, name);
    match a
    case ThemeChosen(th) =>
      SharedKeysUntouched(s.storage, t.storage, {ThemeKey});
    case FontScaleChosen(v) =>
      SharedKeysUntouched(s.storage, t.storage, {if s.user.Some? then FontScaleKey(name) else GlobalFontScaleKey});
    case LoginAttempt(username, password) =>
      if Login(s, username, password).0 == Success {
        var reg := ReadRegistry(s.storage).value;
        assert ReadRegistry(t.storage) == Some(reg[username := password]);
        assert u == username ==> reg[u] == password;
      }
    case LogoutRequested =>
      SharedKeysUntouched(s.storage, t.storage,
        if s.user.Some? then {CurrentUserKey, FontScaleKey(name), FavoritesKey(name)} else {CurrentUserKey});
    case FavoriteToggled(n) =>
      SharedKeysUntouched(s.storage, t.storage, {FavoritesKey(name)});
    case PlaylistAdded(n) =>
      SharedKeysUntouched(s.storage, t.storage, {PlaylistKey(name)});
    case PlaylistRemoved(n) =>
      SharedKeysUntouched(s.storage, t.storage, {PlaylistKey(name)});
    case PlaylistCleared =>
      SharedKeysUntouched(s.storage, t.storage, {PlaylistKey(name)});
  }

  /** Over a whole session the registry only grows. */
  lemma {:induction false} RunKeepsAccounts(s: State, acts: seq<Action>, u: string, p: string)
    requires HasAccount(s.storage, u, p)
    ensures HasAccount(Run(s, acts).storage, u, p)
    decreases |acts|
  {
    if acts != [] {
      StepKeepsAccounts(s, acts[0], u, p);
      RunKeepsAccounts(Step(s, acts[0]), acts[1..], u, p);
    }
  }

  /** A first login registers the name; afterwards the same name logs in
      exactly with the password it was registered with, and fails with
      `IncorrectPassword` with any other. */
  lemma RegisterThenLogin(s: State, u: string, p: string, q: string)
    requires !Blank(u) && !Blank(p) && !Blank(q)
    requires ReadRegistry(s.storage).Some? && !Registered(ReadRegistry(s.storage).value, u)
    ensures Login(s, u, p).0 == Success
    ensures HasAccount(Login(s, u, p).1.storage, u, p)
    ensures Login(Login(s, u, p).1, u, q).0 == (if q == p then Success else IncorrectPassword)
  {
    assert p != "";
  }

  /** Logging out and back in as the same account restores the font scale
      and the favorites the session had, and keeps the playlist and the
      theme. */
  lemma LogoutLoginRestores(s: State, a: UserData)
    requires s.user == Some(a) && !Blank(a.username) && !Blank(a.password)
    requires HasAccount(s.storage, a.username, a.password)
    ensures Login(Logout(s), a.username, a.password).0 == Success
    ensures var t := Login(Logout(s), a.username, a.password).1;
            t.user == s.user && t.fontScale == s.fontScale && t.favorites == s.favorites
            && t.playlist == s.playlist && t.theme == s.theme
  {
    var u := a.username;
    var l := Logout(s);
    FixedKeysDistinct();
    KeyLayout(u, u);
    SharedKeysUntouched(s.storage, l.storage, {CurrentUserKey, FontScaleKey(u), FavoritesKey(u)});
    assert Present(l.storage, FavoritesKey(u));
  }

  /** A font scale chosen while logged out never reaches a user: logging
      in gives the same result and the same scale as without it. */
  lemma LoginIgnoresAnonymousFontScale(s: State, v: real, u: string, p: string)
    requires s.user.None?
    ensures Login(SetFontScale(s, v), u, p).0 == Login(s, u, p).0
    ensures Login(s, u, p).0 == Success ==>
              Login(SetFontScale(s, v), u, p).1.fontScale == Login(s, u, p).1.fontScale
  {
    FixedKeysDistinct();
    KeyLayout(u, u);
    var s1 := SetFontScale(s, v);
    SharedKeysUntouched(s.storage, s1.storage, {GlobalFontScaleKey});
    assert StoredNumber(s1.storage, FontScaleKey(u)) == StoredNumber(s.storage, FontScaleKey(u));
  }

  /** After a successful login a restart shows the same user, font scale and
      favorites; the playlist is the exception: login keeps the one in
      memory, a restart loads the user's stored one. */
  lemma LoginThenRestart(s: State, u: string, p: string)
    requires Login(s, u, p).0 == Success
    ensures var t := Login(s, u, p).1; var c := ColdStart(t.storage);
            && c.user == t.user && c.fontScale == t.fontScale && c.favorites == t.favorites
            && t.playlist == s.playlist
            && c.playlist == (if Present(t.storage, PlaylistKey(u)) then ParseNumbers(t.storage[PlaylistKey(u)]) else [])
  {
    var t := Login(s, u, p).1;
    FixedKeysDistinct();
    KeyLayout(u, u);
    assert StoredNumber(t.storage, FontScaleKey(u)) == StoredNumber(s.storage, FontScaleKey(u));
    assert Present(t.storage, FavoritesKey(u)) <==> Present(s.storage, FavoritesKey(u));
  }

  /** After logout memory shows scale 1, no favorites and the old playlist,
      while a restart would show the global font scale and an empty
      playlist. */
  lemma LogoutThenRestart(s: State)
    ensures var t := Logout(s); var c := ColdStart(t.storage);
            var global := StoredNumber(s.storage, GlobalFontScaleKey);
            && c.user == t.user == None && c.favorites == t.favorites == []
            && t.fontScale == 1.0 && c.fontScale == (if global.Some? then global.value else 1.0)
            && t.playlist == s.playlist && c.playlist == []
  {
    var t := Logout(s);
    FixedKeysDistinct();
    if s.user.Some? {
      var u := s.user.value.username;
      KeyLayout(u, u);
      SharedKeysUntouched(s.storage, t.storage, {CurrentUserKey, FontScaleKey(u), FavoritesKey(u)});
    } else {
      SharedKeysUntouched(s.storage, t.storage, {CurrentUserKey});
    }
  }

  /** A chosen theme is the one the next start shows. */
  lemma ThemeSurvivesRestart(s: State, th: AppTheme)
    ensures ColdStart(SetTheme(s, th).storage).theme == th
  {
  }

  /** A chosen font scale is the one the next start shows, for the user
      logged in or, with nobody logged in, globally. */
  lemma FontScaleSurvivesRestart(s: State, v: real)
    requires Synced(s) && PointerWellFormed(s.storage)
    ensures ColdStart(SetFontScale(s, v).storage).fontScale == v
  {
    var t := SetFontScale(s, v);
    FixedKeysDistinct();
    if s.user.Some? {
      var u := s.user.value.username;
      KeyLayout(u, u);
      SharedKeysUntouched(s.storage, t.storage, {FontScaleKey(u)});
    } else {
      SharedKeysUntouched(s.storage, t.storage, {GlobalFontScaleKey});
      assert !Present(t.storage, CurrentUserKey);
    }
  }

  /** A logged-in user's favorites after a toggle are the ones the next
      start shows. */
  lemma FavoritesSurviveRestart(s: State, n: int)
    requires Synced(s) && s.user.Some?
    ensures ColdStart(ToggleFavorite(s, n).storage).favorites == ToggleFavorite(s, n).favorites
  {
    var u := s.user.value.username;
    var t := ToggleFavorite(s, n);
    FixedKeysDistinct();
    KeyLayout(u, u);
    SharedKeysUntouched(s.storage, t.storage, {FavoritesKey(u)});
  }

  /** The playlist in memory is the one stored for the logged-in user. */
  predicate PlaylistSaved(s: State)
  {
    s.user.Some? ==> var k := PlaylistKey(s.user.value.username); k in s.storage && s.storage[k] == Numbers(s.playlist)
  }

  /** The playlist operations, and every other call that is not a login,
      keep the stored playlist equal to the one in memory. */
  lemma StepKeepsPlaylistSaved(s: State, a: Action)
    requires PlaylistSaved(s) && !a.LoginAttempt?
    ensures PlaylistSaved(Step(s, a))
  {
    var t := Step(s, a);
    if s.user.Some? {
      var u := s.user.value.username;
      KeyLayout(u, u);
      FixedKeysDistinct();
    }
  }

  /** Every operation keeps the pointer key holding an account or nothing. */
  lemma StepKeepsPointerWellFormed(s: State, a: Action)
    requires PointerWellFormed(s.storage)
    ensures PointerWellFormed(Step(s, a).storage)
  {
    FixedKeysDistinct();
    var name := if s.user.Some? then s.user.value.username else "";
    KeyLayout(name, name);
  }

  /** With the playlist saved, a restart shows the same playlist. */
  lemma PlaylistSurvivesRestart(s: State)
    requires Synced(s) && s.user.Some? && PlaylistSaved(s)
    ensures ColdStart(s.storage).playlist == s.playlist
  {
  }

  /** Toggling an absent favorite twice gives back the session; when a user
      is logged in the stored list is then the restored one. */
  lemma ToggleFavoriteTwice(s: State, n: int)
    requires n !in s.favorites
    ensures var t := ToggleFavorite(ToggleFavorite(s, n), n);
            && t.favorites == s.favorites
            && (s.user.None? ==> t == s)
            && (s.user.Some? ==> t == s.(storage := s.storage[FavoritesKey(s.user.value.username) := Numbers(s.favorites)]))
  {
    ToggleTwiceAbsent(s.favorites, n);
  }

  /** A start over a store that has nothing (every read failed or found no
      key) gives the defaults, no longer loading. */
  lemma BootstrapOnEmptyStore()
    ensures ColdStart(map[]) == State(1.0, System, None, [], [], false, map[])
  {
  }
}
