/** The preference and collection store of the hymn app as a state machine
    over values: the in-memory session fields together with the backing
    store, and one function per operation giving the state after it. Each
    `await` is one step in order; each fire-and-forget write is applied at
    once. The `Provider.AppProvider` class runs the same steps in place. */
module Session {
  import opened Wrappers
  import opened Lists
  import opened Storage

  datatype AppTheme = System | Light | Dark | Sunset | Ocean

  /** The literal a theme is stored as. */
  function ThemeName(t: AppTheme): string
  {
    match t
    case System => "system"
    case Light => "light"
    case Dark => "dark"
    case Sunset => "sunset"
    case Ocean => "ocean"
  }

  /** Bootstrap's check that a stored text is one of the five theme
      literals. It accepts exactly the names `ThemeName` writes. */
  function ParseTheme(s: string): (r: Option<AppTheme>)
    ensures r.Some? ==> ThemeName(r.value) == s
    ensures r.None? ==> forall t :: ThemeName(t) != s
  {
    if s == "light" then Some(Light)
    else if s == "dark" then Some(Dark)
    else if s == "sunset" then Some(Sunset)
    else if s == "ocean" then Some(Ocean)
    else if s == "system" then Some(System)
    else None
  }

  /** The theme the theme key holds, when it holds one of the literals. */
  function StoredTheme(st: Store): (r: Option<AppTheme>)
    ensures r.Some? <==> exists t :: ThemeKey in st && st[ThemeKey] == Text(ThemeName(t))
    ensures r.Some? ==> st[ThemeKey] == Text(ThemeName(r.value))
  {
    if ThemeKey in st && st[ThemeKey].Text? then
      var r := ParseTheme(st[ThemeKey].text);
      assert r.None? ==> forall t :: st[ThemeKey] != Text(ThemeName(t));
      r
    else None
  }

  /** A character `String.prototype.trim` removes: the ECMAScript white
      space and line terminator code points. */
  predicate IsTrimmed(c: char)
  {
    var n := c as int;
    n == 0x09 || n == 0x0A || n == 0x0B || n == 0x0C || n == 0x0D || n == 0x20
    || n == 0xA0 || n == 0x1680 || (0x2000 <= n <= 0x200A) || n == 0x2028
    || n == 0x2029 || n == 0x202F || n == 0x205F || n == 0x3000 || n == 0xFEFF
  }

  /** `!s.trim()`: nothing is left once white space is trimmed. */
  predicate Blank(s: string)
  {
    forall i :: 0 <= i < |s| ==> IsTrimmed(s[i])
  }

  /** The session fields and the backing store. */
  datatype State = State(
    fontScale: real,
    theme: AppTheme,
    user: Option<UserData>,
    favorites: seq<int>,
    playlist: seq<int>,
    isLoading: bool,
    storage: Store)

  /** The session as it is created, before the bootstrap effect runs. */
  function Initial(st: Store): State
  {
    State(1.0, System, None, [], [], true, st)
  }

  /** The bootstrap effect. It never writes; it takes the stored theme only
      when it is one of the literals; it reads the per-user keys only when a
      current user is stored and the global font key otherwise; whatever
      happens, loading is over afterwards. */
  function Load(s: State): (t: State)
    ensures !t.isLoading && t.storage == s.storage
    ensures StoredTheme(s.storage).Some? ==> t.theme == StoredTheme(s.storage).value
    ensures StoredTheme(s.storage).None? ==> t.theme == s.theme
    ensures StoredUser(s.storage).Some? ==> t.user == StoredUser(s.storage)
    ensures StoredUser(s.storage).None? ==> t.user == s.user
    ensures !Present(s.storage, CurrentUserKey) ==>
              t.favorites == s.favorites && t.playlist == s.playlist
              && t.fontScale == (if StoredNumber(s.storage, GlobalFontScaleKey).Some?
                                 then StoredNumber(s.storage, GlobalFontScaleKey).value else s.fontScale)
    ensures Present(s.storage, CurrentUserKey) && StoredUser(s.storage).None? ==>
              t.fontScale == s.fontScale && t.favorites == s.favorites && t.playlist == s.playlist
    ensures StoredUser(s.storage).Some? ==>
              var u, st := StoredUser(s.storage).value.username, s.storage;
              && t.fontScale == (if StoredNumber(st, FontScaleKey(u)).Some?
                                 then StoredNumber(st, FontScaleKey(u)).value else s.fontScale)
              && t.favorites == (if Present(st, FavoritesKey(u)) then ParseNumbers(st[FavoritesKey(u)])
                                 else s.favorites)
              && t.playlist == (if Present(st, PlaylistKey(u)) then ParseNumbers(st[PlaylistKey(u)])
                                else s.playlist)
  {
    var st := s.storage;
    var s1 := if StoredTheme(st).Some? then s.(theme := StoredTheme(st).value) else s;
    var s2 :=
      if Present(st, CurrentUserKey) then
        match st[CurrentUserKey]
        case Account(a) => LoadUser(s1, a)
        // a pointer that is not an account record fails to parse, which
        // ends the bootstrap early
        case _ => s1
      else
        var globalFont := StoredNumber(st, GlobalFontScaleKey);
        if globalFont.Some? then s1.(fontScale := globalFont.value) else s1;
    s2.(isLoading := false)
  }

  /** The per-user part of bootstrap: a stored value replaces the session's,
      a malformed list becomes empty, an absent key changes nothing. */
  function LoadUser(s: State, a: UserData): (t: State)
    ensures t.user == Some(a) && t.storage == s.storage && t.theme == s.theme
    ensures !Present(s.storage, FavoritesKey(a.username)) ==> t.favorites == s.favorites
    ensures !Present(s.storage, PlaylistKey(a.username)) ==> t.playlist == s.playlist
    ensures StoredNumber(s.storage, FontScaleKey(a.username)).None? ==> t.fontScale == s.fontScale
    ensures StoredNumber(s.storage, FontScaleKey(a.username)).Some? ==>
              t.fontScale == StoredNumber(s.storage, FontScaleKey(a.username)).value
    ensures Present(s.storage, FavoritesKey(a.username)) ==>
              t.favorites == ParseNumbers(s.storage[FavoritesKey(a.username)])
    ensures Present(s.storage, PlaylistKey(a.username)) ==>
              t.playlist == ParseNumbers(s.storage[PlaylistKey(a.username)])
  {
    var st, u := s.storage, a.username;
    var userFont := StoredNumber(st, FontScaleKey(u));
    s.(user := Some(a),
       fontScale := if userFont.Some? then userFont.value else s.fontScale,
       favorites := if Present(st, FavoritesKey(u)) then ParseNumbers(st[FavoritesKey(u)]) else s.favorites,
       playlist := if Present(st, PlaylistKey(u)) then ParseNumbers(st[PlaylistKey(u)]) else s.playlist)
  }

  /** A cold start over a given backing store. */
  function ColdStart(st: Store): State
  {
    Load(Initial(st))
  }

  /** `handleSetTheme`: memory and the theme key, nothing else. */
  function SetTheme(s: State, theme: AppTheme): (t: State)
    ensures t == s.(theme := theme, storage := t.storage)
    ensures StoredTheme(t.storage) == Some(theme)
    ensures SameExcept(s.storage, t.storage, {ThemeKey})
  {
    s.(theme := theme, storage := s.storage[ThemeKey := Text(ThemeName(theme))])
  }

  /** `handleSetFontScale`: memory, and exactly one key: the user's font key
      when someone is logged in, the global one otherwise. */
  function SetFontScale(s: State, v: real): (t: State)
    ensures t == s.(fontScale := v, storage := t.storage)
    ensures s.user.Some? ==> StoredNumber(t.storage, FontScaleKey(s.user.value.username)) == Some(v)
    ensures s.user.Some? ==> SameExcept(s.storage, t.storage, {FontScaleKey(s.user.value.username)})
    ensures s.user.None? ==> StoredNumber(t.storage, GlobalFontScaleKey) == Some(v)
    ensures s.user.None? ==> SameExcept(s.storage, t.storage, {GlobalFontScaleKey})
  {
    var key := if s.user.Some? then FontScaleKey(s.user.value.username) else GlobalFontScaleKey;
    s.(fontScale := v, storage := s.storage[key := Number(v)])
  }

  datatype LoginResult = Ignored | Success | IncorrectPassword | RegistryUnreadable

  /** `login`. Blank credentials return at once; a registry that does not
      parse, or a registered name with another password, throws before
      anything changes; an unknown name is registered. On success the
      current-user pointer and `user` are set, the font scale and favorites
      are reloaded from the user's keys (1 and [] when absent), while the
      playlist and the theme stay as they were. */
  function Login(s: State, username: string, password: string): (out: (LoginResult, State))
    ensures out.0 != Success ==> out.1 == s
    ensures out.0 == Ignored <==> Blank(username) || Blank(password)
    ensures out.0 == RegistryUnreadable <==>
              !Blank(username) && !Blank(password) && ReadRegistry(s.storage).None?
    ensures out.0 == IncorrectPassword <==>
              && !Blank(username) && !Blank(password) && ReadRegistry(s.storage).Some?
              && Registered(ReadRegistry(s.storage).value, username)
              && ReadRegistry(s.storage).value[username] != password
    ensures out.0 == Success ==>
              var t, reg := out.1, ReadRegistry(s.storage).value;
              var font := StoredNumber(s.storage, FontScaleKey(username));
              && t.user == Some(UserData(username, password))
              && StoredUser(t.storage) == t.user
              && ReadRegistry(t.storage) == Some(reg[username := password])
              && t.fontScale == (if font.Some? then font.value else 1.0)
              && t.favorites == (if Present(s.storage, FavoritesKey(username))
                                 then ParseNumbers(s.storage[FavoritesKey(username)]) else [])
              && t.playlist == s.playlist && t.theme == s.theme && t.isLoading == s.isLoading
              && SameExcept(s.storage, t.storage, {UsersKey, CurrentUserKey})
  {
    if Blank(username) || Blank(password) then (Ignored, s)
    else match ReadRegistry(s.storage)
      case None => (RegistryUnreadable, s)
      case Some(users) =>
        if Registered(users, username) && users[username] != password then (IncorrectPassword, s)
        else
          var st1 := if Registered(users, username) then s.storage
                     else s.storage[UsersKey := Users(users[username := password])];
          var userData := UserData(username, password);
          var st2 := st1[CurrentUserKey := Account(userData)];
          var userFont := StoredNumber(st2, FontScaleKey(username));
          var userFavs := FavoritesKey(username);
          KeyLayout(username, username);
          assert Registered(users, username) ==> users[username := password] == users;
          (Success,
           s.(storage := st2, user := Some(userData),
              fontScale := if userFont.Some? then userFont.value else 1.0,
              favorites := if Present(st2, userFavs) then ParseNumbers(st2[userFavs]) else []))
  }

  /** `logout`: a logged-in user's font scale and favorites are saved to
      their keys, the pointer is removed, and the session falls back to no
      user, no favorites and scale 1; the playlist and the theme stay. */
  function Logout(s: State): (t: State)
    ensures t == s.(user := None, favorites := [], fontScale := 1.0, storage := t.storage)
    ensures CurrentUserKey !in t.storage && StoredUser(t.storage).None?
    ensures s.user.Some? ==>
              var u := s.user.value.username;
              && FontScaleKey(u) in t.storage && t.storage[FontScaleKey(u)] == Number(s.fontScale)
              && FavoritesKey(u) in t.storage && t.storage[FavoritesKey(u)] == Numbers(s.favorites)
              && SameExcept(s.storage, t.storage, {CurrentUserKey, FontScaleKey(u), FavoritesKey(u)})
    ensures s.user.None? ==> SameExcept(s.storage, t.storage, {CurrentUserKey})
  {
    var st1 :=
      if s.user.Some? then
        var u := s.user.value.username;
        KeyLayout(u, u);
        s.storage[FontScaleKey(u) := Number(s.fontScale)][FavoritesKey(u) := Numbers(s.favorites)]
      else s.storage;
    s.(storage := st1 - {CurrentUserKey}, user := None, favorites := [], fontScale := 1.0)
  }

  /** Saves a new favorites list under the user's key, if anyone is
      logged in; with no user the list lives in memory only. */
  function SaveFavorites(s: State, next: seq<int>): (t: State)
    ensures t == s.(favorites := next, storage := t.storage)
    ensures s.user.Some? ==> t.storage == s.storage[FavoritesKey(s.user.value.username) := Numbers(next)]
    ensures s.user.None? ==> t.storage == s.storage
  {
    s.(favorites := next,
       storage := if s.user.Some? then s.storage[FavoritesKey(s.user.value.username) := Numbers(next)]
                  else s.storage)
  }

  /** Saves a new playlist the same way. */
  function SavePlaylist(s: State, next: seq<int>): (t: State)
    ensures t == s.(playlist := next, storage := t.storage)
    ensures s.user.Some? ==> t.storage == s.storage[PlaylistKey(s.user.value.username) := Numbers(next)]
    ensures s.user.None? ==> t.storage == s.storage
  {
    s.(playlist := next,
       storage := if s.user.Some? then s.storage[PlaylistKey(s.user.value.username) := Numbers(next)]
                  else s.storage)
  }

  /** `toggleFavorite`. */
  function ToggleFavorite(s: State, n: int): (t: State)
    ensures n in t.favorites <==> n !in s.favorites
    ensures forall m :: m != n ==> (m in t.favorites <==> m in s.favorites)
    ensures t == s.(favorites := Toggled(s.favorites, n), storage := t.storage)
    ensures s.user.Some? ==> t.storage == s.storage[FavoritesKey(s.user.value.username) := Numbers(t.favorites)]
    ensures s.user.None? ==> t.storage == s.storage
    ensures t.playlist == s.playlist && t.user == s.user && t.theme == s.theme && t.fontScale == s.fontScale
  {
    SaveFavorites(s, Toggled(s.favorites, n))
  }

  /** `addToPlaylist`: a present number changes nothing and writes nothing. */
  function AddToPlaylist(s: State, n: int): (t: State)
    ensures n in s.playlist ==> t == s
    ensures t == s.(playlist := Added(s.playlist, n), storage := t.storage)
    ensures n !in s.playlist && s.user.Some? ==>
              t.storage == s.storage[PlaylistKey(s.user.value.username) := Numbers(t.playlist)]
    ensures s.user.None? ==> t.storage == s.storage
    ensures NoDuplicates(s.playlist) ==> NoDuplicates(t.playlist)
    ensures t.favorites == s.favorites && t.user == s.user && t.theme == s.theme && t.fontScale == s.fontScale
  {
    if Includes(s.playlist, n) then s
    else
      assert NoDuplicates(s.playlist) ==> NoDuplicates(Added(s.playlist, n)) by {
        if NoDuplicates(s.playlist) { AddedKeepsNoDuplicates(s.playlist, n); }
      }
      SavePlaylist(s, s.playlist + [n])
  }

  /** `removeFromPlaylist`: writes even when the number was absent. */
  function RemoveFromPlaylist(s: State, n: int): (t: State)
    ensures multiset(t.playlist) == multiset(s.playlist)[n := 0]
    ensures n !in s.playlist ==> t.playlist == s.playlist
    ensures t == s.(playlist := Without(s.playlist, n), storage := t.storage)
    ensures s.user.Some? ==> t.storage == s.storage[PlaylistKey(s.user.value.username) := Numbers(t.playlist)]
    ensures s.user.None? ==> t.storage == s.storage
    ensures t.favorites == s.favorites && t.user == s.user && t.theme == s.theme && t.fontScale == s.fontScale
  {
    SavePlaylist(s, Without(s.playlist, n))
  }

  /** `clearPlaylist`. */
  function ClearPlaylist(s: State): (t: State)
    ensures t == s.(playlist := [], storage := t.storage)
    ensures s.user.Some? ==> t.storage == s.storage[PlaylistKey(s.user.value.username) := Numbers(t.playlist)]
    ensures s.user.None? ==> t.storage == s.storage
    ensures t.favorites == s.favorites && t.user == s.user && t.theme == s.theme && t.fontScale == s.fontScale
  {
    SavePlaylist(s, [])
  }
}
