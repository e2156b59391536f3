/** The `AppProvider` component as an object: its state hooks are fields,
    the backing store is a map field, and each handler updates them in the
    order the component does, one awaited step after another. Every method
    is proved to leave exactly the state the matching `Session` function
    gives, so the lemmas of `SessionProperties` hold of it. */
module Provider {
  import opened Wrappers
  import opened Lists
  import opened Storage
  import Session

  class AppProvider {
    var fontScale: real
    var theme: Session.AppTheme
    var user: Option<UserData>
    var favorites: seq<int>
    var playlist: seq<int>
    var isLoading: bool
    var storage: Store

    /** The fields as one value. */
    function Snapshot(): Session.State
      reads this
    {
      Session.State(fontScale, theme, user, favorites, playlist, isLoading, storage)
    }

    /** The initial hook values, over the store the device already has. */
    constructor (st: Store)
      ensures Snapshot() == Session.Initial(st)
    {
      fontScale := 1.0;
      theme := Session.System;
      user := None;
      favorites := [];
      playlist := [];
      isLoading := true;
      storage := st;
    }

    /** The bootstrap effect. */
    method Load()
      modifies this
      ensures Snapshot() == Session.Load(old(Snapshot()))
    {
      var storedTheme := if ThemeKey in storage then Some(storage[ThemeKey]) else None;
      if storedTheme.Some? && storedTheme.value.Text? {
        var parsed := Session.ParseTheme(storedTheme.value.text);
        if parsed.Some? {
          theme := parsed.value;
        }
      }
      if Present(storage, CurrentUserKey) {
        match storage[CurrentUserKey]
        case Account(parsed) =>
          user := Some(parsed);
          var userFont := StoredNumber(storage, FontScaleKey(parsed.username));
          if userFont.Some? {
            fontScale := userFont.value;
          }
          if Present(storage, FavoritesKey(parsed.username)) {
            favorites := ParseNumbers(storage[FavoritesKey(parsed.username)]);
          }
          if Present(storage, PlaylistKey(parsed.username)) {
            playlist := ParseNumbers(storage[PlaylistKey(parsed.username)]);
          }
        case _ =>
      } else {
        var globalFont := StoredNumber(storage, GlobalFontScaleKey);
        if globalFont.Some? {
          fontScale := globalFont.value;
        }
      }
      isLoading := false;
    }

    /** `handleSetTheme`. */
    method SetTheme(nextTheme: Session.AppTheme)
      modifies this
      ensures Snapshot() == Session.SetTheme(old(Snapshot()), nextTheme)
    {
      theme := nextTheme;
      storage := storage[ThemeKey := Text(Session.ThemeName(nextTheme))];
    }

    /** `handleSetFontScale`. */
    method SetFontScale(v: real)
      modifies this
      ensures Snapshot() == Session.SetFontScale(old(Snapshot()), v)
    {
      fontScale := v;
      if user.Some? {
        storage := storage[FontScaleKey(user.value.username) := Number(v)];
      } else {
        storage := storage[GlobalFontScaleKey := Number(v)];
      }
    }

    /** `login`; the thrown errors are the `IncorrectPassword` and
        `RegistryUnreadable` results. */
    method Login(username: string, password: string) returns (result: Session.LoginResult)
      modifies this
      ensures (result, Snapshot()) == Session.Login(old(Snapshot()), username, password)
    {
      if Session.Blank(username) || Session.Blank(password) {
        return Session.Ignored;
      }
      var usersJson := ReadRegistry(storage);
      if usersJson.None? {
        return Session.RegistryUnreadable;
      }
      var users := usersJson.value;
      if Registered(users, username) {
        if users[username] != password {
          return Session.IncorrectPassword;
        }
      } else {
        users := users[username := password];
        storage := storage[UsersKey := Users(users)];
      }
      var userData := UserData(username, password);
      storage := storage[CurrentUserKey := Account(userData)];
      user := Some(userData);
      var userFont := StoredNumber(storage, FontScaleKey(username));
      fontScale := if userFont.Some? then userFont.value else 1.0;
      if Present(storage, FavoritesKey(username)) {
        favorites := ParseNumbers(storage[FavoritesKey(username)]);
      } else {
        favorites := [];
      }
      result := Session.Success;
    }

    /** `logout`. */
    method Logout()
      modifies this
      ensures Snapshot() == Session.Logout(old(Snapshot()))
    {
      if user.Some? {
        storage := storage[FontScaleKey(user.value.username) := Number(fontScale)];
        storage := storage[FavoritesKey(user.value.username) := Numbers(favorites)];
      }
      storage := storage - {CurrentUserKey};
      user := None;
      favorites := [];
      fontScale := 1.0;
    }

    /** `toggleFavorite`. */
    method ToggleFavorite(num: int)
      modifies this
      ensures Snapshot() == Session.ToggleFavorite(old(Snapshot()), num)
    {
      var next := Toggled(favorites, num);
      if user.Some? {
        storage := storage[FavoritesKey(user.value.username) := Numbers(next)];
      }
      favorites := next;
    }

    /** `addToPlaylist`. */
    method AddToPlaylist(num: int)
      modifies this
      ensures Snapshot() == Session.AddToPlaylist(old(Snapshot()), num)
    {
      if Includes(playlist, num) {
        return;
      }
      var next := playlist + [num];
      if user.Some? {
        storage := storage[PlaylistKey(user.value.username) := Numbers(next)];
      }
      playlist := next;
    }

    /** `removeFromPlaylist`. */
    method RemoveFromPlaylist(num: int)
      modifies this
      ensures Snapshot() == Session.RemoveFromPlaylist(old(Snapshot()), num)
    {
      var next := Without(playlist, num);
      if user.Some? {
        storage := storage[PlaylistKey(user.value.username) := Numbers(next)];
      }
      playlist := next;
    }

    /** `clearPlaylist`. */
    method ClearPlaylist()
      modifies this
      ensures Snapshot() == Session.ClearPlaylist(old(Snapshot()))
    {
      playlist := [];
      if user.Some? {
        storage := storage[PlaylistKey(user.value.username) := Numbers([])];
      }
    }

    /** `isFavorite`. */
    function IsFavorite(num: int): (r: bool)
      reads this
      ensures r <==> num in favorites
    {
      Includes(favorites, num)
    }

    /** `isInPlaylist`. */
    function IsInPlaylist(num: int): (r: bool)
      reads this
      ensures r <==> num in playlist
    {
      Includes(playlist, num)
    }
  }

  /** A caller's view: on a device with nothing stored, "alice" registers
      with "p1", is then refused "p2" and accepted again with "p1". */
  method RegistrationScenario() returns (first: Session.LoginResult, second: Session.LoginResult, third: Session.LoginResult)
    ensures first == Session.Success && second == Session.IncorrectPassword && third == Session.Success
  {
    var app := new AppProvider(map[]);
    app.Load();
    assert !Session.Blank("alice") by { assert !Session.IsTrimmed("alice"[0]); }
    assert !Session.Blank("p1") by { assert !Session.IsTrimmed("p1"[0]); }
    assert !Session.Blank("p2") by { assert !Session.IsTrimmed("p2"[0]); }
    first := app.Login("alice", "p1");
    second := app.Login("alice", "p2");
    third := app.Login("alice", "p1");
  }

  /** A caller's view: adding a, b, a, c leaves the playlist a, b, c, and
      each is then in the playlist. */
  method PlaylistScenario(a: int, b: int, c: int) returns (list: seq<int>, hasC: bool)
    requires a != b && b != c && a != c
    ensures list == [a, b, c] && hasC
  {
    var app := new AppProvider(map[]);
    app.Load();
    app.AddToPlaylist(a);
    app.AddToPlaylist(b);
    app.AddToPlaylist(a);
    app.AddToPlaylist(c);
    list := app.playlist;
    hasC := app.IsInPlaylist(c);
  }
}
