/** The string-keyed backing store (AsyncStorage) as the store sees it: the
    key names, the per-user key namespacing, the payloads it writes (typed
    here instead of JSON text) and how it reads them back. */
module Storage {
  import opened Wrappers

  /** A registered account; passwords are kept and compared in plain text. */
  datatype UserData = UserData(username: string, password: string)

  /** A stored payload. The app writes a theme name as text, a font scale as
      a number, favorites and playlists as number lists, the registry as an
      object from usernames to passwords and the current user as an account
      record. Any other text a key may hold is `Text`. */
  datatype Value =
    | Text(text: string)
    | Number(number: real)
    | Numbers(numbers: seq<int>)
    | Users(accounts: map<string, string>)
    | Account(account: UserData)

  type Store = map<string, Value>

  const GlobalFontScaleKey: string := "fontScale"
  const ThemeKey: string := "appTheme"
  const UsersKey: string := "appUsers"
  const CurrentUserKey: string := "currentUser"
  const FontScalePrefix: string := "fontScale_"
  const FavoritesPrefix: string := "favorites_"
  const PlaylistPrefix: string := "playlist_"

  function FontScaleKey(username: string): string { FontScalePrefix + username }
  function FavoritesKey(username: string): string { FavoritesPrefix + username }
  function PlaylistKey(username: string): string { PlaylistPrefix + username }

  /** The keys shared by all users. */
  function FixedKeys(): set<string>
  {
    {GlobalFontScaleKey, ThemeKey, UsersKey, CurrentUserKey}
  }

  /** `if (await getItem(k))`: the key holds something other than the empty
      string, which JavaScript reads as false. */
  predicate Present(st: Store, k: string)
  {
    k in st && st[k] != Text("")
  }

  /** `st2` agrees with `st1` on every key outside `keys`. */
  ghost predicate SameExcept(st1: Store, st2: Store, keys: set<string>)
  {
    forall k :: k !in keys ==> (k in st1 <==> k in st2) && (k in st1 ==> st1[k] == st2[k])
  }

  /** A stored font scale; anything but a stored number reads as absent. */
  function StoredNumber(st: Store, k: string): (r: Option<real>)
    ensures r.Some? <==> k in st && st[k].Number?
    ensures r.Some? ==> st[k] == Number(r.value)
  {
    if k in st && st[k].Number? then Some(st[k].number) else None
  }

  /** `JSON.parse` of a stored number list, with the `catch` that turns a
      malformed payload into the empty list. */
  function ParseNumbers(v: Value): (r: seq<int>)
    ensures v.Numbers? ==> r == v.numbers
    ensures !v.Numbers? ==> r == []
  {
    match v
    case Numbers(ns) => ns
    case _ => []
  }

  /** The registry as `login` reads it: a missing (or empty) key is an empty
      registry; a payload that is not a registry fails to parse. */
  function ReadRegistry(st: Store): (r: Option<map<string, string>>)
    ensures !Present(st, UsersKey) ==> r == Some(map[])
    ensures Present(st, UsersKey) ==> (r.Some? <==> st[UsersKey].Users?)
    ensures Present(st, UsersKey) && r.Some? ==> st[UsersKey] == Users(r.value)
  {
    if !Present(st, UsersKey) then Some(map[])
    else match st[UsersKey]
      case Users(m) => Some(m)
      case _ => None
  }

  /** `users[username]` is truthy: the name is in the registry with a
      non-empty password. */
  predicate Registered(users: map<string, string>, username: string)
  {
    username in users && users[username] != ""
  }

  /** The store's registry holds `username` with password `password`. */
  predicate HasAccount(st: Store, username: string, password: string)
  {
    ReadRegistry(st).Some? && Registered(ReadRegistry(st).value, username)
    && ReadRegistry(st).value[username] == password
  }

  /** The account the current-user pointer names, if it holds one. */
  function StoredUser(st: Store): (r: Option<UserData>)
    ensures r.Some? <==> Present(st, CurrentUserKey) && st[CurrentUserKey].Account?
    ensures r.Some? ==> st[CurrentUserKey] == Account(r.value)
  {
    if Present(st, CurrentUserKey) && st[CurrentUserKey].Account? then Some(st[CurrentUserKey].account) else None
  }

  /** The key layout keeps every value apart: no per-user key is a shared
      key, the three per-user families never meet, and each family names one
      user per key. */
  lemma KeyLayout(u: string, v: string)
    ensures FontScaleKey(u) !in FixedKeys()
    ensures FavoritesKey(u) !in FixedKeys()
    ensures PlaylistKey(u) !in FixedKeys()
    ensures FontScaleKey(u) != FavoritesKey(v)
    ensures FontScaleKey(u) != PlaylistKey(v)
    ensures FavoritesKey(u) != PlaylistKey(v)
    ensures FontScaleKey(u) == FontScaleKey(v) ==> u == v
    ensures FavoritesKey(u) == FavoritesKey(v) ==> u == v
    ensures PlaylistKey(u) == PlaylistKey(v) ==> u == v
  {
    assert FontScaleKey(u)[0] == 'f' && FontScaleKey(u)[1] == 'o' && FontScaleKey(u)[9] == '_';
    assert FavoritesKey(u)[0] == 'f' && FavoritesKey(u)[1] == 'a';
    assert PlaylistKey(u)[0] == 'p';
    assert FavoritesKey(v)[1] == 'a' && PlaylistKey(v)[0] == 'p';
    assert |GlobalFontScaleKey| == 9 && GlobalFontScaleKey[0] == 'f';
    assert ThemeKey[0] == 'a' && UsersKey[0] == 'a' && CurrentUserKey[0] == 'c';
    assert |FontScaleKey(u)| >= 10;
    assert FavoritesKey(u) != GlobalFontScaleKey by {
      assert GlobalFontScaleKey[1] == 'o';
    }
    if FontScaleKey(u) == FontScaleKey(v) {
      assert u == FontScaleKey(u)[|FontScalePrefix|..] == FontScaleKey(v)[|FontScalePrefix|..] == v;
    }
    if FavoritesKey(u) == FavoritesKey(v) {
      assert u == FavoritesKey(u)[|FavoritesPrefix|..] == FavoritesKey(v)[|FavoritesPrefix|..] == v;
    }
    if PlaylistKey(u) == PlaylistKey(v) {
      assert u == PlaylistKey(u)[|PlaylistPrefix|..] == PlaylistKey(v)[|PlaylistPrefix|..] == v;
    }
  }

  /** The four shared keys are four different keys. */
  lemma FixedKeysDistinct()
    ensures |FixedKeys()| == 4
  {
    assert GlobalFontScaleKey[0] == 'f' && ThemeKey[0] == 'a' && UsersKey[0] == 'a' && CurrentUserKey[0] == 'c';
    assert ThemeKey[3] == 'T' && UsersKey[3] == 'U';
  }

  /** A written payload other than text is present; a removed key is not. */
  lemma WrittenPayloadsArePresent(st: Store, k: string, v: Value)
    requires !v.Text?
    ensures Present(st[k := v], k)
    ensures !Present(st - {k}, k)
  {
  }

  /** A name registered with a non-empty password counts as registered,
      with that password, and the other names keep their standing. */
  lemma RegisteredAfterRegistration(users: map<string, string>, username: string, password: string, other: string)
    requires password != ""
    ensures Registered(users[username := password], username)
    ensures users[username := password][username] == password
    ensures other != username ==> (Registered(users[username := password], other) <==> Registered(users, other))
  {
  }

  /** A font scale reads back as the number last written to its key, and a
      write to another key does not change it. */
  lemma NumberReadAfterWrite(st: Store, k: string, k2: string, v: real)
    ensures StoredNumber(st[k2 := Number(v)], k) == if k == k2 then Some(v) else StoredNumber(st, k)
  {
  }

  /** A number list reads back as the list last written. */
  lemma NumbersReadAfterWrite(st: Store, k: string, ns: seq<int>)
    ensures Present(st[k := Numbers(ns)], k)
    ensures ParseNumbers(st[k := Numbers(ns)][k]) == ns
  {
  }

  /** The registry reads back as the one last written. */
  lemma RegistryReadAfterWrite(st: Store, users: map<string, string>)
    ensures ReadRegistry(st[UsersKey := Users(users)]) == Some(users)
  {
  }

  /** The pointer reads back as the account last written, and as nobody
      once removed. */
  lemma UserReadAfterWrite(st: Store, a: UserData)
    ensures StoredUser(st[CurrentUserKey := Account(a)]) == Some(a)
    ensures StoredUser(st - {CurrentUserKey}) == None
  {
  }
}
