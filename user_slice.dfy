/** The redux `users` slice: the current user and the two reducers that set and
    clear it, each of which also writes `localStorage` (src/lib/redux/userSlice.tsx). */
module UserSlice {
  import opened Wrappers
  import opened Storage

  datatype User = User(id: string, name: string, email: string, role: string)

  /** The storage keys `clearCurrentUser` removes. */
  const CredentialKeys: set<string> := {"token", "user", "refreshToken"}

  function HexDigit(n: nat): char
    requires n < 16
  {
    if n < 10 then ('0' as int + n) as char else ('a' as int + n - 10) as char
  }

  /** The JSON escape of one character of a string literal. */
  function EscapeChar(c: char): string {
    if c == '"' then "\\\""
    else if c == '\\' then "\\\\"
    else if c == '\n' then "\\n"
    else if c == '\r' then "\\r"
    else if c == '\t' then "\\t"
    else if c as int == 8 then "\\b"
    else if c as int == 12 then "\\f"
    else if c as int < 32 then "\\u00" + [HexDigit(c as int / 16), HexDigit(c as int % 16)]
    else [c]
  }

  function Escape(s: string): string {
    if s == [] then "" else EscapeChar(s[0]) + Escape(s[1..])
  }

  function Quote(s: string): string {
    "\"" + Escape(s) + "\""
  }

  /** `JSON.stringify(user)`, fields in the order the `User` interface declares them. */
  function Stringify(u: User): (j: string)
    ensures |j| >= 2 && j[0] == '{' && j[|j| - 1] == '}'
  {
    "{\"id\":" + Quote(u.id) + (",\"name\":" + Quote(u.name)
      + (",\"email\":" + Quote(u.email) + (",\"role\":" + Quote(u.role) + "}")))
  }

  // ---------------------------------------------------------------------
  // Reading the stored text back, as `JSON.parse` would

  function HexValue(c: char): Option<nat> {
    if '0' <= c <= '9' then Some(c as int - '0' as int)
    else if 'a' <= c <= 'f' then Some(c as int - 'a' as int + 10)
    else if 'A' <= c <= 'F' then Some(c as int - 'A' as int + 10)
    else None
  }

  /** The character a `\uXXXX` escape names, for the four hex digits `h`. */
  function UnicodeEscape(h: string): Option<char>
    requires |h| == 4
  {
    match (HexValue(h[0]), HexValue(h[1]), HexValue(h[2]), HexValue(h[3]))
    case (Some(a), Some(b), Some(c), Some(d)) =>
      var v := ((a * 16 + b) * 16 + c) * 16 + d;
      if v < 0xD800 then Some(v as char) else None
    case _ => None
  }

  /** The text of a JSON string literal whose opening quote has been read:
      the decoded characters up to the closing quote, and what follows it. */
  function ReadString(s: string): Option<(string, string)>
    decreases |s|
  {
    if s == [] then None
    else if s[0] == '"' then Some(("", s[1..]))
    else if s[0] as int < 32 then None
    else if s[0] != '\\' then Prepend(s[0], ReadString(s[1..]))
    else if |s| < 2 then None
    else
      var e := s[1];
      if e == 'u' then
        if |s| < 6 then None
        else match UnicodeEscape(s[2..6])
             case None => None
             case Some(c) => Prepend(c, ReadString(s[6..]))
      else
        var c := if e == '"' then Some('"') else if e == '\\' then Some('\\')
                 else if e == '/' then Some('/') else if e == 'n' then Some('\n')
                 else if e == 'r' then Some('\r') else if e == 't' then Some('\t')
                 else if e == 'b' then Some(8 as char) else if e == 'f' then Some(12 as char)
                 else None;
        if c.None? then None else Prepend(c.value, ReadString(s[2..]))
  }

  function Prepend(c: char, r: Option<(string, string)>): Option<(string, string)> {
    if r.None? then None else Some(([c] + r.value.0, r.value.1))
  }

  /** Reads `"key":"…"` at the start of `s`, where `open` is the text up to and
      including the value's opening quote. */
  function ReadField(open: string, s: string): Option<(string, string)> {
    if |open| <= |s| && s[..|open|] == open then ReadString(s[|open|..]) else None
  }

  /** `JSON.parse` of a stored user, for the one layout `Stringify` produces. */
  function ParseUser(j: string): Option<User> {
    match ReadField("{\"id\":\"", j)
    case None => None
    case Some((id, r1)) =>
      match ReadField(",\"name\":\"", r1)
      case None => None
      case Some((name, r2)) =>
        match ReadField(",\"email\":\"", r2)
        case None => None
        case Some((email, r3)) =>
          match ReadField(",\"role\":\"", r3)
          case None => None
          case Some((role, r4)) => if r4 == "}" then Some(User(id, name, email, role)) else None
  }

  lemma ReadEscapedChar(c: char, t: string)
    ensures ReadString(EscapeChar(c) + t) == Prepend(c, ReadString(t))
  {
    var s := EscapeChar(c) + t;
    if c as int < 32 && c !in {'\n', '\r', '\t'} && c as int != 8 && c as int != 12 {
      var h := [HexDigit(c as int / 16), HexDigit(c as int % 16)];
      assert s == "\\u00" + h + t;
      assert s[2..6] == "00" + h;
      assert s[6..] == t;
    } else if c == '"' || c == '\\' || c in {'\n', '\r', '\t'} || c as int == 8 || c as int == 12 {
      assert s[2..] == t;
    } else {
      assert s[1..] == t;
    }
  }

  /** Reading an escaped string back gives the string, then the text after its closing quote. */
  lemma {:induction false} ReadEscaped(s: string, rest: string)
    ensures ReadString(Escape(s) + "\"" + rest) == Some((s, rest))
    decreases |s|
  {
    if s == [] {
      assert Escape(s) + "\"" + rest == "\"" + rest;
    } else {
      var t := Escape(s[1..]) + "\"" + rest;
      assert Escape(s) + "\"" + rest == EscapeChar(s[0]) + t;
      ReadEscapedChar(s[0], t);
      ReadEscaped(s[1..], rest);
      assert [s[0]] + s[1..] == s;
    }
  }

  /** Reading `key` and a quoted value at the start of a text gives the value
      and the text after it. */
  lemma ReadQuotedField(key: string, v: string, rest: string)
    ensures ReadField(key + "\"", key + Quote(v) + rest) == Some((v, rest))
  {
    var open := key + "\"";
    var s := key + Quote(v) + rest;
    assert s == open + (Escape(v) + "\"" + rest);
    assert s[..|open|] == open;
    assert s[|open|..] == Escape(v) + "\"" + rest;
    ReadEscaped(v, rest);
  }

  /** The stored text reads back as the user that was stored, whatever
      characters its fields hold. */
  lemma StringifyRoundTrip(u: User)
    ensures ParseUser(Stringify(u)) == Some(u)
  {
    var r3 := ",\"role\":" + Quote(u.role) + "}";
    var r2 := ",\"email\":" + Quote(u.email) + r3;
    var r1 := ",\"name\":" + Quote(u.name) + r2;
    ReadQuotedField("{\"id\":", u.id, r1);
    ReadQuotedField(",\"name\":", u.name, r2);
    ReadQuotedField(",\"email\":", u.email, r3);
    ReadQuotedField(",\"role\":", u.role, "}");
  }

  /** The storage after `setCurrentUser(u)`: only the `user` key changes. */
  function StoreUser(s: Store, u: User): (r: Store)
    ensures r.Keys == s.Keys + {"user"} && r["user"] == Stringify(u)
    ensures forall k :: k in s && k != "user" ==> r[k] == s[k]
  {
    s["user" := Stringify(u)]
  }

  /** The storage after `clearCurrentUser()`: the three credential keys go, the rest stay. */
  function ClearCredentials(s: Store): (r: Store)
    ensures r.Keys == s.Keys - CredentialKeys
    ensures forall k :: k in r ==> r[k] == s[k]
  {
    s - CredentialKeys
  }

  /** Clearing twice leaves the same storage as clearing once. */
  lemma ClearCredentialsIdempotent(s: Store)
    ensures ClearCredentials(ClearCredentials(s)) == ClearCredentials(s)
  {
  }

  /** Clearing ignores whatever credentials were written just before it. */
  lemma ClearCredentialsAbsorbsWrites(s: Store, token: string, refreshToken: string, user: string)
    ensures ClearCredentials(s["token" := token]["refreshToken" := refreshToken]["user" := user])
         == ClearCredentials(s)
  {
  }

  /** The slice's state, updated in place by the reducers on immer's draft. */
  class UsersSlice {
    var currentUser: Option<User>
    const storage: LocalStorage

    /** `initialState`. */
    constructor (storage: LocalStorage)
      ensures currentUser == None
      ensures this.storage == storage
    {
      currentUser := None;
      this.storage := storage;
    }

    method SetCurrentUser(payload: User)
      modifies this, storage
      ensures currentUser == Some(payload)
      ensures storage.items == StoreUser(old(storage.items), payload)
    {
      currentUser := Some(payload);
      storage.SetItem("user", Stringify(payload));
    }

    method ClearCurrentUser()
      modifies this, storage
      ensures currentUser == None
      ensures storage.items == ClearCredentials(old(storage.items))
    {
      currentUser := None;
      storage.RemoveItem("token");
      storage.RemoveItem("user");
      storage.RemoveItem("refreshToken");
      assert storage.items == ClearCredentials(old(storage.items));
    }
  }
}
