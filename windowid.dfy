/**
 * `Krang.Window`: every browser window running Krang carries an id, kept in
 * `window.name` as `krang_window_<id>`. A window without one draws a new id
 * from the cookie `krang_new_window_id`, which the server fills and the
 * page resets to '0' right after reading, so that the next window does not
 * take the same id. Requests tell the server the window's id through the
 * cookie `krang_window_id`.
 *
 * `parseInt` that finds no number gives `NaN`, written `None`; an id is
 * "truthy" when it is a number other than 0.
 */
module WindowId {
  import opened Wrappers
  import opened JsText
  import opened Cookies

  const NamePrefix := "krang_window_"
  const PoolCookie := "krang_new_window_id"
  const IdCookie := "krang_window_id"
  const LogoutPage := "login.pl?rm=logout"
  const LogoutWindowQuery := "&window="

  /** The run of digits at the end of `s` (what `/\d+$/` matches, or ""). */
  function TrailingDigits(s: string): (r: string)
    ensures |r| <= |s| && s[|s| - |r|..] == r && AllDigits(r)
    ensures |r| < |s| ==> !IsDigit(s[|s| - |r| - 1])
  {
    if |s| == 0 || !IsDigit(s[|s| - 1]) then ""
    else TrailingDigits(s[..|s| - 1]) + [s[|s| - 1]]
  }

  /** `_id_from_name`: the trailing digits of a window name that starts with
      `krang_window_`. */
  function IdFromName(name: string): (r: Option<string>)
    ensures r.Some? <==> StartsWith(name, NamePrefix) && |name| > 0 && IsDigit(name[|name| - 1])
    ensures r.Some? ==> 0 < |r.value| <= |name| && AllDigits(r.value) && name[|name| - |r.value|..] == r.value
  {
    var d := TrailingDigits(name);
    if StartsWith(name, NamePrefix) && d != "" then Some(d) else None
  }

  /** `String(v)` for the result of `Krang.Cookie.get`. */
  function CookieText(v: Option<string>): string {
    match v
    case Some(s) => s
    case None => "null"
  }

  /** `'' + parseInt(...)`. */
  function IdText(id: Option<int>): string {
    match id
    case Some(n) => IntToString(n)
    case None => "NaN"
  }

  /** The address `log_out` sends the window to. */
  function LogoutUrl(id: Option<int>): string {
    LogoutPage + LogoutWindowQuery + IdText(id)
  }

  predicate Truthy(id: Option<int>) {
    id.Some? && id.value != 0
  }

  /** What `get_id` returns in a window called `name` with the cookie jar
      `jar`: the id in the name, or else the pooled one. */
  function IdOf(name: string, jar: Jar, decode: string -> string): Option<int> {
    match IdFromName(name)
    case Some(d) => ParseInt(d)
    case None => ParseInt(CookieText(Get(Serialize(jar), PoolCookie, decode)))
  }

  /** The jar after `get_id`: the pool is reset to '0' exactly when the name
      holds no id (`||` does not evaluate its right side otherwise). */
  function JarAfterGetId(name: string, jar: Jar, encode: string -> string): Jar {
    if IdFromName(name).Some? then jar else Store(jar, PoolCookie, encode("0"))
  }

  /** The jar after `pass_id`: the id drawn, and a truthy id written to
      `krang_window_id`. */
  function JarAfterPassId(name: string, jar: Jar, encode: string -> string, decode: string -> string): Jar {
    var id := IdOf(name, jar, decode);
    var drawn := JarAfterGetId(name, jar, encode);
    if Truthy(id) then Store(drawn, IdCookie, encode(IntToString(id.value))) else drawn
  }

  /** Appending a digit extends the trailing run by it. */
  lemma TrailingDigitsSnoc(s: string, c: char)
    requires IsDigit(c)
    ensures TrailingDigits(s + [c]) == TrailingDigits(s) + [c]
  {
    assert (s + [c])[..|s + [c]| - 1] == s;
  }

  lemma {:induction false} TrailingDigitsOfSplit(p: string, d: string)
    requires AllDigits(d) && (p == "" || !IsDigit(p[|p| - 1]))
    ensures TrailingDigits(p + d) == d
    decreases |d|
  {
    if d == "" {
      assert p + d == p;
    } else {
      var front, last := d[..|d| - 1], d[|d| - 1];
      assert d == front + [last];
      assert p + d == (p + front) + [last];
      TrailingDigitsOfSplit(p, front);
      TrailingDigitsSnoc(p + front, last);
    }
  }

  /** An id read from a name is a number, never `NaN`, and not negative. */
  lemma ParseDigits(d: string)
    requires |d| > 0 && AllDigits(d)
    ensures ParseInt(d).Some? && ParseInt(d).value >= 0
  {
    ParseIntOfDigitStart(d);
    ParseUnsignedOfDigitString(d);
  }

  /** A window that `init` has named `krang_window_<n>` reports `|n|` from
      then on, without touching the pool: the sign of a negative pooled id
      is lost, since the name's id is its trailing digits. */
  lemma NamedWindowId(n: int, jar: Jar, encode: string -> string, decode: string -> string)
    ensures IdOf(NamePrefix + IntToString(n), jar, decode) == Some(if n < 0 then -n else n)
    ensures JarAfterGetId(NamePrefix + IntToString(n), jar, encode) == jar
  {
    var m: nat := if n < 0 then -n else n;
    var digits := NatToString(m);
    NatToStringDigits(m);
    var p := if n < 0 then NamePrefix + "-" else NamePrefix;
    assert NamePrefix + IntToString(n) == p + digits;
    TrailingDigitsOfSplit(p, digits);
    var name := p + digits;
    assert name[..|NamePrefix|] == NamePrefix;
    assert IdFromName(name) == Some(digits);
    ParseIntOfIntToString(m);
  }

  /** Once a window has drawn from the pool, the pool reads 0: the next
      window to draw gets a falsy id and is sent to log in again, rather
      than sharing the id. */
  lemma PoolDrainedAfterDraw(name: string, jar: Jar, encode: string -> string, decode: string -> string,
                             next: string)
    requires IdFromName(name).None? && IdFromName(next).None?
    requires Unambiguous(jar, PoolCookie)
    requires NoSemicolon(encode("0")) && decode(encode("0")) == "0"
    ensures IdOf(next, JarAfterGetId(name, jar, encode), decode) == Some(0)
    ensures Unambiguous(JarAfterGetId(name, jar, encode), PoolCookie)
  {
    var after := Store(jar, PoolCookie, encode("0"));
    StoreKeepsUnambiguous(jar, PoolCookie, encode("0"), PoolCookie);
    GetFromJar(after, PoolCookie, decode);
    ParseIntOfIntToString(0);
  }

  /** The browser window: its name, title and address, and the cookie jar
      it shares with the server. URI encoding and decoding are parameters. */
  class Window {
    var name: string
    var title: string
    /** The address the window was sent to, if any. */
    var location: Option<string>
    var jar: Jar
    const encode: string -> string
    const decode: string -> string

    constructor(name: string, title: string, jar: Jar, encode: string -> string, decode: string -> string)
      ensures this.name == name && this.title == title && this.jar == jar && location == None
      ensures this.encode == encode && this.decode == decode
    {
      this.name := name;
      this.title := title;
      this.jar := jar;
      this.encode := encode;
      this.decode := decode;
      location := None;
    }

    /** `_id_from_pool`: read the pooled id, then reset the pool to '0'. */
    method IdFromPool() returns (id: Option<string>)
      modifies this
      ensures id == Get(Serialize(old(jar)), PoolCookie, decode)
      ensures jar == Store(old(jar), PoolCookie, encode("0"))
      ensures name == old(name) && title == old(title) && location == old(location)
    {
      id := Get(Serialize(jar), PoolCookie, decode);
      jar := Store(jar, PoolCookie, encode("0"));
    }

    /** `get_id`. */
    method GetId() returns (id: Option<int>)
      modifies this
      ensures id == IdOf(old(name), old(jar), decode)
      ensures jar == JarAfterGetId(old(name), old(jar), encode)
      ensures name == old(name) && title == old(title) && location == old(location)
    {
      var fromName := IdFromName(name);
      if fromName.Some? {
        id := ParseInt(fromName.value);
      } else {
        var fromPool := IdFromPool();
        id := ParseInt(CookieText(fromPool));
      }
    }

    /** `init`: a window without a valid id is sent to log out; otherwise it
        is named after its id, which is also appended to its title. */
    method Init()
      modifies this
      ensures jar == JarAfterGetId(old(name), old(jar), encode)
      ensures Truthy(IdOf(old(name), old(jar), decode)) ==>
        var n := IdOf(old(name), old(jar), decode).value;
        name == NamePrefix + IntToString(n) && title == old(title) + " (" + IntToString(n) + ")"
        && location == old(location)
      ensures !Truthy(IdOf(old(name), old(jar), decode)) ==>
        location == Some(LogoutPage) && name == old(name) && title == old(title)
    {
      var id := GetId();
      if Truthy(id) {
        Adopt(id.value);
      } else {
        location := Some(LogoutPage);
      }
    }

    /** The truthy branch of `init`: the window takes its id as its name
        and shows it in its title. */
    method Adopt(id: int)
      modifies this
      ensures name == NamePrefix + IntToString(id) && title == old(title) + " (" + IntToString(id) + ")"
      ensures jar == old(jar) && location == old(location)
    {
      name := NamePrefix + IntToString(id);
      title := title + " (" + IntToString(id) + ")";
    }

    /** `pass_id`: a truthy id is written to `krang_window_id`. */
    method PassId()
      modifies this
      ensures jar == JarAfterPassId(old(name), old(jar), encode, decode)
      ensures name == old(name) && title == old(title) && location == old(location)
    {
      var id := GetId();
      if Truthy(id) {
        jar := Store(jar, IdCookie, encode(IntToString(id.value)));
      }
    }

    /** The body of `log_out` once it goes ahead: the window is sent to the
        logout page with its id, and its name is cleared. */
    method Leave()
      modifies this
      ensures location == Some(LogoutUrl(IdOf(old(name), old(jar), decode)))
      ensures name == "" && title == old(title) && jar == JarAfterGetId(old(name), old(jar), encode)
    {
      var id := GetId();
      location := Some(LogoutUrl(id));
      name := "";
    }

    /** `log_out`, where `editMode` is `Krang.Nav.edit_mode_flag` and
        `confirmed` the user's answer to the question asked only in edit
        mode. */
    method LogOut(editMode: bool, confirmed: bool)
      modifies this
      ensures title == old(title)
      ensures !editMode || confirmed ==>
          location == Some(LogoutUrl(IdOf(old(name), old(jar), decode)))
          && name == "" && jar == JarAfterGetId(old(name), old(jar), encode)
      ensures editMode && !confirmed ==>
          location == old(location) && name == old(name) && jar == old(jar)
    {
      if !editMode || confirmed {
        Leave();
      }
    }
  }

  /** After `pass_id` in a window named with a truthy id, the server reads
      that id back from `krang_window_id`. */
  lemma PassIdReadBack(n: int, jar: Jar, encode: string -> string, decode: string -> string)
    requires n > 0
    requires Unambiguous(jar, IdCookie)
    requires NoSemicolon(encode(IntToString(n))) && decode(encode(IntToString(n))) == IntToString(n)
    ensures var name := NamePrefix + IntToString(n);
      var id := IdOf(name, jar, decode);
      Truthy(id)
      && Get(Serialize(Store(JarAfterGetId(name, jar, encode), IdCookie, encode(IntToString(id.value)))),
             IdCookie, decode) == Some(IntToString(n))
  {
    NamedWindowId(n, jar, encode, decode);
    var stored := Store(jar, IdCookie, encode(IntToString(n)));
    StoreKeepsUnambiguous(jar, IdCookie, encode(IntToString(n)), IdCookie);
    GetFromJar(stored, IdCookie, decode);
  }
}
