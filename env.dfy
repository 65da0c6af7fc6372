/** The context store (env.go; duplicated in main.go:21-173 and cli/main.go:20-128):
    the process-wide map `current_environ`, read from and written back to the
    session file, holding the base URL under `URL` and one `HEADER_<NAME>`
    entry per custom header. */
module Env {
  import opened Common
  import opened EnvText
  import opened HeaderKeys
  import opened Headers
  import opened Urls

  /** `setenv(key, value)`: an empty value removes the key, any other value sets it. */
  function Assign(m: Environ, key: string, value: string): (r: Environ)
    ensures value == "" ==> key !in r
    ensures value != "" ==> key in r && r[key] == value
    ensures forall k :: k != key ==> (k in r <==> k in m) && (k in r ==> r[k] == m[k])
  {
    if value == "" then m - {key} else m[key := value]
  }

  /** `env` holds for `key` what `setenv(key, value)` leaves there. */
  predicate Holds(env: Environ, key: string, value: string)
  {
    if value == "" then key !in env else key in env && env[key] == value
  }

  // ---------------------------------------------------------------- headers

  /** The header name `get_headers` derives from a store key. */
  function HeaderName(key: string): string
  {
    Canonical(EnvToHeader(key))
  }

  /** `h` is a header collection `get_headers` can return for `env` (env.go:81-91):
      one name per stored header key, each holding that key's value as its only
      value. Where two keys share a name, the map's iteration order picks one. */
  ghost predicate HeaderView(env: Environ, h: Header)
  {
    && (forall key :: key in env && IsHeaderKey(key) ==> HeaderName(key) in h)
    && (forall n :: n in h ==>
          exists key :: key in env && IsHeaderKey(key) && HeaderName(key) == n && h[n] == [env[key]])
  }

  /** The store keys `set_headers(h)` writes. */
  function ImagesOf(names: set<string>): set<string>
  {
    set n | n in names :: HeaderToEnv(n)
  }

  /** The first loop of `set_headers` (env.go:95-104): a stored header key is
      removed when its name is not a key of `h`. */
  function Pruned(env: Environ, h: Header): (r: Environ)
    ensures forall key :: key in r <==> key in env && !(IsHeaderKey(key) && EnvToHeader(key) !in h)
    ensures forall key :: key in r ==> r[key] == env[key]
  {
    map key | key in env && !(IsHeaderKey(key) && EnvToHeader(key) !in h) :: env[key]
  }

  /** `after` is what `set_headers(h)` leaves once the names in `done` are written
      (env.go:106-116): a key written for some name of `done` holds that name's
      values joined by a space (iteration order picks the name when several share
      the key); every other key is as the first loop left it. */
  ghost predicate ReplacedUpTo(before: Environ, h: Header, done: set<string>, after: Environ)
  {
    && (forall key :: key in ImagesOf(done) ==>
          exists n :: n in done && n in h && HeaderToEnv(n) == key && Holds(after, key, Join(h[n], " ")))
    && (forall key :: key !in ImagesOf(done) ==>
          (key in after <==> key in Pruned(before, h)) && (key in after ==> after[key] == before[key]))
  }

  /** `after` is what `set_headers(h)` leaves of `before`. */
  ghost predicate Replaced(before: Environ, h: Header, after: Environ)
  {
    ReplacedUpTo(before, h, h.Keys, after)
  }

  /** Every stored header key has the form `headerkey_to_envkey` produces. */
  ghost predicate WellFormed(env: Environ)
  {
    forall key :: key in env && IsHeaderKey(key) ==> IsDashFree(key)
  }

  lemma ReplacedStep(before: Environ, h: Header, done: set<string>, after: Environ, n: string)
    requires done <= h.Keys && n in h
    requires ReplacedUpTo(before, h, done, after)
    ensures ReplacedUpTo(before, h, done + {n}, Assign(after, HeaderToEnv(n), Join(h[n], " ")))
  {
    var k0 := HeaderToEnv(n);
    var after' := Assign(after, k0, Join(h[n], " "));
    var done' := done + {n};
    forall key | key in ImagesOf(done')
      ensures exists m :: m in done' && m in h && HeaderToEnv(m) == key && Holds(after', key, Join(h[m], " "))
    {
      if key == k0 {
        assert Holds(after', key, Join(h[n], " "));
      } else {
        assert key in ImagesOf(done);
        var m :| m in done && m in h && HeaderToEnv(m) == key && Holds(after, key, Join(h[m], " "));
        assert Holds(after', key, Join(h[m], " "));
      }
    }
    forall key | key !in ImagesOf(done')
      ensures (key in after' <==> key in Pruned(before, h)) && (key in after' ==> after'[key] == before[key])
    {
      assert key != k0;
      assert key !in ImagesOf(done);
    }
  }

  /** Keys that do not hold a header, such as `URL`, are left as they were. */
  lemma ReplacedKeepsOthers(before: Environ, h: Header, after: Environ, key: string)
    requires Replaced(before, h, after)
    requires !IsHeaderKey(key)
    ensures key in after <==> key in before
    ensures key in after ==> after[key] == before[key]
  {
    assert key !in ImagesOf(h.Keys);
  }

  /** A stored header whose name is not in `h` is gone afterwards, provided no
      name in `h` has a `_` (such a name could write the very same key). */
  lemma ReplacedRemovesAbsent(before: Environ, h: Header, after: Environ, key: string)
    requires Replaced(before, h, after)
    requires forall n :: n in h ==> '_' !in n
    requires IsHeaderKey(key) && EnvToHeader(key) !in h
    ensures key !in after
  {
    if key in ImagesOf(h.Keys) {
      var n :| n in h && HeaderToEnv(n) == key;
      HeaderKeyRoundTrip(n);
      assert false;
    }
  }

  /** Each header of `h` ends up under `headerkey_to_envkey(name)` with its values
      joined by a single space (an empty join removes the key), provided no two
      names of `h` share a store key. */
  lemma ReplacedStores(before: Environ, h: Header, after: Environ, n: string)
    requires Replaced(before, h, after)
    requires forall a, b :: a in h && b in h && HeaderToEnv(a) == HeaderToEnv(b) ==> a == b
    requires n in h
    ensures Holds(after, HeaderToEnv(n), Join(h[n], " "))
  {
    var key := HeaderToEnv(n);
    assert key in ImagesOf(h.Keys);
    var m :| m in h && HeaderToEnv(m) == key && Holds(after, key, Join(h[m], " "));
    assert m == n;
  }

  /** `set_headers(nil)` removes every stored header and keeps every other key. */
  lemma ClearRemovesHeaders(before: Environ, after: Environ)
    requires Replaced(before, map[], after)
    ensures forall key :: key in after ==> !IsHeaderKey(key)
    ensures forall key :: key in before && !IsHeaderKey(key) ==> key in after && after[key] == before[key]
  {
    assert ImagesOf({}) == {};
  }

  /** After `set_headers(nil)`, `get_headers` returns an empty collection. */
  lemma ClearThenNoHeaders(before: Environ, after: Environ, h: Header)
    requires Replaced(before, map[], after)
    requires HeaderView(after, h)
    ensures h == map[]
  {
    ClearRemovesHeaders(before, after);
    assert h.Keys == {};
  }

  /** `set_headers` keeps every stored header key in the dash-free form. */
  lemma ReplacedKeepsWellFormed(before: Environ, h: Header, after: Environ)
    requires WellFormed(before) && Replaced(before, h, after)
    ensures WellFormed(after)
  {
    forall key | key in after && IsHeaderKey(key) ensures IsDashFree(key) {
      if key in ImagesOf(h.Keys) {
        var n :| n in h && HeaderToEnv(n) == key;
        HeaderToEnvDashFree(n);
      }
    }
  }

  /** With a well-formed store, the only header keys left
      are the ones written for the names of `h`. */
  lemma ReplacedHeaderKeys(before: Environ, h: Header, after: Environ)
    requires WellFormed(before)
    requires Replaced(before, h, after)
    ensures forall key :: key in after && IsHeaderKey(key) ==> key in ImagesOf(h.Keys)
  {
    forall key | key in after && IsHeaderKey(key) ensures key in ImagesOf(h.Keys) {
      if key in before && EnvToHeader(key) in h {
        EnvKeyRoundTrip(key);
        assert HeaderToEnv(EnvToHeader(key)) in ImagesOf(h.Keys);
      }
    }
  }

  /** With `_`-free names, every name of `h` is stored under its own key. */
  lemma ReplacedStoresAll(before: Environ, h: Header, after: Environ)
    requires forall n :: n in h ==> '_' !in n
    requires Replaced(before, h, after)
    ensures forall n :: n in h ==> Holds(after, HeaderToEnv(n), Join(h[n], " "))
  {
    forall a, b | a in h && b in h && HeaderToEnv(a) == HeaderToEnv(b) ensures a == b {
      HeaderToEnvInjective(a, b);
    }
    forall n | n in h ensures Holds(after, HeaderToEnv(n), Join(h[n], " ")) {
      ReplacedStores(before, h, after, n);
    }
  }

  /** Each header's values joined by a single space, as its only value. */
  function Joined(h: Header): (r: Header)
    ensures r.Keys == h.Keys
  {
    map n | n in h :: [Join(h[n], " ")]
  }

  lemma JoinedEqual(back: Header, h: Header)
    requires forall n :: n in back ==> n in h && back[n] == [Join(h[n], " ")]
    requires forall n :: n in h ==> n in back
    ensures back == Joined(h)
  {
    assert back.Keys == Joined(h).Keys;
  }

  /** The header codec round trip: writing a collection with `set_headers` and
      reading it back with `get_headers` gives each name its values joined by
      a single space, as its only value. It needs names in canonical form
      without `_`, joins that are not empty, and a store whose header keys
      have the dash-free form (as every key the client writes has). */
  lemma HeaderCodecRoundTrip(before: Environ, h: Header, after: Environ, back: Header)
    requires WellFormed(before)
    requires forall n :: n in h ==> '_' !in n && Canonical(n) == n && Join(h[n], " ") != ""
    requires Replaced(before, h, after)
    requires HeaderView(after, back)
    ensures back == Joined(h)
  {
    ReplacedHeaderKeys(before, h, after);
    ReplacedStoresAll(before, h, after);
    forall n | n in h ensures IsHeaderKey(HeaderToEnv(n)) && HeaderName(HeaderToEnv(n)) == n {
      HeaderKeyRoundTrip(n);
    }
    forall n | n in back ensures n in h && back[n] == [Join(h[n], " ")] {
      var key :| key in after && IsHeaderKey(key) && HeaderName(key) == n && back[n] == [after[key]];
      assert key in ImagesOf(h.Keys);
      var m :| m in h && HeaderToEnv(m) == key;
      assert Holds(after, key, Join(h[m], " "));
    }
    forall n | n in h ensures n in back {
      assert Holds(after, HeaderToEnv(n), Join(h[n], " "));
    }
    JoinedEqual(back, h);
  }

  lemma JoinedSingle(h: Header)
    requires forall n :: n in h ==> |h[n]| == 1
    ensures forall n :: n in h ==> Join(h[n], " ") == h[n][0]
    ensures Joined(h) == h
  {
    forall n | n in h ensures Join(h[n], " ") == h[n][0] && [Join(h[n], " ")] == h[n] {
      assert h[n] == [h[n][0]];
    }
  }

  /** The same round trip for single-valued headers: the collection comes back unchanged. */
  lemma SingleValuedRoundTrip(before: Environ, h: Header, after: Environ, back: Header)
    requires WellFormed(before)
    requires forall n :: n in h ==> '_' !in n && Canonical(n) == n && |h[n]| == 1 && h[n][0] != ""
    requires Replaced(before, h, after)
    requires HeaderView(after, back)
    ensures back == h
  {
    JoinedSingle(h);
    HeaderCodecRoundTrip(before, h, after, back);
  }

  /** The names `get_headers` yields never contain `_`. */
  lemma ViewNamesNoUnderscore(env: Environ, h: Header)
    requires HeaderView(env, h)
    ensures forall n :: n in h ==> '_' !in n
  {
    forall n | n in h ensures '_' !in n {
      var key :| key in env && IsHeaderKey(key) && HeaderName(key) == n && h[n] == [env[key]];
      var raw := EnvToHeader(key);
      assert '_' !in raw by {
        forall i | 0 <= i < |raw| ensures raw[i] != '_' { }
      }
      CanonicalNoUnderscore(raw);
    }
  }

  /** `set name value` on the loaded headers stores a non-empty value under
      the key of the name's canonical form. */
  lemma SetHeaderStored(env: Environ, view: Header, name: string, value: string, after: Environ)
    requires HeaderView(env, view)
    requires '_' !in name && value != ""
    requires Replaced(env, Set(view, name, value), after)
    ensures HeaderToEnv(Canonical(name)) in after && after[HeaderToEnv(Canonical(name))] == value
  {
    var h := Set(view, name, value);
    ViewNamesNoUnderscore(env, view);
    CanonicalNoUnderscore(name);
    forall a, b | a in h && b in h && HeaderToEnv(a) == HeaderToEnv(b) ensures a == b {
      HeaderToEnvInjective(a, b);
    }
    ReplacedStores(env, h, after, Canonical(name));
    assert Join(h[Canonical(name)], " ") == value;
  }

  // --------------------------------------------------------------- base URL

  /** `get_base_url` (env.go:119-136): none when `URL` is missing or empty;
      exit 2 when the stored text does not parse or is not absolute. */
  function BaseUrlOf(env: Environ, syn: UrlSyntax): (r: Result<Option<Url>>)
    ensures r.Exit? ==> r.code == 2
    ensures r == Ok(None) <==> "URL" !in env || env["URL"] == ""
    ensures r.Exit? <==> "URL" in env && env["URL"] != "" &&
                         (syn.parse(env["URL"]).None? || !IsAbs(syn.parse(env["URL"]).value))
    ensures r.Ok? && r.value.Some? ==> IsAbs(r.value.value) && syn.parse(env["URL"]) == r.value
  {
    var text := if "URL" in env then env["URL"] else "";
    if text == "" then Ok(None)
    else match syn.parse(text)
      case None => Exit(2)
      case Some(u) => if !IsAbs(u) then Exit(2) else Ok(Some(u))
  }

  /** What `set_base_url(text)` does to the store (env.go:138-163): `-` removes
      `URL`; text that does not parse exits 1; a URL that is not absolute exits 2;
      an absolute URL is stored in its printed form. */
  function BaseUrlUpdate(env: Environ, text: string, syn: UrlSyntax): (r: Result<Environ>)
    ensures r.Ok? ==> forall k :: k != "URL" ==> (k in r.value <==> k in env) && (k in r.value ==> r.value[k] == env[k])
    ensures r.Exit? ==> r.code in {1, 2}
    ensures text == "-" ==> r.Ok? && "URL" !in r.value
    ensures r == Exit(1) <==> text != "-" && syn.parse(text).None?
    ensures r == Exit(2) <==> text != "-" && syn.parse(text).Some? && !IsAbs(syn.parse(text).value)
    ensures r.Ok? && text != "-" ==> IsAbs(syn.parse(text).value) && Holds(r.value, "URL", syn.render(syn.parse(text).value))
  {
    if text == "-" then Ok(Assign(env, "URL", ""))
    else match syn.parse(text)
      case None => Exit(1)
      case Some(u) => if !IsAbs(u) then Exit(2) else Ok(Assign(env, "URL", syn.render(u)))
  }

  /** Setting a base URL and reading it back gives the same URL, for a URL
      that the syntax prints and reads back faithfully. */
  lemma SetThenGetBaseUrl(env: Environ, text: string, syn: UrlSyntax)
    requires text != "-" && syn.parse(text).Some? && RoundTrips(syn, syn.parse(text).value)
    requires IsAbs(syn.parse(text).value)
    ensures BaseUrlUpdate(env, text, syn).Ok?
    ensures BaseUrlOf(BaseUrlUpdate(env, text, syn).value, syn) == Ok(syn.parse(text))
  {
  }

  /** After `set_base_url("-")`, `get_base_url` yields none. */
  lemma ClearThenNoBaseUrl(env: Environ, syn: UrlSyntax)
    ensures BaseUrlOf(BaseUrlUpdate(env, "-", syn).value, syn) == Ok(None)
  {
  }

  // ------------------------------------------------------------------ state

  /** The loaded store: `initial_environ` and `current_environ`. */
  class Context {
    var initial: Environ
    var current: Environ

    /** `load_env` (env.go:15-27): `file` is the session file's text, or None
        when it cannot be read, which counts as an empty file. */
    constructor Load(file: Option<string>)
      ensures current == ParseLines(Split(if file.Some? then file.value else "", '\n'))
      ensures initial == current
    {
      var data := if file.Some? then file.value else "";
      var lines := Split(data, '\n');
      var loaded := EnvironToMap(lines);
      initial := loaded;
      current := loaded;
    }

    /** `store_env` (env.go:29-40): the text written to the session file, one
        `KEY=VALUE` line per entry in the map's iteration order `order`. */
    method Store() returns (text: string, ghost order: seq<string>)
      ensures Enumerates(order, current.Keys)
      ensures text == Render(current, order)
    {
      text, order := "", [];
      var rest := current.Keys;
      while rest != {}
        invariant rest <= current.Keys
        invariant forall i :: 0 <= i < |order| ==> order[i] in current && order[i] !in rest
        invariant forall k :: k in current && k !in rest ==> k in order
        invariant forall i, j :: 0 <= i < j < |order| ==> order[i] != order[j]
        invariant text == Render(current, order)
        decreases rest
      {
        var key :| key in rest;
        text := text + key + "=" + current[key] + "\n";
        order := order + [key];
        rest := rest - {key};
      }
    }

    /** `setenv` (env.go:69-78). */
    method SetEnv(key: string, value: string)
      modifies this`current
      ensures current == Assign(old(current), key, value)
    {
      if value == "" {
        current := current - {key};
        return;
      }
      current := current[key := value];
    }

    /** `get_headers` (env.go:81-91). */
    method GetHeaders() returns (h: Header)
      ensures HeaderView(current, h)
    {
      h := map[];
      var rest := current.Keys;
      while rest != {}
        invariant rest <= current.Keys
        invariant forall key :: key in current && key !in rest && IsHeaderKey(key) ==> HeaderName(key) in h
        invariant forall n :: n in h ==>
                    exists key :: key in current && IsHeaderKey(key) && HeaderName(key) == n && h[n] == [current[key]]
        decreases rest
      {
        var key :| key in rest;
        if IsHeaderKey(key) {
          var name := EnvToHeader(key);
          h := Set(h, name, current[key]);
        }
        rest := rest - {key};
      }
    }

    /** `set_headers` (env.go:94-117). */
    method SetHeaders(h: Header)
      modifies this`current
      ensures Replaced(old(current), h, current)
    {
      ghost var before := current;
      // First pass: drop keys whose name is gone.
      var rest := current.Keys;
      while rest != {}
        invariant rest <= before.Keys
        invariant current == map key | key in before && (key in rest || !(IsHeaderKey(key) && EnvToHeader(key) !in h)) :: before[key]
        decreases rest
      {
        var key :| key in rest;
        if IsHeaderKey(key) && EnvToHeader(key) !in h {
          SetEnv(key, "");
        }
        rest := rest - {key};
      }
      assert current == Pruned(before, h);
      assert ImagesOf({}) == {};
      // Second pass: write each name under its key.
      var names := h.Keys;
      while names != {}
        invariant names <= h.Keys
        invariant ReplacedUpTo(before, h, h.Keys - names, current)
        decreases names
      {
        var n :| n in names;
        ReplacedStep(before, h, h.Keys - names, current, n);
        SetEnv(HeaderToEnv(n), Join(h[n], " "));
        assert h.Keys - names + {n} == h.Keys - (names - {n});
        names := names - {n};
      }
      assert h.Keys - names == h.Keys;
    }

    /** `set_base_url` (env.go:138-163): the store changes only when the result is Ok. */
    method SetBaseUrl(text: string, syn: UrlSyntax) returns (r: Result<()>)
      modifies this`current
      ensures BaseUrlUpdate(old(current), text, syn).Ok? ==>
                r == Ok(()) && current == BaseUrlUpdate(old(current), text, syn).value
      ensures BaseUrlUpdate(old(current), text, syn).Exit? ==>
                r == Exit(BaseUrlUpdate(old(current), text, syn).code) && current == old(current)
    {
      var newValue := "";
      if text != "-" {
        var parsed := syn.parse(text);
        if parsed.None? {
          return Exit(1);
        }
        if !IsAbs(parsed.value) {
          return Exit(2);
        }
        newValue := syn.render(parsed.value);
      }
      SetEnv("URL", newValue);
      return Ok(());
    }
  }
}
