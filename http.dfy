/** Request assembly of the flag-aware client (http.go): the argument loop,
    the combination of the base URL with a relative argument, header
    exclusion, the body and `Content-Type` decision, and the return code. */
module Http {
  import opened Common
  import opened Headers
  import opened Urls
  import opened Paths
  import opened Env
  import opened Requests
  import opened EnvText

  // ------------------------------------------------------------------ split2

  /** `split2(s, sep)` (http.go:17-25) for a one-character separator: the text
      before the first `sep`, and the text after it without leading spaces
      ("" when there is no `sep`). */
  function Split2(s: string, sep: char): (r: (string, string))
    ensures sep !in s ==> r == (s, "")
    ensures sep in s ==> |r.0| < |s| && s[..|r.0|] == r.0 && s[|r.0|] == sep && sep !in r.0
    ensures sep in s ==> r.1 == TrimLeft(s[|r.0| + 1..], ' ')
  {
    var i := IndexOf(s, sep);
    if i == -1 then (s, "") else (s[..i], TrimLeft(s[i + 1..], ' '))
  }

  /** The separator is found at its first occurrence: the parts come back,
      the second one without its leading spaces. */
  lemma Split2Parts(a: string, sep: char, b: string)
    requires sep !in a
    ensures Split2(a + [sep] + b, sep) == (a, TrimLeft(b, ' '))
  {
    IndexOfAfter(a, sep, b);
    var s := a + [sep] + b;
    assert s[..|a|] == a && s[|a| + 1..] == b;
  }

  /** The media type of a `Content-Type` value (http.go:225-226): the part
      before the first `;`, or the whole value when it has no parameters. */
  function MediaType(contentType: string): (m: string)
    ensures ';' !in m
    ensures m <= contentType
    ensures ';' !in contentType ==> m == contentType
    ensures ';' in contentType ==> contentType[|m|] == ';'
  {
    Split2(contentType, ';').0
  }

  // -------------------------------------------------------------- arguments

  /** The outcome of the argument loop: the positional arguments in order, the
      last `-x` list, and the `-q` and `-p` switches. */
  datatype Flags = Flags(positional: seq<string>, exclude: string, quiet: bool, pretty: bool)

  const NoFlags := Flags([], "", false, false)

  /** An argument is a switch when it has two or more characters and starts with `-`. */
  predicate IsFlag(arg: string)
  {
    |arg| >= 2 && arg[0] == '-'
  }

  /** The argument loop of http.go:44-80 as a specification: the remaining
      arguments `q` are consumed front to back into `acc`; None is the -1
      return (a `-x` with nothing after it, or an unknown switch). Only the
      second character of a switch is looked at. */
  function Scan(q: seq<string>, acc: Flags): Option<Flags>
    decreases |q|
  {
    if q == [] then Some(acc)
    else if !IsFlag(q[0]) then Scan(q[1..], acc.(positional := acc.positional + [q[0]]))
    else if q[0][1] == 'x' then
      (if |q| == 1 then None else Scan(q[2..], acc.(exclude := q[1])))
    else if q[0][1] == 'q' then Scan(q[1..], acc.(quiet := true))
    else if q[0][1] == 'p' then Scan(q[1..], acc.(pretty := true))
    else None
  }

  /** `p` occurs in `q` in order, possibly with gaps. */
  predicate Embeds(p: seq<string>, q: seq<string>)
    decreases |q|
  {
    if p == [] then true
    else if q == [] then false
    else (p[0] == q[0] && Embeds(p[1..], q[1..])) || Embeds(p, q[1..])
  }

  /** Arguments without switches are all positional, in the order given. */
  lemma {:induction false} ScanNoFlags(q: seq<string>, acc: Flags)
    requires forall i :: 0 <= i < |q| ==> !IsFlag(q[i])
    ensures Scan(q, acc) == Some(acc.(positional := acc.positional + q))
  {
    if q != [] {
      ScanNoFlags(q[1..], acc.(positional := acc.positional + [q[0]]));
      assert acc.positional + [q[0]] + q[1..] == acc.positional + q;
    } else {
      assert acc.positional + q == acc.positional;
    }
  }

  /** Scanning is compositional: after a prefix that scans cleanly, the rest
      is scanned from where the prefix left off. */
  lemma {:induction false} ScanAppend(q: seq<string>, acc: Flags, extra: seq<string>)
    requires Scan(q, acc).Some?
    ensures Scan(q + extra, acc) == Scan(extra, Scan(q, acc).value)
    decreases |q|
  {
    if q != [] {
      var s := q + extra;
      assert s[0] == q[0];
      if !IsFlag(q[0]) {
        assert s[1..] == q[1..] + extra;
        ScanAppend(q[1..], acc.(positional := acc.positional + [q[0]]), extra);
      } else if q[0][1] == 'x' {
        assert s[1] == q[1] && s[2..] == q[2..] + extra;
        ScanAppend(q[2..], acc.(exclude := q[1]), extra);
      } else if q[0][1] == 'q' {
        assert s[1..] == q[1..] + extra;
        ScanAppend(q[1..], acc.(quiet := true), extra);
      } else {
        assert s[1..] == q[1..] + extra;
        ScanAppend(q[1..], acc.(pretty := true), extra);
      }
    } else {
      assert q + extra == extra;
    }
  }

  lemma {:induction false} EmbedsSkip(p: seq<string>, q: seq<string>, k: nat)
    requires k <= |q| && Embeds(p, q[k..])
    ensures Embeds(p, q)
    decreases k
  {
    if k > 0 {
      assert q[k..] == q[1..][k - 1..];
      EmbedsSkip(p, q[1..], k - 1);
    }
  }

  /** The positional arguments found are non-switch arguments of the input,
      kept in their original order. */
  lemma {:induction false} ScanPositionals(q: seq<string>, acc: Flags)
    requires Scan(q, acc).Some?
    ensures var p := Scan(q, acc).value.positional;
      |acc.positional| <= |p| && p[..|acc.positional|] == acc.positional &&
      Embeds(p[|acc.positional|..], q) &&
      forall i :: |acc.positional| <= i < |p| ==> !IsFlag(p[i])
    decreases |q|
  {
    if q != [] {
      var p := Scan(q, acc).value.positional;
      var n := |acc.positional|;
      if !IsFlag(q[0]) {
        var acc' := acc.(positional := acc.positional + [q[0]]);
        ScanPositionals(q[1..], acc');
        assert p[..n + 1][..n] == p[..n];
        assert p[n..][0] == q[0] && p[n..][1..] == p[n + 1..];
      } else if q[0][1] == 'x' {
        ScanPositionals(q[2..], acc.(exclude := q[1]));
        EmbedsSkip(p[n..], q, 2);
      } else if q[0][1] == 'q' {
        ScanPositionals(q[1..], acc.(quiet := true));
        EmbedsSkip(p[n..], q, 1);
      } else {
        ScanPositionals(q[1..], acc.(pretty := true));
        EmbedsSkip(p[n..], q, 1);
      }
    }
  }

  /** An unrecognized switch makes the loop fail, whatever follows it. */
  lemma UnknownFlagFails(pre: seq<string>, arg: string, post: seq<string>)
    requires Scan(pre, NoFlags).Some?
    requires IsFlag(arg) && arg[1] != 'x' && arg[1] != 'q' && arg[1] != 'p'
    ensures Scan(pre + [arg] + post, NoFlags).None?
  {
    ScanAppend(pre, NoFlags, [arg] + post);
    assert pre + [arg] + post == pre + ([arg] + post);
  }

  /** `-x` as the last argument makes the loop fail. */
  lemma TrailingExcludeFails(pre: seq<string>, arg: string)
    requires Scan(pre, NoFlags).Some?
    requires IsFlag(arg) && arg[1] == 'x'
    ensures Scan(pre + [arg], NoFlags).None?
  {
    ScanAppend(pre, NoFlags, [arg]);
  }

  /** `-x list` sets the exclusion list, replacing any earlier one, and changes nothing else. */
  lemma ExcludeTakesNext(pre: seq<string>, arg: string, list: string)
    requires Scan(pre, NoFlags).Some?
    requires IsFlag(arg) && arg[1] == 'x'
    ensures Scan(pre + [arg, list], NoFlags) == Some(Scan(pre, NoFlags).value.(exclude := list))
  {
    ScanAppend(pre, NoFlags, [arg, list]);
    assert [arg, list][2..] == [];
  }

  /** The argument loop of `do_http` (http.go:44-82). */
  method ParseFlags(args: seq<string>) returns (r: Option<Flags>)
    ensures r == Scan(args, NoFlags)
  {
    var quiet, pretty, exclude := false, false, "";
    var q := args;
    var xargs: seq<string> := [];
    while |q| > 0
      invariant Scan(args, NoFlags) == Scan(q, Flags(xargs, exclude, quiet, pretty))
      decreases |q|
    {
      var arg := q[0];
      if |arg| >= 2 && arg[0] == '-' {
        if arg[1] == 'x' {
          q := q[1..];
          if |q| == 0 {
            return None;
          }
          exclude := q[0];
          q := q[1..];
        } else if arg[1] == 'q' {
          q := q[1..];
          quiet := true;
        } else if arg[1] == 'p' {
          q := q[1..];
          pretty := true;
        } else {
          return None;
        }
      } else {
        xargs := xargs + [arg];
        q := q[1..];
      }
    }
    return Some(Flags(xargs, exclude, quiet, pretty));
  }

  // -------------------------------------------------------------------- URL

  /** `q := api_url.Query(); for k, v := range rel_url.Query() { q[k] = v }`
      (http.go:139-142): the argument's keys replace the base's, base-only
      keys stay. */
  method MergeQuery(base: Query, rel: Query) returns (q: Query)
    ensures q.Keys == base.Keys + rel.Keys
    ensures forall k :: k in rel ==> q[k] == rel[k]
    ensures forall k :: k in base && k !in rel ==> q[k] == base[k]
  {
    q := base;
    var rest := rel.Keys;
    while rest != {}
      invariant rest <= rel.Keys
      invariant q.Keys == base.Keys + (rel.Keys - rest)
      invariant forall k :: k in rel && k !in rest ==> q[k] == rel[k]
      invariant forall k :: k in base && (k !in rel || k in rest) ==> q[k] == base[k]
      decreases rest
    {
      var k :| k in rest;
      q := q[k := rel[k]];
      rest := rest - {k};
    }
  }

  /** The base path used for joining (http.go:120-123): an empty one counts as `/`. */
  function BasePath(base: Url): (p: string)
    ensures p != ""
    ensures base.path == "" ==> p == "/"
    ensures base.path != "" ==> p == base.path
  {
    if base.path == "" then "/" else base.path
  }

  /** `u` is the combination of an absolute base URL with a relative argument
      (http.go:117-143): scheme, host and user of the base; the joined and
      cleaned path; the base query overridden key by key by the argument's;
      the argument's fragment. */
  ghost predicate Combines(base: Url, rel: Url, u: Url)
  {
    && u.scheme == base.scheme && u.host == base.host && u.user == base.user
    && u.path == JoinPath(BasePath(base), rel.path)
    && u.query.Keys == base.query.Keys + rel.query.Keys
    && (forall k :: k in rel.query ==> u.query[k] == rel.query[k])
    && (forall k :: k in base.query && k !in rel.query ==> u.query[k] == base.query[k])
    && u.fragment == rel.fragment
  }

  /** The combination is determined by the base and the argument. */
  lemma CombinesUnique(base: Url, rel: Url, u: Url, v: Url)
    requires Combines(base, rel, u) && Combines(base, rel, v)
    ensures u == v
  {
    assert u.query == v.query;
  }

  /** The combined URL is absolute and its path is rooted when the base path
      is empty or rooted. */
  lemma CombinedIsAbsolute(base: Url, rel: Url, u: Url)
    requires IsAbs(base) && Combines(base, rel, u)
    requires base.path == "" || IsRooted(base.path)
    ensures IsAbs(u) && IsRooted(u.path)
  {
  }

  /** Building the combined URL (http.go:117-143). */
  method CombineUrl(base: Url, rel: Url) returns (u: Url)
    ensures Combines(base, rel, u)
  {
    // An empty base path joins as the root.
    var basePath := base.path;
    if basePath == "" {
      basePath := "/";
    }
    var query := MergeQuery(base.query, rel.query);
    u := Url(base.scheme, base.user, base.host, JoinPath(basePath, rel.path), query, rel.fragment);
  }

  /** The request URL: an absolute argument as it is, otherwise its combination with the base. */
  ghost predicate TargetOf(base: Option<Url>, arg: Url, u: Url)
  {
    if IsAbs(arg) then u == arg else base.Some? && Combines(base.value, arg, u)
  }

  // ----------------------------------------------------------------- header

  /** The request headers without the names of a non-empty comma-separated
      list; names are matched exactly, not in canonical form. */
  function Excluded(h: Header, list: string): Header
  {
    if list == "" then h else map n | n in h && n !in Split(list, ',') :: h[n]
  }

  /** Header exclusion (http.go:153-160). */
  method ExcludeHeaders(header: Header, list: string) returns (h: Header)
    ensures forall n :: n in h <==> n in header && (list == "" || n !in Split(list, ','))
    ensures forall n :: n in h ==> h[n] == header[n]
    ensures h == Excluded(header, list)
  {
    h := header;
    if list != "" {
      // Drop each name of the comma-separated list.
      var names := Split(list, ',');
      for i := 0 to |names|
        invariant h == map n | n in header && n !in names[..i] :: header[n]
      {
        h := h - {names[i]};
      }
      assert names[..|names|] == names;
    }
  }

  /** The `Content-Type` of a request with a body (http.go:176-183): the
      second argument, else the header already set, else `application/json`. */
  function ContentType(h: Header, args: seq<string>): (ct: string)
    ensures |args| >= 2 ==> ct == args[1]
    ensures |args| < 2 && Get(h, CONTENT_TYPE) != "" ==> ct == Get(h, CONTENT_TYPE)
    ensures |args| < 2 && Get(h, CONTENT_TYPE) == "" ==> ct == JSON
  {
    var fromHeader := Get(h, CONTENT_TYPE);
    var ct := if fromHeader == "" then JSON else fromHeader;
    if |args| >= 2 then args[1] else ct
  }

  /** The headers sent: the loaded ones without the excluded names and, when
      there is a body, with `Content-Type` set. */
  function RequestHeader(loaded: Header, flags: Flags, httpMethod: string): Header
  {
    var h := Excluded(loaded, flags.exclude);
    if BodyRequired(httpMethod, flags.positional) then Set(h, CONTENT_TYPE, ContentType(h, flags.positional)) else h
  }

  /** A request with a body carries the `Content-Type` the precedence rule picks. */
  lemma RequestContentType(loaded: Header, flags: Flags, httpMethod: string)
    requires BodyRequired(httpMethod, flags.positional)
    ensures var h := Excluded(loaded, flags.exclude);
      Get(RequestHeader(loaded, flags, httpMethod), CONTENT_TYPE) == ContentType(h, flags.positional)
  {
    assert IsToken(CONTENT_TYPE) by {
      assert forall i :: 0 <= i < |CONTENT_TYPE| ==> IsTokenChar(CONTENT_TYPE[i]);
    }
    var h := Excluded(loaded, flags.exclude);
    GetAfterSet(h, CONTENT_TYPE, ContentType(h, flags.positional));
    CanonicalIgnoresCase(CONTENT_TYPE);
  }

  // ----------------------------------------------------------------- result

  /** The value `do_http` returns once a response has arrived (http.go:213-276):
      the status code, except -3 when the pretty-printed JSON cannot be copied
      to standard output. Pretty-printing is tried only with `-p` and a media
      type of `application/json`; a decoding or re-encoding failure falls back
      to the raw body. */
  function ResponseCode(pretty: bool, resp: Response): (code: int)
    ensures code == resp.status || code == -3
    ensures code != resp.status ==>
              pretty && resp.hasBody && MediaType(resp.contentType) == JSON && resp.decodes && resp.reencodes && !resp.copyOk
    ensures pretty && resp.hasBody && MediaType(resp.contentType) == JSON && resp.decodes && resp.reencodes && !resp.copyOk ==>
              code == -3
  {
    if resp.hasBody && pretty && MediaType(resp.contentType) == JSON && resp.decodes && resp.reencodes && !resp.copyOk then -3
    else resp.status
  }

  // ---------------------------------------------------------------- do_http

  /** What `do_http` (http.go:28-277) does on the store `env`: `out` is the
      returned value, or the exit code of `get_base_url`; `sent` is the
      request handed to the transport. A well-formed invocation whose URL can be resolved, and whose
      body (when one is needed) can be read, is sent; its result is then the
      status code, or -2 when the transport fails. */
  ghost predicate Outcome(httpMethod: string, args: seq<string>, env: Environ, syn: UrlSyntax, io: Io,
                          out: Result<int>, sent: Option<Request>)
  {
    && (Scan(args, NoFlags).None? ==> out == Ok(-1) && sent.None?)
    && (Scan(args, NoFlags).Some? ==> (out.Exit? <==> BaseUrlOf(env, syn).Exit?))
    && (out.Exit? ==> out == Exit(2) && sent.None?)
    && (Scan(args, NoFlags).Some? && BaseUrlOf(env, syn).Ok? ==>
          var f := Scan(args, NoFlags).value;
          var base := BaseUrlOf(env, syn).value;
          && (f.positional == [] ==> out == Ok(-1) && sent.None?)
          && (f.positional != [] && syn.parse(f.positional[0]).None? ==> out == Ok(-1) && sent.None?)
          && (f.positional != [] && syn.parse(f.positional[0]).Some? ==>
                var arg := syn.parse(f.positional[0]).value;
                && (!IsAbs(arg) && base.None? ==> out == Ok(-1) && sent.None?)
                && (IsAbs(arg) || base.Some? ==>
                      && (sent.Some? <==> !BodyRequired(httpMethod, f.positional) || io.stdin.Some?)
                      && (BodyRequired(httpMethod, f.positional) && io.stdin.None? ==> out == Ok(-2)))))
    && (sent.None? && out == Ok(-2) ==>
          Scan(args, NoFlags).Some? && BodyRequired(httpMethod, Scan(args, NoFlags).value.positional) && io.stdin.None?)
    && (sent.None? ==> out in {Ok(-1), Ok(-2), Exit(2)})
    && (sent.Some? ==>
          && Scan(args, NoFlags).Some? && BaseUrlOf(env, syn).Ok?
          && var f := Scan(args, NoFlags).value;
             && f.positional != [] && syn.parse(f.positional[0]).Some?
             && sent.value.verb == httpMethod
             && sent.value.url.Some?
             && TargetOf(BaseUrlOf(env, syn).value, syn.parse(f.positional[0]).value, sent.value.url.value)
             && (sent.value.body.Some? <==> BodyRequired(httpMethod, f.positional))
             && (sent.value.body.Some? ==> sent.value.body == io.stdin)
             && out == (if io.reply.None? then Ok(-2) else Ok(ResponseCode(f.pretty, io.reply.value))))
  }

  /** The headers of a request `do_http` sends: `loaded` is what `get_headers`
      read from `env`, less the `-x` names, with `Content-Type` when there is a body. */
  ghost predicate SentHeaders(httpMethod: string, args: seq<string>, env: Environ, sent: Option<Request>, loaded: Header)
  {
    sent.Some? && Scan(args, NoFlags).Some? ==>
      HeaderView(env, loaded) && sent.value.header == RequestHeader(loaded, Scan(args, NoFlags).value, httpMethod)
  }

  /** `do_http` (http.go:28-277) on the store of `ctx`. */
  method DoHttp(httpMethod: string, args: seq<string>, ctx: Context, syn: UrlSyntax, io: Io)
    returns (out: Result<int>, sent: Option<Request>, ghost loaded: Header)
    ensures Outcome(httpMethod, args, ctx.current, syn, io, out, sent)
    ensures SentHeaders(httpMethod, args, ctx.current, sent, loaded)
  {
    loaded := map[];
    sent := None;
    var parsed := ParseFlags(args);
    if parsed.None? {
      return Ok(-1), None, loaded;
    }
    var flags := parsed.value;
    // The base URL is read before the argument.
    var baseUrl := BaseUrlOf(ctx.current, syn);
    if baseUrl.Exit? {
      return Exit(2), None, loaded;
    }
    var base := baseUrl.value;
    var headers := ctx.GetHeaders();
    loaded := headers;
    var xargs := flags.positional;
    if |xargs| == 0 {
      return Ok(-1), None, loaded;
    }
    // The first argument names the resource.
    var argUrl := syn.parse(xargs[0]);
    if argUrl.None? {
      return Ok(-1), None, loaded;
    }
    var arg := argUrl.value;
    var apiUrl: Url;
    if IsAbs(arg) {
      apiUrl := arg;
    } else {
      if base.None? {
        return Ok(-1), None, loaded;
      }
      apiUrl := CombineUrl(base.value, arg);
    }
    var header := ExcludeHeaders(headers, flags.exclude);
    var bodyRequired := BodyRequired(httpMethod, xargs);
    var body: Option<seq<byte>> := None;
    if bodyRequired {
      if io.stdin.None? {
        return Ok(-2), None, loaded;
      }
      body := io.stdin;
      header := Set(header, CONTENT_TYPE, ContentType(header, xargs));
    }
    var req := Request(httpMethod, Some(apiUrl), header, body);
    sent := Some(req);
    var resp := Send(req, io);
    if resp.None? {
      return Ok(-2), sent, loaded;
    }
    return Ok(ResponseCode(flags.pretty, resp.value)), sent, loaded;
  }
}
