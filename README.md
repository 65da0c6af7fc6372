# http: a session-aware command-line HTTP client, modelled in Dafny

The client keeps a per-session *context store*, a file of `KEY=VALUE` lines. The store holds:

- a base URL under `URL`;
- one `HEADER_<NAME>` entry per custom request header.

Commands read and replace that store (`url`, `set`, `list`, `clear`, `reset`), or assemble an HTTP request from it and send it (`GET`, `POST`, …). Three front ends share the store code:

- **http.go:** the flag-aware request builder (`-x`, `-q`, `-p`), which returns a status code.
- **main.go:** a variant that exits with a code instead of returning one.
- **cli/main.go:** an older variant that always combines the argument with a mandatory base URL.

tmpfile.go decides where the store file lives.

The project models:

- The store as a class `Env.Context`, whose field `current` is the map `current_environ`. Its methods do what `load_env`, `store_env`, `setenv`, `get_headers`, `set_headers` and `set_base_url` do. Each method is proved against a specification on maps.
- The persistence round trip. The text `store_env` writes, split at newlines and read by `environ_to_map`, gives the map back, whatever order the keys came in.
- The header codec between header names and store keys, with both round trips, and the `get_headers`/`set_headers` round trip.
- The argument loop of http.go, as a loop method against a front-to-back scan. The scan is proved compositional and order-preserving.
- The URL combination of each front end. Header exclusion, the body and `Content-Type` decision, and the exit or return codes of each `do_http` and each `main` dispatch.
- The session id (`%08x` of the parent process id, read back) and the memoised store path.

The model has these modules:

- `Common`: `Option`/`Result` (`Exit(code)` is `os.Exit`), and the `strings` functions used.
- `HeaderKeys`: the key codec.
- `Headers`: `http.Header` with `CanonicalHeaderKey`, ASCII only.
- `EnvText`: the file format.
- `Paths`: `path.Clean` and `path.Join`.
- `Urls`: URL records, with `url.Parse` and `URL.String` as parameters.
- `Env`: the store.
- `Requests`: requests, responses and the outside world as a value.
- `Http`, `MainCmd`, `Cli`: the three front ends.
- `Session`: tmpfile.go.

env.go, main.go and cli/main.go hold the same store code. It is modelled once, in `EnvText`, `HeaderKeys` and `Env`, and the three front ends use it.

Some nondeterministic and library behaviour is modelled as follows:

- **Map iteration order** (`store_env`, `get_headers`, `set_headers`, the query merge): the loops pick any remaining key, so the contracts hold for every order. Where the order decides the outcome, the contract relates the result to the inputs rather than fixing it. This happens when two store keys give the same header name.
- **`url.Parse` and `URL.String`** are the two functions of a `UrlSyntax` value. Results that need them to agree assume `RoundTrips`. main.go's `reset` needs the library fact that `url.Parse("")` succeeds with a relative URL (`ParsesEmptyAsRelative`).
- **Outside inputs:** standard input, the transport's reply, the session file's content, `$HOME`, `HTTPCLI_SESSION_ID`, the date and the parent process id are parameters.

## Model

| member | source | states |
|---|---|---|
| Common.IndexOf | env.go:59 | the index of the first occurrence of the byte, -1 exactly when it is absent |
| Common.Join | env.go:109 | joining starts with the first part, ends with the last, and is empty for no parts |
| Common.Split | env.go:22 | splitting yields at least one part and no part contains the separator |
| Common.JoinSplit | env.go:22 | joining the parts of a split with the separator gives the text back |
| Common.SplitJoin | env.go:22 | splitting a join of separator-free parts gives the parts back |
| Common.SplitAround | env.go:22 | splitting around one separator is the concatenation of the splits of both sides |
| Common.Replace | env.go:43 | every occurrence of the character is replaced, every other character kept |
| Common.TrimLeft | http.go:22 | the leading run of the character is dropped, the rest kept as a suffix |
| Common.ToLower | main.go:425 | ASCII letters are lower-cased character by character, length kept |
| Common.ToUpper | main.go:485 | ASCII letters are upper-cased character by character, length kept |
| HeaderKeys.HeaderToEnv | env.go:42-44 | the key is `HEADER_` followed by the name with every `-` turned into `_` |
| HeaderKeys.EnvToHeader | env.go:46-52 | "" without the prefix, else the suffix with every `_` turned into `-` |
| HeaderKeys.HeaderKeyRoundTrip | env.go:42-52 | a name without `_` comes back from its key unchanged |
| HeaderKeys.EnvKeyRoundTrip | env.go:42-52 | a header key whose suffix has no `-` comes back from its name unchanged |
| HeaderKeys.HeaderToEnvInjective | env.go:42-44 | distinct names without `_` get distinct keys |
| HeaderKeys.HeaderToEnvDashFree | env.go:42-44 | every key written has no `-` after the prefix |
| Headers.Canonical | env.go:88 | a name with a non-token byte is kept; case folding keeps the length |
| Headers.CanonicalIdempotent | env.go:88 | canonicalising twice equals canonicalising once |
| Headers.CanonicalIgnoresCase | env.go:88 | a token name and its lower-case spelling have the same canonical form |
| Headers.CanonicalNoUnderscore | env.go:87-88 | canonicalising never introduces `_` |
| Headers.Set | env.go:88 | the canonical name gets exactly the one value, every other name is kept |
| Headers.Get | http.go:177 | the first value of the canonical name, or "" when the name is absent or has no values |
| Headers.GetAfterSet | http.go:177-184 | a value set is read back, also under the lower-case spelling of a token name |
| EnvText.EnvironToMap | env.go:55-67 | the loop builds the map the line-by-line specification describes |
| EnvText.ParseLinesKeys | env.go:58-64 | a key is present exactly when some line has an `=` and names it; lines without `=` are skipped |
| EnvText.ParseLinesLast | env.go:64 | a key's value comes from the last line naming it; later lines overwrite earlier ones |
| EnvText.ValueKeepsEquals | env.go:59-63 | only the first `=` splits a line: a value may contain `=` |
| EnvText.RenderSplits | env.go:29-34 | the stored text splits into one line per entry and a final empty piece |
| EnvText.ParseLinesOfEntries | env.go:55-67 | reading the lines of distinct entries gives exactly those entries |
| EnvText.StoreLoadRoundTrip | env.go:22-40 | load after store gives the map back for every key order, if keys lack `=` and newline and values lack newline |
| Paths.Clean | tmpfile.go:45 | the cleaned path is never empty and is rooted exactly when the input is |
| Paths.CleanRootedHasNoParent | http.go:133 | a cleaned rooted path has no `..` element |
| Paths.JoinPath | http.go:133 | the join is empty only for two empty elements and is rooted when the first is |
| Urls.IsAbs | http.go:104 | a URL is absolute exactly when it has a scheme |
| Env.Assign | env.go:69-78 | an empty value removes the key, any other sets it; no other key changes |
| Env.Pruned | env.go:95-104 | exactly the header keys whose name is not a key of the new collection are dropped |
| Env.ReplacedStep | env.go:106-116 | one `setenv` of the second loop extends the partial specification by one name |
| Env.ReplacedKeepsOthers | env.go:94-117 | keys without the `HEADER_` prefix such as `URL` are unchanged by `set_headers` |
| Env.ReplacedRemovesAbsent | env.go:95-104 | a stored header whose name is not in the collection is gone afterwards |
| Env.ReplacedStores | env.go:106-116 | each header is stored under its key with its values joined by one space |
| Env.ReplacedStoresAll | env.go:106-116 | with `_`-free names every header is stored under its own key |
| Env.ClearRemovesHeaders | env.go:94-117 | `set_headers(nil)` removes every header key and keeps every other key |
| Env.ClearThenNoHeaders | env.go:81-117 | after `set_headers(nil)`, `get_headers` yields nothing |
| Env.ReplacedKeepsWellFormed | env.go:94-117 | `set_headers` keeps every header key in the dash-free form |
| Env.ReplacedHeaderKeys | env.go:94-117 | in a well-formed store the header keys left are exactly the keys written |
| Env.HeaderCodecRoundTrip | env.go:81-117 | `get_headers` after `set_headers(h)` gives each name its values joined by a space |
| Env.SingleValuedRoundTrip | env.go:81-117 | for single-valued canonical `_`-free headers `get_headers` gives `h` back |
| Env.ViewNamesNoUnderscore | env.go:81-91 | the names `get_headers` yields never contain `_` |
| Env.SetHeaderStored | main.go:454-469 | `set name value` stores the value under the key of the name's canonical form |
| Env.BaseUrlOf | env.go:119-136 | none for a missing or empty `URL`; exit 2 exactly for a stored text that fails to parse or is not absolute |
| Env.BaseUrlUpdate | env.go:138-163 | `-` deletes `URL`; unparsable text exits 1; a non-absolute URL exits 2; these are the only exits, so an absolute URL is stored in its printed form; no other key changes |
| Env.SetThenGetBaseUrl | env.go:119-163 | an absolute URL is accepted and read back when the syntax prints and reads it faithfully |
| Env.ClearThenNoBaseUrl | env.go:119-163 | after `set_base_url("-")` there is no base URL |
| Env.Context.Load | env.go:15-27 | the session file's lines become the map; an unreadable file counts as empty |
| Env.Context.Store | env.go:29-40 | the text written is one `KEY=VALUE` line per entry in some enumeration of the keys |
| Env.Context.SetEnv | env.go:69-78 | the map becomes the specified assignment |
| Env.Context.GetHeaders | env.go:81-91 | the collection is a view of the stored headers, one canonical name per key |
| Env.Context.SetHeaders | env.go:94-117 | the new map is the replacement specification of the old map and the collection |
| Env.Context.SetBaseUrl | env.go:138-163 | the map changes as the update specifies on success and not at all on an exit |
| Requests.BodyRequired | http.go:33-39 | a body is needed for POST and PUT, and for any method given a content type argument |
| Requests.Send | main.go:313-318 | a request with no URL fails; otherwise the reply is the transport's |
| Http.Split2 | http.go:17-25 | the part before the first separator, and the rest with leading spaces trimmed or "" |
| Http.Split2Parts | http.go:17-25 | splitting `a + sep + b` with `sep` not in `a` yields `a` and trimmed `b` |
| Http.ScanNoFlags | http.go:44-80 | without switches every argument is positional, in order |
| Http.ScanAppend | http.go:44-80 | the argument loop is compositional over a cleanly scanned prefix |
| Http.ScanPositionals | http.go:76-79 | positional arguments are non-switch arguments in their original order |
| Http.UnknownFlagFails | http.go:72-74 | an unknown switch returns -1 whatever follows |
| Http.TrailingExcludeFails | http.go:51-57 | `-x` with nothing after it returns -1 |
| Http.ExcludeTakesNext | http.go:51-61 | `-x list` sets the exclusion list, replacing an earlier one |
| Http.ParseFlags | http.go:44-82 | the loop computes the front-to-back scan of the arguments |
| Http.MergeQuery | http.go:139-143 | argument query keys replace the base's and base-only keys stay |
| Http.BasePath | http.go:120-123 | an empty base path becomes `/` |
| Http.CombinesUnique | http.go:117-143 | the combined URL is determined by base and argument |
| Http.CombinedIsAbsolute | http.go:117-143 | the combination of an absolute base is absolute with a rooted path |
| Http.CombineUrl | http.go:117-143 | scheme, host, user of the base; joined path; merged query; argument fragment |
| Http.ExcludeHeaders | http.go:153-160 | exactly the names of the comma list are removed, by exact key; "" removes nothing |
| Http.ContentType | http.go:176-183 | the second argument, else the existing header, else `application/json` |
| Http.RequestContentType | http.go:176-184 | a request with a body carries that `Content-Type` |
| Http.MediaType | http.go:225-226 | the `Content-Type` value up to its first `;`, or all of it when there is none |
| Http.ResponseCode | http.go:213-276 | the status code, or -3 exactly when the pretty-printed JSON fails to copy |
| Http.DoHttp | http.go:28-277 | -1 and exit 2 cases; -2 when a needed body cannot be read; every valid invocation with a resolvable URL and a readable body is sent, to the target URL, with the loaded headers less the excluded ones, a body exactly when required, and returns the status code (or -2 when the transport fails) |
| MainCmd.Split2 | main.go:175-182 | the text splits at the first separator into two untrimmed parts, or is kept whole |
| MainCmd.Split2Parts | main.go:175-182 | splitting `a + sep + b` with `sep` not in `a` yields `a` and `b` |
| MainCmd.Split2Variants | main.go:175-182 | the two `Split2` variants agree except for leading spaces of the second part |
| MainCmd.ContentType | main.go:289-294 | the second argument, else `application/json`, with no existing-header step |
| MainCmd.DoHttp | main.go:184-368 | exit 2 exactly on a bad base URL; exit 1 cases; exit 3 when a needed body cannot be read; every valid invocation is sent; an absolute argument is sent unchanged, a relative one with no URL, which exits 3 |
| MainCmd.Dispatch | main.go:370-489 | the effect of each verb on the store and which verbs write the file; any other verb runs `do_http` with the upper-cased verb and leaves the store alone |
| MainCmd.ResetRejected | main.go:477-481 | `reset` passes "" to `set_base_url`, which exits 2 before storing |
| MainCmd.ResetIntended | main.go:477-481 | with `-` instead, the store keeps no header and no base URL |
| Cli.GetAbsUrl | cli/main.go:130-149 | exit 2 also for a missing base URL; otherwise as `get_base_url` |
| Cli.AbsUrlUpdate | cli/main.go:151-168 | none deletes `URL`; a non-absolute URL exits 2; no other key changes |
| Cli.SetThenGetAbsUrl | cli/main.go:130-168 | a URL set is read back when the syntax round-trips it |
| Cli.SetAbsUrl | cli/main.go:151-168 | the map changes as the update specifies on success and not at all on an exit |
| Cli.BaseQueryDropped | cli/main.go:202 | a query key only the base has is not in the request URL |
| Cli.CombinesAgree | cli/main.go:190-204 | the cli/main.go combination agrees with http.go's when the base has no query |
| Cli.CombineUrl | cli/main.go:190-204 | scheme, host, user of the base; joined path; the argument's query and fragment |
| Cli.ContentType | cli/main.go:235-240 | the second argument, else `application/json` |
| Cli.DoHttp | cli/main.go:170-279 | exit 2 exactly when the base URL is missing or bad; exit 1 cases; exit 3 when a needed body cannot be read; every valid invocation is sent to the base combined with the argument, absolute or not |
| Cli.Dispatch | cli/main.go:281-393 | each verb's effect; `set` with other arity still stores; `reset` leaves exactly the old keys other than `URL` and the headers; get/delete/post/put run `do_http` (a body for post and put) and only they send; unknown verbs exit 1 |
| Session.Hex | tmpfile.go:37 | at least one lower-case hexadecimal digit |
| Session.HexRoundTrip | tmpfile.go:37 | the hexadecimal digits stand for the number printed |
| Session.Hex8 | tmpfile.go:37 | at least eight lower-case hexadecimal digits |
| Session.Hex8Value | tmpfile.go:37 | the zero-padded digits still stand for the number printed |
| Session.SessionID | tmpfile.go:20-39 | the override when non-empty, else date, `-` and `%08x` of the parent id; never empty |
| Session.SessionIDDistinct | tmpfile.go:20-39 | without an override, distinct parent ids give distinct ids on the same date |
| Session.ConfigDir | tmpfile.go:14-18 | the directory is non-empty and rooted under a rooted home |
| Session.StorePath | tmpfile.go:45 | the store path is non-empty and rooted under a rooted home |
| Session.PathCache.constructor | tmpfile.go:41 | the cache starts empty |
| Session.PathCache.EnvPath | tmpfile.go:41-48 | the first call computes and caches the path; later calls return the cache |

## Left out

- HTTP transport, standard input and output, stderr diagnostics, usage text and `fmt` printing: these are I/O. Their outcomes are the `Io` parameter, and printing is not modelled.
- JSON decoding and re-encoding: these are the `encoding/json` library. Only whether each succeeds is modelled, as fields of `Response`.
- `url.Parse`, `URL.String`, `URL.Query` and `Values.Encode`: these are library code. Queries are decoded maps, and the encode/parse step of the merged query is assumed lossless.
- Http.Split2, MainCmd.Split2: the separator is a single character, as at every call site, not an arbitrary string.
- Common.ToLower: ASCII letters only. Go's Unicode case mapping is not modelled, so a verb such as `lİst` is not recognised as `list`.
- Common.ToUpper: ASCII letters only. Go's Unicode case mapping is not modelled, so `gét` is sent as the method `GéT`, not `GÉT`.
- Headers.Canonical: case folding covers ASCII letters only, as Go's `CanonicalHeaderKey` does. The library's handling of names with spaces is not modelled.
- Session.SessionID: the parent process id is a natural number. `%08x` of a negative id is not modelled.
- The date is a parameter. `time.Now().Format("2006-01-02")` belongs to the time library.
- The directory creation in `ConfigDir` (`os.MkdirAll`) and the file write's `panic` on failure: these are filesystem effects.
- cli/main.go's store path `path.Join(TempDir(), ".http-cli.env")`: `TempDir` is not part of this model.
- Http.DoHttp: http.go:87 takes two results from `get_headers`, but env.go:81 defines it with one. No two-result version is part of this model, so http.go is paired with env.go's `get_headers`.
- Env.Context.initial: `initial_environ` is kept and set at load time, but nothing reads it afterwards, so nothing more is stated about it.
- The `-q` switch: it changes only what is printed. It is parsed and kept in `Flags`.
- MainCmd.DoHttp, Cli.DoHttp: the header-exclusion block there is dead code (its list is the constant ""), so it is left out.
- `Content-Length`: it is the body's length. The body is kept as bytes in the request.

## Findings

| source | as written | input that shows it | evidently intended | confidence | as-written member | corrected member |
|---|---|---|---|---|---|---|
| main.go:239 | `api_url :=` declares a new local, so the request keeps a nil URL for every relative argument and the transport fails with exit 3 | base URL `https://api.example.com/v1`, command `http GET widgets` | send to the combined URL, as http.go:129 assigns it | high; not executed | MainCmd.DoHttp | Http.DoHttp |
| main.go:479 | `reset` calls `set_base_url("")`; "" is not `-` and parses as a relative URL, so the command exits 2 and the cleared store is never written | `http reset` | clear the base URL (pass `-`, as cli/main.go:355 passes nil) and store | high; not executed | MainCmd.ResetRejected | MainCmd.ResetIntended |

MainCmd.Dispatch itself keeps the behaviour as written, since it models main.go.
