/** The on-disk form of the context store: one `KEY=VALUE` line per entry
    (env.go:15-40 and env.go:54-67; duplicated at main.go:25-50, 64-77 and
    cli/main.go:26-51, 65-78). */
module EnvText {
  import opened Common

  type Environ = map<string, string>

  /** A line that names `key`: it has an `=` and `key` is the text before the first one. */
  predicate Names(line: string, key: string)
  {
    var equ := IndexOf(line, '=');
    equ != -1 && line[..equ] == key
  }

  /** The value of a line with an `=`: everything after the first one, more `=` included. */
  function ValueOf(line: string): string
    requires '=' in line
  {
    line[IndexOf(line, '=') + 1..]
  }

  /** One step of `environ_to_map`: a line without `=` is skipped, any other
      line (over)writes the entry named by its text before the first `=`. */
  function ApplyLine(m: Environ, line: string): Environ
  {
    var equ := IndexOf(line, '=');
    if equ == -1 then m else m[line[..equ] := line[equ + 1..]]
  }

  /** The map `environ_to_map` builds from `lines`, read first to last. */
  function ParseLines(lines: seq<string>): Environ
  {
    if lines == [] then map[]
    else ApplyLine(ParseLines(lines[..|lines| - 1]), lines[|lines| - 1])
  }

  /** `environ_to_map` (env.go:55-67). */
  method EnvironToMap(environ: seq<string>) returns (m: Environ)
    ensures m == ParseLines(environ)
  {
    m := map[];
    for i := 0 to |environ|
      invariant m == ParseLines(environ[..i])
    {
      assert environ[..i + 1][..i] == environ[..i];
      var kv := environ[i];
      // Key and value meet at the first `=`.
      var equ := IndexOf(kv, '=');
      if equ == -1 {
        continue;
      }
      m := m[kv[..equ] := kv[equ + 1..]];
    }
    assert environ[..|environ|] == environ;
  }

  /** A key is present exactly when some line names it. */
  lemma {:induction false} ParseLinesKeys(lines: seq<string>, key: string)
    ensures key in ParseLines(lines) <==> exists i :: 0 <= i < |lines| && Names(lines[i], key)
  {
    if lines != [] {
      var front := lines[..|lines| - 1];
      ParseLinesKeys(front, key);
      if exists i :: 0 <= i < |front| && Names(front[i], key) {
        var i :| 0 <= i < |front| && Names(front[i], key);
        assert Names(lines[i], key);
      }
      if exists i :: 0 <= i < |lines| && Names(lines[i], key) {
        var i :| 0 <= i < |lines| && Names(lines[i], key);
        if i < |front| {
          assert Names(front[i], key);
        }
      }
    }
  }

  /** The value of a key comes from the last line naming it: a later line
      with the same key overwrites an earlier one. */
  lemma {:induction false} ParseLinesLast(lines: seq<string>, i: nat, key: string)
    requires i < |lines| && Names(lines[i], key)
    requires forall j :: i < j < |lines| ==> !Names(lines[j], key)
    ensures key in ParseLines(lines) && ParseLines(lines)[key] == ValueOf(lines[i])
  {
    var front := lines[..|lines| - 1];
    if i < |lines| - 1 {
      forall j | i < j < |front| ensures !Names(front[j], key) {
        assert front[j] == lines[j];
      }
      ParseLinesLast(front, i, key);
      assert !Names(lines[|lines| - 1], key);
    }
  }

  /** Values may themselves contain `=`: only the first `=` of a line splits it. */
  lemma ValueKeepsEquals(key: string, value: string)
    requires '=' !in key
    ensures ParseLines([key + "=" + value]) == map[key := value]
  {
    IndexOfAfter(key, '=', value);
    var line := key + "=" + value;
    assert line[..|key|] == key && line[|key| + 1..] == value;
    var none: seq<string> := [];
    assert [line][..0] == none;
  }

  /** The line `store_env` writes for one entry. */
  function Entry(m: Environ, key: string): string
    requires key in m
  {
    key + "=" + m[key]
  }

  /** The text `store_env` accumulates when the map's keys come in the order `order`. */
  function Render(m: Environ, order: seq<string>): string
    requires forall i :: 0 <= i < |order| ==> order[i] in m
  {
    if order == [] then ""
    else Render(m, order[..|order| - 1]) + Entry(m, order[|order| - 1]) + "\n"
  }

  /** `order` lists every key of the map exactly once (one possible iteration order). */
  ghost predicate Enumerates(order: seq<string>, keys: set<string>)
  {
    && (forall i :: 0 <= i < |order| ==> order[i] in keys)
    && (forall k :: k in keys ==> k in order)
    && (forall i, j :: 0 <= i < j < |order| ==> order[i] != order[j])
  }

  /** The entries of the map can be read back from the text. */
  ghost predicate Storable(m: Environ)
  {
    forall k :: k in m ==> '=' !in k && '\n' !in k && '\n' !in m[k]
  }

  function Lines(m: Environ, order: seq<string>): (ls: seq<string>)
    requires forall i :: 0 <= i < |order| ==> order[i] in m
    ensures |ls| == |order|
  {
    seq(|order|, i requires 0 <= i < |order| => Entry(m, order[i]))
  }

  /** Splitting the stored text at newlines gives one line per entry and a final empty piece. */
  lemma {:induction false} RenderSplits(m: Environ, order: seq<string>)
    requires forall i :: 0 <= i < |order| ==> order[i] in m
    requires Storable(m)
    ensures Split(Render(m, order), '\n') == Lines(m, order) + [""]
  {
    if order != [] {
      var front := order[..|order| - 1];
      var key := order[|order| - 1];
      var line := Entry(m, key);
      RenderSplits(m, front);
      assert Lines(m, order) == Lines(m, front) + [line];
      assert '\n' !in line;
      SplitWhole(line, '\n');
      var r := Render(m, front);
      if r == "" {
        SplitAround(line, '\n', "");
        assert r + line + "\n" == line + "\n" + "";
      } else {
        var x := r[..|r| - 1];
        assert r == x + "\n" by {
          assert front != [];
        }
        assert r == x + "\n" + "";
        SplitAround(x, '\n', "");
        assert Split(x, '\n') + [""] == Lines(m, front) + [""];
        var a, b := Split(x, '\n'), Lines(m, front);
        assert (a + [""])[..|a|] == a && (b + [""])[..|b|] == b;
        assert a == b;
        assert line + "\n" == line + "\n" + "";
        SplitAround(line, '\n', "");
        assert r + line + "\n" == x + "\n" + (line + "\n");
        SplitAround(x, '\n', line + "\n");
        calc {
          Split(Render(m, order), '\n');
          Split(x + "\n" + (line + "\n"), '\n');
          Split(x, '\n') + Split(line + "\n", '\n');
          Lines(m, front) + [line, ""];
          Lines(m, order) + [""];
        }
      }
    }
  }

  /** Reading the lines of distinct entries gives back the entries listed. */
  lemma {:induction false} ParseLinesOfEntries(m: Environ, order: seq<string>)
    requires forall i :: 0 <= i < |order| ==> order[i] in m
    requires forall i, j :: 0 <= i < j < |order| ==> order[i] != order[j]
    requires Storable(m)
    ensures ParseLines(Lines(m, order)) == map k | k in m && k in order :: m[k]
  {
    if order != [] {
      var front := order[..|order| - 1];
      var key := order[|order| - 1];
      assert Lines(m, order)[..|order| - 1] == Lines(m, front);
      ParseLinesOfEntries(m, front);
      IndexOfAfter(key, '=', m[key]);
      var line := Entry(m, key);
      assert line[..|key|] == key && line[|key| + 1..] == m[key];
    }
  }

  /** The persistence round trip: the text `store_env` writes, split into lines
      and read by `environ_to_map`, is the map again, whatever order the keys came in. */
  lemma StoreLoadRoundTrip(m: Environ, order: seq<string>)
    requires Enumerates(order, m.Keys)
    requires Storable(m)
    ensures ParseLines(Split(Render(m, order), '\n')) == m
  {
    RenderSplits(m, order);
    var ls := Lines(m, order);
    assert (ls + [""])[..|ls|] == ls;
    ParseLinesOfEntries(m, order);
  }
}
