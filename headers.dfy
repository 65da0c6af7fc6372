/** The request header collection (Go's `http.Header`): a map from header
    name to its values. `Set` and `Get` go through the canonical form of the
    name; the built-in `delete` on the map does not. */
module Headers {
  import opened Common

  type Header = map<string, seq<string>>

  /** A byte allowed in a header name (an RFC 7230 token character). */
  predicate IsTokenChar(c: char)
  {
    ('a' <= c <= 'z') || ('A' <= c <= 'Z') || ('0' <= c <= '9') || c in "!#$%&'*+-.^_`|~"
  }

  predicate IsToken(name: string)
  {
    forall i :: 0 <= i < |name| ==> IsTokenChar(name[i])
  }

  /** The case rule of the canonical form: a letter at the start or right after
      `-` is upper case, every other letter lower case. */
  function FoldChar(c: char, upper: bool): char
  {
    if upper then UpperChar(c) else LowerChar(c)
  }

  function FoldCase(name: string, upper: bool): (r: string)
    ensures |r| == |name|
  {
    if name == [] then []
    else
      var d := FoldChar(name[0], upper);
      [d] + FoldCase(name[1..], d == '-')
  }

  /** `http.CanonicalHeaderKey`: a name with a non-token byte is returned as is;
      otherwise it gets the canonical capitalisation (`x-api-key` becomes `X-Api-Key`). */
  function Canonical(name: string): (r: string)
    ensures |r| == |name|
    ensures !IsToken(name) ==> r == name
  {
    if IsToken(name) then FoldCase(name, true) else name
  }

  lemma {:induction false} FoldCaseIdempotent(name: string, upper: bool)
    ensures FoldCase(FoldCase(name, upper), upper) == FoldCase(name, upper)
  {
    if name != [] {
      var d := FoldChar(name[0], upper);
      var once := FoldCase(name, upper);
      assert once[0] == d && once[1..] == FoldCase(name[1..], d == '-');
      assert FoldChar(d, upper) == d;
      FoldCaseIdempotent(name[1..], d == '-');
    }
  }

  lemma {:induction false} FoldCaseKeepsTokens(name: string, upper: bool)
    requires IsToken(name)
    ensures IsToken(FoldCase(name, upper))
  {
    if name != [] {
      FoldCaseKeepsTokens(name[1..], FoldChar(name[0], upper) == '-');
      assert IsTokenChar(name[0]);
    }
  }

  /** Canonicalising twice changes nothing more. */
  lemma CanonicalIdempotent(name: string)
    ensures Canonical(Canonical(name)) == Canonical(name)
  {
    if IsToken(name) {
      FoldCaseKeepsTokens(name, true);
      FoldCaseIdempotent(name, true);
    }
  }

  lemma {:induction false} FoldCaseIgnoresCase(name: string, upper: bool)
    ensures FoldCase(ToLower(name), upper) == FoldCase(name, upper)
  {
    if name != [] {
      assert ToLower(name)[1..] == ToLower(name[1..]);
      FoldCaseIgnoresCase(name[1..], FoldChar(name[0], upper) == '-');
    }
  }

  /** Header names are case-insensitive: a token name and its lower-case
      spelling have the same canonical form. */
  lemma CanonicalIgnoresCase(name: string)
    requires IsToken(name)
    ensures Canonical(ToLower(name)) == Canonical(name)
  {
    assert IsToken(ToLower(name)) <==> IsToken(name) by {
      forall i | 0 <= i < |name| ensures IsTokenChar(ToLower(name)[i]) <==> IsTokenChar(name[i]) { }
    }
    FoldCaseIgnoresCase(name, true);
  }

  lemma {:induction false} FoldCaseNoUnderscore(name: string, upper: bool)
    requires '_' !in name
    ensures '_' !in FoldCase(name, upper)
  {
    if name != [] {
      assert name[0] != '_';
      FoldCaseNoUnderscore(name[1..], FoldChar(name[0], upper) == '-');
    }
  }

  /** Canonicalising a name does not introduce `_`. */
  lemma CanonicalNoUnderscore(name: string)
    requires '_' !in name
    ensures '_' !in Canonical(name)
  {
    FoldCaseNoUnderscore(name, true);
  }

  /** `Header.Set`: replaces all values of the canonical name by `[value]`. */
  function Set(h: Header, name: string, value: string): (r: Header)
    ensures Canonical(name) in r && r[Canonical(name)] == [value]
    ensures r.Keys == h.Keys + {Canonical(name)}
    ensures forall n :: n in h && n != Canonical(name) ==> r[n] == h[n]
  {
    h[Canonical(name) := [value]]
  }

  /** `Header.Get`: the first value of the canonical name, or "". */
  function Get(h: Header, name: string): (r: string)
    ensures Canonical(name) !in h ==> r == ""
    ensures Canonical(name) in h && |h[Canonical(name)]| > 0 ==> r == h[Canonical(name)][0]
    ensures Canonical(name) in h && |h[Canonical(name)]| == 0 ==> r == ""
  {
    var n := Canonical(name);
    if n in h && |h[n]| > 0 then h[n][0] else ""
  }

  /** What `Set` stores, `Get` reads back, also under the lower-case spelling of the name. */
  lemma GetAfterSet(h: Header, name: string, value: string)
    requires IsToken(name)
    ensures Get(Set(h, name, value), ToLower(name)) == value
  {
    CanonicalIgnoresCase(name);
  }
}
