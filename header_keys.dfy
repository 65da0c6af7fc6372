/** How a header name becomes a key of the context store and back
    (env.go:13, env.go:42-52; duplicated at main.go:23, 52-62 and cli/main.go:22, 53-63). */
module HeaderKeys {
  import opened Common

  const PREFIX := "HEADER_"

  /** A store key that holds a header. */
  predicate IsHeaderKey(key: string)
  {
    PREFIX <= key
  }

  /** `headerkey_to_envkey`: the prefix, then the name with every `-` turned into `_`. */
  function HeaderToEnv(name: string): (key: string)
    ensures IsHeaderKey(key) && |key| == |PREFIX| + |name|
    ensures forall i :: 0 <= i < |name| ==> key[|PREFIX| + i] == if name[i] == '-' then '_' else name[i]
  {
    PREFIX + Replace(name, '-', '_')
  }

  /** `envkey_to_headerkey`: "" for a key without the prefix; otherwise the rest
      of the key with every `_` turned into `-`. */
  function EnvToHeader(key: string): (name: string)
    ensures !IsHeaderKey(key) ==> name == ""
    ensures IsHeaderKey(key) ==> |name| == |key| - |PREFIX|
    ensures IsHeaderKey(key) ==> forall i :: 0 <= i < |name| ==>
              name[i] == if key[|PREFIX| + i] == '_' then '-' else key[|PREFIX| + i]
  {
    if !IsHeaderKey(key) then "" else Replace(key[|PREFIX|..], '_', '-')
  }

  /** A stored key never carries `-` after the prefix: every key the client writes has this form. */
  predicate IsDashFree(key: string)
    requires IsHeaderKey(key)
  {
    '-' !in key[|PREFIX|..]
  }

  /** A name without `_` comes back unchanged from its store key. */
  lemma HeaderKeyRoundTrip(name: string)
    requires '_' !in name
    ensures EnvToHeader(HeaderToEnv(name)) == name
  {
    var back := EnvToHeader(HeaderToEnv(name));
    forall i | 0 <= i < |name| ensures back[i] == name[i] {
      assert name[i] != '_';
    }
  }

  /** A store key whose suffix has no `-` comes back unchanged from its header name. */
  lemma EnvKeyRoundTrip(key: string)
    requires IsHeaderKey(key) && IsDashFree(key)
    ensures HeaderToEnv(EnvToHeader(key)) == key
  {
    var back := HeaderToEnv(EnvToHeader(key));
    forall i | 0 <= i < |key| ensures back[i] == key[i] {
      if i >= |PREFIX| {
        assert key[|PREFIX|..][i - |PREFIX|] == key[i];
      }
    }
  }

  /** Names free of `_` never share a store key. */
  lemma HeaderToEnvInjective(a: string, b: string)
    requires '_' !in a && '_' !in b
    requires HeaderToEnv(a) == HeaderToEnv(b)
    ensures a == b
  {
    HeaderKeyRoundTrip(a);
    HeaderKeyRoundTrip(b);
  }

  /** Every key `headerkey_to_envkey` writes has the dash-free form. */
  lemma HeaderToEnvDashFree(name: string)
    ensures IsDashFree(HeaderToEnv(name))
  {
    var key := HeaderToEnv(name);
    forall i | 0 <= i < |key| - |PREFIX| ensures key[|PREFIX|..][i] != '-' {
      assert key[|PREFIX|..][i] == key[|PREFIX| + i];
    }
  }
}
