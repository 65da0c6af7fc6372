/** Where the context store lives (tmpfile.go): the session id, the config
    directory under the home directory, and the memoised store path. The
    environment variables, the clock and the parent process id are parameters. */
module Session {
  import opened Common
  import opened Paths

  const HEX_DIGITS := "0123456789abcdef"

  /** The lower-case hexadecimal digits of `n`, most significant first, without leading zeros. */
  function Hex(n: nat): (s: string)
    ensures |s| >= 1
    ensures forall i :: 0 <= i < |s| ==> s[i] in HEX_DIGITS
    decreases n
  {
    if n < 16 then [HEX_DIGITS[n]] else Hex(n / 16) + [HEX_DIGITS[n % 16]]
  }

  /** The value of a hexadecimal digit. */
  function DigitValue(c: char): (d: nat)
    ensures d < 16
    ensures c in HEX_DIGITS ==> HEX_DIGITS[d] == c
  {
    if '0' <= c <= '9' then c as int - '0' as int
    else if 'a' <= c <= 'f' then c as int - 'a' as int + 10
    else 0
  }

  /** The number a string of hexadecimal digits stands for. */
  function HexValue(s: string): nat
  {
    if s == [] then 0 else HexValue(s[..|s| - 1]) * 16 + DigitValue(s[|s| - 1])
  }

  /** `%x` can be read back: the digits stand for the number printed. */
  lemma {:induction false} HexRoundTrip(n: nat)
    ensures HexValue(Hex(n)) == n
    decreases n
  {
    var s := Hex(n);
    if n < 16 {
      assert s[..0] == [];
    } else {
      HexRoundTrip(n / 16);
      assert s[..|s| - 1] == Hex(n / 16);
    }
  }

  /** `n` zero characters. */
  function Zeros(n: nat): (z: string)
    ensures |z| == n && forall i :: 0 <= i < n ==> z[i] == '0'
  {
    seq(n, i => '0')
  }

  /** Leading zeros do not change the value. */
  lemma {:induction false} ZerosValue(k: nat, s: string)
    ensures HexValue(Zeros(k) + s) == HexValue(s)
    decreases |s|, k
  {
    if s == [] {
      if k > 0 {
        assert (Zeros(k) + s)[..k - 1] == Zeros(k - 1) + s;
        ZerosValue(k - 1, s);
      }
    } else {
      var t := Zeros(k) + s;
      assert t[..|t| - 1] == Zeros(k) + s[..|s| - 1];
      ZerosValue(k, s[..|s| - 1]);
    }
  }

  /** `%08x`: the hexadecimal digits, padded with zeros to at least eight. */
  function Hex8(n: nat): (s: string)
    ensures |s| >= 8
    ensures forall i :: 0 <= i < |s| ==> s[i] in HEX_DIGITS
  {
    var digits := Hex(n);
    if |digits| >= 8 then digits else Zeros(8 - |digits|) + digits
  }

  /** The padded form still stands for the number printed. */
  lemma Hex8Value(n: nat)
    ensures HexValue(Hex8(n)) == n
  {
    HexRoundTrip(n);
    if |Hex(n)| < 8 {
      ZerosValue(8 - |Hex(n)|, Hex(n));
    }
  }

  /** `SessionID` (tmpfile.go:20-39): `HTTPCLI_SESSION_ID` when set and not
      empty, otherwise the date, a dash and the parent process id as `%08x`. */
  function SessionID(override: string, datestamp: string, ppid: nat): (id: string)
    ensures id != ""
    ensures override != "" ==> id == override
    ensures override == "" ==> |id| >= |datestamp| + 9 && id[..|datestamp| + 1] == datestamp + "-"
    ensures override == "" ==> id[|datestamp| + 1..] == Hex8(ppid)
  {
    if override != "" then override
    else datestamp + "-" + Hex8(ppid)
  }

  /** Without an override, the same day's sessions of different parent processes get different ids. */
  lemma SessionIDDistinct(datestamp: string, p: nat, q: nat)
    requires SessionID("", datestamp, p) == SessionID("", datestamp, q)
    ensures p == q
  {
    Hex8Value(p);
    Hex8Value(q);
  }

  /** `ConfigDir` (tmpfile.go:14-18) without creating the directory. */
  function ConfigDir(home: string): (dir: string)
    ensures dir != ""
    ensures IsRooted(home) ==> IsRooted(dir)
  {
    JoinPath(home, ".config/http")
  }

  /** The store path of a session: the cleaned session id with `.env`, in the config directory. */
  function StorePath(home: string, id: string): (p: string)
    ensures p != ""
    ensures IsRooted(home) ==> IsRooted(p)
  {
    JoinPath(ConfigDir(home), Clean(id) + ".env")
  }

  /** The package variable `_env_path` and its accessor. */
  class PathCache {
    var envPath: string

    constructor()
      ensures envPath == ""
    {
      envPath := "";
    }

    /** `env_path` (tmpfile.go:41-48): computed on the first call, then
        returned as cached whatever the inputs. */
    method EnvPath(home: string, override: string, datestamp: string, ppid: nat) returns (p: string)
      modifies this`envPath
      ensures old(envPath) != "" ==> p == old(envPath)
      ensures old(envPath) == "" ==> p == StorePath(home, SessionID(override, datestamp, ppid))
      ensures envPath == p && p != ""
    {
      if envPath == "" {
        envPath := JoinPath(ConfigDir(home), Clean(SessionID(override, datestamp, ppid)) + ".env");
      }
      return envPath;
    }
  }
}
