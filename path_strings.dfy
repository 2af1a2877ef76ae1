/** The string operations the scripts apply to paths: `str.lower`, `str.endswith`,
    `os.path.splitext`, `os.path.join` and `str(int)`, on POSIX paths. */
module PathStrings {

  function LowerChar(c: char): char
  {
    if 'A' <= c <= 'Z' then (c as int - 'A' as int + 'a' as int) as char else c
  }

  /** `s.lower()`, restricted to ASCII letters. */
  function Lower(s: string): (r: string)
    ensures |r| == |s|
    ensures forall i :: 0 <= i < |s| ==> r[i] == LowerChar(s[i])
  {
    seq(|s|, i requires 0 <= i < |s| => LowerChar(s[i]))
  }

  /** `s.endswith(suffix)`. */
  predicate EndsWith(s: string, suffix: string)
  {
    |suffix| <= |s| && s[|s| - |suffix|..] == suffix
  }

  /** `path.lower().endswith('.csv')`. */
  predicate HasCsvSuffix(path: string)
  {
    EndsWith(Lower(path), ".csv")
  }

  /** The suffix test looks at the last four characters only, ignoring the case of letters. */
  lemma CsvSuffixIsLastFourChars(path: string)
    ensures HasCsvSuffix(path) <==>
      |path| >= 4 && path[|path| - 4] == '.' && LowerChar(path[|path| - 3]) == 'c'
      && LowerChar(path[|path| - 2]) == 's' && LowerChar(path[|path| - 1]) == 'v'
  {
    if |path| >= 4 {
      var tail := Lower(path)[|path| - 4..];
      assert tail[0] == LowerChar(path[|path| - 4]);
      assert tail[1] == LowerChar(path[|path| - 3]);
      assert tail[2] == LowerChar(path[|path| - 2]);
      assert tail[3] == LowerChar(path[|path| - 1]);
    }
  }

  /** A suffix of a suffix is a suffix. */
  lemma EndsWithTrans(s: string, longer: string, shorter: string)
    requires EndsWith(s, longer) && EndsWith(longer, shorter)
    ensures EndsWith(s, shorter)
  {
    assert s[|s| - |shorter|..] == s[|s| - |longer|..][|longer| - |shorter|..];
  }

  /** The greatest index of `c` in `s`, or -1 (`str.rfind`). */
  function LastIndex(s: string, c: char): (r: int)
    ensures -1 <= r < |s|
    ensures r >= 0 ==> s[r] == c
    ensures forall i :: r < i < |s| ==> s[i] != c
    decreases |s|
  {
    if |s| == 0 then -1 else if s[|s| - 1] == c then |s| - 1 else LastIndex(s[..|s| - 1], c)
  }

  /** `os.path.splitext(p)` on POSIX: the extension starts at the last dot of the file name,
      unless every character of the file name before that dot is a dot (leading dots do not count). */
  function SplitExt(p: string): (r: (string, string))
  {
    var sep := LastIndex(p, '/');
    var dot := LastIndex(p, '.');
    if dot > sep && exists k :: sep + 1 <= k < dot && p[k] != '.' then (p[..dot], p[dot..]) else (p, [])
  }

  /** `os.path.splitext(p)[1]`. */
  function Ext(p: string): string
  {
    SplitExt(p).1
  }

  /** The two halves of `splitext` reassemble the path, and the extension is empty or a
      single dot followed by characters that are neither dots nor separators. */
  lemma SplitExtShape(p: string)
    ensures SplitExt(p).0 + SplitExt(p).1 == p
    ensures Ext(p) == [] || (Ext(p)[0] == '.' && '.' !in Ext(p)[1..] && '/' !in Ext(p))
    ensures EndsWith(p, Ext(p))
  {
    var sep := LastIndex(p, '/');
    var dot := LastIndex(p, '.');
    if dot > sep && exists k :: sep + 1 <= k < dot && p[k] != '.' {
      var e := p[dot..];
      assert e[1..] == p[dot + 1..];
      forall i | 0 <= i < |e| ensures e[i] != '/' {
        assert e[i] == p[dot + i];
      }
      forall i | 0 <= i < |e[1..]| ensures e[1..][i] != '.' {
        assert e[1..][i] == p[dot + 1 + i];
      }
    }
  }

  /** When a path ends in `inner + ext`, where `ext` is one dot plus a dot-free, separator-free
      word and `inner` has no separator but some character that is not a dot, `splitext`
      yields exactly `ext`: only the last suffix is kept. */
  lemma {:induction false} ExtOfLastSuffix(p: string, inner: string, ext: string)
    requires EndsWith(p, inner + ext)
    requires |ext| >= 1 && ext[0] == '.' && '.' !in ext[1..] && '/' !in ext
    requires '/' !in inner && exists k :: 0 <= k < |inner| && inner[k] != '.'
    ensures Ext(p) == ext
  {
    var n := |p|;
    var start := n - |inner| - |ext|;
    var dotAt := n - |ext|;
    assert p[start..] == inner + ext;
    assert p[dotAt] == '.' by { assert p[dotAt] == (inner + ext)[|inner|]; }
    forall i | dotAt < i < n ensures p[i] != '.' {
      assert p[i] == ext[1..][i - dotAt - 1];
    }
    var dot := LastIndex(p, '.');
    assert dot == dotAt;
    forall i | start <= i < n ensures p[i] != '/' {
      assert p[i] == (inner + ext)[i - start];
    }
    var sep := LastIndex(p, '/');
    assert sep < start;
    var k :| 0 <= k < |inner| && inner[k] != '.';
    assert p[start + k] == inner[k];
    assert sep + 1 <= start + k < dot && p[start + k] != '.';
    assert p[dot..] == ext;
  }

  /** `.nii.gz` files have the extension `.gz`. */
  lemma NiiGzExt(p: string)
    requires EndsWith(p, ".nii.gz")
    ensures Ext(p) == ".gz"
  {
    assert ".nii" + ".gz" == ".nii.gz";
    assert ".nii"[1] != '.';
    ExtOfLastSuffix(p, ".nii", ".gz");
  }

  /** CIFTI files named `*.dscalar.nii` (likewise `.dtseries.nii`, `.dlabel.nii`) have the extension `.nii`. */
  lemma CiftiNiiExt(p: string, kind: string)
    requires kind == ".dscalar" || kind == ".dtseries" || kind == ".dlabel"
    requires EndsWith(p, kind + ".nii")
    ensures Ext(p) == ".nii"
  {
    assert kind[1] != '.';
    ExtOfLastSuffix(p, kind, ".nii");
  }

  /** `os.path.join(a, b)` on POSIX. */
  function Join(a: string, b: string): (r: string)
  {
    if |b| > 0 && b[0] == '/' then b
    else if a == [] || a[|a| - 1] == '/' then a + b
    else a + "/" + b
  }

  /** `os.path.join(parts[0], parts[1], ...)`: each part joined onto the result so far. */
  function JoinAll(parts: seq<string>): (r: string)
    requires parts != []
    decreases |parts|
  {
    if |parts| == 1 then parts[0] else Join(JoinAll(parts[..|parts| - 1]), parts[|parts| - 1])
  }

  lemma JoinAllSnoc(parts: seq<string>, x: string)
    requires parts != []
    ensures JoinAll(parts + [x]) == Join(JoinAll(parts), x)
  {
    assert (parts + [x])[..|parts|] == parts;
  }

  function Digit(d: nat): (c: char)
    requires d < 10
    ensures '0' <= c <= '9'
  {
    ('0' as int + d) as char
  }

  /** `str(n)` for a non-negative integer: its decimal digits, without leading zeros. */
  function NatToString(n: nat): (r: string)
    ensures |r| >= 1
    ensures forall i :: 0 <= i < |r| ==> '0' <= r[i] <= '9'
    ensures n >= 10 ==> |r| >= 2
    decreases n
  {
    if n < 10 then [Digit(n)] else NatToString(n / 10) + [Digit(n % 10)]
  }

  /** Distinct numbers have distinct decimal representations. */
  lemma {:induction false} NatToStringInjective(m: nat, n: nat)
    requires NatToString(m) == NatToString(n)
    ensures m == n
    decreases m
  {
    if m >= 10 && n >= 10 {
      var a, b := NatToString(m / 10), NatToString(n / 10);
      assert NatToString(m) == a + [Digit(m % 10)];
      assert NatToString(n) == b + [Digit(n % 10)];
      assert Digit(m % 10) == Digit(n % 10) by {
        assert NatToString(m)[|a|] == Digit(m % 10);
        assert |a| == |b|;
      }
      assert a == NatToString(m)[..|a|];
      assert b == NatToString(n)[..|b|];
      NatToStringInjective(m / 10, n / 10);
    }
  }
}
