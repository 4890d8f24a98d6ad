/** The text the daemon builds and takes apart: decimal numbers (fmt's %d) and slash-separated paths. */
module Text {

  predicate IsDigit(c: char) {
    '0' <= c <= '9'
  }

  function DigitChar(d: nat): (c: char)
    requires d < 10
    ensures IsDigit(c) && DigitValue(c) == d
  {
    ('0' as int + d) as char
  }

  function DigitValue(c: char): (d: nat)
    requires IsDigit(c)
    ensures d < 10
  {
    c as int - '0' as int
  }

  function Decimal(n: nat): (s: string)
    ensures s != [] && forall i :: 0 <= i < |s| ==> IsDigit(s[i])
  {
    if n < 10 then [DigitChar(n)] else Decimal(n / 10) + [DigitChar(n % 10)]
  }

  function ParseDecimal(s: string): nat
    requires forall i :: 0 <= i < |s| ==> IsDigit(s[i])
  {
    if s == [] then 0
    else 10 * ParseDecimal(s[..|s| - 1]) + DigitValue(s[|s| - 1])
  }

  lemma {:induction false} DecimalRoundTrip(n: nat)
    ensures ParseDecimal(Decimal(n)) == n
  {
    if n >= 10 {
      DecimalRoundTrip(n / 10);
      assert Decimal(n)[..|Decimal(n)| - 1] == Decimal(n / 10);
    }
  }

  /** The one decimal number for n: digits that are read as n, the first of them no zero unless it is the only one. */
  predicate Spells(s: string, n: nat) {
    && s != [] && (forall i :: 0 <= i < |s| ==> IsDigit(s[i]))
    && ParseDecimal(s) == n && (|s| > 1 ==> s[0] != '0')
  }

  lemma {:induction false} DecimalSpells(n: nat)
    ensures Spells(Decimal(n), n)
  {
    DecimalRoundTrip(n);
    if n >= 10 {
      DecimalSpells(n / 10);
    }
  }

  lemma DecimalInjective(m: nat, n: nat)
    requires Decimal(m) == Decimal(n)
    ensures m == n
  {
    DecimalRoundTrip(m);
    DecimalRoundTrip(n);
  }

  function Pow10(k: nat): (p: nat)
    ensures p > 0
  {
    if k == 0 then 1 else 10 * Pow10(k - 1)
  }

  lemma {:induction false} DecimalLength(n: nat, k: nat)
    requires 0 < k && n < Pow10(k)
    ensures |Decimal(n)| <= k
  {
    if n >= 10 {
      DecimalLength(n / 10, k - 1);
    }
  }

  lemma {:induction false} DecimalAtLeast(n: nat, k: nat)
    requires 0 < k && Pow10(k - 1) <= n
    ensures |Decimal(n)| >= k
  {
    if k > 1 {
      DecimalAtLeast(n / 10, k - 1);
    }
  }

  /** Two texts that split at their first occurrence of `sep` split at the same place. */
  lemma SplitUnique(p: string, s: string, q: string, t: string, sep: char)
    requires p + [sep] + s == q + [sep] + t
    requires sep !in p && sep !in q
    ensures p == q && s == t
  {
    var whole := p + [sep] + s;
    assert whole[|p|] == sep && whole[|q|] == sep;
    assert p == whole[..|p|] == q;
    assert s == whole[|p| + 1..] == t;
  }

  function TrimTrailingSlashes(p: string): (r: string)
    ensures r <= p && (r != [] ==> r[|r| - 1] != '/')
  {
    if p != [] && p[|p| - 1] == '/' then TrimTrailingSlashes(p[..|p| - 1]) else p
  }

  function AfterLastSlash(p: string): (r: string)
    ensures '/' !in r && |r| <= |p| && p[|p| - |r|..] == r
  {
    if p == [] || p[|p| - 1] == '/' then []
    else AfterLastSlash(p[..|p| - 1]) + [p[|p| - 1]]
  }

  /** Go's path.Base. */
  function Base(p: string): string {
    if p == "" then "."
    else
      var q := TrimTrailingSlashes(p);
      if q == "" then "/" else AfterLastSlash(q)
  }

  lemma {:induction false} AfterLastSlashOfJoin(dir: string, name: string)
    requires '/' !in name
    ensures AfterLastSlash(dir + "/" + name) == name
  {
    var p := dir + "/" + name;
    if name != [] {
      var init := name[..|name| - 1];
      AfterLastSlashOfJoin(dir, init);
      assert p[..|p| - 1] == dir + "/" + init;
      assert init + [name[|name| - 1]] == name;
    }
  }

  /** The last element of a joined path is the name that was joined. */
  lemma BaseOfJoin(dir: string, name: string)
    requires name != [] && '/' !in name
    ensures Base(dir + "/" + name) == name
  {
    var p := dir + "/" + name;
    assert p[|p| - 1] == name[|name| - 1];
    assert name[|name| - 1] in name;
    AfterLastSlashOfJoin(dir, name);
  }

  /** Go's path.Base on the paths that are not a joined name: slashes at the end do not count. */
  lemma BaseOfOthers(p: string)
    ensures Base("") == "." && Base("/") == "/"
    ensures p != "" ==> Base(p + "/") == Base(p)
    ensures p != "" && '/' !in p ==> Base(p) == p
  {
    assert TrimTrailingSlashes("/") == TrimTrailingSlashes([]) by { assert "/"[..0] == []; }
    assert (p + "/")[..|p|] == p;
    if p != "" && '/' !in p {
      assert p[|p| - 1] in p;
      NoSlashNothingBefore(p);
    }
  }

  lemma {:induction false} NoSlashNothingBefore(p: string)
    requires '/' !in p
    ensures AfterLastSlash(p) == p
  {
    if p != "" {
      assert p[|p| - 1] in p;
      NoSlashNothingBefore(p[..|p| - 1]);
    }
  }

  /** A path's last element is no longer than the path, and is the path itself when as long. */
  lemma BaseNoLonger(p: string)
    requires p != ""
    ensures |Base(p)| <= |p| && (|Base(p)| == |p| ==> Base(p) == p)
  {
    var q := TrimTrailingSlashes(p);
    if q != "" {
      assert q[|q| - |AfterLastSlash(q)|..] == AfterLastSlash(q);
    } else if |p| == 1 {
      assert p[0] == '/' by { assert p != q; }
    }
  }
}
