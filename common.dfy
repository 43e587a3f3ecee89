/** Small shared vocabulary: optional values, C integer semantics, the byte-wise
    string order of std::string, and decimal rendering of process ids. */
module Common {

  datatype Option<+T> = None | Some(value: T)

  function Min(a: int, b: int): (r: int)
    ensures r <= a && r <= b && (r == a || r == b)
  {
    if a <= b then a else b
  }

  const INT32_MIN: int := -0x8000_0000
  const INT32_MAX: int := 0x7FFF_FFFF

  predicate InInt32(x: int) {
    INT32_MIN <= x <= INT32_MAX
  }

  /** C's `/` on int: the quotient is truncated toward zero (Dafny's `/` is Euclidean). */
  function TruncDiv(a: int, d: int): (q: int)
    requires d > 0
    ensures a >= 0 ==> q == a / d && 0 <= a - q * d < d
    ensures a < 0 ==> -d < a - q * d <= 0
  {
    if a >= 0 then a / d else -((-a) / d)
  }

  // ---------------------------------------------------------------------------
  // The order std::map<std::string, int> keeps its keys in: lexicographic on
  // characters, a proper prefix before its extensions.

  predicate StrLess(a: string, b: string)
    decreases |a|
  {
    if a == [] then b != []
    else if b == [] then false
    else a[0] < b[0] || (a[0] == b[0] && StrLess(a[1..], b[1..]))
  }

  lemma {:induction false} StrLessIrreflexive(a: string)
    ensures !StrLess(a, a)
    decreases |a|
  {
    if a != [] {
      StrLessIrreflexive(a[1..]);
    }
  }

  lemma {:induction false} StrLessTransitive(a: string, b: string, c: string)
    requires StrLess(a, b) && StrLess(b, c)
    ensures StrLess(a, c)
    decreases |a|
  {
    if a != [] {
      assert b != [] && c != [];
      if a[0] == b[0] && b[0] == c[0] {
        StrLessTransitive(a[1..], b[1..], c[1..]);
      }
    }
  }

  lemma {:induction false} StrLessTotal(a: string, b: string)
    requires a != b
    ensures StrLess(a, b) || StrLess(b, a)
    decreases |a|
  {
    if a != [] && b != [] && a[0] == b[0] {
      assert a == [a[0]] + a[1..] && b == [b[0]] + b[1..];
      StrLessTotal(a[1..], b[1..]);
    }
  }

  lemma StrLessAsymmetric(a: string, b: string)
    requires StrLess(a, b)
    ensures !StrLess(b, a)
  {
    if StrLess(b, a) {
      StrLessTransitive(a, b, a);
      StrLessIrreflexive(a);
    }
  }

  /** `k` is the first key of `keys` in std::map order. */
  ghost predicate IsLeastKey(k: string, keys: set<string>) {
    k in keys && forall j :: j in keys && j != k ==> StrLess(k, j)
  }

  lemma {:induction false} LeastKeyExists(keys: set<string>)
    requires keys != {}
    ensures exists k :: IsLeastKey(k, keys)
    decreases |keys|
  {
    var x :| x in keys;
    var rest := keys - {x};
    if rest == {} {
      assert keys == {x};
      assert IsLeastKey(x, keys);
    } else {
      LeastKeyExists(rest);
      var m :| IsLeastKey(m, rest);
      if StrLess(x, m) {
        forall j | j in keys && j != x
          ensures StrLess(x, j)
        {
          if j != m {
            StrLessTransitive(x, m, j);
          }
        }
        assert IsLeastKey(x, keys);
      } else {
        assert x != m;
        StrLessTotal(x, m);
        assert IsLeastKey(m, keys);
      }
    }
  }

  lemma LeastKeyUnique(k1: string, k2: string, keys: set<string>)
    requires IsLeastKey(k1, keys) && IsLeastKey(k2, keys)
    ensures k1 == k2
  {
    if k1 != k2 {
      StrLessAsymmetric(k1, k2);
    }
  }

  /** The first key in std::map order. */
  ghost function LeastKey(keys: set<string>): (k: string)
    requires keys != {}
    ensures IsLeastKey(k, keys)
  {
    LeastKeyExists(keys);
    var k :| IsLeastKey(k, keys);
    k
  }

  // ---------------------------------------------------------------------------
  // Ascending order of a std::set<int>.

  ghost predicate IsLeastInt(x: int, s: set<int>) {
    x in s && forall y :: y in s ==> x <= y
  }

  lemma IntSetHasElement(s: set<int>)
    requires s != {}
    ensures exists x :: x in s
  {
    if forall x :: x !in s {
      assert false;
    }
  }

  lemma {:induction false} LeastIntExists(s: set<int>)
    requires s != {}
    ensures exists x :: IsLeastInt(x, s)
    decreases |s|
  {
    IntSetHasElement(s);
    var x :| x in s;
    var rest := s - {x};
    if rest == {} {
      assert s == {x};
      assert IsLeastInt(x, s);
    } else {
      LeastIntExists(rest);
      var m :| IsLeastInt(m, rest);
      var least := if x <= m then x else m;
      forall y | y in s
        ensures least <= y
      {
        if y != x {
          assert y in rest;
        }
      }
      assert IsLeastInt(least, s);
    }
  }

  ghost function LeastInt(s: set<int>): (x: int)
    requires s != {}
    ensures IsLeastInt(x, s)
  {
    LeastIntExists(s);
    var x :| IsLeastInt(x, s);
    x
  }

  /** The elements of `s` in the order a std::set<int> iterates them. */
  ghost function Ascending(s: set<int>): (r: seq<int>)
    ensures |r| == |s|
    decreases |s|
  {
    if s == {} then [] else [LeastInt(s)] + Ascending(s - {LeastInt(s)})
  }

  lemma {:induction false} AscendingContents(s: set<int>)
    ensures forall x :: x in s <==> x in Ascending(s)
    ensures forall i, j :: 0 <= i < j < |Ascending(s)| ==> Ascending(s)[i] < Ascending(s)[j]
    decreases |s|
  {
    if s != {} {
      var m := LeastInt(s);
      AscendingContents(s - {m});
      var r := Ascending(s);
      assert r == [m] + Ascending(s - {m});
      forall i, j | 0 <= i < j < |r| ensures r[i] < r[j] {
        if i == 0 {
          assert r[j] in Ascending(s - {m});
        }
      }
    }
  }

  // ---------------------------------------------------------------------------
  // QString::number for a positive pid, and the decimal reading it inverts.

  function DigitChar(d: nat): (c: char)
    requires d < 10
    ensures '0' <= c <= '9'
  {
    ['0', '1', '2', '3', '4', '5', '6', '7', '8', '9'][d]
  }

  function DigitValue(c: char): (d: nat)
    requires '0' <= c <= '9'
    ensures d < 10 && DigitChar(d) == c
  {
    (c as int - '0' as int) as nat
  }

  predicate IsDigits(s: string) {
    |s| > 0 && forall i :: 0 <= i < |s| ==> '0' <= s[i] <= '9'
  }

  function NatToDecimal(n: nat): (s: string)
    ensures IsDigits(s)
    ensures n > 0 ==> s[0] != '0'
    decreases n
  {
    if n < 10 then [DigitChar(n)] else NatToDecimal(n / 10) + [DigitChar(n % 10)]
  }

  function DecimalToNat(s: string): (n: nat)
    requires IsDigits(s)
    decreases |s|
  {
    if |s| == 1 then DigitValue(s[0])
    else DecimalToNat(s[..|s| - 1]) * 10 + DigitValue(s[|s| - 1])
  }

  lemma DigitRoundTrip(d: nat)
    requires d < 10
    ensures DigitValue(DigitChar(d)) == d
  {
  }

  lemma {:induction false} DecimalRoundTrip(n: nat)
    ensures DecimalToNat(NatToDecimal(n)) == n
    decreases n
  {
    if n < 10 {
      DigitRoundTrip(n);
    } else {
      var s := NatToDecimal(n);
      var p := NatToDecimal(n / 10);
      assert s == p + [DigitChar(n % 10)];
      assert s[..|s| - 1] == p;
      DecimalRoundTrip(n / 10);
      DigitRoundTrip(n % 10);
    }
  }

  /** Distinct pids render as distinct strings. */
  lemma DecimalInjective(m: nat, n: nat)
    requires NatToDecimal(m) == NatToDecimal(n)
    ensures m == n
  {
    DecimalRoundTrip(m);
    DecimalRoundTrip(n);
  }

  // ---------------------------------------------------------------------------
  // strcasecmp(a, b) == 0 on ASCII.

  function ToLowerAscii(c: char): (r: char)
    ensures 'A' <= c <= 'Z' ==> r as int == c as int + 32
    ensures !('A' <= c <= 'Z') ==> r == c
  {
    if 'A' <= c <= 'Z' then (c as int + 32) as char else c
  }

  predicate EqualsIgnoreCase(a: string, b: string) {
    |a| == |b| && forall i :: 0 <= i < |a| ==> ToLowerAscii(a[i]) == ToLowerAscii(b[i])
  }

  /** strcasecmp compares with "kb"/"mb": exactly the four spellings match. */
  lemma KbSpellings(s: string)
    ensures EqualsIgnoreCase(s, "kb") <==> s in {"kb", "kB", "Kb", "KB"}
  {
    if EqualsIgnoreCase(s, "kb") {
      assert ToLowerAscii(s[0]) == 'k' && ToLowerAscii(s[1]) == 'b';
      assert s[0] == 'k' || s[0] == 'K';
      assert s[1] == 'b' || s[1] == 'B';
      assert s == [s[0], s[1]];
    }
  }
}
