/**
 * The string facts the containers rely on: the ordering of `std::string`
 * keys (which fixes the iteration order of a `std::map`), decimal text as
 * written by `std::to_string` for integers, and joining with a separator.
 */
module Text {

  // ---------------------------------------------------------------------
  // Ordering of std::string keys
  // ---------------------------------------------------------------------

  /** `a < b` for `std::string`: lexicographic, a proper prefix first. */
  predicate StrLess(a: string, b: string)
  {
    if a == [] then b != []
    else if b == [] then false
    else a[0] < b[0] || (a[0] == b[0] && StrLess(a[1..], b[1..]))
  }

  lemma {:induction false} StrLessAsymmetric(a: string, b: string)
    ensures !(StrLess(a, b) && StrLess(b, a))
  {
    if a != [] && b != [] && a[0] == b[0] {
      StrLessAsymmetric(a[1..], b[1..]);
    }
  }

  lemma {:induction false} StrLessTransitive(a: string, b: string, c: string)
    requires StrLess(a, b) && StrLess(b, c)
    ensures StrLess(a, c)
  {
    if a != [] && b != [] && c != [] && a[0] == b[0] && b[0] == c[0] {
      StrLessTransitive(a[1..], b[1..], c[1..]);
    }
  }

  lemma {:induction false} StrLessTotal(a: string, b: string)
    ensures a == b || StrLess(a, b) || StrLess(b, a)
  {
    if a != [] && b != [] && a[0] == b[0] {
      StrLessTotal(a[1..], b[1..]);
      if a[1..] == b[1..] {
        assert a == [a[0]] + a[1..];
        assert b == [b[0]] + b[1..];
      }
    }
  }

  /** `k` is the smallest key of `keys`: what `std::map::begin()` points at. */
  predicate IsLeast(k: string, keys: set<string>)
  {
    k in keys && forall j :: j in keys ==> k == j || StrLess(k, j)
  }

  lemma {:induction false} LeastExists(keys: set<string>)
    requires keys != {}
    ensures exists k :: IsLeast(k, keys)
    decreases |keys|
  {
    var x :| x in keys;
    if keys == {x} {
      assert IsLeast(x, keys);
    } else {
      LeastExists(keys - {x});
      var k :| IsLeast(k, keys - {x});
      StrLessTotal(k, x);
      if StrLess(k, x) {
        assert IsLeast(k, keys);
      } else {
        forall j | j in keys ensures x == j || StrLess(x, j) {
          if j != x && j != k {
            StrLessTransitive(x, k, j);
          }
        }
        assert IsLeast(x, keys);
      }
    }
  }

  lemma LeastUnique(keys: set<string>)
    ensures forall a, b :: IsLeast(a, keys) && IsLeast(b, keys) ==> a == b
  {
    forall a, b | IsLeast(a, keys) && IsLeast(b, keys) ensures a == b {
      StrLessAsymmetric(a, b);
    }
  }

  /** The key at `i` sorts before the key at `j`. */
  predicate InOrder(ks: seq<string>, i: int, j: int)
    requires 0 <= i < |ks| && 0 <= j < |ks|
  {
    StrLess(ks[i], ks[j])
  }

  /** Strictly ascending in `std::string` order (so also free of repeats). */
  predicate Ascending(ks: seq<string>)
  {
    forall i, j :: 0 <= i < j < |ks| ==> InOrder(ks, i, j)
  }

  /** The least key followed by an ascending listing of the greater ones is ascending. */
  lemma AscendingCons(k: string, keys: set<string>, rest: seq<string>)
    requires IsLeast(k, keys) && Ascending(rest)
    requires forall x :: x in rest ==> x in keys && x != k
    ensures Ascending([k] + rest)
  {
    var all := [k] + rest;
    forall i, j | 0 <= i < j < |all| ensures InOrder(all, i, j) {
      if i == 0 {
        assert all[j] == rest[j - 1] && rest[j - 1] in rest;
      } else {
        assert InOrder(rest, i - 1, j - 1);
      }
    }
  }

  lemma AscendingTail(ks: seq<string>)
    requires Ascending(ks) && ks != []
    ensures Ascending(ks[1..])
  {
    forall i, j | 0 <= i < j < |ks| - 1 ensures InOrder(ks[1..], i, j) {
      assert InOrder(ks, i + 1, j + 1);
    }
  }

  /**
   * The keys of a `std::map<std::string, _>` in iteration order: every key
   * exactly once, ascending.
   */
  function SortedKeys(keys: set<string>): (ks: seq<string>)
    ensures |ks| == |keys|
    ensures forall k :: k in ks <==> k in keys
    ensures Ascending(ks)
    decreases |keys|
  {
    if keys == {} then []
    else
      LeastExists(keys);
      LeastUnique(keys);
      var k :| IsLeast(k, keys);
      var rest := SortedKeys(keys - {k});
      AscendingCons(k, keys, rest);
      [k] + rest
  }

  lemma AscendingDistinct(ks: seq<string>, i: int, j: int)
    requires Ascending(ks) && 0 <= i < |ks| && 0 <= j < |ks| && i != j
    ensures ks[i] != ks[j]
  {
    if i < j {
      assert InOrder(ks, i, j);
      StrLessAsymmetric(ks[i], ks[j]);
    } else {
      assert InOrder(ks, j, i);
      StrLessAsymmetric(ks[j], ks[i]);
    }
  }

  /** A common prefix does not change the order. */
  lemma {:induction false} StrLessCommonPrefix(p: string, a: string, b: string)
    requires StrLess(a, b)
    ensures StrLess(p + a, p + b)
    decreases |p|
  {
    if p != [] {
      StrLessCommonPrefix(p[1..], a, b);
      assert (p + a)[0] == p[0] == (p + b)[0];
      assert (p + a)[1..] == p[1..] + a && (p + b)[1..] == p[1..] + b;
    } else {
      assert p + a == a && p + b == b;
    }
  }

  /** Two ascending sequences with the same elements are equal. */
  lemma {:induction false} AscendingUnique(a: seq<string>, b: seq<string>)
    requires Ascending(a) && Ascending(b)
    requires forall k :: k in a <==> k in b
    ensures a == b
    decreases |a|
  {
    if a == [] {
      assert forall i :: 0 <= i < |b| ==> b[i] in b;
    } else {
      assert a[0] in b;
      var j :| 0 <= j < |b| && b[j] == a[0];
      assert b[0] in a;
      var i :| 0 <= i < |a| && a[i] == b[0];
      assert a[0] == b[0] by {
        if i != 0 && j != 0 {
          assert InOrder(a, 0, i) && InOrder(b, 0, j);
          StrLessAsymmetric(a[0], b[0]);
          assert false;
        }
      }
      forall k ensures k in a[1..] <==> k in b[1..] {
        if k in a[1..] {
          var p :| 1 <= p < |a| && a[p] == k;
          AscendingDistinct(a, 0, p);
          assert k in a && k in b;
          var q :| 0 <= q < |b| && b[q] == k;
          assert q != 0 && b[1..][q - 1] == k;
        }
        if k in b[1..] {
          var q :| 1 <= q < |b| && b[q] == k;
          AscendingDistinct(b, 0, q);
          assert k in b && k in a;
          var p :| 0 <= p < |a| && a[p] == k;
          assert p != 0 && a[1..][p - 1] == k;
        }
      }
      AscendingTail(a);
      AscendingTail(b);
      AscendingUnique(a[1..], b[1..]);
      assert a == [a[0]] + a[1..] && b == [b[0]] + b[1..];
    }
  }

  /** The iteration order of a key set is determined: any ascending listing of the keys is it. */
  lemma SortedKeysIs(keys: set<string>, ks: seq<string>)
    requires Ascending(ks) && forall k :: k in ks <==> k in keys
    ensures SortedKeys(keys) == ks
  {
    AscendingUnique(SortedKeys(keys), ks);
  }

  // ---------------------------------------------------------------------
  // Decimal text of integers (std::to_string)
  // ---------------------------------------------------------------------

  predicate IsDigit(c: char) { '0' <= c <= '9' }

  function DigitChar(d: nat): (c: char)
    requires d < 10
    ensures IsDigit(c)
  {
    (48 + d) as char
  }

  function DigitValue(c: char): nat
    requires IsDigit(c)
  {
    c as int - 48
  }

  /** `std::to_string` of a non-negative integer: base ten, no leading zeros. */
  function Decimal(n: nat): (s: string)
    ensures |s| >= 1
    ensures forall i :: 0 <= i < |s| ==> IsDigit(s[i])
    ensures s[0] == '0' ==> n == 0
  {
    if n < 10 then [DigitChar(n)] else Decimal(n / 10) + [DigitChar(n % 10)]
  }

  /** The number a string of decimal digits denotes. */
  function DigitsValue(s: string): nat
    requires forall i :: 0 <= i < |s| ==> IsDigit(s[i])
  {
    if s == [] then 0 else DigitsValue(s[..|s| - 1]) * 10 + DigitValue(s[|s| - 1])
  }

  /** Reading back the decimal text gives the number: `Decimal` loses nothing. */
  lemma {:induction false} DecimalValue(n: nat)
    ensures DigitsValue(Decimal(n)) == n
  {
    if n >= 10 {
      DecimalValue(n / 10);
      var s := Decimal(n);
      assert s[..|s| - 1] == Decimal(n / 10);
    }
  }

  lemma DecimalInjective(a: nat, b: nat)
    requires Decimal(a) == Decimal(b)
    ensures a == b
  {
    DecimalValue(a);
    DecimalValue(b);
  }

  /** `std::to_string` of a signed integer. */
  function IntText(i: int): (s: string)
    ensures |s| >= 1 && ((i < 0) <==> (s[0] == '-'))
    ensures i >= 0 ==> s == Decimal(i)
    ensures i < 0 ==> s == "-" + Decimal(-i)
  {
    if i < 0 then "-" + Decimal(-i) else Decimal(i)
  }

  // ---------------------------------------------------------------------
  // Joining with a separator
  // ---------------------------------------------------------------------

  /** Regrouping a concatenation of three texts between an opening and a closing text. */
  lemma Regroup(open: string, a: string, b: string, c: string, close: string)
    ensures open + (a + b + c) + close == open + a + b + c + close
  {
  }

  /** The parts with `sep` between consecutive ones, none before the first or after the last. */
  function Join(parts: seq<string>, sep: string): string
  {
    if |parts| == 0 then ""
    else if |parts| == 1 then parts[0]
    else Join(parts[..|parts| - 1], sep) + sep + parts[|parts| - 1]
  }

  function TotalLength(parts: seq<string>): nat
  {
    if parts == [] then 0 else TotalLength(parts[..|parts| - 1]) + |parts[|parts| - 1]|
  }

  /** Exactly one separator between each pair of neighbours: `n` parts carry `n - 1` separators. */
  lemma {:induction false} JoinLength(parts: seq<string>, sep: string)
    requires |parts| >= 1
    ensures |Join(parts, sep)| == TotalLength(parts) + (|parts| - 1) * |sep|
  {
    if |parts| > 1 {
      var init := parts[..|parts| - 1];
      JoinLength(init, sep);
      assert init[..|init| - 1] == parts[..|parts| - 2];
      assert TotalLength(init) + |parts[|parts| - 1]| == TotalLength(parts);
    } else {
      assert parts[..0] == [];
    }
  }

  /** Read from the front: the first part, then a separator, then the rest joined. */
  lemma {:induction false} JoinCons(first: string, rest: seq<string>, sep: string)
    requires |rest| >= 1
    ensures Join([first] + rest, sep) == first + sep + Join(rest, sep)
    decreases |rest|
  {
    var all := [first] + rest;
    if |rest| == 1 {
      assert all[..1] == [first];
    } else {
      var init := rest[..|rest| - 1];
      JoinCons(first, init, sep);
      assert all[..|all| - 1] == [first] + init;
      assert all[|all| - 1] == rest[|rest| - 1];
    }
  }

  /**
   * What a loop that writes the parts in order has written after `i` of
   * them: each part followed by `sep` unless it is the last one.
   */
  function Written(parts: seq<string>, i: nat, sep: string): string
    requires i <= |parts|
  {
    Join(parts[..i], sep) + (if 0 < i < |parts| then sep else "")
  }

  /** One more round of such a loop. */
  lemma WrittenStep(parts: seq<string>, i: nat, sep: string)
    requires i < |parts|
    ensures Written(parts, i, sep) + parts[i] + (if i + 1 < |parts| then sep else "") == Written(parts, i + 1, sep)
  {
    assert parts[..i + 1][..i] == parts[..i];
    if i == 0 {
      assert parts[..1] == [parts[0]];
    }
  }

  /** After the last part the loop has written exactly the join. */
  lemma WrittenAll(parts: seq<string>, sep: string)
    ensures Written(parts, |parts|, sep) == Join(parts, sep)
  {
    assert parts[..|parts|] == parts;
  }
}
