/** Character-string operations of the Java standard library that the builders,
    the solution reader and the path helpers rely on: `String.contains`,
    `String.lastIndexOf(char)`, `String.replace(CharSequence, CharSequence)`,
    decimal rendering of integers (string concatenation of an `int`/`long`),
    `List.toString` and the truncating integer division of `long`. */
module Text {

  /** `s.contains(sub)`: `sub` occurs at some position of `s`. */
  predicate Contains(s: string, sub: string)
    decreases |s|
  {
    sub <= s || (|s| > 0 && Contains(s[1..], sub))
  }

  /** Every string contains each of its prefixes, in particular itself. */
  lemma ContainsPrefix(p: string, q: string)
    ensures Contains(p + q, p)
  {
    assert p <= p + q;
  }

  /** Occurrences survive putting text in front. */
  lemma {:induction false} ContainsAfter(a: string, s: string, sub: string)
    requires Contains(s, sub)
    ensures Contains(a + s, sub)
    decreases |a|
  {
    if a != [] {
      ContainsAfter(a[1..], s, sub);
      assert (a + s)[1..] == a[1..] + s;
      assert Contains((a + s)[1..], sub);
    } else {
      assert a + s == s;
    }
  }

  /** An occurrence in a suffix is an occurrence in the whole string. */
  lemma ContainsSuffix(s: string, k: nat, sub: string)
    requires k <= |s| && Contains(s[k..], sub)
    ensures Contains(s, sub)
  {
    assert s == s[..k] + s[k..];
    ContainsAfter(s[..k], s[k..], sub);
  }

  /** `s` contains at least one character of `cs`. */
  predicate SharesChar(s: string, cs: string)
  {
    exists i :: 0 <= i < |s| && s[i] in cs
  }

  /** A string that shares no character with the non-empty `sub` cannot hold
      an occurrence of `sub` that starts inside it. */
  lemma {:induction false} ContainsSkip(r: string, y: string, sub: string)
    requires |sub| > 0 && !SharesChar(r, sub)
    requires Contains(r + y, sub)
    ensures Contains(y, sub)
    decreases |r|
  {
    if r != [] {
      assert r[0] !in sub && sub[0] in sub;
      assert (r + y)[0] == r[0];
      assert !(sub <= r + y);
      assert (r + y)[1..] == r[1..] + y;
      assert Contains((r + y)[1..], sub);
      assert !SharesChar(r[1..], sub) by {
        forall i | 0 <= i < |r[1..]| ensures r[1..][i] !in sub {
          assert r[1..][i] == r[i + 1];
        }
      }
      ContainsSkip(r[1..], y, sub);
    } else {
      assert r + y == y;
    }
  }

  /** Java `s.replace(target, repl)`: every occurrence of `target`, scanning
      left to right without overlaps, is replaced by `repl`; with an empty
      target, `repl` is put before every character and at the end. */
  function Replace(s: string, target: string, repl: string): string
    decreases |s|
  {
    if target == [] then
      (if s == [] then repl else repl + [s[0]] + Replace(s[1..], target, repl))
    else if target <= s then repl + Replace(s[|target|..], target, repl)
    else if s == [] then []
    else [s[0]] + Replace(s[1..], target, repl)
  }

  /** A prefix of a replaced string that holds no character of the replacement
      text was already a prefix of the original string. */
  lemma {:induction false} PrefixOfReplaced(w: string, s: string, target: string, repl: string)
    requires |target| > 0 && |repl| > 0 && !SharesChar(w, repl)
    requires w <= Replace(s, target, repl)
    ensures w <= s
    decreases |s|
  {
    if w != [] {
      assert w[0] !in repl && repl[0] in repl;
      assert !(target <= s);
      if s != [] {
        var rest := Replace(s[1..], target, repl);
        assert Replace(s, target, repl) == [s[0]] + rest;
        assert w[0] == s[0];
        assert w[1..] <= rest;
        assert !SharesChar(w[1..], repl) by {
          forall i | 0 <= i < |w[1..]| ensures w[1..][i] !in repl {
            assert w[1..][i] == w[i + 1];
          }
        }
        PrefixOfReplaced(w[1..], s[1..], target, repl);
      }
    }
  }

  /** After `replace`, the target no longer occurs, provided the replacement
      text is non-empty and shares no character with the target. */
  lemma {:induction false} ReplaceRemoves(s: string, target: string, repl: string)
    requires |target| > 0 && |repl| > 0 && !SharesChar(repl, target)
    ensures !Contains(Replace(s, target, repl), target)
    decreases |s|
  {
    if target <= s {
      var rest := Replace(s[|target|..], target, repl);
      ReplaceRemoves(s[|target|..], target, repl);
      if Contains(repl + rest, target) {
        ContainsSkip(repl, rest, target);
        assert false;
      }
    } else if s != [] {
      var rest := Replace(s[1..], target, repl);
      ReplaceRemoves(s[1..], target, repl);
      assert Replace(s, target, repl) == [s[0]] + rest;
      if Contains([s[0]] + rest, target) {
        assert ([s[0]] + rest)[1..] == rest;
        assert target <= [s[0]] + rest;
        assert target[1..] <= rest;
        assert !SharesChar(target[1..], repl) by {
          forall i | 0 <= i < |target[1..]| ensures target[1..][i] !in repl {
            assert target[1..][i] == target[i + 1];
            assert target[i + 1] in target;
          }
        }
        PrefixOfReplaced(target[1..], s[1..], target, repl);
      }
    }
  }

  /** `replace` never creates an occurrence of a string that shares no
      character with the replacement text. */
  lemma {:induction false} ReplaceKeepsAbsent(s: string, target: string, repl: string, u: string)
    requires |target| > 0 && |repl| > 0 && |u| > 0 && !SharesChar(u, repl)
    requires Contains(Replace(s, target, repl), u)
    ensures Contains(s, u)
    decreases |s|
  {
    assert !SharesChar(repl, u) by {
      forall i | 0 <= i < |repl| ensures repl[i] !in u {
        assert repl[i] in repl;
      }
    }
    if target <= s {
      var rest := Replace(s[|target|..], target, repl);
      ContainsSkip(repl, rest, u);
      ReplaceKeepsAbsent(s[|target|..], target, repl, u);
      ContainsSuffix(s, |target|, u);
    } else if s != [] {
      var rest := Replace(s[1..], target, repl);
      assert Replace(s, target, repl) == [s[0]] + rest;
      assert ([s[0]] + rest)[1..] == rest;
      if u <= [s[0]] + rest {
        assert u[1..] <= rest;
        assert !SharesChar(u[1..], repl) by {
          forall i | 0 <= i < |u[1..]| ensures u[1..][i] !in repl {
            assert u[1..][i] == u[i + 1];
          }
        }
        PrefixOfReplaced(u[1..], s[1..], target, repl);
        assert u == [s[0]] + u[1..];
        assert u <= s;
      } else {
        ReplaceKeepsAbsent(s[1..], target, repl, u);
      }
    }
  }

  /** `s.lastIndexOf(c)`: the last position holding `c`, or -1. */
  function LastIndexOf(s: string, c: char): (r: int)
    ensures -1 <= r < |s|
    ensures r >= 0 ==> s[r] == c
    ensures forall j :: r < j < |s| ==> s[j] != c
    decreases |s|
  {
    if s == [] then -1
    else if s[|s| - 1] == c then |s| - 1
    else LastIndexOf(s[..|s| - 1], c)
  }

  /** The last `c` is the one after which no `c` follows. */
  lemma LastIndexOfSplit(a: string, c: char, b: string)
    requires c !in b
    ensures LastIndexOf(a + [c] + b, c) == |a|
  {
    var s := a + [c] + b;
    var r := LastIndexOf(s, c);
    assert s[|a|] == c;
  }

  /** A string without `c` has no last index of `c`. */
  lemma LastIndexOfAbsent(s: string, c: char)
    requires c !in s
    ensures LastIndexOf(s, c) == -1
  {
    var r := LastIndexOf(s, c);
  }

  /** The decimal digit for `d`. */
  function Digit(d: nat): char
    requires d < 10
  {
    "0123456789"[d]
  }

  /** The decimal rendering of a natural number, as Java prints it. */
  function NatToString(n: nat): (r: string)
    ensures |r| >= 1
    ensures n >= 10 ==> |r| >= 2
    ensures r[0] != '-'
    decreases n
  {
    if n < 10 then [Digit(n)] else NatToString(n / 10) + [Digit(n % 10)]
  }

  /** The decimal rendering of an integer, with a leading '-' when negative. */
  function IntToString(i: int): (r: string)
    ensures |r| >= 1
    ensures r[0] == '-' <==> i < 0
  {

    if i < 0 then "-" + NatToString(-i) else NatToString(i)
  }

  /** A printed natural number is made of digits only. */
  lemma {:induction false} NatToStringDigits(n: nat)
    ensures forall i :: 0 <= i < |NatToString(n)| ==> '0' <= NatToString(n)[i] <= '9'
    decreases n
  {
    if n >= 10 {
      NatToStringDigits(n / 10);
      assert NatToString(n) == NatToString(n / 10) + [Digit(n % 10)];
    }
  }

  /** A printed integer holds no underscore. */
  lemma IntToStringNoUnderscore(i: int)
    ensures forall c :: c in IntToString(i) ==> c != '_'
  {
    if i < 0 {
      NatToStringDigits(-i);
      assert IntToString(i) == "-" + NatToString(-i);
    } else {
      NatToStringDigits(i);
    }
  }

  /** Different numbers print differently. */
  lemma {:induction false} NatToStringInjective(a: nat, b: nat)
    requires NatToString(a) == NatToString(b)
    ensures a == b
    decreases a
  {
    var sa, sb := NatToString(a), NatToString(b);
    if a < 10 && b < 10 {
      assert Digit(a) == sa[0] == sb[0] == Digit(b);
    } else if a >= 10 && b >= 10 {
      var pa, pb := NatToString(a / 10), NatToString(b / 10);
      assert sa == pa + [Digit(a % 10)] && sb == pb + [Digit(b % 10)];
      assert sa[..|sa| - 1] == pa && sb[..|sb| - 1] == pb;
      assert Digit(a % 10) == sa[|sa| - 1] == sb[|sb| - 1] == Digit(b % 10);
      NatToStringInjective(a / 10, b / 10);
    }
  }

  /** Different integers print differently. */
  lemma IntToStringInjective(a: int, b: int)
    requires IntToString(a) == IntToString(b)
    ensures a == b
  {
    var s := IntToString(a);
    assert a < 0 <==> b < 0;
    if a < 0 {
      var na, nb := NatToString(-a), NatToString(-b);
      assert s == "-" + na && s == "-" + nb;
      assert s[1..] == na && s[1..] == nb;
      NatToStringInjective(-a, -b);
    } else {
      NatToStringInjective(a, b);
    }
  }


  /** The elements of `xs` separated by `sep`. */
  function Join(xs: seq<string>, sep: string): string
  {
    if xs == [] then ""
    else if |xs| == 1 then xs[0]
    else xs[0] + sep + Join(xs[1..], sep)
  }

  /** Java's `List.toString` for a list of strings: "[a, b, c]". */
  function ListToString(xs: seq<string>): string
  {
    "[" + Join(xs, ", ") + "]"
  }

  /** Java's integer division, which truncates toward zero. */
  function TruncDiv(a: int, b: int): int
    requires b > 0
  {
    if a >= 0 then a / b else -((-a) / b)
  }
}
