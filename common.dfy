/** Value types and the small string library the pipeline's Python code relies on:
    substring tests, ASCII lower-casing, `str.strip`, `str.split` on one character,
    `str.replace(p, "")` and decimal rendering of numbers. */
module Common {

  /** One byte of a downloaded file. */
  newtype byte = x: int | 0 <= x < 256

  datatype Option<+T> = None | Some(value: T)

  /** `s[..|p|] == p`: Python's `s.startswith(p)`. */
  predicate IsPrefix(p: string, s: string) {
    |p| <= |s| && s[..|p|] == p
  }

  /** Python's `sub in s` on strings. */
  predicate Contains(s: string, sub: string)
    decreases |s|
  {
    IsPrefix(sub, s) || (|s| > 0 && Contains(s[1..], sub))
  }

  /** Python's `s.endswith(suf)`. */
  predicate EndsWith(s: string, suf: string)
    decreases |suf|
  {
    |suf| == 0 || (|s| > 0 && s[|s| - 1] == suf[|suf| - 1] && EndsWith(s[..|s| - 1], suf[..|suf| - 1]))
  }

  /** `EndsWith` compares the last `|suf|` characters. */
  lemma {:induction false} EndsWithSlice(s: string, suf: string)
    ensures EndsWith(s, suf) <==> |suf| <= |s| && s[|s| - |suf|..] == suf
    decreases |suf|
  {
    if |suf| > 0 && |s| > 0 {
      var s', suf' := s[..|s| - 1], suf[..|suf| - 1];
      EndsWithSlice(s', suf');
      if |suf| <= |s| {
        assert s[|s| - |suf|..] == s'[|s'| - |suf'|..] + [s[|s| - 1]];
        assert suf == suf' + [suf[|suf| - 1]];
      }
    }
  }

  lemma {:induction false} ContainsAt(s: string, sub: string, k: nat)
    requires k <= |s| && IsPrefix(sub, s[k..])
    ensures Contains(s, sub)
    decreases k
  {
    if k > 0 {
      assert s[1..][k - 1..] == s[k..];
      ContainsAt(s[1..], sub, k - 1);
    } else {
      assert s[0..] == s;
    }
  }

  /** A text contains every one of its infixes. */
  lemma ContainsMiddle(a: string, b: string, c: string)
    ensures Contains(a + b + c, b)
  {
    var s := a + b + c;
    assert s[|a|..][..|b|] == b;
    ContainsAt(s, b, |a|);
  }

  lemma AppendAssoc(a: string, b: string, c: string)
    ensures a + (b + c) == a + b + c
  {
  }

  /** Being a prefix is transitive. */
  lemma PrefixTrans(a: string, b: string, c: string)
    requires IsPrefix(a, b) && IsPrefix(b, c)
    ensures IsPrefix(a, c)
  {
    assert c[..|a|] == c[..|b|][..|a|];
  }

  /** Whatever follows a prefix of the middle part of a text is in the text. */
  lemma PrefixInfix(a: string, d: string, c: string, b: string, x: string)
    requires IsPrefix(b + x, d)
    ensures Contains(a + d + c, x)
  {
    assert d == b + x + d[|b + x|..];
    assert a + d + c == (a + b) + x + (d[|b + x|..] + c);
    ContainsMiddle(a + b, x, d[|b + x|..] + c);
  }

  lemma {:induction false} ContainsWitness(s: string, sub: string) returns (k: nat)
    requires Contains(s, sub)
    ensures k <= |s| && IsPrefix(sub, s[k..])
    decreases |s|
  {
    if IsPrefix(sub, s) {
      k := 0;
      assert s[0..] == s;
    } else {
      var j := ContainsWitness(s[1..], sub);
      k := j + 1;
      assert s[1..][j..] == s[k..];
    }
  }

  /** ASCII lower-casing; the source's `str.lower()` restricted to ASCII letters. */
  function LowerChar(c: char): char {
    if 'A' <= c <= 'Z' then (c as int + 32) as char else c
  }

  function Lower(s: string): (r: string)
    ensures |r| == |s|
    decreases |s|
  {
    if |s| == 0 then "" else [LowerChar(s[0])] + Lower(s[1..])
  }

  /** Lower-casing works character by character. */
  lemma {:induction false} LowerAt(s: string, i: nat)
    requires i < |s|
    ensures Lower(s)[i] == LowerChar(s[i])
    decreases |s|
  {
    if i > 0 {
      LowerAt(s[1..], i - 1);
    }
  }

  /** Lower-casing works piece by piece. */
  lemma {:induction false} LowerAppend(a: string, b: string)
    ensures Lower(a + b) == Lower(a) + Lower(b)
    decreases |a|
  {
    if |a| > 0 {
      LowerAppend(a[1..], b);
      assert (a + b)[1..] == a[1..] + b;
    } else {
      assert a + b == b;
    }
  }

  /** Lower-casing twice is lower-casing once. */
  lemma {:induction false} LowerIdempotent(s: string)
    ensures Lower(Lower(s)) == Lower(s)
    decreases |s|
  {
    if |s| > 0 {
      LowerIdempotent(s[1..]);
      assert Lower(s)[1..] == Lower(s[1..]);
    }
  }

  /** The ASCII characters Python's argument-less `str.split()` and `str.strip()`
      treat as white space. */
  const PyWhitespace: set<char> :=
    {' ', '\t', '\n', '\r', 11 as char, 12 as char, 28 as char, 29 as char, 30 as char, 31 as char}

  function LStrip(s: string, cs: set<char>): (r: string)
    ensures |r| <= |s| && r == s[|s| - |r|..]
    ensures |r| > 0 ==> r[0] !in cs
    ensures forall i :: 0 <= i < |s| - |r| ==> s[i] in cs
    decreases |s|
  {
    if |s| > 0 && s[0] in cs then
      var r := LStrip(s[1..], cs);
      assert s[1..][|s| - 1 - |r|..] == s[|s| - |r|..];
      assert forall i :: 1 <= i < |s| - |r| ==> s[i] == s[1..][i - 1];
      r
    else s
  }

  function RStrip(s: string, cs: set<char>): (r: string)
    ensures |r| <= |s| && r == s[..|r|]
    ensures |r| > 0 ==> r[|r| - 1] !in cs
    ensures forall i :: |r| <= i < |s| ==> s[i] in cs
    decreases |s|
  {
    if |s| > 0 && s[|s| - 1] in cs then RStrip(s[..|s| - 1], cs) else s
  }

  /** Python's `s.strip(chars)`: drop every leading and trailing character of `cs`. */
  function StripChars(s: string, cs: set<char>): (r: string)
    ensures |r| > 0 ==> r[0] !in cs && r[|r| - 1] !in cs
  {
    RStrip(LStrip(s, cs), cs)
  }

  /** Python's `str.split(c)` for a one-character separator: the text between
      consecutive separators, always at least one piece. */
  function Split(s: string, c: char): (r: seq<string>)
    ensures |r| >= 1
    ensures forall k :: 0 <= k < |r| ==> c !in r[k]
    decreases |s|
  {
    if |s| == 0 then [""]
    else
      var rest := Split(s[1..], c);
      if s[0] == c then [""] + rest
      else [[s[0]] + rest[0]] + rest[1..]
  }

  /** Python's `c.join(parts)`. */
  function Join(parts: seq<string>, c: char): string
    decreases |parts|
  {
    if |parts| == 0 then ""
    else if |parts| == 1 then parts[0]
    else parts[0] + [c] + Join(parts[1..], c)
  }

  /** Joining the pieces of a split with the same separator gives the text back. */
  lemma {:induction false} JoinSplit(s: string, c: char)
    ensures Join(Split(s, c), c) == s
    decreases |s|
  {
    if |s| > 0 {
      var rest := Split(s[1..], c);
      JoinSplit(s[1..], c);
      if s[0] == c {
        assert Split(s, c) == [""] + rest;
        assert Join([""] + rest, c) == "" + [c] + Join(rest, c) by {
          assert ([""] + rest)[1..] == rest;
        }
        assert s == [s[0]] + s[1..];
      } else {
        var parts := [[s[0]] + rest[0]] + rest[1..];
        assert Split(s, c) == parts;
        if |rest| == 1 {
          assert Join(parts, c) == [s[0]] + rest[0];
          assert s == [s[0]] + s[1..];
        } else {
          assert parts[1..] == rest[1..];
          assert Join(rest, c) == rest[0] + [c] + Join(rest[1..], c);
          assert Join(parts, c) == ([s[0]] + rest[0]) + [c] + Join(rest[1..], c);
          assert s == [s[0]] + s[1..];
        }
      }
    }
  }

  /** Splitting a join of separator-free pieces gives the pieces back. */
  lemma {:induction false} SplitJoin(parts: seq<string>, c: char)
    requires |parts| >= 1
    requires forall k :: 0 <= k < |parts| ==> c !in parts[k]
    ensures Split(Join(parts, c), c) == parts
    decreases |parts|, |parts[0]|
  {
    var p := parts[0];
    if |parts| == 1 {
      SplitSeparatorFree(p, c);
    } else if |p| == 0 {
      var j := Join(parts, c);
      assert j == [c] + Join(parts[1..], c);
      assert j[1..] == Join(parts[1..], c);
      SplitJoin(parts[1..], c);
      assert Split(j, c) == [""] + parts[1..];
      assert parts == [""] + parts[1..];
    } else {
      var tail := [p[1..]] + parts[1..];
      assert c !in p[1..] by {
        forall i | 0 <= i < |p[1..]| ensures p[1..][i] != c { assert p[1..][i] == p[i + 1]; }
      }
      forall k | 0 <= k < |tail| ensures c !in tail[k] {
        if k > 0 { assert tail[k] == parts[k]; }
      }
      SplitJoin(tail, c);
      var j := Join(parts, c);
      assert tail[1..] == parts[1..];
      assert j == [p[0]] + Join(tail, c) by {
        assert p == [p[0]] + p[1..];
      }
      assert j[1..] == Join(tail, c);
      assert j[0] == p[0] && p[0] != c;
      assert Split(j, c) == [[p[0]] + p[1..]] + parts[1..];
      assert [p[0]] + p[1..] == p;
      assert parts == [p] + parts[1..];
    }
  }

  lemma {:induction false} SplitSeparatorFree(s: string, c: char)
    requires c !in s
    ensures Split(s, c) == [s]
    decreases |s|
  {
    if |s| > 0 {
      assert c !in s[1..] by {
        forall i | 0 <= i < |s[1..]| ensures s[1..][i] != c { assert s[1..][i] == s[i + 1]; }
      }
      SplitSeparatorFree(s[1..], c);
      assert s == [s[0]] + s[1..];
    }
  }

  /** Python's `s.replace(p, "")`: delete the leftmost non-overlapping occurrences of `p`. */
  function RemoveAll(s: string, p: string): string
    requires |p| > 0
    decreases |s|
  {
    if IsPrefix(p, s) then RemoveAll(s[|p|..], p)
    else if |s| == 0 then ""
    else [s[0]] + RemoveAll(s[1..], p)
  }

  /** A text with no occurrence of `p` is left as it is. */
  lemma {:induction false} RemoveAllAbsent(s: string, p: string)
    requires |p| > 0 && !Contains(s, p)
    ensures RemoveAll(s, p) == s
    decreases |s|
  {
    if |s| > 0 {
      RemoveAllAbsent(s[1..], p);
      assert s == [s[0]] + s[1..];
    }
  }

  /** A single trailing occurrence, with no other occurrence starting before it, is dropped. */
  lemma {:induction false} RemoveAllTrailing(a: string, p: string)
    requires |p| > 0
    requires forall k :: 0 <= k < |a| ==> !IsPrefix(p, (a + p)[k..])
    ensures RemoveAll(a + p, p) == a
    decreases |a|
  {
    if |a| == 0 {
      assert a + p == p;
      assert p[|p|..] == "";
    } else {
      assert !IsPrefix(p, (a + p)[0..]);
      assert (a + p)[0..] == a + p;
      assert (a + p)[1..] == a[1..] + p;
      forall k | 0 <= k < |a[1..]| ensures !IsPrefix(p, (a[1..] + p)[k..]) {
        assert (a[1..] + p)[k..] == (a + p)[k + 1..];
      }
      RemoveAllTrailing(a[1..], p);
      assert a == [a[0]] + a[1..];
    }
  }

  function DigitChar(d: nat): char
    requires d < 10
  {
    ('0' as int + d) as char
  }

  predicate IsDigit(c: char) {
    '0' <= c <= '9'
  }

  /** Python's `str(n)` for a natural number, as used in `f"[{index+1}]"`. */
  function NatToString(n: nat): (r: string)
    ensures |r| > 0 && forall i :: 0 <= i < |r| ==> IsDigit(r[i])
    decreases n
  {
    if n < 10 then [DigitChar(n)] else NatToString(n / 10) + [DigitChar(n % 10)]
  }

  /** Python's `int(t)` for a string of ASCII decimal digits. */
  function ParseDigits(t: string): nat
    requires forall i :: 0 <= i < |t| ==> IsDigit(t[i])
    decreases |t|
  {
    if |t| == 0 then 0
    else
      assert IsDigit(t[|t| - 1]);
      10 * ParseDigits(t[..|t| - 1]) + (t[|t| - 1] as int - '0' as int)
  }

  /** Reading back a rendered number gives the number. */
  lemma {:induction false} ParseNatToString(n: nat)
    ensures ParseDigits(NatToString(n)) == n
    decreases n
  {
    var t := NatToString(n);
    if n >= 10 {
      ParseNatToString(n / 10);
      assert t[..|t| - 1] == NatToString(n / 10);
    }
  }
}
