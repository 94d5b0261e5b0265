/**
 * The string operations the pipeline relies on: Python's `str.lower()`,
 * `str.replace(old, new)` and the unpadded decimal rendering of an `int`
 * inside an f-string.
 */
module Strings {

  predicate IsUpper(c: char) { 'A' <= c <= 'Z' }

  predicate IsDigit(c: char) { '0' <= c <= '9' }

  /** Python's `str.lower()` on one character, for the ASCII letters. */
  function LowerChar(c: char): char
  {
    if IsUpper(c) then (c as int + 32) as char else c
  }

  /** Python's `str.lower()`: every upper-case letter becomes its lower-case letter, nothing else moves. */
  function Lower(s: string): (r: string)
    ensures |r| == |s|
    ensures forall i :: 0 <= i < |s| ==> !IsUpper(r[i])
    ensures forall i :: 0 <= i < |s| && !IsUpper(s[i]) ==> r[i] == s[i]
    ensures forall i :: 0 <= i < |s| && IsUpper(s[i]) ==> r[i] as int == s[i] as int + 32
  {
    seq(|s|, i requires 0 <= i < |s| => LowerChar(s[i]))
  }

  /** Lower-casing twice is lower-casing once, so a name read back from a table keeps its key. */
  lemma LowerIdempotent(s: string)
    ensures Lower(Lower(s)) == Lower(s)
  {
    var l := Lower(s);
    assert forall i :: 0 <= i < |l| ==> Lower(l)[i] == l[i];
  }

  /** A name is truthy exactly when its lower-cased form is. */
  lemma LowerEmpty(s: string)
    ensures Lower(s) == [] <==> s == []
  {
  }

  /** `pat` occurs in `s` at some position. */
  predicate Occurs(pat: string, s: string)
  {
    exists i :: 0 <= i <= |s| && pat <= s[i..]
  }

  /**
   * Python's `s.replace(pat, rep)`: scanning left to right, every
   * non-overlapping occurrence of `pat` is replaced by `rep`.
   */
  function ReplaceAll(s: string, pat: string, rep: string): string
    requires pat != []
    decreases |s|
  {
    if s == [] then []
    else if pat <= s then rep + ReplaceAll(s[|pat|..], pat, rep)
    else [s[0]] + ReplaceAll(s[1..], pat, rep)
  }

  /** Reference definition of a one-character replacement: a position-wise map. */
  function MapChar(s: string, a: char, b: char): (r: string)
  {
    seq(|s|, i requires 0 <= i < |s| => if s[i] == a then b else s[i])
  }

  /** Replacing a one-character pattern by a one-character string is the position-wise map. */
  lemma {:induction false} ReplaceCharIsMap(s: string, a: char, b: char)
    ensures ReplaceAll(s, [a], [b]) == MapChar(s, a, b)
    decreases |s|
  {
    if s != [] {
      ReplaceCharIsMap(s[1..], a, b);
      assert MapChar(s, a, b) == [if s[0] == a then b else s[0]] + MapChar(s[1..], a, b);
    }
  }

  /** A string in which the pattern does not occur comes back unchanged. */
  lemma {:induction false} ReplaceAbsent(s: string, pat: string, rep: string)
    requires pat != []
    requires !Occurs(pat, s)
    ensures ReplaceAll(s, pat, rep) == s
    decreases |s|
  {
    if s != [] {
      assert !(pat <= s) by { assert s[0..] == s; }
      forall i | 0 <= i <= |s[1..]|
        ensures !(pat <= s[1..][i..])
      {
        assert s[1..][i..] == s[i + 1..];
      }
      ReplaceAbsent(s[1..], pat, rep);
    }
  }

  /** The first character of a replacement is the replacement's or the input's first character. */
  lemma ReplaceHead(s: string, pat: string, rep: string)
    requires pat != [] && rep != [] && s != []
    ensures ReplaceAll(s, pat, rep) != []
    ensures ReplaceAll(s, pat, rep)[0] == if pat <= s then rep[0] else s[0]
  {
  }

  /** When `xml` does not start the input, it does not start the output either. */
  lemma NoXmlAtHead(s: string)
    requires s != [] && !("xml" <= s)
    ensures !("xml" <= ReplaceAll(s, "xml", "html"))
  {
    var r := ReplaceAll(s, "xml", "html");
    assert r == [s[0]] + ReplaceAll(s[1..], "xml", "html");
    if s[0] == 'x' && |s| >= 2 {
      ReplaceHead(s[1..], "xml", "html");
      if !("xml" <= s[1..]) && s[1] == 'm' {
        if |s| >= 3 {
          ReplaceHead(s[2..], "xml", "html");
          assert ReplaceAll(s[1..], "xml", "html") == [s[1]] + ReplaceAll(s[2..], "xml", "html");
        } else {
          assert s[2..] == [];
          assert |r| == 2;
        }
      }
    }
  }

  /** After `replace('xml', 'html')` no `xml` is left: the replacement never re-creates the pattern. */
  lemma {:induction false} ReplaceXmlLeavesNone(s: string)
    ensures !Occurs("xml", ReplaceAll(s, "xml", "html"))
    decreases |s|
  {
    var r := ReplaceAll(s, "xml", "html");
    if s == [] {
      assert r == [];
    } else if "xml" <= s {
      var t := ReplaceAll(s[3..], "xml", "html");
      ReplaceXmlLeavesNone(s[3..]);
      assert r == "html" + t;
      forall i | 0 <= i <= |r|
        ensures !("xml" <= r[i..])
      {
        if i < 4 {
          assert r[i] == "html"[i] && r[i] != 'x';
        } else {
          assert r[i..] == t[i - 4..];
        }
      }
    } else {
      var t := ReplaceAll(s[1..], "xml", "html");
      ReplaceXmlLeavesNone(s[1..]);
      assert r == [s[0]] + t;
      forall i | 0 <= i <= |r|
        ensures !("xml" <= r[i..])
      {
        if i == 0 {
          NoXmlAtHead(s);
          assert r[0..] == r;
        } else {
          assert r[i..] == t[i - 1..];
        }
      }
    }
  }

  function DigitChar(d: nat): char
    requires d < 10
  {
    ('0' as int + d) as char
  }

  /** The f-string rendering `f"{n}"` of a non-negative `int`: decimal digits, no padding. */
  function DecimalString(n: nat): (r: string)
    ensures |r| >= 1
    ensures forall i :: 0 <= i < |r| ==> IsDigit(r[i])
    ensures (r[0] == '0') == (n == 0)
    ensures |r| > 1 ==> r[0] != '0'
  {
    if n < 10 then [DigitChar(n)] else DecimalString(n / 10) + [DigitChar(n % 10)]
  }

  /** Reading a string of decimal digits back as a number (Python's `int(s)` on digits). */
  function DecimalValue(s: string): nat
    requires forall i :: 0 <= i < |s| ==> IsDigit(s[i])
  {
    if s == [] then 0
    else
      assert IsDigit(s[|s| - 1]);
      DecimalValue(s[..|s| - 1]) * 10 + (s[|s| - 1] as int - '0' as int)
  }

  /** The rendering is read back as the number it renders. */
  lemma {:induction false} DecimalRoundTrip(n: nat)
    ensures DecimalValue(DecimalString(n)) == n
  {
    var r := DecimalString(n);
    if n >= 10 {
      DecimalRoundTrip(n / 10);
      assert r[..|r| - 1] == DecimalString(n / 10);
    }
  }

  /** Distinct numbers render differently, so a rendered component determines the number. */
  lemma DecimalInjective(m: nat, n: nat)
    requires DecimalString(m) == DecimalString(n)
    ensures m == n
  {
    DecimalRoundTrip(m);
    DecimalRoundTrip(n);
  }

  /** `os.path.join(folder, name)` for two components. */
  function PathJoin(folder: string, name: string): string
  {
    if |name| > 0 && name[0] == '/' then name
    else if folder == [] || folder[|folder| - 1] == '/' then folder + name
    else folder + "/" + name
  }
}
