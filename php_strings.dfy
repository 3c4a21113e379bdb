/** The PHP string built-ins the configuration and entry scripts rely on, on `seq<char>`:
    trim(), strtoupper(), strpos() used as a prefix or substring test, the falsy-string rule
    of empty() and `!`, and implode(). */
module PhpStrings {

  /** The characters trim() strips when called without a character list:
      space, tab, line feed, carriage return, NUL and vertical tab. */
  predicate IsTrimmable(c: char)
  {
    c == ' ' || c == '\t' || c == '\n' || c == '\r' || c == '\0' || c == '\U{000B}'
  }

  /** The falsy strings of PHP: `empty($s)` and `!$s` hold exactly for these. */
  predicate IsFalsy(s: string): (b: bool)
    ensures b <==> |s| <= 1 && forall i | 0 <= i < |s| :: s[i] == '0'
  {
    s == "" || s == "0"
  }

  /** `strpos($s, $prefix) === 0`. */
  predicate StartsWith(s: string, prefix: string): (b: bool)
    ensures b <==> |prefix| <= |s| && forall i | 0 <= i < |prefix| :: s[i] == prefix[i]
  {
    |prefix| <= |s| && s[..|prefix|] == prefix
  }

  /** `false !== strpos($s, $needle)`. */
  predicate Contains(s: string, needle: string): (b: bool)
    ensures StartsWith(s, needle) ==> b
    ensures b ==> |needle| <= |s|
  {
    assert s[0..] == s;
    exists i | 0 <= i <= |s| :: StartsWith(s[i..], needle)
  }

  /** Every path ending in `archive.php` contains it, whatever directory comes before. */
  lemma ContainsAtEnd(dir: string)
    ensures Contains(dir + "archive.php", "archive.php")
  {
    assert (dir + "archive.php")[|dir|..] == "archive.php";
  }

  /** ltrim(): drops the leading trimmable characters, and only those. */
  function TrimLeft(s: string): (r: string)
    ensures |r| <= |s|
    ensures r == [] || !IsTrimmable(r[0])
  {
    if |s| > 0 && IsTrimmable(s[0]) then TrimLeft(s[1..]) else s
  }

  /** rtrim(): drops the trailing trimmable characters, and only those. */
  function TrimRight(s: string): (r: string)
    ensures |r| <= |s|
    ensures r == [] || (!IsTrimmable(r[|r| - 1]) && r[0] == s[0])
  {
    if |s| > 0 && IsTrimmable(s[|s| - 1]) then TrimRight(s[..|s| - 1]) else s
  }

  /** trim(): `s` without its trimmable border; what is left neither starts nor ends
      with a trimmable character. */
  function Trim(s: string): (r: string)
    ensures |r| <= |s|
    ensures Untrimmed(r)
  {
    TrimRight(TrimLeft(s))
  }

  /** A string made only of trimmable characters. */
  predicate AllTrimmable(s: string)
  {
    forall i | 0 <= i < |s| :: IsTrimmable(s[i])
  }

  /** A string with no trimmable character at either end. */
  predicate Untrimmed(s: string)
  {
    s == [] || (!IsTrimmable(s[0]) && !IsTrimmable(s[|s| - 1]))
  }

  lemma {:induction false} TrimLeftPadded(pad: string, m: string)
    requires AllTrimmable(pad) && (m == [] || !IsTrimmable(m[0]))
    ensures TrimLeft(pad + m) == m
  {
    if pad != [] {
      assert (pad + m)[1..] == pad[1..] + m;
      TrimLeftPadded(pad[1..], m);
    } else {
      assert pad + m == m;
    }
  }

  lemma {:induction false} TrimRightPadded(m: string, pad: string)
    requires AllTrimmable(pad) && (m == [] || !IsTrimmable(m[|m| - 1]))
    ensures TrimRight(m + pad) == m
  {
    if pad != [] {
      assert (m + pad)[..|m + pad| - 1] == m + pad[..|pad| - 1];
      TrimRightPadded(m, pad[..|pad| - 1]);
    } else {
      assert m + pad == m;
    }
  }

  /** trim() removes exactly the padding: whatever trimmable characters surround a
      string with untrimmed ends, trim() gives back that string. */
  lemma TrimPadded(left: string, m: string, right: string)
    requires AllTrimmable(left) && AllTrimmable(right) && Untrimmed(m)
    ensures Trim(left + m + right) == m
  {
    if m == [] {
      assert left + m + right == left + right;
      TrimLeftPadded(left + right, []);
      assert left + right + [] == left + right;
      assert TrimLeft(left + right) == [];
    } else {
      assert left + m + right == left + (m + right);
      TrimLeftPadded(left, m + right);
      TrimRightPadded(m, right);
    }
  }

  /** The number of trimmable characters `s` starts with. */
  function LeadingPadding(s: string): (k: nat)
    ensures k <= |s|
  {
    if |s| > 0 && IsTrimmable(s[0]) then 1 + LeadingPadding(s[1..]) else 0
  }

  /** The number of trimmable characters `s` ends with. */
  function TrailingPadding(s: string): (k: nat)
    ensures k <= |s|
  {
    if |s| > 0 && IsTrimmable(s[|s| - 1]) then 1 + TrailingPadding(s[..|s| - 1]) else 0
  }

  lemma {:induction false} TrimLeftDrops(s: string)
    ensures AllTrimmable(s[..LeadingPadding(s)]) && TrimLeft(s) == s[LeadingPadding(s)..]
  {
    if |s| > 0 && IsTrimmable(s[0]) {
      TrimLeftDrops(s[1..]);
      var k := LeadingPadding(s[1..]);
      assert s[1..][k..] == s[k + 1..];
      var pad := s[..k + 1];
      forall i | 0 <= i < k + 1 ensures IsTrimmable(pad[i]) {
        if i > 0 {
          assert pad[i] == s[1..][..k][i - 1];
        }
      }
    }
  }

  lemma {:induction false} TrimRightDrops(s: string)
    ensures AllTrimmable(s[|s| - TrailingPadding(s)..]) && TrimRight(s) == s[..|s| - TrailingPadding(s)]
  {
    if |s| > 0 && IsTrimmable(s[|s| - 1]) {
      var init := s[..|s| - 1];
      TrimRightDrops(init);
      var k := |init| - TrailingPadding(init);
      assert init[..k] == s[..k];
      var pad := s[k..];
      forall i | 0 <= i < |s| - k ensures IsTrimmable(pad[i]) {
        if i < |init| - k {
          assert pad[i] == init[k..][i];
        }
      }
    }
  }

  /** trim() removes nothing but padding: its result is the part of `s` between a
      trimmable prefix and a trimmable suffix. */
  lemma TrimRemovesOnlyPadding(s: string)
    ensures exists k, j | 0 <= k <= j <= |s| ::
      AllTrimmable(s[..k]) && AllTrimmable(s[j..]) && Trim(s) == s[k..j]
  {
    var k := LeadingPadding(s);
    TrimLeftDrops(s);
    var m := s[k..];
    TrimRightDrops(m);
    var j := |m| - TrailingPadding(m);
    assert m[..j] == s[k..k + j];
    assert m[j..] == s[k + j..];
    assert AllTrimmable(s[..k]) && AllTrimmable(s[k + j..]) && Trim(s) == s[k..k + j];
  }

  /** trim() is idempotent. */
  lemma TrimIdempotent(s: string)
    ensures Trim(Trim(s)) == Trim(s)
  {
    var t := Trim(s);
    assert [] + t + [] == t;
    TrimPadded([], t, []);
  }

  /** strtoupper() on one character: ASCII letters only. */
  function UpperChar(c: char): (u: char)
    ensures 'a' <= c <= 'z' ==> u as int == c as int - 32
    ensures !('a' <= c <= 'z') ==> u == c
  {
    if 'a' <= c <= 'z' then (c as int - 32) as char else c
  }

  /** strtoupper(): every ASCII lower-case letter becomes upper-case, nothing else changes. */
  function Upper(s: string): (r: string)
    ensures |r| == |s|
    ensures forall i | 0 <= i < |s| :: r[i] == UpperChar(s[i])
  {
    if s == [] then [] else [UpperChar(s[0])] + Upper(s[1..])
  }

  /** strtoupper() is idempotent, so applying it twice, as the level factory does, is harmless. */
  lemma UpperIdempotent(s: string)
    ensures Upper(Upper(s)) == Upper(s)
  {
    assert forall i | 0 <= i < |s| :: UpperChar(UpperChar(s[i])) == UpperChar(s[i]);
  }

  /** implode($glue, $parts). */
  function Implode(glue: string, parts: seq<string>): (r: string)
    ensures parts == [] ==> r == []
    ensures |parts| == 1 ==> r == parts[0]
  {
    if parts == [] then []
    else if |parts| == 1 then parts[0]
    else parts[0] + glue + Implode(glue, parts[1..])
  }

  /** One more part goes at the end, after the glue when there were parts before. */
  lemma {:induction false} ImplodeAppend(glue: string, parts: seq<string>, a: string)
    ensures Implode(glue, parts + [a]) == if parts == [] then a else Implode(glue, parts) + glue + a
  {
    if |parts| == 1 {
      assert parts + [a] == [parts[0], a];
      assert [parts[0], a][1..] == [a];
    } else if |parts| >= 2 {
      assert (parts + [a])[1..] == parts[1..] + [a];
      ImplodeAppend(glue, parts[1..], a);
    } else {
      assert parts + [a] == [a];
    }
  }

  /** explode() on a one-character separator: the pieces between separators, always at
      least one. */
  function Split(s: string, sep: char): (r: seq<string>)
    ensures |r| >= 1
  {
    if s == [] then [[]]
    else if s[0] == sep then [[]] + Split(s[1..], sep)
    else
      var rest := Split(s[1..], sep);
      [[s[0]] + rest[0]] + rest[1..]
  }

  lemma {:induction false} SplitWord(w: string, sep: char, tail: string)
    requires sep !in w
    ensures Split(w + tail, sep) == [w + Split(tail, sep)[0]] + Split(tail, sep)[1..]
  {
    if w != [] {
      assert (w + tail)[0] == w[0];
      assert (w + tail)[1..] == w[1..] + tail;
      SplitWord(w[1..], sep, tail);
      assert [w[0]] + (w[1..] + Split(tail, sep)[0]) == w + Split(tail, sep)[0];
    } else {
      var r := Split(tail, sep);
      assert w + tail == tail && w + r[0] == r[0];
      assert [r[0]] + r[1..] == r;
    }
  }

  /** explode() undoes implode() when the separator occurs in none of the parts. */
  lemma {:induction false} SplitImplode(parts: seq<string>, sep: char)
    requires |parts| >= 1
    requires forall i | 0 <= i < |parts| :: sep !in parts[i]
    ensures Split(Implode([sep], parts), sep) == parts
  {
    if |parts| == 1 {
      SplitWord(parts[0], sep, []);
      assert parts[0] + [] == parts[0];
      assert Split(parts[0], sep) == [parts[0]];
    } else {
      var rest := Implode([sep], parts[1..]);
      SplitImplode(parts[1..], sep);
      var tail := [sep] + rest;
      assert Implode([sep], parts) == parts[0] + tail;
      SplitWord(parts[0], sep, tail);
      assert Split(tail, sep) == [[]] + parts[1..];
      assert parts[0] + [] == parts[0];
      assert [parts[0]] + parts[1..] == parts;
    }
  }
}
