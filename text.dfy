/** The Python string operations the handlers rely on: `str.lower`,
    `str.strip`, `in` on strings, `str.split` on one character,
    `str.join`, and `str(n)` for a natural number. */
module Text {

  // ---------------------------------------------------------------------
  // Case folding (`str.lower`), ASCII letters only
  // ---------------------------------------------------------------------

  function LowerChar(c: char): char {
    if 'A' <= c <= 'Z' then (c as int + 32) as char else c
  }

  /** `s.lower()`: the string with every ASCII capital replaced by its
      small letter, character for character. */
  function Lower(s: string): (r: string)
    ensures |r| == |s|
    ensures forall i :: 0 <= i < |s| ==> r[i] == LowerChar(s[i])
  {
    if s == [] then [] else [LowerChar(s[0])] + Lower(s[1..])
  }

  // ---------------------------------------------------------------------
  // Whitespace (`str.isspace`, `str.strip`)
  // ---------------------------------------------------------------------

  /** The characters Python's `str.isspace` accepts. */
  predicate IsSpace(c: char) {
    var n := c as int;
    (9 <= n <= 13) || (28 <= n <= 32) || n == 0x85 || n == 0xA0 || n == 0x1680
    || (0x2000 <= n <= 0x200A) || n == 0x2028 || n == 0x2029 || n == 0x202F
    || n == 0x205F || n == 0x3000
  }

  /** A string made of whitespace only (the empty string included). */
  predicate IsBlank(s: string)
    decreases |s|
  {
    s == [] || (IsSpace(s[0]) && IsBlank(s[1..]))
  }

  function TrimStart(s: string): (r: string)
    ensures |r| <= |s| && r == s[|s| - |r|..]
    ensures r != [] ==> !IsSpace(r[0])
    decreases |s|
  {
    if s != [] && IsSpace(s[0]) then TrimStart(s[1..]) else s
  }

  function TrimEnd(s: string): (r: string)
    ensures |r| <= |s| && r == s[..|r|]
    ensures r != [] ==> !IsSpace(r[|r| - 1])
    decreases |s|
  {
    if s != [] && IsSpace(s[|s| - 1]) then TrimEnd(s[..|s| - 1]) else s
  }

  /** What `TrimStart` removes is whitespace. */
  lemma {:induction false} TrimStartDropsBlank(s: string)
    ensures IsBlank(s[..|s| - |TrimStart(s)|])
    decreases |s|
  {
    if s != [] && IsSpace(s[0]) {
      TrimStartDropsBlank(s[1..]);
      var k := |s| - |TrimStart(s)|;
      assert s[..k][0] == s[0] && s[..k][1..] == s[1..][..k - 1];
    }
  }

  /** What `TrimEnd` removes is whitespace. */
  lemma {:induction false} TrimEndDropsBlank(s: string)
    ensures IsBlank(s[|TrimEnd(s)|..])
    decreases |s|
  {
    if s != [] && IsSpace(s[|s| - 1]) {
      TrimEndDropsBlank(s[..|s| - 1]);
      var k := |TrimEnd(s)|;
      assert s[k..] == s[..|s| - 1][k..] + [s[|s| - 1]];
      assert IsBlank([s[|s| - 1]]) by { assert [s[|s| - 1]][1..] == []; }
      BlankConcat(s[..|s| - 1][k..], [s[|s| - 1]]);
    }
  }

  /** `s.strip()`: `s` without its leading and trailing whitespace. */
  function Strip(s: string): (r: string)
    ensures r == [] <==> IsBlank(s)
    ensures r != [] ==> !IsSpace(r[0]) && !IsSpace(r[|r| - 1])
    ensures s == [] || (!IsSpace(s[0]) && !IsSpace(s[|s| - 1])) ==> r == s
  {
    StripFacts(s);
    TrimEnd(TrimStart(s))
  }

  lemma StripFacts(s: string)
    ensures StrippedOf(s, TrimEnd(TrimStart(s)))
  {
    StripEmptyIffBlank(s);
    StripEnds(s);
  }

  /** `Strip(s)` is a slice of `s`, and what it drops before and after
      that slice is whitespace. With `Strip`'s own contract (no
      whitespace at either end of a non-empty result) this pins the
      result down completely. */
  lemma StripIsSlice(s: string)
    ensures exists i, j :: 0 <= i <= j <= |s| && Strip(s) == s[i..j] && IsBlank(s[..i]) && IsBlank(s[j..])
  {
    var t := TrimStart(s);
    var r := TrimEnd(t);
    var i := |s| - |t|;
    var j := i + |r|;
    TrimStartDropsBlank(s);
    TrimEndDropsBlank(t);
    assert r == s[i..j] by { SliceOfSuffix(s, i, j); }
    assert s[j..] == t[|r|..];
    assert 0 <= i <= j <= |s| && Strip(s) == s[i..j] && IsBlank(s[..i]) && IsBlank(s[j..]);
  }

  /** Conversely, a slice of `s` with no whitespace at its ends and only
      whitespace around it is `Strip(s)`. */
  lemma StripUnique(s: string, i: nat, j: nat)
    requires i <= j <= |s| && IsBlank(s[..i]) && IsBlank(s[j..])
    requires i < j ==> !IsSpace(s[i]) && !IsSpace(s[j - 1])
    ensures Strip(s) == s[i..j]
  {
    if i == j {
      assert IsBlank(s) by {
        assert s[..i] + s[j..] == s;
        BlankConcat(s[..i], s[j..]);
      }
    } else {
      TrimBoth(s, i, j);
    }
  }

  lemma TrimBoth(s: string, i: nat, j: nat)
    requires i < j <= |s| && IsBlank(s[..i]) && IsBlank(s[j..])
    requires !IsSpace(s[i]) && !IsSpace(s[j - 1])
    ensures TrimEnd(TrimStart(s)) == s[i..j]
  {
    var t := TrimStart(s);
    var n := j - i;
    TrimStartPast(s, i);
    assert t[n..] == s[j..] && t[n - 1] == s[j - 1];
    TrimEndBefore(t, n);
    SliceOfSuffix(s, i, j);
  }

  lemma SliceOfSuffix(s: string, i: nat, j: nat)
    requires i <= j <= |s|
    ensures s[i..][..j - i] == s[i..j]
  {
  }

  lemma {:induction false} TrimStartPast(s: string, i: nat)
    requires i < |s| && IsBlank(s[..i]) && !IsSpace(s[i])
    ensures TrimStart(s) == s[i..]
    decreases i
  {
    if i > 0 {
      assert s[..i][0] == s[0] && s[..i][1..] == s[1..][..i - 1];
      TrimStartPast(s[1..], i - 1);
      assert s[1..][i - 1..] == s[i..];
    }
  }

  lemma {:induction false} TrimEndBefore(s: string, j: nat)
    requires 0 < j <= |s| && IsBlank(s[j..]) && !IsSpace(s[j - 1])
    ensures TrimEnd(s) == s[..j]
    decreases |s| - j
  {
    if j < |s| {
      var u := s[..|s| - 1];
      assert IsSpace(s[|s| - 1]) by { BlankLast(s[j..]); }
      assert s[j..] == u[j..] + [s[|s| - 1]];
      BlankPrefix(u[j..], [s[|s| - 1]]);
      TrimEndBefore(u, j);
      assert u[..j] == s[..j];
    }
  }

  lemma {:induction false} BlankLast(s: string)
    requires s != [] && IsBlank(s)
    ensures IsSpace(s[|s| - 1])
    decreases |s|
  {
    if |s| > 1 {
      BlankLast(s[1..]);
    }
  }

  lemma {:induction false} BlankPrefix(a: string, b: string)
    requires IsBlank(a + b)
    ensures IsBlank(a)
    decreases |a|
  {
    if a != [] {
      assert (a + b)[1..] == a[1..] + b;
      BlankPrefix(a[1..], b);
    }
  }

  /** `r` is what stripping `s` must give: empty exactly when `s` is
      blank, otherwise with no whitespace at either end, and `s` itself
      when `s` has none. */
  predicate StrippedOf(s: string, r: string) {
    && (r == [] <==> IsBlank(s))
    && (r != [] ==> !IsSpace(r[0]) && !IsSpace(r[|r| - 1]))
    && (s == [] || (!IsSpace(s[0]) && !IsSpace(s[|s| - 1])) ==> r == s)
  }

  /** Trimming both ends leaves no whitespace at either end, and changes
      nothing when there is none. */
  lemma StripEnds(s: string)
    ensures var r := TrimEnd(TrimStart(s)); r != [] ==> !IsSpace(r[0]) && !IsSpace(r[|r| - 1])
    ensures s == [] || (!IsSpace(s[0]) && !IsSpace(s[|s| - 1])) ==> TrimEnd(TrimStart(s)) == s
  {
    var t := TrimStart(s);
    var r := TrimEnd(t);
    if r != [] {
      assert r[0] == t[0];
    }
    if s != [] && !IsSpace(s[0]) {
      assert t == s;
    }
  }

  /** Trimming both ends leaves nothing exactly when `s` is blank. */
  lemma StripEmptyIffBlank(s: string)
    ensures TrimEnd(TrimStart(s)) == [] <==> IsBlank(s)
  {
    if IsBlank(s) {
      TrimStartOfBlank(s);
    }
    if TrimEnd(TrimStart(s)) == [] {
      EmptyStripIsBlank(s);
    }
  }

  lemma EmptyStripIsBlank(s: string)
    requires TrimEnd(TrimStart(s)) == []
    ensures IsBlank(s)
  {
    var t := TrimStart(s);
    var k := |s| - |t|;
    TrimStartDropsBlank(s);
    TrimEndDropsBlank(t);
    assert t[0..] == t && s[k..] == t;
    BlankSplit(s, k);
  }

  lemma BlankSplit(s: string, k: nat)
    requires k <= |s| && IsBlank(s[..k]) && IsBlank(s[k..])
    ensures IsBlank(s)
  {
    assert s == s[..k] + s[k..];
    BlankConcat(s[..k], s[k..]);
  }

  lemma {:induction false} BlankConcat(a: string, b: string)
    requires IsBlank(a) && IsBlank(b)
    ensures IsBlank(a + b)
    decreases |a|
  {
    if a != [] {
      BlankConcat(a[1..], b);
      assert (a + b)[1..] == a[1..] + b;
    } else {
      assert a + b == b;
    }
  }

  lemma {:induction false} TrimStartOfBlank(s: string)
    requires IsBlank(s)
    ensures TrimStart(s) == []
    decreases |s|
  {
    if s != [] {
      TrimStartOfBlank(s[1..]);
    }
  }


  lemma StripIdempotent(s: string)
    ensures Strip(Strip(s)) == Strip(s)
  {
  }

  // ---------------------------------------------------------------------
  // Substring test (`needle in hay`)
  // ---------------------------------------------------------------------

  /** `needle` occurs in `hay` starting at index `i`. */
  predicate OccursAt(hay: string, needle: string, i: int) {
    0 <= i && i + |needle| <= |hay| && hay[i..i + |needle|] == needle
  }

  /** `needle in hay`, computed by trying each starting position. */
  predicate Contains(hay: string, needle: string)
    ensures Contains(hay, needle) <==> exists i :: OccursAt(hay, needle, i)
    decreases |hay|
  {
    if |needle| <= |hay| && hay[..|needle|] == needle then
      assert OccursAt(hay, needle, 0);
      true
    else if hay == [] then
      assert forall i :: !OccursAt(hay, needle, i);
      false
    else
      var rest := Contains(hay[1..], needle);
      assert forall i :: OccursAt(hay, needle, i + 1) <==> OccursAt(hay[1..], needle, i) by {
        forall i ensures OccursAt(hay, needle, i + 1) <==> OccursAt(hay[1..], needle, i) {
          if 0 <= i && i + 1 + |needle| <= |hay| {
            var tail := hay[1..];
            assert tail[i..i + |needle|] == hay[i + 1..i + 1 + |needle|];
          }
        }
      }
      assert rest ==> exists i :: OccursAt(hay, needle, i) by {
        if rest {
          var i :| OccursAt(hay[1..], needle, i);
          assert OccursAt(hay, needle, i + 1);
        }
      }
      assert (exists i :: OccursAt(hay, needle, i)) ==> rest by {
        if exists i :: OccursAt(hay, needle, i) {
          var i :| OccursAt(hay, needle, i);
          assert i != 0;
          assert OccursAt(hay[1..], needle, i - 1);
        }
      }
      rest
  }

  /** The empty string is in every string, as in Python. */
  lemma EmptyIsContained(hay: string)
    ensures Contains(hay, "")
  {
    assert OccursAt(hay, "", 0);
  }

  // ---------------------------------------------------------------------
  // `sep.join(parts)` and `s.split(sep)`
  // ---------------------------------------------------------------------

  /** `sep.join(parts)`. */
  function Join(sep: string, parts: seq<string>): string
    decreases |parts|
  {
    if |parts| == 0 then ""
    else if |parts| == 1 then parts[0]
    else parts[0] + sep + Join(sep, parts[1..])
  }

  /** `s.split(sep)` for a one-character separator: the pieces between
      occurrences of `sep`; never empty, and no piece holds `sep`. */
  function Split(s: string, sep: char): (r: seq<string>)
    ensures |r| >= 1
    ensures forall k :: 0 <= k < |r| ==> sep !in r[k]
    decreases |s|
  {
    if s == [] then [""]
    else
      var rest := Split(s[1..], sep);
      if s[0] == sep then [""] + rest
      else [[s[0]] + rest[0]] + rest[1..]
  }

  /** Joining the pieces of a split with the same separator gives the
      original string back. */
  lemma {:induction false} JoinSplit(s: string, sep: char)
    ensures Join([sep], Split(s, sep)) == s
    decreases |s|
  {
    if s != [] {
      var rest := Split(s[1..], sep);
      JoinSplit(s[1..], sep);
      if s[0] == sep {
        assert Split(s, sep) == [""] + rest;
        assert ([""] + rest)[1..] == rest;
      } else {
        var r := [[s[0]] + rest[0]] + rest[1..];
        assert Split(s, sep) == r;
        if |rest| == 1 {
          assert Join([sep], rest) == rest[0];
        } else {
          assert Join([sep], rest) == rest[0] + [sep] + Join([sep], rest[1..]);
          assert r[1..] == rest[1..];
        }
      }
    }
  }

  /** Splitting a join of separator-free pieces gives the pieces back:
      with JoinSplit, `Split` and `Join` are inverse to each other. */
  lemma {:induction false} SplitJoin(parts: seq<string>, sep: char)
    requires |parts| >= 1
    requires forall k :: 0 <= k < |parts| ==> sep !in parts[k]
    ensures Split(Join([sep], parts), sep) == parts
    decreases |parts|, |parts[0]|
  {
    var p := parts[0];
    if p == [] {
      if |parts| > 1 {
        assert Join([sep], parts) == [sep] + Join([sep], parts[1..]);
        SplitJoin(parts[1..], sep);
        assert ([sep] + Join([sep], parts[1..]))[1..] == Join([sep], parts[1..]);
      }
    } else {
      var tail := [p[1..]] + parts[1..];
      assert tail[1..] == parts[1..];
      assert forall k :: 0 <= k < |tail| ==> sep !in tail[k] by {
        forall k | 0 <= k < |tail| ensures sep !in tail[k] {
          if k == 0 { assert forall c :: c in p[1..] ==> c in p; }
        }
      }
      SplitJoin(tail, sep);
      assert Join([sep], parts) == [p[0]] + Join([sep], tail) by {
        if |parts| == 1 {
        } else {
          assert Join([sep], tail) == p[1..] + [sep] + Join([sep], parts[1..]);
        }
      }
      assert ([p[0]] + Join([sep], tail))[1..] == Join([sep], tail);
      assert p[0] != sep;
      assert [p[0]] + p[1..] == p;
    }
  }

  // ---------------------------------------------------------------------
  // Decimal rendering (`str(n)` for a natural number)
  // ---------------------------------------------------------------------

  function DigitChar(d: nat): char
    requires d < 10
  {
    ('0' as int + d) as char
  }

  predicate IsDigit(c: char) { '0' <= c <= '9' }

  /** `str(n)`: decimal digits, without leading zeros. */
  function NatToString(n: nat): (r: string)
    ensures |r| >= 1
    ensures forall i :: 0 <= i < |r| ==> IsDigit(r[i])
    ensures |r| > 1 ==> r[0] != '0'
  {
    if n < 10 then [DigitChar(n)] else NatToString(n / 10) + [DigitChar(n % 10)]
  }

  /** The value of a string of decimal digits. */
  function DigitsValue(s: string): nat
    requires forall i :: 0 <= i < |s| ==> IsDigit(s[i])
  {
    if s == [] then 0
    else
      assert IsDigit(s[|s| - 1]);
      10 * DigitsValue(s[..|s| - 1]) + (s[|s| - 1] as int - '0' as int)
  }

  /** Reading back the rendered digits gives the number: distinct numbers
      render as distinct strings. */
  lemma {:induction false} NatToStringValue(n: nat)
    ensures DigitsValue(NatToString(n)) == n
  {
    if n >= 10 {
      NatToStringValue(n / 10);
      var r := NatToString(n);
      assert r[..|r| - 1] == NatToString(n / 10);
    }
  }
}
