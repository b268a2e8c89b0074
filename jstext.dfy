/** The JavaScript string operations the application relies on: `includes`
    (with a `startsWith` helper behind it), `split(' ')`, `trim`, a global
    replace of a literal pattern by the empty string, and `String(n)` of an
    integer. A string is a sequence of Dafny `char`s, which are Unicode scalar
    values: for text inside the Basic Multilingual Plane one `char` is one
    UTF-16 code unit, and a character outside it, which JavaScript holds as a
    surrogate pair, is a single `char` here. */
module JsText {

  /** `s.startsWith(p)` */
  predicate StartsWith(s: string, p: string) {
    |p| <= |s| && s[..|p|] == p
  }

  /** `p` occurs in `s` starting at index `i`. */
  ghost predicate OccursAt(s: string, p: string, i: int) {
    0 <= i && i + |p| <= |s| && s[i..i + |p|] == p
  }

  /** `s.includes(p)`: some suffix of `s` starts with `p`. */
  predicate Includes(s: string, p: string)
    decreases |s|
  {
    StartsWith(s, p) || (|s| > 0 && Includes(s[1..], p))
  }

  /** `includes` holds exactly when the pattern occurs at some index. */
  lemma {:induction false} IncludesIffOccurs(s: string, p: string)
    ensures Includes(s, p) <==> exists i :: OccursAt(s, p, i)
    decreases |s|
  {
    if StartsWith(s, p) {
      assert OccursAt(s, p, 0);
    } else if |s| > 0 {
      IncludesIffOccurs(s[1..], p);
      if Includes(s[1..], p) {
        var i :| OccursAt(s[1..], p, i);
        assert s[i + 1..i + 1 + |p|] == s[1..][i..i + |p|];
        assert OccursAt(s, p, i + 1);
      } else {
        forall i | OccursAt(s, p, i) ensures false {
          if i > 0 {
            assert s[1..][i - 1..i - 1 + |p|] == s[i..i + |p|];
            assert OccursAt(s[1..], p, i - 1);
          }
        }
      }
    }
  }

  /** An occurrence inside an occurrence is an occurrence. */
  lemma IncludesTransitive(s: string, t: string, p: string)
    requires Includes(s, t) && Includes(t, p)
    ensures Includes(s, p)
  {
    IncludesIffOccurs(s, t);
    IncludesIffOccurs(t, p);
    var i :| OccursAt(s, t, i);
    var j :| OccursAt(t, p, j);
    forall k | 0 <= k < |p| ensures s[i + j + k] == p[k] {
      assert p[k] == t[j..j + |p|][k] == t[j + k];
      assert t[j + k] == s[i..i + |t|][j + k];
    }
    assert s[i + j..i + j + |p|] == p;
    assert OccursAt(s, p, i + j);
    IncludesIffOccurs(s, p);
  }

  /** What `s` includes is no longer than `s` and made of code units of `s`. */
  lemma IncludedIsMadeOfItsCodeUnits(s: string, p: string, c: char)
    ensures Includes(s, p) ==> |p| <= |s| && (c in p ==> c in s)
  {
    IncludesIffOccurs(s, p);
    if Includes(s, p) && c in p {
      var i :| OccursAt(s, p, i);
      var k :| 0 <= k < |p| && p[k] == c;
      assert s[i..i + |p|][k] == s[i + k];
    }
  }

  /** The middle of a concatenation is included in it. */
  lemma IncludesMiddle(a: string, b: string, c: string)
    ensures Includes(a + b + c, b)
  {
    assert (a + b + c)[|a|..|a| + |b|] == b;
    assert OccursAt(a + b + c, b, |a|);
    IncludesIffOccurs(a + b + c, b);
  }

  // ---------------------------------------------------------------------------
  // split(' ') and its inverse, join(' ')

  /** `s.split(' ')`: the pieces between single spaces, empty pieces kept. */
  function Split(s: string): (r: seq<string>)
    ensures |r| >= 1
    ensures forall k :: 0 <= k < |r| ==> ' ' !in r[k]
    decreases |s|
  {
    if |s| == 0 then [[]]
    else
      var rest := Split(s[1..]);
      if s[0] == ' ' then [[]] + rest
      else [[s[0]] + rest[0]] + rest[1..]
  }

  /** `ws.join(' ')` */
  function Join(ws: seq<string>): string
    requires |ws| >= 1
    decreases |ws|
  {
    if |ws| == 1 then ws[0] else ws[0] + " " + Join(ws[1..])
  }

  /** Joining the pieces with single spaces gives back the string. */
  lemma {:induction false} JoinSplit(s: string)
    ensures Join(Split(s)) == s
    decreases |s|
  {
    if |s| > 0 {
      var rest := Split(s[1..]);
      JoinSplit(s[1..]);
      if s[0] == ' ' {
        assert ([[]] + rest)[1..] == rest;
        assert Join(Split(s)) == [] + " " + Join(rest);
      } else if |rest| == 1 {
        assert Join(Split(s)) == [s[0]] + rest[0];
      } else {
        var r := Split(s);
        assert r[1..] == rest[1..];
        assert Join(r) == [s[0]] + rest[0] + " " + Join(rest[1..]);
      }
    }
  }

  /** Splitting a space-free word followed by more text puts the word in front
      of the first piece of the rest. */
  lemma {:induction false} SplitAfterWord(w: string, t: string)
    requires ' ' !in w
    ensures Split(w + t) == [w + Split(t)[0]] + Split(t)[1..]
    decreases |w|
  {
    if |w| > 0 {
      assert (w + t)[1..] == w[1..] + t;
      assert ' ' !in w[1..] by {
        forall k | 0 <= k < |w[1..]| ensures w[1..][k] != ' ' {
          assert w[1..][k] == w[k + 1];
        }
      }
      SplitAfterWord(w[1..], t);
      var rest := Split(w[1..] + t);
      assert rest[0] == w[1..] + Split(t)[0] && rest[1..] == Split(t)[1..];
      assert Split(w + t) == [[w[0]] + rest[0]] + rest[1..];
      assert [w[0]] + (w[1..] + Split(t)[0]) == w + Split(t)[0];
    } else {
      assert w + t == t && w + Split(t)[0] == Split(t)[0];
      assert Split(t) == [Split(t)[0]] + Split(t)[1..];
    }
  }

  /** Splitting the space-joined pieces gives back the pieces. */
  lemma {:induction false} SplitJoin(ws: seq<string>)
    requires |ws| >= 1
    requires forall k :: 0 <= k < |ws| ==> ' ' !in ws[k]
    ensures Split(Join(ws)) == ws
    decreases |ws|
  {
    if |ws| == 1 {
      SplitAfterWord(ws[0], []);
      assert ws[0] + [] == ws[0];
    } else {
      SplitJoin(ws[1..]);
      var t := " " + Join(ws[1..]);
      assert t[1..] == Join(ws[1..]);
      assert Split(t) == [[]] + ws[1..];
      SplitAfterWord(ws[0], t);
      assert Join(ws) == ws[0] + t;
      assert ws[0] + [] == ws[0];
    }
  }

  /** A string with k spaces splits into k + 1 pieces. */
  lemma {:induction false} SplitCount(s: string)
    ensures |Split(s)| == multiset(s)[' '] + 1
    decreases |s|
  {
    if |s| > 0 {
      SplitCount(s[1..]);
      assert s == [s[0]] + s[1..];
      assert multiset(s) == multiset{s[0]} + multiset(s[1..]);
    }
  }

  // ---------------------------------------------------------------------------
  // trim()

  /** The code units `String.prototype.trim` removes: ECMAScript WhiteSpace and
      LineTerminator (tab, line tabulation, form feed, space, no-break space,
      byte order mark, the space separators, line feed, carriage return, line
      and paragraph separator). */
  predicate IsJsWhitespace(c: char) {
    c as int in {0x09, 0x0A, 0x0B, 0x0C, 0x0D, 0x20, 0xA0, 0x1680, 0x2028, 0x2029, 0x202F, 0x205F, 0x3000, 0xFEFF}
    || 0x2000 <= c as int <= 0x200A
  }

  /** Removes leading whitespace: the result is the suffix of `s` that starts
      at its first non-whitespace code unit. */
  function TrimStart(s: string): (r: string)
    ensures |r| <= |s| && r == s[|s| - |r|..]
    ensures forall k :: 0 <= k < |s| - |r| ==> IsJsWhitespace(s[k])
    ensures |r| == 0 || !IsJsWhitespace(r[0])
    decreases |s|
  {
    if |s| > 0 && IsJsWhitespace(s[0]) then
      var t := s[1..];
      var r := TrimStart(t);
      assert t[|t| - |r|..] == s[|s| - |r|..];
      assert forall k :: 0 <= k < |s| - |r| ==> IsJsWhitespace(s[k]) by {
        forall k | 1 <= k < |s| - |r| ensures IsJsWhitespace(s[k]) {
          assert s[k] == t[k - 1];
        }
      }
      r
    else s
  }

  /** Removes trailing whitespace: the result is the prefix of `s` that ends
      at its last non-whitespace code unit. */
  function TrimEnd(s: string): (r: string)
    ensures |r| <= |s| && r == s[..|r|]
    ensures forall k :: |r| <= k < |s| ==> IsJsWhitespace(s[k])
    ensures |r| == 0 || !IsJsWhitespace(r[|r| - 1])
    decreases |s|
  {
    if |s| > 0 && IsJsWhitespace(s[|s| - 1]) then
      var r := TrimEnd(s[..|s| - 1]);
      assert s[..|s| - 1][..|r|] == s[..|r|];
      r
    else s
  }

  /** `s.trim()`: `s` without its leading and trailing whitespace. */
  function Trim(s: string): (r: string)
    ensures |r| <= |s|
    ensures |r| == 0 || (!IsJsWhitespace(r[0]) && !IsJsWhitespace(r[|r| - 1]))
  {
    TrimEnd(TrimStart(s))
  }

  /** Trimming twice is trimming once. */
  lemma {:induction false} TrimIdempotent(s: string)
    ensures Trim(Trim(s)) == Trim(s)
  {
    var r := Trim(s);
    assert Trim(r) == TrimEnd(TrimStart(r));
    if |r| > 0 {
      assert !IsJsWhitespace(r[0]) && !IsJsWhitespace(r[|r| - 1]);
      assert TrimStart(r) == r;
      assert TrimEnd(r) == r;
    } else {
      assert TrimStart(r) == [];
      assert TrimEnd([]) == [];
    }
  }

  /** The trimmed text sits in `s` right after the leading whitespace. */
  lemma {:induction false} TrimOccursAfterLeadingWhitespace(s: string)
    ensures OccursAt(s, Trim(s), |s| - |TrimStart(s)|)
  {
    var t := TrimStart(s);
    PrefixOfSuffixOccurs(s, t, TrimEnd(t), |s| - |t|);
  }

  /** A prefix of a suffix of `s` occurs in `s` where the suffix starts. */
  lemma PrefixOfSuffixOccurs(s: string, t: string, r: string, i: int)
    requires 0 <= i <= |s| && t == s[i..]
    requires |r| <= |t| && r == t[..|r|]
    ensures OccursAt(s, r, i)
  {
    assert s[i..i + |r|] == s[i..][..|r|];
  }

  /** Everything after the trimmed text is whitespace. */
  lemma {:induction false} TrimDropsOnlyTrailingWhitespace(s: string)
    ensures forall k :: |s| - |TrimStart(s)| + |Trim(s)| <= k < |s| ==> IsJsWhitespace(s[k])
  {
    var t := TrimStart(s);
    var r := TrimEnd(t);
    var i := |s| - |t|;
    assert s[i..] == t;
    forall k | i + |r| <= k < |s| ensures IsJsWhitespace(s[k]) {
      assert s[k] == t[k - i];
    }
  }

  /** What `trim` returns is the slice of `s` starting after its leading
      whitespace, and everything outside that slice is whitespace. */
  lemma TrimIsSlice(s: string)
    ensures OccursAt(s, Trim(s), |s| - |TrimStart(s)|)
    ensures forall k :: 0 <= k < |s| - |TrimStart(s)| ==> IsJsWhitespace(s[k])
    ensures forall k :: |s| - |TrimStart(s)| + |Trim(s)| <= k < |s| ==> IsJsWhitespace(s[k])
  {
    TrimOccursAfterLeadingWhitespace(s);
    TrimDropsOnlyTrailingWhitespace(s);
  }

  /** A whitespace-only string trims to empty, and only such a string does. */
  lemma TrimEmptyIffAllWhitespace(s: string)
    ensures Trim(s) == [] <==> forall k :: 0 <= k < |s| ==> IsJsWhitespace(s[k])
  {
    TrimIsSlice(s);
    var r := Trim(s);
    if r != [] {
      var i := |s| - |TrimStart(s)|;
      assert r[0] == s[i];
    }
  }

  /** Trimming the start of `s + t`: either `s` vanishes entirely, or only its
      own leading whitespace does. */
  lemma {:induction false} TrimStartAppend(s: string, t: string)
    ensures TrimStart(s + t) ==
      if forall k :: 0 <= k < |s| ==> IsJsWhitespace(s[k]) then TrimStart(t) else TrimStart(s) + t
    decreases |s|
  {
    if |s| == 0 {
      assert s + t == t;
    } else {
      assert (s + t)[0] == s[0];
      assert (s + t)[1..] == s[1..] + t;
      if IsJsWhitespace(s[0]) {
        assert TrimStart(s + t) == TrimStart(s[1..] + t);
        assert TrimStart(s) == TrimStart(s[1..]);
        TrimStartAppend(s[1..], t);
        assert (forall k :: 0 <= k < |s| ==> IsJsWhitespace(s[k]))
           <==> (forall k :: 0 <= k < |s[1..]| ==> IsJsWhitespace(s[1..][k]));
      } else {
        assert TrimStart(s + t) == s + t;
        assert TrimStart(s) == s;
        assert !IsJsWhitespace(s[0]);
      }
    }
  }

  /** Whitespace added in front of a string is removed again by `trim`. */
  lemma TrimAbsorbsLeadingWhitespace(c: char, s: string)
    requires IsJsWhitespace(c)
    ensures Trim([c] + s) == Trim(s)
  {
    assert ([c] + s)[1..] == s;
  }

  /** Whitespace added after a string is removed again by `trim`. */
  lemma TrimAbsorbsTrailingWhitespace(s: string, c: char)
    requires IsJsWhitespace(c)
    ensures Trim(s + [c]) == Trim(s)
  {
    TrimStartAppend(s, [c]);
    TrimStartAppend(s, []);
    assert s + [] == s;
    var t := TrimStart(s);
    if forall k :: 0 <= k < |s| ==> IsJsWhitespace(s[k]) {
      assert [c][1..] == [];
      assert TrimStart(s + [c]) == TrimStart([c]) == [];
    } else {
      assert TrimStart(s + [c]) == t + [c];
      assert (t + [c])[..|t|] == t;
      assert TrimEnd(t + [c]) == TrimEnd(t);
    }
  }

  /** Trimming only cuts code units off the ends, so it cannot create an
      occurrence the untrimmed text lacks. */
  lemma TrimKeepsExclusion(s: string, p: string)
    ensures Includes(Trim(s), p) ==> Includes(s, p)
  {
    TrimIsSlice(s);
    IncludesIffOccurs(s, Trim(s));
    if Includes(Trim(s), p) {
      IncludesTransitive(s, Trim(s), p);
    }
  }

  // ---------------------------------------------------------------------------
  // replace(/pat/g, '') for a literal pattern

  /** `s.replace(/pat/g, '')`: scanning left to right, every occurrence of `pat`
      that starts where the scan stands is deleted and the scan resumes after it. */
  function RemoveAll(s: string, pat: string): (r: string)
    requires |pat| > 0
    ensures |r| <= |s|
    decreases |s|
  {
    if |s| == 0 then []
    else if StartsWith(s, pat) then RemoveAll(s[|pat|..], pat)
    else [s[0]] + RemoveAll(s[1..], pat)
  }

  /** A prefix that does not contain the first code unit of the pattern passes
      through unchanged. */
  lemma {:induction false} RemoveAllSkipsPrefix(x: string, y: string, pat: string)
    requires |pat| > 0 && pat[0] !in x
    ensures RemoveAll(x + y, pat) == x + RemoveAll(y, pat)
    decreases |x|
  {
    if |x| > 0 {
      assert (x + y)[0] == x[0];
      assert (x + y)[1..] == x[1..] + y;
      assert pat[0] !in x[1..] by {
        forall k | 0 <= k < |x[1..]| ensures x[1..][k] != pat[0] {
          assert x[1..][k] == x[k + 1];
        }
      }
      RemoveAllSkipsPrefix(x[1..], y, pat);
      assert [x[0]] + (x[1..] + RemoveAll(y, pat)) == x + RemoveAll(y, pat);
    } else {
      assert x + y == y;
    }
  }

  /** A text that does not contain the pattern passes through unchanged. */
  lemma {:induction false} RemoveAllAbsent(s: string, pat: string)
    requires |pat| > 0
    ensures !Includes(s, pat) ==> RemoveAll(s, pat) == s
    decreases |s|
  {
    if |s| > 0 && !Includes(s, pat) {
      RemoveAllAbsent(s[1..], pat);
      assert [s[0]] + s[1..] == s;
    }
  }

  /** A text shorter than the pattern holds no occurrence and passes through. */
  lemma {:induction false} RemoveAllShort(s: string, pat: string)
    requires 0 < |pat| && |s| < |pat|
    ensures RemoveAll(s, pat) == s
    decreases |s|
  {
    if |s| > 0 {
      RemoveAllShort(s[1..], pat);
      assert [s[0]] + s[1..] == s;
    }
  }

  /** The code-fence delimiter. */
  const Fence: string := "```"

  /** After deleting every fence left to right, what remains cannot start with
      two backticks unless the input did. */
  lemma NoDoubleBacktickCreated(t: string)
    requires !StartsWith(t, "``")
    ensures !StartsWith(RemoveAll(t, Fence), "``")
  {
    if |t| > 0 {
      assert !StartsWith(t, Fence);
      assert RemoveAll(t, Fence) == [t[0]] + RemoveAll(t[1..], Fence);
      if t[0] == '`' && |t| > 1 {
        var u := t[1..];
        assert u[0] == t[1] && t[1] != '`';
        assert !StartsWith(u, Fence);
        assert RemoveAll(u, Fence) == [u[0]] + RemoveAll(u[1..], Fence);
      }
    }
  }

  /** Deleting every code fence leaves no code fence behind: no occurrence is
      formed by the pieces around a deleted one. */
  lemma {:induction false} RemoveAllFencesLeavesNone(s: string)
    ensures !Includes(RemoveAll(s, Fence), Fence)
    decreases |s|
  {
    if |s| > 0 {
      if StartsWith(s, Fence) {
        RemoveAllFencesLeavesNone(s[|Fence|..]);
      } else {
        var t := s[1..];
        var rt := RemoveAll(t, Fence);
        RemoveAllFencesLeavesNone(t);
        assert RemoveAll(s, Fence) == [s[0]] + rt;
        assert ([s[0]] + rt)[1..] == rt;
        if s[0] == '`' {
          if |t| >= 2 {
            assert s[..3] == [s[0]] + t[..2];
          }
          NoDoubleBacktickCreated(t);
          if |rt| >= 2 {
            assert ([s[0]] + rt)[..3] == [s[0]] + rt[..2];
          }
        }
      }
    }
  }

  // ---------------------------------------------------------------------------
  // Number.prototype.toString for integers

  /** The decimal digit for `d`. */
  function DigitChar(d: int): (c: char)
    requires 0 <= d < 10
    ensures '0' <= c <= '9' && c as int - '0' as int == d
  {
    ('0' as int + d) as char
  }

  /** A string of decimal digits. */
  predicate IsDigits(s: string) {
    forall k :: 0 <= k < |s| ==> '0' <= s[k] <= '9'
  }

  /** The shortest decimal numeral of `n`: digits only, and a leading zero
      only for zero itself. */
  function NatToDecimal(n: nat): (r: string)
    ensures |r| >= 1 && IsDigits(r)
    ensures (r[0] == '0') == (n == 0)
    decreases n
  {
    if n < 10 then [DigitChar(n)] else NatToDecimal(n / 10) + [DigitChar(n % 10)]
  }

  /** The value a string of decimal digits denotes. */
  function DecimalValue(s: string): nat
    requires IsDigits(s)
    decreases |s|
  {
    if |s| == 0 then 0
    else DecimalValue(s[..|s| - 1]) * 10 + (s[|s| - 1] as int - '0' as int)
  }

  /** Reading back the numeral gives the number. */
  lemma {:induction false} DecimalRoundTrip(n: nat)
    ensures DecimalValue(NatToDecimal(n)) == n
    decreases n
  {
    var r := NatToDecimal(n);
    if n >= 10 {
      DecimalRoundTrip(n / 10);
      assert r[..|r| - 1] == NatToDecimal(n / 10);
    }
  }

  /** `String(n)` for an integer `n` with `|n| < 10^21`, below the bound where
      JavaScript switches to exponent form. */
  function NumberToString(n: int): (r: string)
    ensures |r| >= 1
    ensures n < 0 <==> r[0] == '-'
    ensures IsDigits(if n < 0 then r[1..] else r)
  {
    if n < 0 then "-" + NatToDecimal(-n) else NatToDecimal(n)
  }
}
