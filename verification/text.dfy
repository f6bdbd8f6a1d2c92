/**
 The string operations behind the read-only gate:
 `sql.trim().toLowerCase().startsWith('select')`.
 */
module Text {

  /** The characters `String.prototype.trim` removes: ECMAScript's
      WhiteSpace (tab, vertical tab, form feed, space, no-break space,
      byte order mark and the Unicode space separators) and LineTerminator
      (line feed, carriage return, line and paragraph separators). */
  predicate IsJsWhitespace(c: char) {
    || c == '\t' || c == '\n' || c == '\U{000B}' || c == '\U{000C}' || c == '\r'
    || c == ' ' || c == '\U{00A0}' || c == '\U{1680}'
    || ('\U{2000}' <= c <= '\U{200A}')
    || c == '\U{2028}' || c == '\U{2029}' || c == '\U{202F}' || c == '\U{205F}'
    || c == '\U{3000}' || c == '\U{FEFF}'
  }

  /** Number of whitespace characters `s` starts with. */
  function LeadingWhitespace(s: string): (k: nat)
    ensures k <= |s|
    ensures forall i :: 0 <= i < k ==> IsJsWhitespace(s[i])
    ensures k < |s| ==> !IsJsWhitespace(s[k])
    decreases |s|
  {
    if |s| > 0 && IsJsWhitespace(s[0]) then 1 + LeadingWhitespace(s[1..]) else 0
  }

  /** Number of whitespace characters `s` ends with. */
  function TrailingWhitespace(s: string): (k: nat)
    ensures k <= |s|
    ensures forall i :: |s| - k <= i < |s| ==> IsJsWhitespace(s[i])
    ensures k < |s| ==> !IsJsWhitespace(s[|s| - k - 1])
    decreases |s|
  {
    if |s| > 0 && IsJsWhitespace(s[|s| - 1]) then 1 + TrailingWhitespace(s[..|s| - 1]) else 0
  }

  /** `s.trim()`: the part of `s` between its leading and its trailing
      whitespace. */
  function Trim(s: string): (r: string)
    ensures LeadingWhitespace(s) + |r| <= |s|
    ensures r == s[LeadingWhitespace(s)..LeadingWhitespace(s) + |r|]
    ensures forall i :: 0 <= i < LeadingWhitespace(s) ==> IsJsWhitespace(s[i])
    ensures forall i :: LeadingWhitespace(s) + |r| <= i < |s| ==> IsJsWhitespace(s[i])
    ensures |r| > 0 ==> !IsJsWhitespace(r[0]) && !IsJsWhitespace(r[|r| - 1])
  {
    var start := s[LeadingWhitespace(s)..];
    start[..|start| - TrailingWhitespace(start)]
  }

  /** `toLowerCase` on one character, for the ASCII letters. */
  function LowerChar(c: char): char {
    if 'A' <= c <= 'Z' then (c as int - 'A' as int + 'a' as int) as char else c
  }

  /** `s.toLowerCase()`, ASCII letters only: every capital moves 32 code
      points down to its small letter, every other character stays, and no
      capital is left. */
  function Lower(s: string): (r: string)
    ensures |r| == |s|
    ensures forall i :: 0 <= i < |s| ==> r[i] == LowerChar(s[i])
    ensures forall i :: 0 <= i < |s| && 'A' <= s[i] <= 'Z' ==> r[i] as int == s[i] as int + 32
    ensures forall i :: 0 <= i < |s| && !('A' <= s[i] <= 'Z') ==> r[i] == s[i]
    ensures forall i :: 0 <= i < |r| ==> !('A' <= r[i] <= 'Z')
  {
    seq(|s|, i requires 0 <= i < |s| => LowerChar(s[i]))
  }

  /** Lower-casing twice is lower-casing once. */
  lemma LowerIdempotent(s: string)
    ensures Lower(Lower(s)) == Lower(s)
  {
  }

  predicate StartsWith(s: string, prefix: string) {
    |prefix| <= |s| && s[..|prefix|] == prefix
  }

  /** The read-only gate: does the statement, trimmed and lower-cased,
      start with "select"? */
  predicate IsSelect(sql: string) {
    StartsWith(Lower(Trim(sql)), "select")
  }

  /** Whitespace in front of a statement adds to its leading whitespace. */
  lemma {:induction false} LeadingWhitespaceOfPrefixed(ws: string, s: string)
    requires forall i :: 0 <= i < |ws| ==> IsJsWhitespace(ws[i])
    ensures LeadingWhitespace(ws + s) == |ws| + LeadingWhitespace(s)
    decreases |ws|
  {
    if |ws| > 0 {
      assert IsJsWhitespace((ws + s)[0]) by { assert (ws + s)[0] == ws[0]; }
      assert (ws + s)[1..] == ws[1..] + s;
      assert forall i :: 0 <= i < |ws[1..]| ==> IsJsWhitespace(ws[1..][i]) by {
        forall i | 0 <= i < |ws[1..]| ensures IsJsWhitespace(ws[1..][i]) {
          assert ws[1..][i] == ws[i + 1];
        }
      }
      LeadingWhitespaceOfPrefixed(ws[1..], s);
    } else {
      assert ws + s == s;
    }
  }

  /** Whitespace in front of a statement is invisible to `Trim`. */
  lemma TrimSkipsLeadingWhitespace(ws: string, s: string)
    requires forall i :: 0 <= i < |ws| ==> IsJsWhitespace(ws[i])
    ensures Trim(ws + s) == Trim(s)
  {
    LeadingWhitespaceOfPrefixed(ws, s);
    var k := LeadingWhitespace(s);
    assert (ws + s)[|ws| + k..] == s[k..];
  }

  /** Two strings with whitespace at the same positions are trimmed at the
      same positions. */
  lemma SameWhitespaceSameTrim(s: string, t: string)
    requires |s| == |t|
    requires forall i :: 0 <= i < |s| ==> (IsJsWhitespace(s[i]) <==> IsJsWhitespace(t[i]))
    ensures LeadingWhitespace(s) == LeadingWhitespace(t)
    ensures |Trim(s)| == |Trim(t)|
  {
    var a := LeadingWhitespace(s);
    var u, v := s[a..], t[a..];
    assert forall i :: 0 <= i < |u| ==> (IsJsWhitespace(u[i]) <==> IsJsWhitespace(v[i])) by {
      forall i | 0 <= i < |u| ensures IsJsWhitespace(u[i]) <==> IsJsWhitespace(v[i]) {
        assert u[i] == s[a + i] && v[i] == t[a + i];
      }
    }
  }

  /** Lower-casing never turns a non-whitespace character into whitespace
      or back, so characters that lower-case alike agree on whitespace. */
  lemma LowerKeepsWhitespace(c: char, d: char)
    requires LowerChar(c) == LowerChar(d)
    ensures IsJsWhitespace(c) <==> IsJsWhitespace(d)
  {
  }

  /** Strings that lower-case alike have whitespace at the same positions. */
  lemma LowerAlikeSameWhitespace(s: string, t: string)
    requires Lower(s) == Lower(t)
    ensures |s| == |t|
    ensures forall i :: 0 <= i < |s| ==> (IsJsWhitespace(s[i]) <==> IsJsWhitespace(t[i]))
  {
    forall i | 0 <= i < |s| ensures IsJsWhitespace(s[i]) <==> IsJsWhitespace(t[i]) {
      assert Lower(s)[i] == Lower(t)[i];
      LowerKeepsWhitespace(s[i], t[i]);
    }
  }

  /** Lower-casing a slice is slicing the lower-cased text. */
  lemma LowerSlice(s: string, a: nat, b: nat)
    requires a <= b <= |s|
    ensures Lower(s[a..b]) == Lower(s)[a..b]
  {
  }

  /** The gate is case-insensitive: statements that lower-case to the same
      text are either both let through or both refused. */
  lemma IsSelectIgnoresCase(s: string, t: string)
    requires Lower(s) == Lower(t)
    ensures IsSelect(s) <==> IsSelect(t)
  {
    LowerAlikeSameWhitespace(s, t);
    SameWhitespaceSameTrim(s, t);
    var a, n := LeadingWhitespace(s), |Trim(s)|;
    LowerSlice(s, a, a + n);
    LowerSlice(t, a, a + n);
    assert Lower(Trim(s)) == Lower(Trim(t));
  }

  /** The gate ignores leading whitespace. */
  lemma IsSelectIgnoresLeadingWhitespace(ws: string, s: string)
    requires forall i :: 0 <= i < |ws| ==> IsJsWhitespace(ws[i])
    ensures IsSelect(ws + s) <==> IsSelect(s)
  {
    TrimSkipsLeadingWhitespace(ws, s);
  }

  /** Lower-casing a prefix is taking a prefix of the lower-cased text. */
  lemma LowerPrefix(s: string, n: nat)
    requires n <= |s|
    ensures Lower(s)[..n] == Lower(s[..n])
  {
  }

  /** A word that lower-cases to "select" holds no whitespace. */
  lemma SelectHasNoWhitespace(w: string)
    requires |w| >= 6 && Lower(w[..6]) == "select"
    ensures forall i :: 0 <= i < 6 ==> !IsJsWhitespace(w[i])
  {
    forall i | 0 <= i < 6 ensures !IsJsWhitespace(w[i]) {
      assert Lower(w[..6])[i] == LowerChar(w[i]);
      LowerKeepsWhitespace(w[i], "select"[i]);
    }
  }

  /** A statement passes the gate exactly when its first six characters
      after the leading whitespace spell "select" in some mix of cases. */
  lemma IsSelectByFirstWord(sql: string)
    ensures IsSelect(sql) <==>
      (var rest := sql[LeadingWhitespace(sql)..];
       |rest| >= 6 && Lower(rest[..6]) == "select")
  {
    var a := LeadingWhitespace(sql);
    var rest, r := sql[a..], Trim(sql);
    assert r == rest[..|r|];
    if |rest| >= 6 && Lower(rest[..6]) == "select" {
      SelectHasNoWhitespace(rest);
      // the sixth character is not trailing whitespace, so trimming keeps all six
      assert sql[a + 5] == rest[5];
      assert r[..6] == rest[..6];
      LowerPrefix(r, 6);
    }
    if IsSelect(sql) {
      LowerPrefix(r, 6);
      assert r[..6] == rest[..6];
    }
  }

  /** For a statement that does not start with whitespace, the gate looks
      at its first six characters only. */
  lemma IsSelectUnindented(sql: string)
    requires |sql| == 0 || !IsJsWhitespace(sql[0])
    ensures IsSelect(sql) <==> |sql| >= 6 && Lower(sql[..6]) == "select"
  {
    IsSelectByFirstWord(sql);
    assert sql[0..] == sql;
  }
}
