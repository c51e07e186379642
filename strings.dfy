/**
 * The handful of Python `str` operations the build script relies on:
 * `startswith`, `endswith`, substring `in`, `replace`, `sep.join` and
 * `split(sep)`, each with the edge cases Python gives it.
 */
module PyStr {

  /** `s.startswith(p)` */
  predicate StartsWith(s: string, p: string) {
    p <= s
  }

  /** `s.endswith(p)` */
  predicate EndsWith(s: string, p: string) {
    |p| <= |s| && s[|s| - |p|..] == p
  }

  /** `pat in s` for two strings: `pat` is a contiguous slice of `s` (the empty string is in every string). */
  predicate IsInfix(pat: string, s: string)
    decreases |s|
  {
    StartsWith(s, pat) || (s != [] && IsInfix(pat, s[1..]))
  }

  /**
   * `s.replace(pat, rep)`: scans left to right and replaces every
   * non-overlapping occurrence of `pat`; an empty `pat` puts `rep` before
   * every character and once more at the end.
   * A replacement that is no longer than the pattern never lengthens the
   * string, and one that is no shorter never shortens it.
   */
  function ReplaceAll(s: string, pat: string, rep: string): (r: string)
    ensures |rep| <= |pat| ==> |r| <= |s|
    ensures |rep| >= |pat| ==> |r| >= |s|
    ensures pat == [] ==> |r| >= |s| + |rep|
    decreases |s|
  {
    if pat == [] then
      if s == [] then rep else rep + [s[0]] + ReplaceAll(s[1..], pat, rep)
    else if StartsWith(s, pat) then
      rep + ReplaceAll(s[|pat|..], pat, rep)
    else if s == [] then
      []
    else
      [s[0]] + ReplaceAll(s[1..], pat, rep)
  }

  /** `sep.join(ws)` for a one-character separator. */
  function JoinWith(sep: char, ws: seq<string>): string {
    if ws == [] then []
    else if |ws| == 1 then ws[0]
    else ws[0] + [sep] + JoinWith(sep, ws[1..])
  }

  /**
   * `s.split(sep)` with an explicit one-character separator: empty fields
   * are kept, so the result always has one more element than `s` has
   * separators, and is never empty.
   */
  function Split(s: string, sep: char): (r: seq<string>)
    ensures |r| >= 1
    ensures forall i :: 0 <= i < |r| ==> sep !in r[i]
    decreases |s|
  {
    if s == [] then
      [[]]
    else
      var rest := Split(s[1..], sep);
      if s[0] == sep then [[]] + rest else [[s[0]] + rest[0]] + rest[1..]
  }

  /** A string that contains `pat` contains every character of `pat`. */
  lemma {:induction false} InfixHasChars(pat: string, s: string, c: char)
    requires IsInfix(pat, s) && c in pat
    ensures c in s
    decreases |s|
  {
    if StartsWith(s, pat) {
      var i :| 0 <= i < |pat| && pat[i] == c;
      assert s[i] == c;
    } else {
      InfixHasChars(pat, s[1..], c);
      var j :| 0 <= j < |s[1..]| && s[1..][j] == c;
      assert s[j + 1] == c;
    }
  }

  /** Every string of the form `x + pat + y` contains `pat`. */
  lemma {:induction false} InfixOfConcat(x: string, pat: string, y: string)
    ensures IsInfix(pat, x + pat + y)
    decreases |x|
  {
    if x == [] {
      assert x + pat + y == pat + y;
    } else {
      InfixOfConcat(x[1..], pat, y);
      assert (x + pat + y)[1..] == x[1..] + pat + y;
    }
  }

  /** Replacing a pattern with itself changes nothing. */
  lemma {:induction false} ReplaceWithSelf(s: string, pat: string)
    ensures ReplaceAll(s, pat, pat) == s
    decreases |s|
  {
    if pat == [] {
      if s != [] {
        ReplaceWithSelf(s[1..], pat);
        assert s == [s[0]] + s[1..];
      }
    } else if StartsWith(s, pat) {
      ReplaceWithSelf(s[|pat|..], pat);
      assert s == pat + s[|pat|..];
    } else if s != [] {
      ReplaceWithSelf(s[1..], pat);
      assert s == [s[0]] + s[1..];
    }
  }

  /** `pat` occurs in `s` starting at index `i`. */
  predicate OccursAt(pat: string, s: string, i: nat) {
    i + |pat| <= |s| && s[i..i + |pat|] == pat
  }

  /** `IsInfix` agrees with the positional reading of `pat in s`: some index of `s` starts an occurrence of `pat`. */
  lemma {:induction false} IsInfixIff(pat: string, s: string)
    ensures IsInfix(pat, s) <==> exists i: nat :: OccursAt(pat, s, i)
    decreases |s|
  {
    if IsInfix(pat, s) {
      if StartsWith(s, pat) {
        assert OccursAt(pat, s, 0);
      } else {
        IsInfixIff(pat, s[1..]);
        var j: nat :| OccursAt(pat, s[1..], j);
        assert s[j + 1..j + 1 + |pat|] == s[1..][j..j + |pat|];
        assert OccursAt(pat, s, j + 1);
      }
    }
    if exists i: nat :: OccursAt(pat, s, i) {
      var i: nat :| OccursAt(pat, s, i);
      assert s == s[..i] + pat + s[i + |pat|..];
      InfixOfConcat(s[..i], pat, s[i + |pat|..]);
    }
  }

  /** A string that does not contain the pattern comes back unchanged. */
  lemma {:induction false} ReplaceAbsent(s: string, pat: string, rep: string)
    requires !IsInfix(pat, s)
    ensures ReplaceAll(s, pat, rep) == s
    decreases |s|
  {
    if s != [] {
      ReplaceAbsent(s[1..], pat, rep);
      assert s == [s[0]] + s[1..];
    }
  }

  /** A string that contains the pattern changes, unless the replacement is the pattern itself. */
  lemma {:induction false} ReplacePresent(s: string, pat: string, rep: string)
    requires IsInfix(pat, s) && rep != pat
    ensures ReplaceAll(s, pat, rep) != s
    decreases |s|
  {
    var r := ReplaceAll(s, pat, rep);
    if StartsWith(s, pat) {
      if |rep| == |pat| {
        if pat == [] {
          assert false;
        } else {
          assert r[..|rep|] == rep;
          assert s[..|pat|] == pat;
        }
      } else if pat == [] {
        assert |r| >= |s| + |rep|;
      } else {
        var rest := s[|pat|..];
        assert |r| == |rep| + |ReplaceAll(rest, pat, rep)|;
        assert |s| == |pat| + |rest|;
      }
    } else {
      ReplacePresent(s[1..], pat, rep);
      assert pat != [];
      assert r == [s[0]] + ReplaceAll(s[1..], pat, rep);
      assert r[1..] == ReplaceAll(s[1..], pat, rep);
    }
  }

  /** `s.replace(pat, rep) == s` exactly when `pat` is not in `s` or `rep` is `pat`. */
  lemma ReplaceUnchangedIff(s: string, pat: string, rep: string)
    ensures ReplaceAll(s, pat, rep) == s <==> (!IsInfix(pat, s) || rep == pat)
  {
    if rep == pat {
      ReplaceWithSelf(s, pat);
    } else if IsInfix(pat, s) {
      ReplacePresent(s, pat, rep);
    } else {
      ReplaceAbsent(s, pat, rep);
    }
  }

  /** Splitting a field that holds no separator, followed by anything, yields that field joined to the first field of the rest. */
  lemma {:induction false} SplitField(w: string, t: string, sep: char)
    requires sep !in w
    ensures Split(w + t, sep) == [w + Split(t, sep)[0]] + Split(t, sep)[1..]
    decreases |w|
  {
    var r := Split(t, sep);
    if w != [] {
      SplitField(w[1..], t, sep);
      assert (w + t)[1..] == w[1..] + t;
      assert (w + t)[0] == w[0] != sep;
      assert [w[0]] + (w[1..] + r[0]) == w + r[0];
    } else {
      assert w + t == t;
      assert w + r[0] == r[0];
      assert r == [r[0]] + r[1..];
    }
  }

  /** `sep.join(ws).split(sep) == ws` when no word holds the separator and there is at least one word. */
  lemma {:induction false} SplitJoin(ws: seq<string>, sep: char)
    requires ws != []
    requires forall i :: 0 <= i < |ws| ==> sep !in ws[i]
    ensures Split(JoinWith(sep, ws), sep) == ws
    decreases |ws|
  {
    if |ws| == 1 {
      SplitField(ws[0], [], sep);
      assert ws[0] + [] == ws[0];
    } else {
      var tail := JoinWith(sep, ws[1..]);
      SplitJoin(ws[1..], sep);
      SplitField(ws[0], [sep] + tail, sep);
      assert ws[0] + [sep] + tail == ws[0] + ([sep] + tail);
      assert ([sep] + tail)[1..] == tail;
      assert Split([sep] + tail, sep) == [[]] + ws[1..];
      assert ws[0] + [] == ws[0];
    }
  }
}
