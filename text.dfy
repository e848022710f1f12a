/** String primitives the conversation manager relies on: ASCII `str.lower()`,
    the substring test `pat in s`, `any(w in s for w in words)` and `"\n".join`. */
module Text {

  predicate IsUpper(c: char) { 'A' <= c <= 'Z' }

  /** ASCII lower-casing of one character. */
  function LowerChar(c: char): (r: char)
    ensures IsUpper(c) ==> r as int == c as int + 32
    ensures !IsUpper(c) ==> r == c
  {
    if IsUpper(c) then (c as int + 32) as char else c
  }

  /** `s.lower()`, restricted to ASCII letters. */
  function Lower(s: string): (r: string)
    ensures |r| == |s|
    ensures forall i :: 0 <= i < |s| ==> r[i] == LowerChar(s[i])
  {
    if s == [] then [] else [LowerChar(s[0])] + Lower(s[1..])
  }

  /** Python's `pat in s` for strings: `pat` occurs somewhere in `s`
      (the empty string occurs everywhere). */
  predicate Contains(s: string, pat: string)
    decreases |s|
  {
    pat <= s || (s != [] && Contains(s[1..], pat))
  }

  /** `pat` occurs in `s` starting at index `i`. */
  predicate OccursAt(s: string, pat: string, i: int)
  {
    0 <= i && i + |pat| <= |s| && s[i..i + |pat|] == pat
  }

  /** An occurrence found by the scan has a position. */
  lemma {:induction false} ContainsOccurs(s: string, pat: string)
    requires Contains(s, pat)
    ensures exists i :: OccursAt(s, pat, i)
    decreases |s|
  {
    if pat <= s {
      assert OccursAt(s, pat, 0);
    } else {
      ContainsOccurs(s[1..], pat);
      var i :| OccursAt(s[1..], pat, i);
      assert s[i + 1..i + 1 + |pat|] == s[1..][i..i + |pat|];
      assert OccursAt(s, pat, i + 1);
    }
  }

  /** The scan finds every occurrence. */
  lemma {:induction false} OccursContains(s: string, pat: string, i: int)
    requires OccursAt(s, pat, i)
    ensures Contains(s, pat)
    decreases i
  {
    if i == 0 {
      assert pat <= s;
    } else {
      assert s[1..][i - 1..i - 1 + |pat|] == s[i..i + |pat|];
      OccursContains(s[1..], pat, i - 1);
    }
  }

  /** The scan `Contains` agrees with the positional definition of a substring. */
  lemma ContainsIff(s: string, pat: string)
    ensures Contains(s, pat) <==> exists i :: OccursAt(s, pat, i)
  {
    if Contains(s, pat) {
      ContainsOccurs(s, pat);
    }
    if exists i :: OccursAt(s, pat, i) {
      var i :| OccursAt(s, pat, i);
      OccursContains(s, pat, i);
    }
  }

  /** Every character of a pattern that occurs in `s` is a character of `s`. */
  lemma ContainsChar(s: string, pat: string, i: nat)
    requires i < |pat|
    ensures Contains(s, pat) ==> pat[i] in s
  {
    ContainsIff(s, pat);
    if Contains(s, pat) {
      var k :| OccursAt(s, pat, k);
      assert s[k + i] == pat[i];
    }
  }

  /** Two positions of a pattern that occurs in `s` land on two positions of `s`. */
  lemma ContainsTwoChars(s: string, pat: string, i: nat, j: nat)
    requires i < j < |pat|
    ensures Contains(s, pat) ==> exists p, q :: 0 <= p < q < |s| && s[p] == pat[i] && s[q] == pat[j]
  {
    ContainsIff(s, pat);
    if Contains(s, pat) {
      var k :| OccursAt(s, pat, k);
      assert s[k + i] == pat[i] && s[k + j] == pat[j];
    }
  }

  /** `any(w in s for w in words)`. */
  predicate ContainsAny(s: string, words: seq<string>)
  {
    exists w :: w in words && Contains(s, w)
  }

  /** A list of strings without repetitions. */
  predicate NoDup<T(==)>(s: seq<T>)
  {
    forall i, j :: 0 <= i < j < |s| ==> s[i] != s[j]
  }

  /** `sep.join(lines)`. */
  function Join(lines: seq<string>, sep: string): (r: string)
    ensures lines == [] ==> r == []
    ensures |lines| == 1 ==> r == lines[0]
    ensures lines != [] ==> lines[0] <= r
  {
    if lines == [] then []
    else if |lines| == 1 then lines[0]
    else lines[0] + sep + Join(lines[1..], sep)
  }

  /** Joining one more line appends the separator and that line. */
  lemma {:induction false} JoinSnoc(lines: seq<string>, x: string, sep: string)
    requires lines != []
    ensures Join(lines + [x], sep) == Join(lines, sep) + sep + x
  {
    if |lines| > 1 {
      assert (lines + [x])[1..] == lines[1..] + [x];
      JoinSnoc(lines[1..], x, sep);
    } else {
      assert (lines + [x])[1..] == [x];
    }
  }
}
