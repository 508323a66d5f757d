/**
  The Python string operations the script applies to directory and file
  names: `str.lower` (restricted to ASCII), the `in` operator on strings,
  `str.endswith` and `str.replace(pattern, "")`.
 */
module PyStrings {

  /** ASCII lower-casing of one character; other characters are unchanged. */
  function LowerChar(c: char): char
  {
    if 'A' <= c <= 'Z' then (c as int + 32) as char else c
  }

  /** `s.lower()`, character by character. */
  function Lower(s: string): string
  {
    seq(|s|, i requires 0 <= i < |s| => LowerChar(s[i]))
  }

  /** `lower()` leaves no upper-case letter, keeps every other character, and is idempotent. */
  lemma LowerIsLowerCase(s: string)
    ensures |Lower(s)| == |s|
    ensures forall i :: 0 <= i < |s| ==> !('A' <= Lower(s)[i] <= 'Z')
    ensures forall i :: 0 <= i < |s| && !('A' <= s[i] <= 'Z') ==> Lower(s)[i] == s[i]
    ensures Lower(Lower(s)) == Lower(s)
  {
    forall i | 0 <= i < |s| ensures Lower(Lower(s))[i] == Lower(s)[i] {
      assert !('A' <= Lower(s)[i] <= 'Z');
    }
  }

  /** Lower-casing a slice is slicing the lower-cased string. */
  lemma LowerSlice(s: string, i: int, j: int)
    requires 0 <= i <= j <= |s|
    ensures Lower(s)[i..j] == Lower(s[i..j])
  {
  }

  /** `sub` occurs in `s` starting at index `i`. */
  ghost predicate OccursAt(s: string, sub: string, i: int)
  {
    0 <= i && i + |sub| <= |s| && s[i..i + |sub|] == sub
  }

  /** `sub in s`: true when `sub` is a prefix of some suffix of `s` (so `"" in s` always holds). */
  predicate Contains(s: string, sub: string)
    decreases |s|
  {
    sub <= s || (|s| > 0 && Contains(s[1..], sub))
  }

  /** `s.endswith(suffix)`. */
  predicate EndsWith(s: string, suffix: string)
  {
    |suffix| <= |s| && s[|s| - |suffix|..] == suffix
  }

  /**
    `s.replace(pat, "")`: scans left to right, deletes each occurrence of
    `pat` and resumes after it, so occurrences never overlap. Python returns
    `s` unchanged when `pat` is empty.
   */
  function RemoveAll(s: string, pat: string): string
    decreases |s|
  {
    if pat == [] || |s| == 0 then s
    else if pat <= s then RemoveAll(s[|pat|..], pat)
    else [s[0]] + RemoveAll(s[1..], pat)
  }

  /** `s.count(pat)`: the occurrences `RemoveAll` deletes; `len(s) + 1` when `pat` is empty, as in Python. */
  function Count(s: string, pat: string): nat
    decreases |s|
  {
    if pat == [] then |s| + 1
    else if |s| == 0 then 0
    else if pat <= s then 1 + Count(s[|pat|..], pat)
    else Count(s[1..], pat)
  }

  /** `Contains` is exactly "occurs at some index". */
  lemma {:induction false} ContainsIff(s: string, sub: string)
    ensures Contains(s, sub) <==> exists i :: OccursAt(s, sub, i)
    decreases |s|
  {
    if sub <= s {
      assert OccursAt(s, sub, 0);
    } else if |s| > 0 {
      ContainsIff(s[1..], sub);
      if Contains(s[1..], sub) {
        var i :| OccursAt(s[1..], sub, i);
        assert s[1..][i..i + |sub|] == s[i + 1..i + 1 + |sub|];
        assert OccursAt(s, sub, i + 1);
      } else {
        forall i | 1 <= i && i + |sub| <= |s|
          ensures !OccursAt(s, sub, i)
        {
          assert s[1..][i - 1..i - 1 + |sub|] == s[i..i + |sub|];
          assert !OccursAt(s[1..], sub, i - 1);
        }
      }
    }
  }

  /** Deleting `Count` occurrences shortens the name by exactly that many copies of `pat`. */
  lemma {:induction false} RemoveAllLength(s: string, pat: string)
    ensures |RemoveAll(s, pat)| == |s| - Count(s, pat) * |pat|
    decreases |s|
  {
    if pat == [] || |s| == 0 {
    } else if pat <= s {
      var rest := s[|pat|..];
      RemoveAllLength(rest, pat);
      ShiftOneCopy(|rest|, Count(rest, pat), |pat|);
    } else {
      RemoveAllLength(s[1..], pat);
    }
  }

  /** The arithmetic step of `RemoveAllLength` when one more copy is deleted. */
  lemma ShiftOneCopy(restLength: int, c: nat, n: nat)
    ensures restLength - c * n == (restLength + n) - (1 + c) * n
  {
  }

  /** The count is zero exactly when the pattern does not occur. */
  lemma {:induction false} CountZeroIff(s: string, pat: string)
    ensures Count(s, pat) == 0 <==> !Contains(s, pat)
    decreases |s|
  {
    if pat == [] || |s| == 0 {
    } else if pat <= s {
    } else {
      CountZeroIff(s[1..], pat);
    }
  }

  /** A name in which `pat` does not occur passes through `RemoveAll` unchanged. */
  lemma {:induction false} RemoveAllAbsent(s: string, pat: string)
    requires !Contains(s, pat)
    ensures RemoveAll(s, pat) == s
    decreases |s|
  {
    if pat == [] || |s| == 0 {
    } else {
      assert !(pat <= s);
      RemoveAllAbsent(s[1..], pat);
      assert [s[0]] + s[1..] == s;
    }
  }

  /**
    The leftmost occurrence is the one deleted: when `pat` first occurs right
    after `a`, `RemoveAll` keeps `a`, drops that occurrence and resumes the
    scan after it.
   */
  lemma {:induction false} RemoveAllFirst(a: string, pat: string, b: string)
    requires pat != [] && !Contains(a + pat[..|pat| - 1], pat)
    ensures RemoveAll(a + pat + b, pat) == a + RemoveAll(b, pat)
    decreases |a|
  {
    var s := a + pat + b;
    if a == [] {
      assert s == pat + b;
      assert pat <= s && s[|pat|..] == b;
    } else {
      var early := a + pat[..|pat| - 1];
      assert !(pat <= s);
      assert early[1..] == a[1..] + pat[..|pat| - 1];
      assert s[1..] == a[1..] + pat + b;
      RemoveAllFirst(a[1..], pat, b);
      assert [s[0]] + (a[1..] + RemoveAll(b, pat)) == a + RemoveAll(b, pat);
    }
  }

  /** The result is never longer than the input, and strictly shorter when a non-empty pattern occurs. */
  lemma {:induction false} RemoveAllShrinks(s: string, pat: string)
    ensures |RemoveAll(s, pat)| <= |s|
    ensures pat != [] && Contains(s, pat) ==> |RemoveAll(s, pat)| <= |s| - |pat|
  {
    RemoveAllLength(s, pat);
    CountZeroIff(s, pat);
    if pat != [] {
      assert Count(s, pat) * |pat| >= 0;
      if Contains(s, pat) {
        assert Count(s, pat) >= 1;
        assert Count(s, pat) * |pat| >= |pat|;
      }
    }
  }

  /** Applying `RemoveAll` twice equals applying it once when `pat` does not occur in the name. */
  lemma RemoveAllIdempotentWhenAbsent(s: string, pat: string)
    requires !Contains(s, pat)
    ensures RemoveAll(RemoveAll(s, pat), pat) == RemoveAll(s, pat)
  {
    RemoveAllAbsent(s, pat);
  }

  /** Deleting one occurrence can join two halves into a new one: the result may still contain `pat`. */
  lemma RemovalCanCreateOccurrence()
    ensures RemoveAll("_ga_gameme", "_game") == "_game"
    ensures Contains(RemoveAll("_ga_gameme", "_game"), "_game")
    ensures RemoveAll(RemoveAll("_ga_gameme", "_game"), "_game") == ""
  {
    var p := "_game";
    assert "_ga_gameme"[3] != p[3] && "ga_gameme"[0] != p[0] && "a_gameme"[0] != p[0];
    assert p <= "_gameme";
    assert !(p <= "me") && !(p <= "e");
    calc {
      RemoveAll("_ga_gameme", p);
      "_" + RemoveAll("ga_gameme", p);
      "_g" + RemoveAll("a_gameme", p);
      "_ga" + RemoveAll("_gameme", p);
      "_ga" + RemoveAll("me", p);
      "_ga" + "m" + RemoveAll("e", p);
      "_ga" + "m" + "e" + RemoveAll("", p);
      "_game";
    }
    assert p <= "_game";
    assert RemoveAll("_game", p) == RemoveAll("", p) == "";
  }
}
