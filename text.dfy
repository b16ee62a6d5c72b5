/**
 * The three pieces of Go's `strings` package that the normaliser relies on:
 * `strings.Cut`, `strings.LastIndex` with a one-character needle, and
 * `strings.ToLower`, the last restricted to ASCII letters.
 */
module Text {

  /** `sep` occurs in `s` starting at index `i`. */
  predicate OccursAt(s: string, sep: string, i: int) {
    0 <= i && i + |sep| <= |s| && s[i..i + |sep|] == sep
  }

  /** `sep` occurs somewhere in `s`. */
  predicate Contains(s: string, sep: string) {
    exists i | 0 <= i <= |s| :: OccursAt(s, sep, i)
  }

  /** The first index at or after `from` where `sep` occurs in `s`, or -1. */
  function IndexFrom(s: string, sep: string, from: nat): (r: int)
    ensures r == -1 || (from <= r && OccursAt(s, sep, r))
    ensures forall j :: from <= j && (r == -1 || j < r) ==> !OccursAt(s, sep, j)
    decreases |s| + 1 - from
  {
    if from + |sep| > |s| then -1
    else if s[from..from + |sep|] == sep then from
    else IndexFrom(s, sep, from + 1)
  }

  /** An occurrence of `sep` inside a prefix of `s` is an occurrence in `s`. */
  lemma OccursInPrefix(s: string, sep: string, n: nat, i: int)
    requires n <= |s|
    requires OccursAt(s[..n], sep, i)
    ensures OccursAt(s, sep, i) && i + |sep| <= n
  {
    assert s[..n][i..i + |sep|] == s[i..i + |sep|];
  }

  datatype CutResult = CutResult(before: string, after: string, found: bool)

  /**
   * `strings.Cut(s, sep)`: the text around the FIRST occurrence of `sep`,
   * or `(s, "", false)` when there is none.  That the occurrence is the
   * first one, and that a miss means there is none, is `CutFirst`.
   */
  function Cut(s: string, sep: string): (r: CutResult)
    ensures r.found ==> s == r.before + sep + r.after
    ensures !r.found ==> r == CutResult(s, "", false)
  {
    var i := IndexFrom(s, sep, 0);
    if i < 0 then CutResult(s, "", false)
    else
      assert s == s[..i] + s[i..i + |sep|] + s[i + |sep|..];
      CutResult(s[..i], s[i + |sep|..], true)
  }

  /**
   * `Cut` splits at the first occurrence: no earlier index starts one, the
   * part before it does not contain `sep`, and `found` is false exactly
   * when `sep` does not occur at all.
   */
  lemma CutFirst(s: string, sep: string)
    ensures Cut(s, sep).found ==> forall j :: 0 <= j < |Cut(s, sep).before| ==> !OccursAt(s, sep, j)
    ensures Cut(s, sep).found && sep != "" ==> !Contains(Cut(s, sep).before, sep)
    ensures !Cut(s, sep).found <==> !Contains(s, sep)
  {
    var i := IndexFrom(s, sep, 0);
    if 0 <= i {
      assert OccursAt(s, sep, i);
      if sep != "" {
        forall j | 0 <= j <= i && OccursAt(s[..i], sep, j) ensures false {
          OccursInPrefix(s, sep, i, j);
        }
      }
    }
  }

  /** When `i` is the first index where `sep` occurs, `Cut` splits there. */
  lemma CutAt(s: string, sep: string, i: nat)
    requires OccursAt(s, sep, i)
    requires forall j :: 0 <= j < i ==> !OccursAt(s, sep, j)
    ensures Cut(s, sep) == CutResult(s[..i], s[i + |sep|..], true)
  {
    CutFirst(s, sep);
  }


  /** The index of the last `c` among the first `n` characters of `s`, or -1. */
  function LastIndexBelow(s: string, c: char, n: nat): (r: int)
    requires n <= |s|
    ensures -1 <= r < n
    ensures 0 <= r ==> s[r] == c
    ensures forall j :: r < j < n ==> s[j] != c
    decreases n
  {
    if n == 0 then -1
    else if s[n - 1] == c then n - 1
    else LastIndexBelow(s, c, n - 1)
  }

  /** `strings.LastIndex(s, string(c))`: the index of the last `c` in `s`, or -1. */
  function LastIndex(s: string, c: char): (r: int)
    ensures -1 <= r < |s|
    ensures r == -1 <==> c !in s
    ensures 0 <= r ==> s[r] == c && c !in s[r + 1..]
  {
    var r := LastIndexBelow(s, c, |s|);
    assert c in s ==> 0 <= r by {
      if c in s {
        var k :| 0 <= k < |s| && s[k] == c;
      }
    }
    r
  }

  /** ASCII lowercasing of one character; every other character is kept. */
  function LowerChar(c: char): (d: char)
    ensures !('A' <= d <= 'Z')
    ensures 'a' <= c <= 'z' || !('A' <= c <= 'Z') ==> d == c
    ensures 'A' <= c <= 'Z' ==> d as int == c as int - 'A' as int + 'a' as int
  {
    if 'A' <= c <= 'Z' then (c as int - 'A' as int + 'a' as int) as char else c
  }

  /** `strings.ToLower`, restricted to ASCII letters. */
  function Lower(s: string): (r: string)
    ensures |r| == |s|
    decreases |s|
  {
    if |s| == 0 then [] else [LowerChar(s[0])] + Lower(s[1..])
  }

  /** Lowercasing works character by character. */
  lemma {:induction false} LowerAt(s: string, i: nat)
    requires i < |s|
    ensures Lower(s)[i] == LowerChar(s[i])
    decreases |s|
  {
    if i > 0 {
      LowerAt(s[1..], i - 1);
    }
  }

  /** Lowercasing twice is lowercasing once. */
  lemma {:induction false} LowerIdempotent(s: string)
    ensures Lower(Lower(s)) == Lower(s)
    decreases |s|
  {
    if |s| > 0 {
      var r := Lower(s);
      assert r[1..] == Lower(s[1..]);
      LowerIdempotent(s[1..]);
    }
  }

  /** A lowercased text contains no upper-case ASCII letter. */
  lemma LowerHasNoUpper(s: string)
    ensures forall i :: 0 <= i < |Lower(s)| ==> !('A' <= Lower(s)[i] <= 'Z')
  {
    forall i | 0 <= i < |Lower(s)| ensures !('A' <= Lower(s)[i] <= 'Z') {
      LowerAt(s, i);
    }
  }
}
