/** Small result types shared by every module. */
module Base {
  datatype Option<+T> = None | Some(value: T)

  /** Go errors, by where they come from. NotFound is the sentinel ErrNotFound; Wrapped is an error
      that only carries the text of another one. */
  datatype Error = NotFound | NoBytes | Undecodable | Unregistered | Wrapped(cause: Error)

  datatype Fallible<+T> = Ok(value: T) | Err(error: Error)

  predicate HasPrefix(s: string, prefix: string) {
    |prefix| <= |s| && s[..|prefix|] == prefix
  }

  /** The first place of c in s, or the length of s. */
  function IndexOf(s: string, c: char): (i: nat)
    ensures i <= |s| && (i < |s| ==> s[i] == c) && forall k :: 0 <= k < i ==> s[k] != c
  {
    if s == "" || s[0] == c then 0 else 1 + IndexOf(s[1..], c)
  }

  /** What comes before the first c, and what comes after it. */
  function SplitAt(s: string, c: char): Option<(string, string)> {
    var i := IndexOf(s, c);
    if i < |s| then Some((s[..i], s[i + 1..])) else None
  }

  lemma SplitAtFirst(a: string, c: char, b: string)
    requires c !in a
    ensures SplitAt(a + ([c] + b), c) == Some((a, b))
  {
    var s := a + ([c] + b);
    assert forall k :: 0 <= k < |a| ==> s[k] == a[k];
    assert s[|a|] == c;
    assert IndexOf(s, c) == |a|;
    assert s[..|a|] == a && s[|a| + 1..] == b;
  }

  /** A part that holds the separator is cut short. */
  lemma SplitAtEarlier(a: string, c: char, b: string)
    requires c in a
    ensures SplitAt(a + ([c] + b), c).Some? && SplitAt(a + ([c] + b), c).value.0 != a
  {
    var s := a + ([c] + b);
    var k :| 0 <= k < |a| && a[k] == c;
    assert s[k] == c;
    assert IndexOf(s, c) <= k;
    assert |s[..IndexOf(s, c)]| < |a|;
  }
}
