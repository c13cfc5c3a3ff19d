/** Small facts about strings shared by the request builders and the event names. */
module Text {

  predicate StartsWith(s: string, prefix: string) {
    |prefix| <= |s| && s[..|prefix|] == prefix
  }

  predicate EndsWith(s: string, suffix: string) {
    |suffix| <= |s| && s[|s| - |suffix|..] == suffix
  }

  /** Splits `s` at the first occurrence of `c`: the text before it and the text after it.
      When `c` does not occur, the whole of `s` comes first and nothing after. */
  function Split(s: string, c: char): (r: (string, string))
    ensures c !in r.0
    ensures |r.1| <= |s| && (|s| > 0 ==> |r.1| < |s|)
    ensures r.0 == s || s == r.0 + [c] + r.1
    ensures c !in s ==> r == (s, "")
  {
    if s == [] then ([], [])
    else if s[0] == c then ([], s[1..])
    else
      var (before, after) := Split(s[1..], c);
      assert s == [s[0]] + s[1..];
      ([s[0]] + before, after)
  }

  /** Splitting the joined text at the separator recovers both parts, provided the
      first part does not contain the separator. */
  lemma {:induction false} SplitJoin(a: string, b: string, c: char)
    requires c !in a
    ensures Split(a + [c] + b, c) == (a, b)
  {
    if a != [] {
      var s := a + [c] + b;
      assert s[0] == a[0] && a[0] != c;
      assert s[1..] == a[1..] + [c] + b;
      SplitJoin(a[1..], b, c);
      assert [a[0]] + a[1..] == a;
    } else {
      assert a + [c] + b == [c] + b;
    }
  }
}
