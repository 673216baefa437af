/** The two functions of Go's `strings` package the resolver relies on:
    `SplitN(s, sep, 2)` for a one-character separator and `HasPrefix`. */
module Strings {
  import opened Wrappers
  import opened Sequences

  /** The index of the first occurrence of `c` in `s`. */
  function IndexOf(s: string, c: char): (r: Option<nat>)
    ensures r.Some? ==> r.value < |s| && s[r.value] == c && c !in s[..r.value]
    ensures r.None? ==> c !in s
  {
    var i := FirstIndex(s, (x: char) => x == c);
    assert i.Some? ==> forall k :: 0 <= k < i.value ==> s[..i.value][k] != c;
    i
  }

  /** `strings.SplitN(s, [sep], 2)`: the whole string when `sep` does not occur
      in it, otherwise the text before the first `sep` and everything after it. */
  function SplitFirst(s: string, sep: char): (parts: seq<string>)
    ensures |parts| == 1 || |parts| == 2
    ensures |parts| == 1 <==> sep !in s
    ensures |parts| == 1 ==> parts[0] == s
    ensures |parts| == 2 ==> sep !in parts[0] && s == parts[0] + [sep] + parts[1]
  {
    match IndexOf(s, sep)
    case None => [s]
    case Some(i) => [s[..i], s[i + 1..]]
  }

  /** Splitting is the inverse of joining at a separator the first part lacks:
      whatever follows the first `sep`, further separators included, stays in
      the second part. */
  lemma {:induction false} SplitFirstUnique(s: string, sep: char, before: string, after: string)
    requires sep !in before
    requires s == before + [sep] + after
    ensures SplitFirst(s, sep) == [before, after]
  {
    assert s[|before|] == sep;
    var parts := SplitFirst(s, sep);
    assert |parts| == 2;
    var n := |parts[0]|;
    assert parts[0] == s[..n] == before;
    assert parts[1] == s[n + 1..] == after;
  }

  /** `strings.HasPrefix(s, prefix)`. */
  predicate HasPrefix(s: string, prefix: string)
  {
    |prefix| <= |s| && s[..|prefix|] == prefix
  }

  /** For a word without the separator, "starts with word and separator" is the
      same as "splits into two parts, the first of which is word". */
  lemma HasPrefixIffSplit(s: string, word: string, sep: char)
    requires sep !in word
    ensures HasPrefix(s, word + [sep])
        <==> |SplitFirst(s, sep)| == 2 && SplitFirst(s, sep)[0] == word
  {
    if HasPrefix(s, word + [sep]) {
      var n := |word| + 1;
      assert s == s[..n] + s[n..];
      assert s[..n] == word + [sep];
      SplitFirstUnique(s, sep, word, s[n..]);
    }
  }
}
