/** The few string operations of Go's `strings` package the components use. */
module Text {
  import opened Values

  /** `strings.Cut(s, c)`: the text before and after the first `c`. */
  function Cut(s: string, c: char): Option<(string, string)> {
    if s == "" then None
    else if s[0] == c then Some(("", s[1..]))
    else match Cut(s[1..], c)
      case None => None
      case Some((before, after)) => Some(([s[0]] + before, after))
  }

  /** `strings.Split(s, c)`: never empty, and one part more than there are separators. */
  function Split(s: string, c: char): (parts: seq<string>)
    ensures parts != []
    decreases |s|
  {
    match Cut(s, c)
    case None => [s]
    case Some((before, after)) =>
      CutIsFirst(s, c);
      [before] + Split(after, c)
  }

  predicate HasPrefix(s: string, prefix: string) {
    prefix <= s
  }

  /** Cut finds the first separator, and nothing else. */
  lemma {:induction false} CutIsFirst(s: string, c: char)
    ensures Cut(s, c).None? <==> c !in s
    ensures Cut(s, c).Some? ==>
              var (before, after) := Cut(s, c).value;
              s == before + [c] + after && c !in before
  {
    if s != "" && s[0] != c {
      CutIsFirst(s[1..], c);
      assert s == [s[0]] + s[1..];
    }
  }

  /** A separator-free prefix is what Cut returns. */
  lemma {:induction false} CutOf(before: string, c: char, after: string)
    requires c !in before
    ensures Cut(before + [c] + after, c) == Some((before, after))
  {
    var s := before + [c] + after;
    if before != "" {
      assert s[1..] == before[1..] + [c] + after;
      CutOf(before[1..], c, after);
      assert before == [before[0]] + before[1..];
    } else {
      assert s[1..] == after;
    }
  }

  /** Joining with a separator that neither left part contains is injective. */
  lemma JoinInjective(a: string, b: string, c: char, x: string, y: string)
    requires c !in a && c !in x
    requires a + [c] + b == x + [c] + y
    ensures a == x && b == y
  {
    CutOf(a, c, b);
    CutOf(x, c, y);
  }
}
