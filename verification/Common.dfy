/** Small vocabulary shared by the other modules. */
module Common {
  datatype Option<+T> = None | Some(value: T)

  function DropLast<T>(s: seq<T>): seq<T>
    requires s != []
  {
    s[..|s| - 1]
  }

  function Last<T>(s: seq<T>): T
    requires s != []
  {
    s[|s| - 1]
  }

  /** The position of the first `c` in `s`, or the length of `s`. */
  function IndexOf(s: string, c: char): nat {
    if s == "" || s[0] == c then 0 else 1 + IndexOf(s[1..], c)
  }

  lemma {:induction false} IndexOfFinds(s: string, c: char)
    ensures IndexOf(s, c) <= |s| && c !in s[..IndexOf(s, c)]
    ensures IndexOf(s, c) < |s| ==> s[IndexOf(s, c)] == c
  {
    if s != "" && s[0] != c {
      IndexOfFinds(s[1..], c);
      assert s[..IndexOf(s, c)] == [s[0]] + s[1..][..IndexOf(s[1..], c)];
    }
  }

  lemma {:induction false} IndexOfIs(s: string, c: char, n: nat)
    requires n <= |s| && c !in s[..n] && (n < |s| ==> s[n] == c)
    ensures IndexOf(s, c) == n
  {
    if n > 0 {
      assert s[0] == s[..n][0];
      assert s[..n] == [s[0]] + s[1..][..n - 1];
      IndexOfIs(s[1..], c, n - 1);
    }
  }
}
