/** Strings that end with a terminator. */
module CStrings {
  const NUL: char := 0 as char

  /** The characters of a C string, up to its terminator. */
  function CString(s: seq<char>): (text: string)
    ensures |text| <= |s| && text == s[..|text|] && NUL !in text
    ensures |text| < |s| ==> s[|text|] == NUL
  {
    if s == [] || s[0] == NUL then []
    else
      var rest := CString(s[1..]);
      assert s[..|rest| + 1] == [s[0]] + s[1..][..|rest|];
      [s[0]] + rest
  }

  lemma {:induction false} CStringIs(s: seq<char>, n: nat)
    requires n < |s| && s[n] == NUL && NUL !in s[..n]
    ensures CString(s) == s[..n]
  {
    if n > 0 {
      assert s[0] == s[..n][0];
      assert forall c | c in s[1..][..n - 1] :: c in s[..n];
      CStringIs(s[1..], n - 1);
      assert s[..n] == [s[0]] + s[1..][..n - 1];
    }
  }

  lemma {:induction false} Terminated(s: seq<char>)
    requires NUL in s
    ensures |CString(s)| < |s|
  {
    if s[0] != NUL {
      Terminated(s[1..]);
    }
  }

  lemma NoTerminatorInside(s: seq<char>, n: nat)
    requires n < |CString(s)|
    ensures s[n] != NUL
  {
    assert s[n] == CString(s)[n];
  }

  /** The terminator found is the end of the string. */
  lemma CStringEnds(s: seq<char>, n: nat)
    requires n <= |CString(s)| < |s| && s[n] == NUL
    ensures n == |CString(s)|
  {
    if n < |CString(s)| {
      NoTerminatorInside(s, n);
    }
  }
}
