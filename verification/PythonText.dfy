// The pieces of Python's `str` methods that the modelled code leans on.
module PythonText {
  // `str.isspace` for one code point.
  predicate IsSpace(c: char) {
    var n := c as int;
    || 0x09 <= n <= 0x0D || 0x1C <= n <= 0x20 || n == 0x85 || n == 0xA0 || n == 0x1680
    || 0x2000 <= n <= 0x200A || n == 0x2028 || n == 0x2029 || n == 0x202F || n == 0x205F || n == 0x3000
  }

  function StripLeft(s: string): (r: string)
    ensures |r| <= |s| && s[|s| - |r|..] == r
    ensures r != "" ==> !IsSpace(r[0])
  {
    if s != "" && IsSpace(s[0]) then StripLeft(s[1..]) else s
  }

  function StripRight(s: string): (r: string)
    ensures |r| <= |s| && s[..|r|] == r
    ensures r != "" ==> !IsSpace(r[|r| - 1])
  {
    if s != "" && IsSpace(s[|s| - 1]) then StripRight(s[..|s| - 1]) else s
  }

  // `str.strip()`.
  function Strip(s: string): string { StripRight(StripLeft(s)) }

  lemma StripKeeps(s: string)
    requires s != "" ==> !IsSpace(s[0]) && !IsSpace(s[|s| - 1])
    ensures Strip(s) == s
  {
  }

  // Stripping takes away the white space at both ends, all of it, and nothing else.
  lemma StripExactly(s: string, i: nat, j: nat)
    requires i <= j <= |s| && (forall k | 0 <= k < i || j <= k < |s| :: IsSpace(s[k]))
    requires i == j == |s| || (i < j && !IsSpace(s[i]) && !IsSpace(s[j - 1]))
    ensures Strip(s) == s[i..j]
  {
    hide IsSpace, StripLeft, StripRight;
    StripLeftExactly(s, i);
    var left := s[i..];
    StripRightExactly(left, j - i);
    assert left[..j - i] == s[i..j];
  }

  lemma {:induction false} StripLeftExactly(s: string, i: nat)
    requires i <= |s| && (forall k | 0 <= k < i :: IsSpace(s[k])) && (i < |s| ==> !IsSpace(s[i]))
    ensures StripLeft(s) == s[i..]
  {
    if i > 0 {
      StripLeftExactly(s[1..], i - 1);
      assert s[1..][i - 1..] == s[i..];
    }
  }

  lemma {:induction false} StripRightExactly(s: string, j: nat)
    requires j <= |s| && (forall k | j <= k < |s| :: IsSpace(s[k])) && (j > 0 ==> !IsSpace(s[j - 1]))
    ensures StripRight(s) == s[..j]
  {
    if j < |s| {
      StripRightExactly(s[..|s| - 1], j);
      assert s[..|s| - 1][..j] == s[..j];
    }
  }
}
