/** Strings as the C functions see them. */
module CStrings {

  /** The C string in s: what is before the first NUL. */
  function CStr(s: string): (r: string)
    ensures |r| <= |s|
  {
    if s == "" || s[0] == '\0' then "" else [s[0]] + CStr(s[1..])
  }

  predicate NoNul(s: string) {
    forall i :: 0 <= i < |s| ==> s[i] != '\0'
  }

  lemma {:induction false} CStrWhole(s: string)
    ensures CStr(s) == s <==> NoNul(s)
  {
    if s != "" {
      CStrWhole(s[1..]);
      assert s == [s[0]] + s[1..];
      assert s[0] != '\0' && NoNul(s[1..]) ==> NoNul(s) by {
        if s[0] != '\0' && NoNul(s[1..]) {
          forall i | 0 <= i < |s| ensures s[i] != '\0' { assert i > 0 ==> s[i] == s[1..][i - 1]; }
        }
      }
      assert NoNul(s) ==> NoNul(s[1..]);
    }
  }

  lemma {:induction false} CStrJoin(a: string, b: string)
    ensures |CStr(a + b)| <= |CStr(a)| + |CStr(b)|
    decreases |a|
  {
    if a == "" {
      assert a + b == b;
    } else {
      assert (a + b)[1..] == a[1..] + b;
      CStrJoin(a[1..], b);
    }
  }

  lemma {:induction false} CStrPrefix(v: string)
    ensures CStr(v) <= v
  {
    if v != "" {
      CStrPrefix(v[1..]);
    }
  }

  lemma {:induction false} CStrNoNul(v: string)
    ensures NoNul(CStr(v))
  {
    if v != "" {
      CStrNoNul(v[1..]);
    }
  }
}
