/**
  User records of the directory and the case-insensitive matching of e-mail
  addresses (ASCII letters only).
*/
module Users {
  import opened Wrappers

  /** An account: e-mail address, login and a password that may be absent (null). */
  datatype User = User(email: string, login: string, password: Option<string>)

  /** Lower-case mapping of a single character; only ASCII letters are folded. */
  function LowerAscii(c: char): char
  {
    if 'A' <= c <= 'Z' then (c as int + 32) as char else c
  }

  /** The normalised form of an e-mail address, used as the directory's e-mail key. */
  function Fold(s: string): string
  {
    seq(|s|, i requires 0 <= i < |s| => LowerAscii(s[i]))
  }

  /** Character-by-character comparison ignoring case (ASCII letters only). */
  predicate EqualsIgnoreCase(a: string, b: string)
  {
    |a| == |b| && forall i :: 0 <= i < |a| ==> LowerAscii(a[i]) == LowerAscii(b[i])
  }

  /** An identifier names a user when it is the user's login or its e-mail up to case. */
  predicate Identifies(u: User, id: string)
  {
    u.login == id || Fold(u.email) == Fold(id)
  }

  /** Two addresses get the same key exactly when they are equal ignoring case. */
  lemma FoldAgreesWithEqualsIgnoreCase(a: string, b: string)
    ensures Fold(a) == Fold(b) <==> EqualsIgnoreCase(a, b)
  {
    if Fold(a) == Fold(b) {
      assert |a| == |Fold(a)| == |Fold(b)| == |b|;
      forall i | 0 <= i < |a| ensures LowerAscii(a[i]) == LowerAscii(b[i]) {
        assert Fold(a)[i] == Fold(b)[i];
      }
    }
    if EqualsIgnoreCase(a, b) {
      forall i | 0 <= i < |a| ensures Fold(a)[i] == Fold(b)[i] {
        assert Fold(a)[i] == LowerAscii(a[i]);
      }
      assert Fold(a) == Fold(b);
    }
  }
}
