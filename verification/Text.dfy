/** Byte order on stored text (SQLite's default collation on ASCII columns). */
module Text {

  /** `s` sorts strictly before `t`. */
  predicate Less(s: string, t: string) {
    if s == "" then t != ""
    else if t == "" then false
    else s[0] < t[0] || (s[0] == t[0] && Less(s[1..], t[1..]))
  }

  lemma {:induction false} LessIsTotal(s: string, t: string)
    ensures Less(s, t) || s == t || Less(t, s)
  {
    if s != "" && t != "" && s[0] == t[0] {
      LessIsTotal(s[1..], t[1..]);
      assert s == [s[0]] + s[1..] && t == [t[0]] + t[1..];
    }
  }

  lemma {:induction false} LessIsIrreflexive(s: string)
    ensures !Less(s, s)
  {
    if s != "" { LessIsIrreflexive(s[1..]); }
  }

  lemma {:induction false} LessIsTransitive(s: string, t: string, u: string)
    requires Less(s, t) && Less(t, u)
    ensures Less(s, u)
  {
    if s != "" && s[0] == t[0] == u[0] {
      LessIsTransitive(s[1..], t[1..], u[1..]);
    }
  }

  /** Two texts with a common prefix compare as their remainders do. */
  lemma {:induction false} LessAfterPrefix(p: string, s: string, t: string)
    ensures Less(p + s, p + t) <==> Less(s, t)
  {
    if p == "" {
      assert p + s == s && p + t == t;
    } else {
      assert (p + s)[1..] == p[1..] + s && (p + t)[1..] == p[1..] + t;
      LessAfterPrefix(p[1..], s, t);
    }
  }

  /** Texts whose equally long heads differ compare as their heads do. */
  lemma {:induction false} LessByHead(s: string, t: string, s': string, t': string)
    requires |s| == |t| && s != t
    ensures Less(s + s', t + t') <==> Less(s, t)
  {
    assert s != "" && t != "";
    assert (s + s')[1..] == s[1..] + s' && (t + t')[1..] == t[1..] + t';
    if s[0] == t[0] {
      assert s == [s[0]] + s[1..] && t == [t[0]] + t[1..];
      LessByHead(s[1..], t[1..], s', t');
    }
  }
}
