// The string functions of the standard library that the models use.
module Text {

  // White space as Unicode has it.
  predicate IsSpace(c: char) {
    || '\U{0009}' <= c <= '\U{000D}' || c == ' ' || c == '\U{0085}' || c == '\U{00A0}' || c == '\U{1680}'
    || '\U{2000}' <= c <= '\U{200A}' || '\U{2028}' <= c <= '\U{2029}' || c == '\U{202F}' || c == '\U{205F}'
       || c == '\U{3000}'
  }

  predicate AllSpace(s: string) {
    forall i | 0 <= i < |s| :: IsSpace(s[i])
  }

  function TrimLeft(s: string, cut: char -> bool): (t: string)
    ensures |t| <= |s|
  {
    if s != [] && cut(s[0]) then TrimLeft(s[1..], cut) else s
  }

  function TrimRight(s: string, cut: char -> bool): (t: string)
    ensures |t| <= |s|
  {
    if s != [] && cut(s[|s|-1]) then TrimRight(s[..|s|-1], cut) else s
  }

  lemma {:induction false} TrimsLeft(s: string, cut: char -> bool)
    ensures var t := TrimLeft(s, cut);
            && t == s[|s| - |t|..] && (t != [] ==> !cut(t[0]))
            && forall i | 0 <= i < |s| - |t| :: cut(s[i])
  {
    if s != [] && cut(s[0]) { TrimsLeft(s[1..], cut); }
  }

  lemma {:induction false} TrimsRight(s: string, cut: char -> bool)
    ensures var t := TrimRight(s, cut);
            && t == s[..|t|] && (t != [] ==> !cut(t[|t|-1]))
            && forall i | |t| <= i < |s| :: cut(s[i])
  {
    if s != [] && cut(s[|s|-1]) { TrimsRight(s[..|s|-1], cut); }
  }

  // They are the only such suffix and prefix.
  lemma {:induction false} TrimLeftIs(s: string, cut: char -> bool, k: nat)
    requires k <= |s| && (forall i | 0 <= i < k :: cut(s[i])) && (k < |s| ==> !cut(s[k]))
    ensures TrimLeft(s, cut) == s[k..]
  {
    if k > 0 { TrimLeftIs(s[1..], cut, k - 1); }
  }

  lemma {:induction false} TrimRightIs(s: string, cut: char -> bool, k: nat)
    requires k <= |s| && (forall i | k <= i < |s| :: cut(s[i])) && (k > 0 ==> !cut(s[k-1]))
    ensures TrimRight(s, cut) == s[..k]
    decreases |s|
  {
    if k < |s| { TrimRightIs(s[..|s|-1], cut, k); }
  }

  function TrimSpace(s: string): string {
    TrimRight(TrimLeft(s, IsSpace), IsSpace)
  }

  // The first place where a character satisfies p, or -1.
  function Index(s: string, p: char -> bool): (i: int)
    ensures -1 <= i < |s|
  {
    if s == [] then -1
    else if p(s[0]) then 0
    else
      var i := Index(s[1..], p);
      if i < 0 then -1 else i + 1
  }

  lemma {:induction false} Indexes(s: string, p: char -> bool)
    ensures var i := Index(s, p);
            && (i >= 0 ==> p(s[i]))
            && forall j | 0 <= j < if i < 0 then |s| else i :: !p(s[j])
  {
    if s != [] && !p(s[0]) {
      Indexes(s[1..], p);
      assert forall j | 0 < j < |s| :: s[j] == s[1..][j-1];
    }
  }

  lemma {:induction false} IndexIs(s: string, p: char -> bool, i: nat)
    requires i <= |s| && (forall j | 0 <= j < i :: !p(s[j])) && (i < |s| ==> p(s[i]))
    ensures Index(s, p) == if i < |s| then i else -1
  {
    if i > 0 { IndexIs(s[1..], p, i - 1); }
  }

  // Padding is trimmed away and nothing else is.
  lemma {:induction false} TrimPadded(before: string, s: string, after: string)
    requires AllSpace(before) && AllSpace(after) && s != "" && !IsSpace(s[0]) && !IsSpace(s[|s|-1])
    ensures TrimSpace(before + s + after) == s
  {
    var all, t := before + s + after, s + after;
    assert all[|before|] == s[0] && all[|before|..] == t;
    TrimLeftIs(all, IsSpace, |before|);
    assert t[|s|-1] == s[|s|-1] && t[..|s|] == s;
    TrimRightIs(t, IsSpace, |s|);
  }
}
