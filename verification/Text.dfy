/** The parts of the C++ string library that the parsers rely on. */
module Text {
  import opened TaskCommon

  predicate At(s: string, pat: string, i: int) {
    0 <= i && i + |pat| <= |s| && s[i..i + |pat|] == pat
  }

  /** `std::string::find`. */
  function Find(s: string, pat: string, from: nat): (r: Option<nat>)
    ensures r.Some? ==> from <= r.value <= |s| - |pat|
    decreases |s| - from
  {
    if from + |pat| > |s| then None
    else if At(s, pat, from) then Some(from)
    else Find(s, pat, from + 1)
  }

  /** The first place at or after `from` where `pat` stands, if there is one. */
  lemma {:induction false} FindMeaning(s: string, pat: string, from: nat)
    ensures match Find(s, pat, from)
            case Some(i) => At(s, pat, i) && forall k :: from <= k < i ==> !At(s, pat, k)
            case None => forall k :: from <= k ==> !At(s, pat, k)
    decreases |s| - from
  {
    if from + |pat| <= |s| && !At(s, pat, from) {
      FindMeaning(s, pat, from + 1);
    }
  }

  lemma {:induction false} FindShift(s: string, pat: string, pos: nat, from: nat)
    requires pos <= |s| && |pat| > 0
    ensures Find(s, pat, pos + from) ==
              match Find(s[pos..], pat, from) case None => None case Some(i) => Some(pos + i)
    decreases |s| - from
  {
    AtShift(s, pat, pos, from);
    hide At;
    if pos + from + |pat| <= |s| && !At(s, pat, pos + from) {
      FindShift(s, pat, pos, from + 1);
    }
  }

  lemma AtShift(s: string, pat: string, pos: nat, from: nat)
    requires pos <= |s|
    ensures At(s, pat, pos + from) <==> At(s[pos..], pat, from)
  {
    if pos + from + |pat| <= |s| {
      SliceOfRest(s, pos, from, from + |pat|);
    }
  }

  /** `std::isspace` in the default locale. */
  predicate Space(c: char) {
    c == ' ' || 9 as char <= c <= 13 as char
  }

  /** Blank, tab, line feed, vertical tab, form feed and carriage return. */
  lemma SpaceMeaning(c: char)
    ensures Space(c) <==> c as int in {32, 9, 10, 11, 12, 13}
  {
  }

  /* ---- slices of slices ---- */

  lemma SliceOfSlice(s: string, from: nat, to: nat, i: nat, j: nat)
    requires from <= to <= |s| && i <= j <= to - from
    ensures s[from..to][i..j] == s[from + i..from + j]
  {
    var w := s[from..to];
    assert forall k :: 0 <= k < j - i ==> w[i..j][k] == s[from + i..from + j][k];
  }

  lemma SliceOfRest(s: string, pos: nat, i: nat, j: nat)
    requires pos <= |s| && i <= j <= |s| - pos
    ensures s[pos..][i..j] == s[pos + i..pos + j]
  {
    var w := s[pos..];
    assert forall k :: 0 <= k < j - i ==> w[i..j][k] == s[pos + i..pos + j][k];
  }

  lemma RestOfRest(s: string, pos: nat, i: nat)
    requires pos <= |s| && i <= |s| - pos
    ensures s[pos..][i..] == s[pos + i..]
  {
    var w := s[pos..];
    assert forall k :: 0 <= k < |w| - i ==> w[i..][k] == s[pos + i..][k];
  }

  lemma SliceBehind(p: string, s: string, i: nat, j: nat)
    requires i <= j <= |s|
    ensures (p + s)[|p| + i..|p| + j] == s[i..j]
  {
    var w := p + s;
    assert forall k :: 0 <= k < j - i ==> w[|p| + i..|p| + j][k] == s[i..j][k];
  }
}
