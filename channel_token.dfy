/**
 * The regular expression `/ch_(\d{17,20})/` applied with `String.prototype.match`
 * (index.js:317 and index.js:342): the leftmost position where "ch_" is followed
 * by at least 17 ASCII digits matches, and the capture group greedily takes the
 * digits there, at most 20 of them.
 */
module ChannelToken {
  import opened Js

  const Prefix := "ch_"
  const MinDigits := 17
  const MaxDigits := 20

  /** `\d` in a JavaScript regular expression: an ASCII decimal digit. */
  predicate IsDigit(c: char)
  {
    '0' <= c <= '9'
  }

  /** The length of the run of digits that `s` starts with. */
  function LeadingDigits(s: string): (n: nat)
    ensures n <= |s|
    ensures forall i :: 0 <= i < n ==> IsDigit(s[i])
    ensures n < |s| ==> !IsDigit(s[n])
  {
    if |s| > 0 && IsDigit(s[0]) then 1 + LeadingDigits(s[1..]) else 0
  }

  /** The pattern matches with its "ch_" starting at position `p` of `s`. */
  predicate MatchesAt(s: string, p: nat)
  {
    p + |Prefix| <= |s| && s[p..p + |Prefix|] == Prefix && LeadingDigits(s[p + |Prefix|..]) >= MinDigits
  }

  /**
   * The capture group of a match at `p`: the digits right after "ch_", as many
   * as there are but at most 20.
   */
  function CaptureAt(s: string, p: nat): (r: string)
    requires MatchesAt(s, p)
    ensures MinDigits <= |r| <= MaxDigits
    ensures forall i :: 0 <= i < |r| ==> IsDigit(r[i])
    ensures p + |Prefix| + |r| <= |s| && r == s[p + |Prefix|..p + |Prefix| + |r|]
    // fewer than 20 digits are taken only when the run of digits ends there
    ensures |r| < MaxDigits && p + |Prefix| + |r| < |s| ==> !IsDigit(s[p + |Prefix| + |r|])
  {
    var t := s[p + |Prefix|..];
    var n := LeadingDigits(t);
    var k := if n < MaxDigits then n else MaxDigits;
    assert t[..k] == s[p + |Prefix|..p + |Prefix| + k];
    assert n < |t| ==> t[n] == s[p + |Prefix| + n];
    t[..k]
  }

  /** The leftmost position at or after `p` where the pattern matches. */
  function FindFrom(s: string, p: nat): (r: Option<nat>)
    requires p <= |s|
    decreases |s| - p
    ensures r.Some? ==> p <= r.value && MatchesAt(s, r.value)
    ensures r.Some? ==> forall q :: p <= q < r.value ==> !MatchesAt(s, q)
    ensures r.None? ==> forall q :: p <= q ==> !MatchesAt(s, q)
  {
    if MatchesAt(s, p) then Some(p)
    else if p == |s| then None
    else FindFrom(s, p + 1)
  }

  /** `s.match(/ch_(\d{17,20})/)?.[1]`, `None` when there is no match. */
  function Match(s: string): (r: Option<string>)
    ensures r.Some? ==> MinDigits <= |r.value| <= MaxDigits
    ensures r.Some? ==> forall i :: 0 <= i < |r.value| ==> IsDigit(r.value[i])
  {
    match FindFrom(s, 0)
    case Some(p) => Some(CaptureAt(s, p))
    case None => None
  }

  /**
   * Match finds a token exactly when some position matches, and then returns the
   * capture at the leftmost matching position: 17 to 20 digits.
   */
  lemma MatchIsLeftmost(s: string)
    ensures Match(s).None? <==> forall p: nat :: !MatchesAt(s, p)
    ensures forall p: nat :: MatchesAt(s, p) && (forall q: nat :: 0 <= q < p ==> !MatchesAt(s, q)) ==>
              Match(s) == Some(CaptureAt(s, p))
    ensures Match(s).Some? ==> MinDigits <= |Match(s).value| <= MaxDigits
    ensures Match(s).Some? ==> forall i :: 0 <= i < |Match(s).value| ==> IsDigit(Match(s).value[i])
  {
    match FindFrom(s, 0)
    case None =>
    case Some(p) =>
      var t := s[p + |Prefix|..];
      var n := LeadingDigits(t);
      var k := if n < MaxDigits then n else MaxDigits;
      assert CaptureAt(s, p) == t[..k];
  }

  /** A string without the letter 'c' never contains a channel token. */
  lemma NoTokenWithoutC(s: string)
    requires forall i :: 0 <= i < |s| ==> s[i] != 'c'
    ensures Match(s) == None
  {
    forall p: nat
      ensures !MatchesAt(s, p)
    {
      if p + |Prefix| <= |s| {
        assert s[p..p + |Prefix|][0] == s[p] != Prefix[0];
      }
    }
    MatchIsLeftmost(s);
  }
}
