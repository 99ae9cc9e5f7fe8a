/**
 * Ticket extraction: the first match of `\b[A-Z]+-\d+\b` in a time entry's
 * description (`str.extract` in `load_data`). Word characters are the ASCII
 * class `[A-Za-z0-9_]` and digits are `[0-9]`.
 */
module Tickets {
  import opened Options

  predicate IsUpper(c: char) { 'A' <= c <= 'Z' }

  predicate IsDigit(c: char) { '0' <= c <= '9' }

  predicate IsWordChar(c: char)
  {
    IsUpper(c) || ('a' <= c <= 'z') || IsDigit(c) || c == '_'
  }

  /** `\b` at position `p`: exactly one of the two neighbouring characters is a word character. */
  predicate IsBoundary(s: string, p: nat)
    requires p <= |s|
  {
    (0 < p && IsWordChar(s[p - 1])) != (p < |s| && IsWordChar(s[p]))
  }

  /** `[A-Z]+-\d+` matches the whole of `t`. */
  predicate IsTicketShaped(t: string)
  {
    exists h :: 0 < h < |t| - 1 && t[h] == '-'
      && (forall m :: 0 <= m < h ==> IsUpper(t[m]))
      && (forall m :: h < m < |t| ==> IsDigit(t[m]))
  }

  /** `\b[A-Z]+-\d+\b` matches `s[i..k]`. */
  predicate MatchAt(s: string, i: nat, k: nat)
  {
    i < k <= |s| && IsTicketShaped(s[i..k]) && IsBoundary(s, i) && IsBoundary(s, k)
  }

  /** `s[i..k]` is the match a left-to-right search finds first. */
  ghost predicate IsLeftmostMatch(s: string, i: nat, k: nat)
  {
    MatchAt(s, i, k) && forall i': nat, k': nat :: i' < i ==> !MatchAt(s, i', k')
  }

  /** End of the greedy `[A-Z]*` run that starts at `i`. */
  function UpperRunEnd(s: string, i: nat): (j: nat)
    requires i <= |s|
    ensures i <= j <= |s|
    ensures forall m :: i <= m < j ==> IsUpper(s[m])
    ensures j == |s| || !IsUpper(s[j])
    decreases |s| - i
  {
    if i < |s| && IsUpper(s[i]) then UpperRunEnd(s, i + 1) else i
  }

  /** End of the greedy `[0-9]*` run that starts at `i`. */
  function DigitRunEnd(s: string, i: nat): (j: nat)
    requires i <= |s|
    ensures i <= j <= |s|
    ensures forall m :: i <= m < j ==> IsDigit(s[m])
    ensures j == |s| || !IsDigit(s[j])
    decreases |s| - i
  {
    if i < |s| && IsDigit(s[i]) then DigitRunEnd(s, i + 1) else i
  }

  /**
   * The regex engine's attempt at one start position. Backtracking cannot
   * help: `-` is neither a capital nor a digit, so the capitals must run to
   * their greedy end, and a shorter digit run would stop before a digit,
   * where `\b` cannot hold.
   */
  function MatchEndAt(s: string, i: nat): (r: Option<nat>)
    requires i <= |s|
    ensures r.Some? ==> MatchAt(s, i, r.value)
    ensures forall k: nat :: MatchAt(s, i, k) ==> r == Some(k)
  {
    if !IsBoundary(s, i) then None
    else
      var j := UpperRunEnd(s, i);
      if j == i || j == |s| || s[j] != '-' then None
      else
        var k := DigitRunEnd(s, j + 1);
        if k == j + 1 || !IsBoundary(s, k) then None
        else
          assert s[i..k][j - i] == '-';
          Some(k)
  }

  /** The search of `re.search`: try each start position from `i` on. */
  function FindFrom(s: string, i: nat): (r: Option<(nat, nat)>)
    requires i <= |s|
    ensures r.Some? ==> i <= r.value.0 && MatchAt(s, r.value.0, r.value.1)
    ensures r.Some? ==> forall i': nat, k: nat :: i <= i' < r.value.0 ==> !MatchAt(s, i', k)
    ensures r.None? ==> forall i': nat, k: nat :: i <= i' ==> !MatchAt(s, i', k)
    decreases |s| - i
  {
    match MatchEndAt(s, i)
    case Some(k) => Some((i, k))
    case None => if i == |s| then None else FindFrom(s, i + 1)
  }

  /** The ticket number of a description, or `None` (NaN) when it holds none. */
  function ExtractTicket(description: string): (r: Option<string>)
    ensures r.None? <==> forall i: nat, k: nat :: !MatchAt(description, i, k)
    ensures r.Some? ==> exists i: nat, k: nat :: IsLeftmostMatch(description, i, k) && r.value == description[i..k]
    ensures r.Some? ==> IsTicketShaped(r.value)
  {
    match FindFrom(description, 0)
    case None => None
    case Some((i, k)) =>
      assert IsLeftmostMatch(description, i, k);
      Some(description[i..k])
  }

  /** A description holds at most one leftmost match. */
  lemma LeftmostMatchUnique(s: string, i: nat, k: nat, i2: nat, k2: nat)
    requires IsLeftmostMatch(s, i, k) && IsLeftmostMatch(s, i2, k2)
    ensures i == i2 && k == k2
  {
    assert !(i < i2) && !(i2 < i);
    var _ := MatchEndAt(s, i);
  }

  /** Whenever the description holds a leftmost match, that match is the ticket. */
  lemma ExtractTicketFindsLeftmost(s: string, i: nat, k: nat)
    requires IsLeftmostMatch(s, i, k)
    ensures ExtractTicket(s) == Some(s[i..k])
  {
    var r := ExtractTicket(s);
    assert r.Some?;
    var i2: nat, k2: nat :| IsLeftmostMatch(s, i2, k2) && r.value == s[i2..k2];
    LeftmostMatchUnique(s, i, k, i2, k2);
  }

  /** A match at the very start is found, whatever follows it. */
  lemma ExtractTicketAtStart(s: string, k: nat)
    requires MatchAt(s, 0, k)
    ensures ExtractTicket(s) == Some(s[..k])
  {
    ExtractTicketFindsLeftmost(s, 0, k);
  }

  /**
   * A description that opens with capitals, `-` and digits, followed by the
   * end or a non-word character, yields exactly that opening.
   */
  lemma ExtractTicketOpening(s: string, h: nat, k: nat)
    requires 0 < h && h + 1 < k <= |s| && s[h] == '-'
    requires forall m :: 0 <= m < h ==> IsUpper(s[m])
    requires forall m :: h < m < k ==> IsDigit(s[m])
    requires k == |s| || !IsWordChar(s[k])
    ensures ExtractTicket(s) == Some(s[..k])
  {
    assert s[..k][h] == '-';
    assert MatchAt(s, 0, k);
    ExtractTicketAtStart(s, k);
  }

  /** The ABC-123 descriptions of the worked example yield `ABC-123`. */
  lemma ExtractTicketExample(s: string)
    requires s == "ABC-123 work" || s == "ABC-123 more"
    ensures ExtractTicket(s) == Some("ABC-123")
  {
    ExtractTicketOpening(s, 3, 7);
    assert s[..7] == "ABC-123";
  }

  /** The XYZ-9 description of the worked example yields `XYZ-9`. */
  lemma ExtractTicketShortExample(s: string)
    requires s == "XYZ-9 task"
    ensures ExtractTicket(s) == Some("XYZ-9")
  {
    ExtractTicketOpening(s, 3, 5);
    assert s[..5] == "XYZ-9";
  }

  /** `\b` matters: in `ABC-12x` the digits run into a word character. */
  lemma ExtractTicketTrailingWordExample(s: string)
    requires s == "ABC-12x"
    ensures ExtractTicket(s) == None
  {
    assert IsUpper(s[0]) && IsUpper(s[1]) && IsUpper(s[2]) && !IsUpper(s[3]);
    assert UpperRunEnd(s, 0) == 3;
    assert IsDigit(s[4]) && IsDigit(s[5]) && !IsDigit(s[6]);
    assert DigitRunEnd(s, 4) == 6;
    assert !IsBoundary(s, 6);
    forall i: nat | i <= |s| ensures MatchEndAt(s, i) == None {
      if i == 0 {
        assert MatchEndAt(s, 0) == None;
      }
    }
  }

  /** `\b` matters: in `xABC-1` the capitals follow a word character. */
  lemma ExtractTicketLeadingWordExample(s: string)
    requires s == "xABC-1"
    ensures ExtractTicket(s) == None
  {
    forall i: nat | i <= |s| ensures MatchEndAt(s, i) == None {
      if i == 5 {
        assert !IsUpper(s[5]);
      }
    }
  }

  /** A candidate without a leading boundary is skipped for a later one. */
  lemma ExtractTicketSkipsExample(s: string)
    requires s == "xABC-1 DEF-2"
    ensures ExtractTicket(s) == Some("DEF-2")
  {
    forall i: nat | i < 7 ensures MatchEndAt(s, i) == None {
    }
    assert s[7..12] == "DEF-2";
    assert s[7..12][3] == '-';
    assert MatchAt(s, 7, 12);
    forall i': nat, k': nat | i' < 7 ensures !MatchAt(s, i', k') {
      assert MatchEndAt(s, i') == None;
    }
    ExtractTicketFindsLeftmost(s, 7, 12);
  }
}
