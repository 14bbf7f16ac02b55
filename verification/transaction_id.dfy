/**
 * The transaction identifier `do<draftNumericId>_<timestamp>`: the only link
 * between the create and the confirm requests. It is minted from the draft
 * order's numeric id and read back with the anchored pattern `^do(\d+)_`.
 */
module TransactionId {
  import opened Wrappers
  import opened Text

  const Prefix: string := "do"
  const DraftGidPrefix: string := "gid://shopify/DraftOrder/"

  /** Build the identifier from the draft's numeric id and the clock reading (`Date.now()`). */
  function Mint(draftNumericId: string, timestamp: nat): (tid: string)
    ensures |tid| == |Prefix| + |draftNumericId| + 1 + |Decimal(timestamp)|
    ensures tid[..2] == Prefix && tid[2..2 + |draftNumericId|] == draftNumericId
    ensures tid[2 + |draftNumericId|] == '_'
    ensures tid[|Prefix| + |draftNumericId| + 1..] == Decimal(timestamp)
  {
    Prefix + draftNumericId + "_" + Decimal(timestamp)
  }

  /**
   * Reference reading of `^do(\d+)_` on `tid` with group 1 equal to `digits`:
   * the text starts with "do", then the non-empty digit string, then '_'.
   */
  ghost predicate MatchesWith(tid: string, digits: string)
  {
    && |digits| > 0 && AllDigits(digits)
    && |tid| > 2 + |digits|
    && tid[..2] == Prefix
    && tid[2..2 + |digits|] == digits
    && tid[2 + |digits|] == '_'
  }

  /** A match fixes its group: `\d+` cannot end anywhere but before the first non-digit. */
  lemma MatchUnique(tid: string, d1: string, d2: string)
    requires MatchesWith(tid, d1) && MatchesWith(tid, d2)
    ensures d1 == d2
  {
  }

  /**
   * `tid.match(/^do(\d+)_/)`, returning group 1, or None when there is no match.
   * The second ensures makes the group unique among all readings; `MatchUnique`
   * states that uniqueness for the reference reading on its own.
   */
  function Parse(tid: string): (m: Option<string>)
    ensures m.Some? ==> MatchesWith(tid, m.value)
    ensures forall d :: MatchesWith(tid, d) ==> m == Some(d)
  {
    if |tid| < 2 || tid[..2] != Prefix then None
    else
      var rest := tid[2..];
      var n := DigitRun(rest);
      if n > 0 && n < |rest| && rest[n] == '_' then
        assert rest[..n] == tid[2..2 + n];
        Some(rest[..n])
      else
        None
  }

  /** `gid://shopify/DraftOrder/<digits>`: the backend reference rebuilt from a parsed identifier. */
  function DraftGid(digits: string): (gid: string)
    ensures |gid| == |DraftGidPrefix| + |digits|
    ensures gid[..|DraftGidPrefix|] == DraftGidPrefix && gid[|DraftGidPrefix|..] == digits
  {
    DraftGidPrefix + digits
  }

  /**
   * Round trip: a minted identifier parses back to its draft id exactly when
   * that id is a non-empty digit string; whatever the timestamp.
   */
  lemma ParseMint(draftNumericId: string, timestamp: nat)
    ensures Parse(Mint(draftNumericId, timestamp)) == Some(draftNumericId)
        <==> |draftNumericId| > 0 && AllDigits(draftNumericId)
  {
    var tid := Mint(draftNumericId, timestamp);
    if |draftNumericId| > 0 && AllDigits(draftNumericId) {
      assert MatchesWith(tid, draftNumericId);
    }
  }

  /** The draft id is the last path segment of the backend gid, and it survives the round trip. */
  lemma GidRoundTrip(digits: string, timestamp: nat)
    requires |digits| > 0 && AllDigits(digits)
    ensures LastSegment(DraftGid(digits)) == digits
    ensures Parse(Mint(LastSegment(DraftGid(digits)), timestamp)) == Some(digits)
  {
    LastSegmentOf(DraftGidPrefix, digits);
    ParseMint(digits, timestamp);
  }
}
