/**
 * Product and venue recognition: the order name (the booked item names
 * joined by ", ") is scanned against the stored keywords, and the last
 * keyword that occurs in it wins. The keyword tables are read from the
 * database in the original and are a parameter here.
 */
module Locals {
  import opened Wrappers
  import opened PyText

  /**
   * The keyword a front-to-back scan that overwrites on every hit ends on:
   * the last keyword occurring in `items`, or `None` when none does.
   */
  function LastMatch(keywords: seq<string>, items: string): (r: Option<string>)
    ensures r.None? <==> forall j | 0 <= j < |keywords| :: !Contains(items, keywords[j])
    ensures r.Some? ==> Contains(items, r.value)
    ensures r.Some? ==> exists i | 0 <= i < |keywords| ::
      keywords[i] == r.value && forall j | i < j < |keywords| :: !Contains(items, keywords[j])
  {
    if |keywords| == 0 then None
    else
      var last := keywords[|keywords| - 1];
      if Contains(items, last) then Some(last)
      else
        var r := LastMatch(keywords[..|keywords| - 1], items);
        assert forall j | 0 <= j < |keywords| - 1 :: keywords[..|keywords| - 1][j] == keywords[j];
        r
  }

  /** The scan loop shared by both lookups. */
  method ScanKeywords(keywords: seq<string>, items: string) returns (r: Option<string>)
    ensures r == LastMatch(keywords, items)
  {
    r := None;
    for i := 0 to |keywords|
      invariant r == LastMatch(keywords[..i], items)
    {
      assert keywords[..i + 1][..i] == keywords[..i];
      if Contains(items, keywords[i]) {
        r := Some(keywords[i]);
      }
    }
    assert keywords[..|keywords|] == keywords;
  }

  /** `find_replace_product_name(items)` over the product keyword table. */
  method FindReplaceProductName(productKeywords: seq<string>, items: string) returns (r: Option<string>)
    ensures r == LastMatch(productKeywords, items)
  {
    r := ScanKeywords(productKeywords, items);
  }

  /** `find_replace_venue_name(items)` over the venue keyword table. */
  method FindReplaceVenueName(venueKeywords: seq<string>, items: string) returns (r: Option<string>)
    ensures r == LastMatch(venueKeywords, items)
  {
    r := ScanKeywords(venueKeywords, items);
  }

  /**
   * A keyword occurring in any one booked item's name is recognised in the
   * order name, whichever position the item has.
   */
  lemma KeywordInAnItemIsRecognised(names: seq<string>, i: int, keywords: seq<string>, k: int)
    requires 0 <= i < |names| && 0 <= k < |keywords| && Contains(names[i], keywords[k])
    ensures LastMatch(keywords, Join(names, ", ")).Some?
  {
    JoinContains(names, ", ", i, keywords[k]);
  }

  /** Appending keywords that do not occur leaves the recognised keyword unchanged. */
  lemma {:induction false} UnmatchedKeywordsAreIgnored(keywords: seq<string>, extra: seq<string>, items: string)
    requires forall j | 0 <= j < |extra| :: !Contains(items, extra[j])
    ensures LastMatch(keywords + extra, items) == LastMatch(keywords, items)
    decreases |extra|
  {
    if |extra| > 0 {
      var shorter := extra[..|extra| - 1];
      assert (keywords + extra)[..|keywords + extra| - 1] == keywords + shorter;
      UnmatchedKeywordsAreIgnored(keywords, shorter, items);
    } else {
      assert keywords + extra == keywords;
    }
  }
}
