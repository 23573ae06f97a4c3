/** The payment link ids: printing them, reading the auction back, and the provider's length limit. */
module LinkIds {
  import opened Common
  import opened Strings

  const LINK_ID_LIMIT := 50
  const OBJECT_ID_LENGTH := 24

  predicate IsHex(c: char) {
    '0' <= c <= '9' || 'a' <= c <= 'f' || 'A' <= c <= 'F'
  }

  /** What the object id pattern accepts. */
  predicate IsObjectId(s: string) {
    |s| == OBJECT_ID_LENGTH && forall i :: 0 <= i < |s| ==> IsHex(s[i])
  }

  function PrintLinkId(auctionId: string, timestamp: nat): string {
    "auction" + "_" + (auctionId + "_" + Decimal(timestamp))
  }

  function ExtractAuctionId(linkId: string): Option<string> {
    var parts := Split(linkId, '_');
    if |parts| > 1 && IsObjectId(parts[1]) then Some(parts[1]) else None
  }

  /** Reading a printed link id gives its auction back. */
  lemma LinkRoundTrip(auctionId: string, timestamp: nat)
    requires IsObjectId(auctionId)
    ensures ExtractAuctionId(PrintLinkId(auctionId, timestamp)) == Some(auctionId)
  {
    assert forall i :: 0 <= i < |auctionId| ==> IsHex(auctionId[i]) && auctionId[i] != '_';
    SplitFirst("auction", '_', auctionId + "_" + Decimal(timestamp));
    SplitFirst(auctionId, '_', Decimal(timestamp));
  }

  /** A printed link id passes the provider's length check exactly when its timestamp has at most
      seventeen decimal digits. */
  lemma LinkFits(auctionId: string, timestamp: nat)
    requires IsObjectId(auctionId)
    ensures |PrintLinkId(auctionId, timestamp)| <= LINK_ID_LIMIT <==> |Decimal(timestamp)| <= 17
    ensures |Decimal(timestamp)| <= 17 <==> timestamp < 100000000000000000
  {
    DecimalLength(timestamp, 17);
    assert Pow10(17) == 100000000000000000 by {
      assert Pow10(8) == 100000000;
      assert Pow10(12) == 10000 * Pow10(8);
      assert Pow10(17) == 100000 * Pow10(12);
    }
  }

  /** Distinct auctions or distinct moments get distinct link ids. */
  lemma LinkIdsDistinct(a: string, t: nat, b: string, u: nat)
    requires IsObjectId(a) && IsObjectId(b)
    requires PrintLinkId(a, t) == PrintLinkId(b, u)
    ensures a == b && t == u
  {
    LinkRoundTrip(a, t);
    LinkRoundTrip(b, u);
    var prefix := "auction" + "_" + (a + "_");
    assert PrintLinkId(a, t) == prefix + Decimal(t) && PrintLinkId(b, u) == prefix + Decimal(u);
    assert Decimal(t) == (prefix + Decimal(t))[|prefix|..] == (prefix + Decimal(u))[|prefix|..] == Decimal(u);
    ValueOfDecimal(t);
    ValueOfDecimal(u);
  }

  /** The second of the parts between underscores. */
  ghost predicate SecondPart(linkId: string, part: string) {
    exists a, rest ::
      '_' !in a && '_' !in part && (rest == "" || rest[0] == '_') && linkId == a + "_" + (part + rest)
  }

  lemma SecondPartIsExtracted(linkId: string, id: string)
    requires SecondPart(linkId, id)
    ensures |Split(linkId, '_')| > 1 && Split(linkId, '_')[1] == id
  {
    var a, rest :| '_' !in a && '_' !in id && (rest == "" || rest[0] == '_') && linkId == a + "_" + (id + rest);
    SplitFirst(a, '_', id + rest);
    if rest == "" {
      assert id + rest == id;
      SplitNone(id, '_');
    } else {
      assert id + rest == id + "_" + rest[1..];
      SplitFirst(id, '_', rest[1..]);
    }
  }

  lemma ExtractedIsSecondPart(linkId: string)
    requires |Split(linkId, '_')| > 1
    ensures SecondPart(linkId, Split(linkId, '_')[1])
  {
    var a, b := SplitInverts(linkId, '_');
    var part, more := SplitInverts(b, '_');
    hide Split;
    if b == part + "_" + more {
      assert b == part + ("_" + more);
      assert linkId == a + "_" + (part + ("_" + more));
    } else {
      assert linkId == a + "_" + (part + "");
    }
  }

  /** On any string the reader answers its second part, if that is an object id, and refuses
      everything else. */
  lemma ExtractIsSecondPart(linkId: string, id: string)
    ensures ExtractAuctionId(linkId) == Some(id) <==> IsObjectId(id) && SecondPart(linkId, id)
  {
    hide Split, SecondPart, IsObjectId;
    if SecondPart(linkId, id) {
      SecondPartIsExtracted(linkId, id);
    }
    if |Split(linkId, '_')| > 1 {
      ExtractedIsSecondPart(linkId);
    }
  }
}
