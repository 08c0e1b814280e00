/**
 * The ownership view of lib/utils/nft.ts: the fixed seven-token catalog, the
 * snapshot that overlays the indexer's ownership report onto it
 * (`processNFTs`) and the owned-token total (`calculateTotalCount`).
 * Fetching the report is outside the model: the report is an input.
 */
module Nfts {
  import opened Wrappers
  import opened JsString

  datatype Attribute = Attribute(value: string, traitType: string)

  /** A catalog entry: an `NFT` without its `owned` flag. */
  datatype CatalogEntry = CatalogEntry(
    id: string, name: string, description: string, image: string, collection: string,
    contractAddress: string, tokenId: string, quantity: int, attributes: seq<Attribute>)

  /** An `NFT` as the gallery displays it. */
  datatype Nft = Nft(
    id: string, name: string, description: string, image: string, collection: string,
    contractAddress: string, tokenId: string, quantity: int, attributes: seq<Attribute>,
    owned: bool)

  /** One element of the indexer's `ownedNfts` list (`contract.address`, `tokenId`, `balance`). */
  datatype OwnedNft = OwnedNft(contractAddress: string, tokenId: string, balance: string)

  /** The indexer's response body; `ownedNfts` may be missing. */
  datatype IndexerData = IndexerData(ownedNfts: Option<seq<OwnedNft>>)

  const CONTRACT_ADDRESS: string := "0xF0a0009b94e7E6071cC42b1eAA6F1B4424282b39"
  const IMAGE_BASE: string := "https://ipfs.io/ipfs/bafybeia3tnamrwjjuyu3ih3llwneycpmjzyvlnkhvmozuz5h3g5335y5y4/"

  /** Catalog entry number `k` (0..6): every field follows the same pattern. */
  function PredefinedEntry(k: nat): (e: CatalogEntry)
    requires k < 7
    ensures e.tokenId == [DigitChar(k)] && e.quantity == 1
  {
    var digit := [DigitChar(k)];
    CatalogEntry("predefined-" + digit, "NFT #" + digit, "A beautiful #" + digit,
                 IMAGE_BASE + digit + ".png", "NFT Collection", CONTRACT_ADDRESS, digit, 1, [])
  }

  /** `PREDEFINED_NFTS`. */
  const PREDEFINED_NFTS: seq<CatalogEntry> := [
    PredefinedEntry(0), PredefinedEntry(1), PredefinedEntry(2), PredefinedEntry(3),
    PredefinedEntry(4), PredefinedEntry(5), PredefinedEntry(6)
  ]

  lemma CatalogTokenIds()
    ensures |PREDEFINED_NFTS| == 7
    ensures PREDEFINED_NFTS[0].tokenId == "0" && PREDEFINED_NFTS[1].tokenId == "1"
    ensures PREDEFINED_NFTS[2].tokenId == "2" && PREDEFINED_NFTS[3].tokenId == "3"
    ensures PREDEFINED_NFTS[4].tokenId == "4" && PREDEFINED_NFTS[5].tokenId == "5"
    ensures PREDEFINED_NFTS[6].tokenId == "6"
  {
  }

  /** Catalog token ids are pairwise distinct. */
  lemma CatalogTokenIdsDistinct(j: nat, k: nat)
    requires j < 7 && k < 7 && j != k
    ensures PREDEFINED_NFTS[j].tokenId != PREDEFINED_NFTS[k].tokenId
  {
    assert PREDEFINED_NFTS[j].tokenId[0] != PREDEFINED_NFTS[k].tokenId[0];
  }

  // ---------------------------------------------------------------------------
  // Filtering the report to this contract
  // ---------------------------------------------------------------------------

  /** The address test of the filter: equal ignoring letter case. */
  predicate IsForContract(item: OwnedNft) {
    ToLower(item.contractAddress) == ToLower(CONTRACT_ADDRESS)
  }

  /** `ownedNfts.filter(...)`: the items for this contract, in report order. */
  function ForContract(items: seq<OwnedNft>): (r: seq<OwnedNft>)
    ensures |r| <= |items|
    ensures forall x :: x in r <==> x in items && IsForContract(x)
  {
    if items == [] then []
    else if IsForContract(items[0]) then [items[0]] + ForContract(items[1..])
    else ForContract(items[1..])
  }

  lemma {:induction false} ForContractAppend(a: seq<OwnedNft>, b: seq<OwnedNft>)
    ensures ForContract(a + b) == ForContract(a) + ForContract(b)
  {
    if a == [] {
      assert a + b == b;
    } else {
      assert (a + b)[0] == a[0] && (a + b)[1..] == a[1..] + b;
      ForContractAppend(a[1..], b);
    }
  }

  /** The entries both functions work on; nothing when `data` or `data.ownedNfts` is absent. */
  function RelevantItems(data: Option<IndexerData>): seq<OwnedNft> {
    match data
    case None => []
    case Some(d) => match d.ownedNfts { case None => [] case Some(items) => ForContract(items) }
  }

  /** The quantity an item contributes: `parseInt(balance) || 1`. */
  function ItemQuantity(item: OwnedNft): int {
    ParseIntOrOne(item.balance)
  }

  // ---------------------------------------------------------------------------
  // The per-token map filled by processNFTs
  // ---------------------------------------------------------------------------

  /** The `ownedNFTsMap` after `Map.set` of every item in order: a later item overwrites an earlier one. */
  function QuantityMap(items: seq<OwnedNft>): map<string, int>
  {
    if items == [] then map[]
    else QuantityMap(items[..|items| - 1])[items[|items| - 1].tokenId := ItemQuantity(items[|items| - 1])]
  }

  /** The map holds at most one entry per item: duplicates share an entry. */
  lemma {:induction false} QuantityMapSize(items: seq<OwnedNft>)
    ensures |QuantityMap(items)| <= |items|
  {
    if items != [] {
      QuantityMapSize(items[..|items| - 1]);
    }
  }

  /** `tokenId` is a key of the map exactly when some item carries that token id. */
  lemma {:induction false} QuantityMapKeys(items: seq<OwnedNft>, tokenId: string)
    ensures tokenId in QuantityMap(items) <==> exists j :: 0 <= j < |items| && items[j].tokenId == tokenId
  {
    if items != [] {
      var init := items[..|items| - 1];
      QuantityMapKeys(init, tokenId);
      if exists j :: 0 <= j < |init| && init[j].tokenId == tokenId {
        var j :| 0 <= j < |init| && init[j].tokenId == tokenId;
        assert items[j] == init[j];
      }
    }
  }

  /** The stored quantity is the one of the LAST item with that token id, so duplicates do not add up. */
  lemma {:induction false} QuantityMapLastWins(items: seq<OwnedNft>, j: nat)
    requires j < |items|
    requires forall k :: j < k < |items| ==> items[k].tokenId != items[j].tokenId
    ensures items[j].tokenId in QuantityMap(items)
    ensures QuantityMap(items)[items[j].tokenId] == ItemQuantity(items[j])
  {
    if j < |items| - 1 {
      var init := items[..|items| - 1];
      assert forall k :: j < k < |init| ==> init[k] == items[k];
      QuantityMapLastWins(init, j);
    }
  }

  /** No stored quantity is zero (the `|| 1` replaced it). */
  lemma {:induction false} QuantityMapNonZero(items: seq<OwnedNft>, tokenId: string)
    requires tokenId in QuantityMap(items)
    ensures QuantityMap(items)[tokenId] != 0
  {
    if items[|items| - 1].tokenId != tokenId {
      QuantityMapNonZero(items[..|items| - 1], tokenId);
    }
  }

  // ---------------------------------------------------------------------------
  // The snapshot and the total
  // ---------------------------------------------------------------------------

  /** `{...nft, owned: map.has(tokenId), quantity: map.get(tokenId) || nft.quantity}`. */
  function Overlay(e: CatalogEntry, owned: map<string, int>): (n: Nft)
    ensures SameExceptOwnership(n, e)
    ensures n.owned <==> e.tokenId in owned
  {
    var quantity := if e.tokenId in owned && owned[e.tokenId] != 0 then owned[e.tokenId] else e.quantity;
    Nft(e.id, e.name, e.description, e.image, e.collection, e.contractAddress, e.tokenId,
        quantity, e.attributes, e.tokenId in owned)
  }

  /** Every field but `owned` and `quantity` is copied from the catalog entry. */
  predicate SameExceptOwnership(n: Nft, e: CatalogEntry) {
    && n.id == e.id && n.name == e.name && n.description == e.description && n.image == e.image
    && n.collection == e.collection && n.contractAddress == e.contractAddress
    && n.tokenId == e.tokenId && n.attributes == e.attributes
  }

  /** What `processNFTs(data)` returns: the catalog, in catalog order, with ownership overlaid. */
  function Snapshot(data: Option<IndexerData>): (r: seq<Nft>)
    ensures |r| == |PREDEFINED_NFTS| == 7
    ensures forall k :: 0 <= k < 7 ==> SameExceptOwnership(r[k], PREDEFINED_NFTS[k])
  {
    var owned := QuantityMap(RelevantItems(data));
    seq(7, k requires 0 <= k < 7 => Overlay(PREDEFINED_NFTS[k], owned))
  }

  /** The sum of the quantities of all items, duplicates and unknown token ids included. */
  function SumQuantities(items: seq<OwnedNft>): int
  {
    if items == [] then 0 else SumQuantities(items[..|items| - 1]) + ItemQuantity(items[|items| - 1])
  }

  /** Every item counts at least once when no balance is negative: NaN and "0" count as 1. */
  lemma {:induction false} SumQuantitiesAtLeastCount(items: seq<OwnedNft>)
    requires forall j :: 0 <= j < |items| ==> ParseInt(items[j].balance).None? || ParseInt(items[j].balance).value >= 0
    ensures SumQuantities(items) >= |items|
  {
    if items != [] {
      SumQuantitiesAtLeastCount(items[..|items| - 1]);
      assert ItemQuantity(items[|items| - 1]) >= 1;
    }
  }

  lemma {:induction false} SumQuantitiesAppend(a: seq<OwnedNft>, b: seq<OwnedNft>)
    ensures SumQuantities(a + b) == SumQuantities(a) + SumQuantities(b)
  {
    if b != [] {
      assert (a + b)[..|a + b| - 1] == a + b[..|b| - 1];
      SumQuantitiesAppend(a, b[..|b| - 1]);
    } else {
      assert a + b == a;
    }
  }

  /** `calculateTotalCount(data)`. */
  function TotalCount(data: Option<IndexerData>): (r: int)
    ensures data.None? || data.value.ownedNfts.None? ==> r == 0
  {
    SumQuantities(RelevantItems(data))
  }

  /** A catalog entry is owned exactly when some filtered report item carries its token id string. */
  lemma SnapshotOwnedIff(data: Option<IndexerData>, k: nat)
    requires k < 7
    ensures Snapshot(data)[k].owned <==>
      exists j :: 0 <= j < |RelevantItems(data)| && RelevantItems(data)[j].tokenId == PREDEFINED_NFTS[k].tokenId
  {
    QuantityMapKeys(RelevantItems(data), PREDEFINED_NFTS[k].tokenId);
  }

  /**
   * An owned entry takes the quantity of the last report item for its token
   * id; an entry nobody reported keeps the catalog default of 1.
   */
  lemma SnapshotQuantity(data: Option<IndexerData>, k: nat, j: nat)
    requires k < 7
    requires var items := RelevantItems(data);
      && j < |items| && items[j].tokenId == PREDEFINED_NFTS[k].tokenId
      && forall i :: j < i < |items| ==> items[i].tokenId != items[j].tokenId
    ensures Snapshot(data)[k].owned
    ensures Snapshot(data)[k].quantity == ItemQuantity(RelevantItems(data)[j])
  {
    var items := RelevantItems(data);
    QuantityMapLastWins(items, j);
    QuantityMapNonZero(items, items[j].tokenId);
  }

  lemma SnapshotUnownedQuantity(data: Option<IndexerData>, k: nat)
    requires k < 7 && !Snapshot(data)[k].owned
    ensures Snapshot(data)[k].quantity == 1
  {
  }

  /** The report restricted to `items`, as the indexer would return it. */
  function Report(items: seq<OwnedNft>): Option<IndexerData> {
    Some(IndexerData(Some(items)))
  }

  lemma {:induction false} QuantityMapIgnoresUnknownKey(items: seq<OwnedNft>, x: OwnedNft, tokenId: string)
    requires x.tokenId != tokenId
    ensures tokenId in QuantityMap(items + [x]) <==> tokenId in QuantityMap(items)
    ensures tokenId in QuantityMap(items) ==> QuantityMap(items + [x])[tokenId] == QuantityMap(items)[tokenId]
  {
    assert (items + [x])[..|items|] == items;
  }

  /**
   * A reported token id outside the catalog never shows in the snapshot,
   * but it still adds its quantity to the total.
   */
  lemma UnknownTokenCountsOnlyInTotal(items: seq<OwnedNft>, x: OwnedNft)
    requires IsForContract(x)
    requires forall k :: 0 <= k < 7 ==> x.tokenId != PREDEFINED_NFTS[k].tokenId
    ensures Snapshot(Report(items + [x])) == Snapshot(Report(items))
    ensures TotalCount(Report(items + [x])) == TotalCount(Report(items)) + ItemQuantity(x)
  {
    ForContractAppend(items, [x]);
    var f := ForContract(items);
    assert ForContract([x]) == [x];
    SumQuantitiesAppend(f, [x]);
    forall k | 0 <= k < 7
      ensures Snapshot(Report(items + [x]))[k] == Snapshot(Report(items))[k]
    {
      QuantityMapIgnoresUnknownKey(f, x, PREDEFINED_NFTS[k].tokenId);
    }
  }

  /**
   * A second report item for a token the report already lists replaces its
   * snapshot quantity instead of adding to it, while the total counts both.
   */
  lemma DuplicateTokenOverwrites(items: seq<OwnedNft>, x: OwnedNft, k: nat)
    requires k < 7 && IsForContract(x) && x.tokenId == PREDEFINED_NFTS[k].tokenId
    ensures Snapshot(Report(items + [x]))[k].owned
    ensures Snapshot(Report(items + [x]))[k].quantity == ItemQuantity(x)
    ensures TotalCount(Report(items + [x])) == TotalCount(Report(items)) + ItemQuantity(x)
  {
    ForContractAppend(items, [x]);
    var f := ForContract(items);
    assert ForContract([x]) == [x];
    SumQuantitiesAppend(f, [x]);
    SnapshotQuantity(Report(items + [x]), k, |f|);
  }

  /**
   * A report listing token 3 with balance "2" and token 1 with balance "1"
   * (the address in lower case) yields tokens 1 and 3 owned with those
   * quantities, every other entry unowned, and a total of 3.
   */
  lemma ExampleReport()
    ensures var d := Report([OwnedNft(ToLower(CONTRACT_ADDRESS), "3", "2"), OwnedNft(CONTRACT_ADDRESS, "1", "1")]);
      && Snapshot(d)[3].owned && Snapshot(d)[3].quantity == 2
      && Snapshot(d)[1].owned && Snapshot(d)[1].quantity == 1
      && !Snapshot(d)[0].owned && !Snapshot(d)[2].owned && !Snapshot(d)[4].owned
      && !Snapshot(d)[5].owned && !Snapshot(d)[6].owned
      && TotalCount(d) == 3
  {
    var a := OwnedNft(ToLower(CONTRACT_ADDRESS), "3", "2");
    var b := OwnedNft(CONTRACT_ADDRESS, "1", "1");
    ToLowerIgnoresCase(CONTRACT_ADDRESS);
    var d := Report([a, b]);
    assert ForContract([a, b]) == [a, b] by {
      assert [a, b][1..] == [b];
    }
    ParseIntOfIntToString(2);
    ParseIntOfIntToString(1);
    assert ItemQuantity(a) == 2 && ItemQuantity(b) == 1;
    CatalogTokenIds();
    SnapshotQuantity(d, 3, 0);
    SnapshotQuantity(d, 1, 1);
    forall k | k in {0, 2, 4, 5, 6} ensures !Snapshot(d)[k].owned {
      SnapshotOwnedIff(d, k);
    }
    assert [a, b][..1] == [a] && [a][..0] == [];
    assert SumQuantities([a]) == 2;
  }

  /**
   * `processNFTs`: fills the per-token map in one pass over the filtered
   * items, then overlays it onto the catalog. The pass also keeps the running
   * `ownedNFTsCount`, which the source computes and then discards; it is
   * returned here to show that it always equals `calculateTotalCount`.
   */
  method ProcessNfts(data: Option<IndexerData>) returns (nfts: seq<Nft>, ownedCount: int)
    ensures nfts == Snapshot(data)
    ensures ownedCount == TotalCount(data)
  {
    var ownedMap: map<string, int> := map[];
    ownedCount := 0;
    var items := RelevantItems(data);
    var i := 0;
    while i < |items|
      invariant 0 <= i <= |items|
      invariant ownedMap == QuantityMap(items[..i])
      invariant ownedCount == SumQuantities(items[..i])
    {
      assert items[..i + 1][..i] == items[..i];
      var quantity := ParseIntOrOne(items[i].balance);
      ownedMap := ownedMap[items[i].tokenId := quantity];
      ownedCount := ownedCount + quantity;
      i := i + 1;
    }
    assert items[..i] == items;
    nfts := seq(7, k requires 0 <= k < 7 => Overlay(PREDEFINED_NFTS[k], ownedMap));
  }
}
