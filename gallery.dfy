/**
 * The forging rules and the gallery state of components/nft-gallery.tsx: the
 * requirement table, `hasRequiredTokens`, `isAnyOperationInProgress`, the
 * forge-button rule, the burn-amount clamp, and the handlers that update the
 * per-token forging flags and the burn dialog around a contract action.
 */
module Gallery {
  import opened Wrappers
  import opened JsString
  import opened Nfts
  import Contract

  // ---------------------------------------------------------------------------
  // Requirements
  // ---------------------------------------------------------------------------

  /** What forging a token needs: the token numbers that must be owned, and the text shown for it. */
  datatype Requirement = Requirement(needs: seq<int>, description: string)

  /** `TOKEN_REQUIREMENTS`: tokens 3 to 6 are forged from the basic tokens 0, 1 and 2. */
  const TOKEN_REQUIREMENTS: map<string, Requirement> := map[
    "3" := Requirement([0, 1], "Requires tokens #0 and #1"),
    "4" := Requirement([1, 2], "Requires tokens #1 and #2"),
    "5" := Requirement([0, 2], "Requires tokens #0 and #2"),
    "6" := Requirement([0, 1, 2], "Requires tokens #0, #1, and #2")
  ]

  /**
   * `nfts.find(nft => parseInt(nft.tokenId) === n)`: the position of the first
   * entry whose token id parses to `n`. NaN equals nothing.
   */
  function FindByNumber(nfts: seq<Nft>, n: int): (r: Option<nat>)
    ensures r.Some? ==> r.value < |nfts| && ParseInt(nfts[r.value].tokenId) == Some(n)
    ensures r.Some? ==> forall j :: 0 <= j < r.value ==> ParseInt(nfts[j].tokenId) != Some(n)
    ensures r.None? <==> forall j :: 0 <= j < |nfts| ==> ParseInt(nfts[j].tokenId) != Some(n)
  {
    if nfts == [] then None
    else if ParseInt(nfts[0].tokenId) == Some(n) then Some(0)
    else match FindByNumber(nfts[1..], n) {
      case None => None
      case Some(i) => Some(i + 1)
    }
  }

  /** `requiredToken && requiredToken.owned`: the first entry numbered `n` exists and is owned. */
  predicate Holds(nfts: seq<Nft>, n: int) {
    var found := FindByNumber(nfts, n);
    found.Some? && nfts[found.value].owned
  }

  /** `hasRequiredTokens(tokenId)` over the displayed list `nfts`. */
  predicate HasRequiredTokens(nfts: seq<Nft>, tokenId: string) {
    tokenId !in TOKEN_REQUIREMENTS
    || forall n :: n in TOKEN_REQUIREMENTS[tokenId].needs ==> Holds(nfts, n)
  }

  /**
   * `hasRequiredTokens` in terms of the list itself: every required number
   * has an owned entry that is the first entry parsing to that number.
   */
  lemma HasRequiredTokensFirstMatch(nfts: seq<Nft>, tokenId: string)
    requires tokenId in TOKEN_REQUIREMENTS
    ensures HasRequiredTokens(nfts, tokenId) <==>
      forall n :: n in TOKEN_REQUIREMENTS[tokenId].needs ==>
        exists j :: 0 <= j < |nfts| && ParseInt(nfts[j].tokenId) == Some(n) && nfts[j].owned
          && forall i :: 0 <= i < j ==> ParseInt(nfts[i].tokenId) != Some(n)
  {
    forall n | n in TOKEN_REQUIREMENTS[tokenId].needs
      ensures Holds(nfts, n) <==>
        exists j :: 0 <= j < |nfts| && ParseInt(nfts[j].tokenId) == Some(n) && nfts[j].owned
          && forall i :: 0 <= i < j ==> ParseInt(nfts[i].tokenId) != Some(n)
    {
      var found := FindByNumber(nfts, n);
      if found.Some? {
        forall j | 0 <= j < |nfts| && ParseInt(nfts[j].tokenId) == Some(n)
            && forall i :: 0 <= i < j ==> ParseInt(nfts[i].tokenId) != Some(n)
          ensures j == found.value
        {
        }
      }
    }
  }

  /** The basic tokens, and every id the table does not list, can always be forged. */
  lemma UnlistedAlwaysForgeable(nfts: seq<Nft>, tokenId: string)
    requires tokenId !in {"3", "4", "5", "6"}
    ensures HasRequiredTokens(nfts, tokenId)
  {
    assert TOKEN_REQUIREMENTS.Keys == {"3", "4", "5", "6"};
  }

  /** Catalog entry `k` carries the numeral of `k` as its token id. */
  lemma CatalogTokenIdParses(k: nat)
    requires k < 7
    ensures ParseInt(PREDEFINED_NFTS[k].tokenId) == Some(k)
  {
    assert PREDEFINED_NFTS[k] == PredefinedEntry(k) by {
      assert k == 0 || k == 1 || k == 2 || k == 3 || k == 4 || k == 5 || k == 6;
    }
    assert PREDEFINED_NFTS[k].tokenId == IntToString(k);
    ParseIntOfIntToString(k);
  }

  /** In the snapshot, the entry at position `n` is the first whose token id parses to `n`. */
  lemma FindInSnapshot(data: Option<IndexerData>, n: nat)
    requires n < 7
    ensures FindByNumber(Snapshot(data), n) == Some(n)
  {
    var nfts := Snapshot(data);
    forall j | 0 <= j < 7 ensures ParseInt(nfts[j].tokenId) == Some(j) {
      CatalogTokenIdParses(j);
    }
    assert ParseInt(nfts[n].tokenId) == Some(n);
  }

  /**
   * On the gallery's list, a token with requirements can be forged exactly
   * when every required basic token is listed as owned in the snapshot.
   */
  lemma SnapshotForgeable(data: Option<IndexerData>, tokenId: string)
    requires tokenId in TOKEN_REQUIREMENTS
    ensures HasRequiredTokens(Snapshot(data), tokenId) <==>
      forall n :: n in TOKEN_REQUIREMENTS[tokenId].needs ==> 0 <= n < 7 && Snapshot(data)[n].owned
  {
    forall n | n in TOKEN_REQUIREMENTS[tokenId].needs ensures 0 <= n < 3 {
    }
    forall n | 0 <= n < 3 ensures FindByNumber(Snapshot(data), n) == Some(n) {
      FindInSnapshot(data, n);
    }
  }

  /** The report, filtered to this contract, has an item for token id `d`. */
  predicate Mentions(data: Option<IndexerData>, d: string) {
    exists j :: 0 <= j < |RelevantItems(data)| && RelevantItems(data)[j].tokenId == d
  }

  /**
   * From the indexer's report to the button: token 6 can be forged exactly
   * when the report, filtered to this contract, mentions tokens "0", "1" and "2".
   */
  lemma ForgeableFromReport(data: Option<IndexerData>)
    ensures HasRequiredTokens(Snapshot(data), "6") <==> Mentions(data, "0") && Mentions(data, "1") && Mentions(data, "2")
  {
    SnapshotForgeable(data, "6");
    CatalogTokenIds();
    SnapshotOwnedIff(data, 0);
    SnapshotOwnedIff(data, 1);
    SnapshotOwnedIff(data, 2);
    assert TOKEN_REQUIREMENTS["6"].needs == [0, 1, 2];
  }

  /** `b` is `a` with possibly more entries marked owned. */
  predicate OwnershipGrows(a: seq<Nft>, b: seq<Nft>) {
    |a| == |b| && forall i :: 0 <= i < |a| ==> a[i].tokenId == b[i].tokenId && (a[i].owned ==> b[i].owned)
  }

  /** `find` looks only at token ids, so marking entries owned does not move it. */
  lemma FindIgnoresOwnership(a: seq<Nft>, b: seq<Nft>, n: int)
    requires OwnershipGrows(a, b)
    ensures FindByNumber(a, n) == FindByNumber(b, n)
  {
    assert forall j :: 0 <= j < |a| ==> ParseInt(a[j].tokenId) == ParseInt(b[j].tokenId);
  }

  /** Owning more never takes a forge permission away. */
  lemma HasRequiredTokensMonotone(a: seq<Nft>, b: seq<Nft>, tokenId: string)
    requires OwnershipGrows(a, b)
    requires HasRequiredTokens(a, tokenId)
    ensures HasRequiredTokens(b, tokenId)
  {
    if tokenId in TOKEN_REQUIREMENTS {
      forall n | n in TOKEN_REQUIREMENTS[tokenId].needs ensures Holds(b, n) {
        FindIgnoresOwnership(a, b, n);
      }
    }
  }

  // ---------------------------------------------------------------------------
  // Gating
  // ---------------------------------------------------------------------------

  /** `isAnyOperationInProgress()`: a transaction is running, some forge flag is set, or the basic set is being forged. */
  predicate AnyOperationInProgress(isProcessing: bool, forgingTokens: map<string, bool>, isBasicSetForging: bool): (r: bool)
    ensures r <==> isProcessing || isBasicSetForging || exists id :: id in forgingTokens && forgingTokens[id]
  {
    isProcessing || true in forgingTokens.Values || isBasicSetForging
  }

  /**
   * Setting a token's forge flag blocks every operation; clearing it again
   * leaves the gallery blocked only by the other flags.
   */
  lemma ForgeFlagLifecycle(isProcessing: bool, forgingTokens: map<string, bool>, isBasicSetForging: bool, id: string)
    ensures AnyOperationInProgress(isProcessing, forgingTokens[id := true], isBasicSetForging)
    ensures AnyOperationInProgress(isProcessing, forgingTokens[id := false], isBasicSetForging) <==>
      isProcessing || isBasicSetForging || exists other :: other in forgingTokens && other != id && forgingTokens[other]
  {
    var raised := forgingTokens[id := true];
    assert id in raised && raised[id];
    var cleared := forgingTokens[id := false];
    if exists other :: other in forgingTokens && other != id && forgingTokens[other] {
      var other :| other in forgingTokens && other != id && forgingTokens[other];
      assert other in cleared && cleared[other];
    }
  }

  /** `disabled={isOperationInProgress || (requirements && !canForge)}` on a token's forge button. */
  predicate ForgeDisabled(inProgress: bool, nfts: seq<Nft>, tokenId: string): (r: bool)
    // the `requirements &&` guard changes nothing: an unlisted id is always forgeable
    ensures r <==> inProgress || !HasRequiredTokens(nfts, tokenId)
  {
    inProgress || (tokenId in TOKEN_REQUIREMENTS && !HasRequiredTokens(nfts, tokenId))
  }

  /**
   * On the gallery's list, a forge button is disabled exactly when something
   * is in progress or a required basic token is not owned in the snapshot.
   */
  lemma ForgeDisabledOnSnapshot(inProgress: bool, data: Option<IndexerData>, tokenId: string)
    ensures ForgeDisabled(inProgress, Snapshot(data), tokenId) <==>
      inProgress || (tokenId in TOKEN_REQUIREMENTS &&
        exists n :: n in TOKEN_REQUIREMENTS[tokenId].needs && !(0 <= n < 7 && Snapshot(data)[n].owned))
  {
    if tokenId in TOKEN_REQUIREMENTS {
      SnapshotForgeable(data, tokenId);
    }
  }

  /**
   * `Math.min(Math.max(1, parseInt(v) || 1), quantity)`: what the burn-amount
   * input stores when its text changes to `input`.
   */
  function ClampBurnAmount(input: string, quantity: int): (r: int)
    ensures quantity >= 1 ==> 1 <= r <= quantity
    ensures r <= quantity && (r == quantity || r >= 1)
    ensures ParseInt(input).None? ==> r == (if quantity < 1 then quantity else 1)
    ensures (ParseInt(input).Some? && 1 <= ParseInt(input).value <= quantity) ==> r == ParseInt(input).value
    ensures (ParseInt(input).Some? && ParseInt(input).value > quantity) ==> r == quantity
    ensures (ParseInt(input).Some? && ParseInt(input).value < 1) ==> r == (if quantity < 1 then quantity else 1)
  {
    var v := ParseIntOrOne(input);
    var atLeastOne := if v < 1 then 1 else v;
    if atLeastOne < quantity then atLeastOne else quantity
  }

  // ---------------------------------------------------------------------------
  // The gallery's own state
  // ---------------------------------------------------------------------------

  /**
   * The state `NFTGallery` keeps with `useState`, next to the contract hook it
   * calls. Each outcome parameter of a handler stands for how the awaited
   * contract action goes.
   */
  class GalleryState {
    var forgingTokens: map<string, bool>
    var isBasicSetForging: bool
    var burnAmount: int
    var selectedForBurn: Option<Nft>
    var dialogOpen: bool
    const transactions: Contract.Transactions

    constructor (transactions: Contract.Transactions)
      ensures this.transactions == transactions
      ensures forgingTokens == map[] && !isBasicSetForging
      ensures burnAmount == 1 && selectedForBurn == None && !dialogOpen
    {
      this.transactions := transactions;
      forgingTokens := map[];
      isBasicSetForging := false;
      burnAmount := 1;
      selectedForBurn := None;
      dialogOpen := false;
    }

    predicate InProgress()
      reads this, transactions
    {
      AnyOperationInProgress(transactions.isProcessing, forgingTokens, isBasicSetForging)
    }

    /**
     * `handleForge(nft)`: the token's flag is raised around `mintToken` and
     * lowered afterwards whether minting returned or threw; no other flag changes.
     */
    method HandleForge(nft: Nft, providerFound: bool, submission: Contract.Submission,
                       confirmation: Contract.Confirmation)
      modifies this`forgingTokens, transactions`isProcessing, transactions`log
      ensures forgingTokens == old(forgingTokens)[nft.id := false]
      ensures var e := Contract.Settle(Contract.MintPlan(transactions.connector && providerFound, ParseInt(nft.tokenId)),
                                       transactions.Connected(), old(transactions.isProcessing), submission, confirmation);
        transactions.log == old(transactions.log).Record(e)
      ensures transactions.isProcessing == old(transactions.isProcessing)
    {
      var tokenId := ParseInt(nft.tokenId);
      forgingTokens := forgingTokens[nft.id := true];
      assert InProgress() by {
        ForgeFlagLifecycle(transactions.isProcessing, old(forgingTokens), isBasicSetForging, nft.id);
      }
      var _ := transactions.MintToken(tokenId, providerFound, submission, confirmation);
      forgingTokens := forgingTokens[nft.id := false];
    }

    /** `handleForgeAll()`: the basic-set flag is raised around `mintAllFreeTokens` and lowered afterwards. */
    method HandleForgeAll(providerFound: bool, submission: Contract.Submission, confirmation: Contract.Confirmation)
      modifies this`isBasicSetForging, transactions`isProcessing, transactions`log
      ensures !isBasicSetForging
      ensures var e := Contract.Settle(Contract.MintAllPlan(transactions.connector && providerFound),
                                       transactions.Connected(), old(transactions.isProcessing), submission, confirmation);
        transactions.log == old(transactions.log).Record(e)
      ensures transactions.isProcessing == old(transactions.isProcessing)
    {
      isBasicSetForging := true;
      assert InProgress();
      var _ := transactions.MintAllFreeTokens(providerFound, submission, confirmation);
      isBasicSetForging := false;
    }

    /**
     * `handleBurn(nft, amount)`: the dialog is closed, the selection dropped
     * and the amount reset only when `burnToken` returns without throwing.
     */
    method HandleBurn(nft: Nft, amount: int, providerFound: bool, submission: Contract.Submission,
                      confirmation: Contract.Confirmation)
      modifies this`dialogOpen, this`selectedForBurn, this`burnAmount, transactions`isProcessing, transactions`log
      ensures var e := Contract.Settle(Contract.BurnPlan(transactions.connector && providerFound, ParseInt(nft.tokenId), amount),
                                       transactions.Connected(), old(transactions.isProcessing), submission, confirmation);
        transactions.log == old(transactions.log).Record(e)
        && (e.result.Returned? ==> !dialogOpen && selectedForBurn == None && burnAmount == 1)
        && (e.result.Threw? ==> dialogOpen == old(dialogOpen) && selectedForBurn == old(selectedForBurn)
                                && burnAmount == old(burnAmount))
      ensures transactions.isProcessing == old(transactions.isProcessing)
    {
      var tokenId := ParseInt(nft.tokenId);
      var r := transactions.BurnToken(tokenId, amount, providerFound, submission, confirmation);
      if r.Returned? {
        dialogOpen := false;
        selectedForBurn := None;
        burnAmount := 1;
      }
    }

    /** `handleBurnClick(nft)`: select the token, reset the amount, open the dialog. */
    method HandleBurnClick(nft: Nft)
      modifies this`selectedForBurn, this`burnAmount, this`dialogOpen
      ensures selectedForBurn == Some(nft) && burnAmount == 1 && dialogOpen
    {
      selectedForBurn := Some(nft);
      burnAmount := 1;
      dialogOpen := true;
    }

    /** `handleDialogClose()`: close the dialog, drop the selection, reset the amount. */
    method HandleDialogClose()
      modifies this`selectedForBurn, this`burnAmount, this`dialogOpen
      ensures selectedForBurn == None && burnAmount == 1 && !dialogOpen
    {
      dialogOpen := false;
      selectedForBurn := None;
      burnAmount := 1;
    }

    /** The amount input's `onChange`; the input exists only while a token is selected. */
    method OnBurnAmountChange(input: string)
      requires selectedForBurn.Some?
      modifies this`burnAmount
      ensures burnAmount == ClampBurnAmount(input, selectedForBurn.value.quantity)
      ensures selectedForBurn.value.quantity >= 1 ==> 1 <= burnAmount <= selectedForBurn.value.quantity
    {
      burnAmount := ClampBurnAmount(input, selectedForBurn.value.quantity);
    }
  }
}
