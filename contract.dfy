/**
 * The transaction layer of lib/utils/contract.ts: the error classifier
 * (`parseErrorMessage`), the timeout rewriting of `waitForTransaction`, the
 * `handleTransaction` guard and notification sequence, and the three actions
 * that route through it (`mintToken`, `burnToken`, `mintAllFreeTokens`).
 *
 * The wallet, the contract call, `tx.wait()` and the 20-second timer are not
 * modelled as code: what they do is a parameter of each operation (an
 * outcome), and the toasts and `refreshData` calls are recorded in a log.
 */
module Contract {
  import opened Wrappers
  import opened JsString

  const CONTRACT_ADDRESS: string := "0x77ca1Db200df9A8BAFC993b77E0feFBE7D495463"
  const TRANSACTION_TIMEOUT_MS: nat := 20000

  /** The human-readable ABI the contract object is built from. */
  const ABI: seq<string> := [
    "function mintAllFreeToken()",
    "function mintToken0()", "function mintToken1()", "function mintToken2()", "function mintToken3()",
    "function mintToken4()", "function mintToken5()", "function mintToken6()",
    "function burnWithoutForge(uint256 tokenId, uint256 value)",
    "event TokenMinted(string data)",
    "event TokenBurned(uint256 tokenId, uint256 amount)"
  ]

  // ---------------------------------------------------------------------------
  // Errors and their classification
  // ---------------------------------------------------------------------------

  /** The `code` property of a thrown error: absent, a number or a string. */
  datatype ErrorCode = NoCode | NumericCode(n: int) | TextCode(s: string)

  /** A thrown error; an absent `message` reads as the empty string, as `error.message || ''` does. */
  datatype JsError = JsError(code: ErrorCode, message: string)

  /** The codes wallets use for a transaction the user declined. */
  predicate IsRejection(code: ErrorCode) {
    code == NumericCode(4001) || code == TextCode("ACTION_REJECTED")
  }

  /** The classifier's rules, in the order it tries them. */
  datatype Category =
    | Rejected | Cooldown | InsufficientFunds | ExecutionReverted
    | NetworkFailure | GasPrice | Nonce | Timeout | Unrecognised

  const PRIORITY: seq<Category> :=
    [Rejected, Cooldown, InsufficientFunds, ExecutionReverted, NetworkFailure, GasPrice, Nonce, Timeout, Unrecognised]

  /** Whether the test of rule `c`, taken on its own, accepts the error. */
  predicate Fires(c: Category, e: JsError) {
    match c
    case Rejected => IsRejection(e.code)
    case Cooldown => Includes(ToLower(e.message), "wait for the cooldown")
    case InsufficientFunds => Includes(e.message, "insufficient funds") || Includes(e.message, "not enough funds")
    case ExecutionReverted => Includes(e.message, "execution reverted")
    case NetworkFailure => Includes(e.message, "network") || Includes(e.message, "connection")
    case GasPrice => Includes(e.message, "gas price")
    case Nonce => Includes(e.message, "nonce")
    case Timeout => Includes(e.message, "timeout")
    case Unrecognised => true
  }

  const REJECTED_MESSAGE: string := "Transaction was rejected."
  const COOLDOWN_MESSAGE: string := "Please wait for the cooldown period to end before forging again."
  const FUNDS_MESSAGE: string := "Insufficient funds to complete this transaction. Please check your MATIC balance."
  const REVERTED_MESSAGE: string := "Transaction failed. You may not meet the requirements for this action."
  const NETWORK_MESSAGE: string := "Network error. Please check your internet connection and try again."
  const GAS_PRICE_MESSAGE: string := "Gas price too low. Please increase gas price or try again later."
  const NONCE_MESSAGE: string := "Transaction nonce error. Please refresh the page and try again."
  const TIMEOUT_MESSAGE: string := "Transaction timed out. The network may be congested, please try again."
  const GENERIC_MESSAGE: string := "Transaction failed. Please try again."

  /** The text shown for each category. */
  function Text(c: Category): string {
    match c
    case Rejected => REJECTED_MESSAGE
    case Cooldown => COOLDOWN_MESSAGE
    case InsufficientFunds => FUNDS_MESSAGE
    case ExecutionReverted => REVERTED_MESSAGE
    case NetworkFailure => NETWORK_MESSAGE
    case GasPrice => GAS_PRICE_MESSAGE
    case Nonce => NONCE_MESSAGE
    case Timeout => TIMEOUT_MESSAGE
    case Unrecognised => GENERIC_MESSAGE
  }

  /** `parseErrorMessage`, branch for branch, including the cooldown test nested in the "execution reverted" branch. */
  function ParseErrorMessage(e: JsError): (r: string)
    ensures r in [REJECTED_MESSAGE, COOLDOWN_MESSAGE, FUNDS_MESSAGE, REVERTED_MESSAGE, NETWORK_MESSAGE,
                  GAS_PRICE_MESSAGE, NONCE_MESSAGE, TIMEOUT_MESSAGE, GENERIC_MESSAGE]
    ensures r == REJECTED_MESSAGE <==> IsRejection(e.code)
  {
    var m := e.message;
    if IsRejection(e.code) then REJECTED_MESSAGE
    else if Includes(ToLower(m), "wait for the cooldown") then COOLDOWN_MESSAGE
    else if Includes(m, "insufficient funds") || Includes(m, "not enough funds") then FUNDS_MESSAGE
    else if Includes(m, "execution reverted") then
      (if Includes(ToLower(m), "wait for the cooldown") then COOLDOWN_MESSAGE else REVERTED_MESSAGE)
    else if Includes(m, "network") || Includes(m, "connection") then NETWORK_MESSAGE
    else if Includes(m, "gas price") then GAS_PRICE_MESSAGE
    else if Includes(m, "nonce") then NONCE_MESSAGE
    else if Includes(m, "timeout") then TIMEOUT_MESSAGE
    else GENERIC_MESSAGE
  }

  /** The classifier answers with the text of the first rule in PRIORITY whose test accepts the error. */
  lemma ParseErrorMessageFirstRule(e: JsError, k: nat)
    requires k < |PRIORITY| && Fires(PRIORITY[k], e)
    requires forall j :: 0 <= j < k ==> !Fires(PRIORITY[j], e)
    ensures ParseErrorMessage(e) == Text(PRIORITY[k])
  {
    if k > 0 { assert !Fires(PRIORITY[0], e); }
    if k > 1 { assert !Fires(PRIORITY[1], e); }
    if k > 2 { assert !Fires(PRIORITY[2], e); }
    if k > 3 { assert !Fires(PRIORITY[3], e); }
    if k > 4 { assert !Fires(PRIORITY[4], e); }
    if k > 5 { assert !Fires(PRIORITY[5], e); }
    if k > 6 { assert !Fires(PRIORITY[6], e); }
    if k > 7 { assert !Fires(PRIORITY[7], e); }
  }

  /** A rejection code decides the text whatever the message says. */
  lemma RejectionIgnoresMessage(code: ErrorCode, m1: string, m2: string)
    requires IsRejection(code)
    ensures ParseErrorMessage(JsError(code, m1)) == ParseErrorMessage(JsError(code, m2)) == REJECTED_MESSAGE
  {
    assert Fires(PRIORITY[0], JsError(code, m1)) && Fires(PRIORITY[0], JsError(code, m2));
  }

  /**
   * The cooldown phrase, written in any letter case, wins over every later
   * rule: "execution reverted: wait for the cooldown" is a cooldown.
   */
  lemma CooldownWins(code: ErrorCode, before: string, phrase: string, after: string)
    requires !IsRejection(code)
    requires ToLower(phrase) == "wait for the cooldown"
    ensures ParseErrorMessage(JsError(code, before + phrase + after)) == COOLDOWN_MESSAGE
  {
    ToLowerAppend(before + phrase, after);
    ToLowerAppend(before, phrase);
    IncludesWithin(ToLower(before), "wait for the cooldown", ToLower(after));
  }

  /**
   * The cooldown test nested in the "execution reverted" branch can never
   * succeed: that branch is only reached after the same test failed.
   */
  lemma NestedCooldownTestNeverSucceeds(e: JsError)
    requires !IsRejection(e.code) && !Fires(Cooldown, e) && !Fires(InsufficientFunds, e)
    requires Fires(ExecutionReverted, e)
    ensures ParseErrorMessage(e) == REVERTED_MESSAGE
  {
  }

  /** A phrase starting with a lower-case letter is not found in a message that has none. */
  lemma NotIncludedWithoutLowerCase(m: string, t: string)
    requires forall i :: 0 <= i < |m| ==> !('a' <= m[i] <= 'z')
    requires 1 < |t| && 'a' <= t[0] <= 'z'
    ensures !Includes(m, t)
  {
    NotIncludesByPair(m, t, 0);
  }

  /**
   * The tests after the cooldown one look at the message as written, and
   * every phrase they look for is in lower case: a message without a
   * lower-case letter is a cooldown or falls through to the generic text.
   */
  lemma LaterRulesAreCaseSensitive(code: ErrorCode, m: string)
    requires !IsRejection(code)
    requires forall i :: 0 <= i < |m| ==> !('a' <= m[i] <= 'z')
    ensures ParseErrorMessage(JsError(code, m)) ==
      if Fires(Cooldown, JsError(code, m)) then COOLDOWN_MESSAGE else GENERIC_MESSAGE
  {
    NotIncludedWithoutLowerCase(m, "insufficient funds");
    NotIncludedWithoutLowerCase(m, "not enough funds");
    NotIncludedWithoutLowerCase(m, "execution reverted");
    NotIncludedWithoutLowerCase(m, "network");
    NotIncludedWithoutLowerCase(m, "connection");
    NotIncludedWithoutLowerCase(m, "gas price");
    NotIncludedWithoutLowerCase(m, "nonce");
    NotIncludedWithoutLowerCase(m, "timeout");
  }

  // ---------------------------------------------------------------------------
  // waitForTransaction
  // ---------------------------------------------------------------------------

  datatype Receipt = Receipt(transactionHash: string)

  /** How the race between `tx.wait()` and the timer settles. */
  datatype Confirmation =
    | Confirmed(receipt: Receipt)   // tx.wait() resolved first
    | WaitFailed(error: JsError)    // tx.wait() rejected first
    | TimerFired                    // the TRANSACTION_TIMEOUT_MS timer rejected first

  /** The error the timer rejects with. */
  const TIMER_ERROR: JsError := JsError(NoCode, "Transaction timeout")

  /**
   * The message `waitForTransaction` substitutes for the timer's. It is one
   * literal in the source; it is written here as word-sized pieces because
   * the verifier can evaluate a character at a symbolic position of a
   * concatenation of short literals, which TimedOutMessagePairs needs, but
   * not of one long literal.
   */
  const TIMED_OUT_ERROR_MESSAGE: string :=
    "Transaction "
    + "timed "
    + "out "
    + "after "
    + "20 "
    + "seconds. "
    + "Please "
    + "check "
    + "your "
    + "transaction "
    + "status "
    + "in "
    + "your "
    + "wallet."

  /** `Promise.race([tx.wait(), timeoutPromise])`. */
  function Race(c: Confirmation): Result<Receipt, JsError> {
    match c
    case Confirmed(receipt) => Success(receipt)
    case WaitFailed(error) => Failure(error)
    case TimerFired => Failure(TIMER_ERROR)
  }

  /** The `catch` of `waitForTransaction`: only the exact timer message is replaced, by a fresh code-less error. */
  function RewriteTimeout(e: JsError): (r: JsError)
    ensures e.message == "Transaction timeout" ==> r == JsError(NoCode, TIMED_OUT_ERROR_MESSAGE)
    ensures e.message != "Transaction timeout" ==> r == e
  {
    if e.message == "Transaction timeout" then JsError(NoCode, TIMED_OUT_ERROR_MESSAGE) else e
  }

  function WaitForTransaction(c: Confirmation): (r: Result<Receipt, JsError>)
    ensures r.Success? <==> c.Confirmed?
    ensures c.Confirmed? ==> r == Success(c.receipt)
    ensures c.WaitFailed? ==> r == Failure(RewriteTimeout(c.error))
    ensures c.TimerFired? ==> r == Failure(JsError(NoCode, TIMED_OUT_ERROR_MESSAGE))
  {
    match Race(c)
    case Success(receipt) => Success(receipt)
    case Failure(e) => Failure(RewriteTimeout(e))
  }

  lemma RewriteTimeoutIdempotent(e: JsError)
    ensures RewriteTimeout(RewriteTimeout(e)) == RewriteTimeout(e)
  {
    assert |TIMED_OUT_ERROR_MESSAGE| != |"Transaction timeout"|;
  }

  /** Pairs of adjacent characters that never occur in the substituted message. */
  lemma TimedOutMessagePairs()
    ensures var m := TIMED_OUT_ERROR_MESSAGE;
      && PairAbsent(m, 'f', 'f')    // insufficient funds
      && PairAbsent(m, 'n', 'o')    // not enough funds, nonce
      && PairAbsent(m, 'e', 'x')    // execution reverted
      && PairAbsent(m, 'n', 'e')    // network
      && PairAbsent(m, 'n', 'n')    // connection
      && PairAbsent(m, 'g', 'a')    // gas price
      && PairAbsent(m, 'e', 'o')    // timeout
      && PairAbsent(ToLower(m), 'a', 'i')    // wait for the cooldown
  {
    var m := TIMED_OUT_ERROR_MESSAGE;
    var lm := ToLower(m);
    forall i | 0 <= i < |m| - 1
      ensures !(m[i] == 'f' && m[i + 1] == 'f') && !(m[i] == 'n' && m[i + 1] == 'o')
      ensures !(m[i] == 'e' && m[i + 1] == 'x') && !(m[i] == 'n' && m[i + 1] == 'e')
      ensures !(m[i] == 'n' && m[i + 1] == 'n') && !(m[i] == 'g' && m[i + 1] == 'a')
      ensures !(m[i] == 'e' && m[i + 1] == 'o') && !(lm[i] == 'a' && lm[i + 1] == 'i')
    {
      // one case per position of the message, so that each character is read off its piece
      assert i == 0 || i == 1 || i == 2 || i == 3 || i == 4 || i == 5 || i == 6 || i == 7 || i == 8 || i == 9
        || i == 10 || i == 11 || i == 12 || i == 13 || i == 14 || i == 15 || i == 16 || i == 17 || i == 18 || i == 19
        || i == 20 || i == 21 || i == 22 || i == 23 || i == 24 || i == 25 || i == 26 || i == 27 || i == 28 || i == 29
        || i == 30 || i == 31 || i == 32 || i == 33 || i == 34 || i == 35 || i == 36 || i == 37 || i == 38 || i == 39
        || i == 40 || i == 41 || i == 42 || i == 43 || i == 44 || i == 45 || i == 46 || i == 47 || i == 48 || i == 49
        || i == 50 || i == 51 || i == 52 || i == 53 || i == 54 || i == 55 || i == 56 || i == 57 || i == 58 || i == 59
        || i == 60 || i == 61 || i == 62 || i == 63 || i == 64 || i == 65 || i == 66 || i == 67 || i == 68 || i == 69
        || i == 70 || i == 71 || i == 72 || i == 73 || i == 74 || i == 75 || i == 76 || i == 77 || i == 78 || i == 79
        || i == 80 || i == 81 || i == 82 || i == 83 || i == 84 || i == 85 || i == 86 || i == 87 || i == 88 || i == 89
        || i == 90;
    }
  }

  /** A phrase with one of the absent pairs in it does not occur in the substituted message. */
  lemma TimedOutLacks(t: string, k: nat)
    requires k + 1 < |t|
    requires [t[k], t[k + 1]] in ["ff", "no", "ex", "ne", "nn", "ga", "eo"]
    ensures !Includes(TIMED_OUT_ERROR_MESSAGE, t)
  {
    TimedOutMessagePairs();
    NotIncludesByPair(TIMED_OUT_ERROR_MESSAGE, t, k);
  }

  /** The cooldown phrase does not occur in the lower-cased substituted message. */
  lemma TimedOutLacksCooldown()
    ensures !Includes(ToLower(TIMED_OUT_ERROR_MESSAGE), "wait for the cooldown")
  {
    TimedOutMessagePairs();
    NotIncludesByPair(ToLower(TIMED_OUT_ERROR_MESSAGE), "wait for the cooldown", 1);
  }

  /** No rule after the rejection test accepts the substituted message, apart from the catch-all. */
  lemma TimedOutFiresNothing(c: Category)
    requires c != Rejected && c != Unrecognised
    ensures !Fires(c, JsError(NoCode, TIMED_OUT_ERROR_MESSAGE))
  {
    match c
    case Cooldown =>
      TimedOutLacksCooldown();
    case InsufficientFunds =>
      TimedOutLacks("insufficient funds", 4);
      TimedOutLacks("not enough funds", 0);
    case ExecutionReverted =>
      TimedOutLacks("execution reverted", 0);
    case NetworkFailure =>
      TimedOutLacks("network", 0);
      TimedOutLacks("connection", 2);
    case GasPrice =>
      TimedOutLacks("gas price", 0);
    case Nonce =>
      TimedOutLacks("nonce", 0);
    case Timeout =>
      TimedOutLacks("timeout", 3);
  }

  /**
   * The substituted message says "timed out", not "timeout", so a timed-out
   * transaction is reported with the generic text, not the timeout text.
   */
  lemma TimedOutIsGeneric()
    ensures ParseErrorMessage(WaitForTransaction(TimerFired).error) == GENERIC_MESSAGE
  {
    var e := JsError(NoCode, TIMED_OUT_ERROR_MESSAGE);
    forall j | 0 <= j < 8 ensures !Fires(PRIORITY[j], e) {
      if j > 0 {
        TimedOutFiresNothing(PRIORITY[j]);
      }
    }
    ParseErrorMessageFirstRule(e, 8);
  }

  // ---------------------------------------------------------------------------
  // Entry points and the mintToken switch
  // ---------------------------------------------------------------------------

  datatype EntryPoint =
    | MintTokenN(n: nat)
    | MintAllFreeToken
    | BurnWithoutForge(tokenId: Option<int>, value: int)

  function EntryPointName(ep: EntryPoint): string
    requires ep.MintTokenN? ==> ep.n < 10
  {
    match ep
    case MintTokenN(n) => "mintToken" + [DigitChar(n)]
    case MintAllFreeToken => "mintAllFreeToken"
    case BurnWithoutForge(_, _) => "burnWithoutForge"
  }

  /** A JavaScript number rendered into a message: NaN or an integer. */
  function NumberText(n: Option<int>): string {
    match n { case None => "NaN" case Some(v) => IntToString(v) }
  }

  /** The `switch (tokenId)` of `mintToken`. */
  function MintEntryPoint(tokenId: Option<int>): (r: Result<EntryPoint, JsError>)
    ensures r.Success? <==> tokenId.Some? && 0 <= tokenId.value <= 6
    ensures r.Success? ==> r.value == MintTokenN(tokenId.value)
    ensures r.Failure? ==> r.error == JsError(NoCode, "No minting function available for token " + NumberText(tokenId))
  {
    match tokenId
    case Some(0) => Success(MintTokenN(0))
    case Some(1) => Success(MintTokenN(1))
    case Some(2) => Success(MintTokenN(2))
    case Some(3) => Success(MintTokenN(3))
    case Some(4) => Success(MintTokenN(4))
    case Some(5) => Success(MintTokenN(5))
    case Some(6) => Success(MintTokenN(6))
    case _ => Failure(JsError(NoCode, "No minting function available for token " + NumberText(tokenId)))
  }

  /** Every function the switch can dispatch to is declared in the ABI. */
  lemma MintTargetsDeclared(n: nat)
    requires n <= 6
    ensures "function " + EntryPointName(MintEntryPoint(Some(n)).value) + "()" in ABI
  {
    assert "function " + EntryPointName(MintTokenN(n)) + "()" == ABI[n + 1];
  }

  // ---------------------------------------------------------------------------
  // handleTransaction
  // ---------------------------------------------------------------------------

  /** A toast: title, description and whether it uses the destructive variant. */
  datatype Notice = Notice(title: string, description: string, destructive: bool)

  const CONNECT_WALLET_NOTICE: Notice := Notice("Error", "Please connect your wallet first", true)

  function SubmittedNotice(actionName: string): Notice {
    Notice("Transaction Submitted", actionName + " in progress. Please wait for confirmation...", false)
  }

  function SuccessNotice(actionName: string): Notice {
    Notice("Success", actionName + " completed successfully", false)
  }

  function ErrorNotice(description: string): Notice {
    Notice("Error", description, true)
  }

  /** How `await action()` settles: a transaction handle, or a thrown error. */
  datatype Submission = Submitted | SubmitFailed(error: JsError)

  /** What an action call returns to its caller: a value (possibly `undefined`) or a thrown error. */
  datatype TxResult = Returned(receipt: Option<Receipt>) | Threw(error: JsError)

  /**
   * Everything one call does: the entry point it invoked (if any), the toasts
   * it showed in order, whether it called `refreshData`, and its result.
   */
  datatype TxEffect = TxEffect(invoked: Option<EntryPoint>, notices: seq<Notice>, refreshed: bool, result: TxResult)

  /** The `catch` block: an error toast unless the user declined, then rethrow. */
  function Failed(entry: EntryPoint, before: seq<Notice>, err: JsError): TxEffect {
    var toast := if IsRejection(err.code) then [] else [ErrorNotice(ParseErrorMessage(err))];
    TxEffect(Some(entry), before + toast, false, Threw(err))
  }

  /**
   * `handleTransaction(action, actionName, refreshData)` as a function of the
   * wallet state on entry, the `isProcessing` flag on entry, and the
   * outcomes of the action and of the confirmation race.
   */
  function Transact(connected: bool, processing: bool, entry: EntryPoint, submission: Submission,
                    confirmation: Confirmation, actionName: string): (e: TxEffect)
    // guard: no wallet
    ensures !connected ==> e == TxEffect(None, [CONNECT_WALLET_NOTICE], false, Returned(None))
    // guard: already processing
    ensures connected && processing ==> e == TxEffect(None, [], false, Returned(None))
    ensures e.invoked.Some? <==> connected && !processing
    ensures e.invoked.Some? ==> e.invoked.value == entry
    // refreshData runs exactly when the transaction confirmed
    ensures e.refreshed <==> e.result.Returned? && e.result.receipt.Some?
    ensures e.refreshed <==> connected && !processing && submission.Submitted? && confirmation.Confirmed?
    ensures e.refreshed ==> e.result.receipt == Some(confirmation.receipt)
    ensures e.refreshed ==> e.notices == [SubmittedNotice(actionName), SuccessNotice(actionName)]
    // failure: the error is rethrown; a toast explains it unless the user declined
    ensures e.result.Threw? ==> (e.invoked.Some? && e.notices ==
      (if submission.Submitted? then [SubmittedNotice(actionName)] else [])
      + (if IsRejection(e.result.error.code) then [] else [ErrorNotice(ParseErrorMessage(e.result.error))]))
    ensures e.result.Threw? && submission.SubmitFailed? ==> e.result.error == submission.error
    ensures e.result.Threw? && submission.Submitted? ==> e.result == Threw(WaitForTransaction(confirmation).error)
    // a call that passed the guards and did not confirm always throws
    ensures connected && !processing && !(submission.Submitted? && confirmation.Confirmed?) ==> e.result.Threw?
  {
    if !connected then TxEffect(None, [CONNECT_WALLET_NOTICE], false, Returned(None))
    else if processing then TxEffect(None, [], false, Returned(None))
    else
      match submission
      case SubmitFailed(err) => Failed(entry, [], err)
      case Submitted =>
        match WaitForTransaction(confirmation)
        case Success(receipt) =>
          TxEffect(Some(entry), [SubmittedNotice(actionName), SuccessNotice(actionName)], true, Returned(Some(receipt)))
        case Failure(err) => Failed(entry, [SubmittedNotice(actionName)], err)
  }

  /** A declined transaction is rethrown without any error toast. */
  lemma RejectionIsSilent(entry: EntryPoint, submission: Submission, confirmation: Confirmation, actionName: string)
    requires var e := Transact(true, false, entry, submission, confirmation, actionName);
      e.result.Threw? && IsRejection(e.result.error.code)
    ensures forall n :: n in Transact(true, false, entry, submission, confirmation, actionName).notices ==> !n.destructive
  {
  }

  /** A timed-out confirmation: the toast says the generic text and nothing is refreshed. */
  lemma TimeoutOutcome(entry: EntryPoint, actionName: string)
    ensures Transact(true, false, entry, Submitted, TimerFired, actionName) ==
      TxEffect(Some(entry), [SubmittedNotice(actionName), ErrorNotice(GENERIC_MESSAGE)], false,
               Threw(JsError(NoCode, TIMED_OUT_ERROR_MESSAGE)))
  {
    TimedOutIsGeneric();
  }

  // ---------------------------------------------------------------------------
  // The three actions
  // ---------------------------------------------------------------------------

  /** What an action does before `handleTransaction`: give up silently, throw, or run an entry point. */
  datatype Plan = Skip | Abort(error: JsError) | Run(entry: EntryPoint, actionName: string)

  /** `mintToken`: no provider means a silent return; an unknown id throws before any transaction. */
  function MintPlan(hasProvider: bool, tokenId: Option<int>): (p: Plan)
    ensures !hasProvider ==> p == Skip
    ensures hasProvider && tokenId.Some? && 0 <= tokenId.value <= 6 ==> p.Run? && p.entry == MintTokenN(tokenId.value)
    ensures hasProvider && !(tokenId.Some? && 0 <= tokenId.value <= 6) ==> p.Abort?
  {
    if !hasProvider then Skip
    else match MintEntryPoint(tokenId)
      case Failure(err) => Abort(err)
      case Success(entry) => Run(entry, "Forging token #" + NumberText(tokenId))
  }

  function BurnPlan(hasProvider: bool, tokenId: Option<int>, amount: int): (p: Plan)
    ensures !hasProvider <==> p == Skip
    ensures hasProvider ==> p.Run? && p.entry == BurnWithoutForge(tokenId, amount)
  {
    if !hasProvider then Skip
    else Run(BurnWithoutForge(tokenId, amount), "Burning " + IntToString(amount) + " of token #" + NumberText(tokenId))
  }

  function MintAllPlan(hasProvider: bool): (p: Plan)
    ensures !hasProvider <==> p == Skip
    ensures hasProvider ==> p.Run? && p.entry == MintAllFreeToken
  {
    if !hasProvider then Skip else Run(MintAllFreeToken, "Forging basic set (tokens #0, #1, #2)")
  }

  /** The whole effect of an action, from its plan. */
  function Settle(plan: Plan, connected: bool, processing: bool, submission: Submission,
                  confirmation: Confirmation): (e: TxEffect)
    ensures plan.Skip? ==> e == TxEffect(None, [], false, Returned(None))
    ensures plan.Abort? ==> e == TxEffect(None, [], false, Threw(plan.error))
  {
    match plan
    case Skip => TxEffect(None, [], false, Returned(None))
    case Abort(err) => TxEffect(None, [], false, Threw(err))
    case Run(entry, actionName) => Transact(connected, processing, entry, submission, confirmation, actionName)
  }

  /** An id outside 0..6 throws without invoking anything, showing anything or refreshing anything. */
  lemma UnknownMintIdTouchesNothing(tokenId: Option<int>, connected: bool, processing: bool,
                                    submission: Submission, confirmation: Confirmation)
    requires !(tokenId.Some? && 0 <= tokenId.value <= 6)
    ensures var e := Settle(MintPlan(true, tokenId), connected, processing, submission, confirmation);
      e.invoked.None? && e.notices == [] && !e.refreshed && e.result.Threw?
  {
  }

  /** The toasts shown, the entry points invoked and the number of `refreshData` calls so far. */
  datatype Log = Log(notices: seq<Notice>, invoked: seq<EntryPoint>, refreshes: nat) {
    function Record(e: TxEffect): (l: Log)
      ensures l.refreshes == refreshes + (if e.refreshed then 1 else 0)
      ensures l.notices == notices + e.notices
    {
      Log(notices + e.notices,
          invoked + (match e.invoked { case None => [] case Some(ep) => [ep] }),
          refreshes + (if e.refreshed then 1 else 0))
    }
  }

  /** The state of the `useContract` hook: the wallet it sees, `isProcessing`, and what it has done. */
  class Transactions {
    var address: Option<string>
    var connector: bool
    var isProcessing: bool
    var log: Log

    constructor (address: Option<string>, connector: bool)
      ensures this.address == address && this.connector == connector
      ensures !isProcessing && log == Log([], [], 0)
    {
      this.address := address;
      this.connector := connector;
      isProcessing := false;
      log := Log([], [], 0);
    }

    /** The negation of `!address || !connector`. */
    predicate Connected()
      reads this
    {
      Truthy(address) && connector
    }

    method HandleTransaction(entry: EntryPoint, submission: Submission, confirmation: Confirmation,
                             actionName: string) returns (r: TxResult)
      modifies this`isProcessing, this`log
      ensures var e := Transact(Connected(), old(isProcessing), entry, submission, confirmation, actionName);
        r == e.result && log == old(log).Record(e)
      ensures isProcessing == old(isProcessing)
    {
      if !Connected() {
        log := log.Record(TxEffect(None, [CONNECT_WALLET_NOTICE], false, Returned(None)));
        return Returned(None);
      }
      if isProcessing {
        return Returned(None);
      }
      isProcessing := true;
      var notices: seq<Notice> := [];
      var refreshed := false;
      var failure: Option<JsError> := None;
      match submission {
        case SubmitFailed(err) =>
          failure := Some(err);
        case Submitted =>
          notices := notices + [SubmittedNotice(actionName)];
          var waited := WaitForTransaction(confirmation);
          if waited.Success? {
            notices := notices + [SuccessNotice(actionName)];
            refreshed := true;
            r := Returned(Some(waited.value));
          } else {
            failure := Some(waited.error);
          }
      }
      if failure.Some? {
        var err := failure.value;
        if !IsRejection(err.code) {
          notices := notices + [ErrorNotice(ParseErrorMessage(err))];
        }
        r := Threw(err);
      }
      log := log.Record(TxEffect(Some(entry), notices, refreshed, r));
      isProcessing := false;
    }

    /** Runs a plan: the part `mintToken`, `burnToken` and `mintAllFreeTokens` share. */
    method Execute(plan: Plan, submission: Submission, confirmation: Confirmation) returns (r: TxResult)
      modifies this`isProcessing, this`log
      ensures var e := Settle(plan, Connected(), old(isProcessing), submission, confirmation);
        r == e.result && log == old(log).Record(e)
      ensures isProcessing == old(isProcessing)
    {
      match plan {
        case Skip =>
          assert log.Record(TxEffect(None, [], false, Returned(None))) == log;
          r := Returned(None);
        case Abort(err) =>
          assert log.Record(TxEffect(None, [], false, Threw(err))) == log;
          r := Threw(err);
        case Run(entry, actionName) =>
          r := HandleTransaction(entry, submission, confirmation, actionName);
      }
    }

    /**
     * `mintToken(tokenId, refreshData)`; `providerFound` is whether
     * `connector.getProvider()` resolved to a provider.
     */
    method MintToken(tokenId: Option<int>, providerFound: bool, submission: Submission, confirmation: Confirmation)
      returns (r: TxResult)
      modifies this`isProcessing, this`log
      ensures var e := Settle(MintPlan(connector && providerFound, tokenId), Connected(), old(isProcessing),
                              submission, confirmation);
        r == e.result && log == old(log).Record(e)
      ensures isProcessing == old(isProcessing)
    {
      r := Execute(MintPlan(connector && providerFound, tokenId), submission, confirmation);
    }

    /** `burnToken(tokenId, amount, refreshData)`. */
    method BurnToken(tokenId: Option<int>, amount: int, providerFound: bool, submission: Submission,
                     confirmation: Confirmation) returns (r: TxResult)
      modifies this`isProcessing, this`log
      ensures var e := Settle(BurnPlan(connector && providerFound, tokenId, amount), Connected(), old(isProcessing),
                              submission, confirmation);
        r == e.result && log == old(log).Record(e)
      ensures isProcessing == old(isProcessing)
    {
      r := Execute(BurnPlan(connector && providerFound, tokenId, amount), submission, confirmation);
    }

    /** `mintAllFreeTokens(refreshData)`. */
    method MintAllFreeTokens(providerFound: bool, submission: Submission, confirmation: Confirmation)
      returns (r: TxResult)
      modifies this`isProcessing, this`log
      ensures var e := Settle(MintAllPlan(connector && providerFound), Connected(), old(isProcessing),
                              submission, confirmation);
        r == e.result && log == old(log).Record(e)
      ensures isProcessing == old(isProcessing)
    {
      r := Execute(MintAllPlan(connector && providerFound), submission, confirmation);
    }
  }
}
