/**
 * The wallet ledger: wallets opened at or above a minimum balance, transfers checked
 * in a fixed order and vetoable by the security engine, token purchases, and
 * the append-only transaction log.
 *
 * The clock, the random strings of addresses and keys, and SHA-256 enter as
 * parameters; the security veto is the token rule check of the security
 * engine, with `TokenRule::validate` as a parameter.
 */
module Payment {
  import opened Common
  import opened Text
  import Kernel
  import Security

  type WalletId = nat
  type TransactionId = nat

  datatype TransactionStatus = Pending | Processing | Completed | Failed | Rejected

  /** `Wallet`: `balance` and `transactions` change; the rest is fixed at creation. */
  datatype Wallet = Wallet(
    id: WalletId,
    userId: string,
    balance: nat,
    address: string,
    publicKey: string,
    transactions: seq<TransactionId>,
    createdAt: nat)

  /** `Transaction`: a record of the log. */
  datatype Transaction = Transaction(
    id: TransactionId,
    from: WalletId,
    to: WalletId,
    amount: nat,
    fee: nat,
    timestamp: nat,
    status: TransactionStatus,
    hash: string)

  /** `PaymentError`: the two balance errors carry the message the source formats. */
  datatype PaymentError =
    | WalletNotFound
    | InsufficientBalance(message: string)
    | MinimumBalanceViolation(message: string)
    | SecurityViolation
    | NetworkError
    | ContractError
    | InvalidAmount

  /** `find_wallet_index`: the index of the first wallet with the id, or `WalletNotFound`. */
  function FindWalletIndex(wallets: seq<Wallet>, id: WalletId): (r: Result<nat, PaymentError>)
    ensures r.Ok? ==> r.value < |wallets| && wallets[r.value].id == id
    ensures r.Ok? ==> forall j :: 0 <= j < r.value ==> wallets[j].id != id
    ensures r.Err? <==> forall j :: 0 <= j < |wallets| ==> wallets[j].id != id
    ensures r.Err? ==> r.error == WalletNotFound
  {
    match Position(wallets, (w: Wallet) => w.id == id)
    case None => Err(WalletNotFound)
    case Some(i) => Ok(i)
  }

  /**
   * `calculate_fee`: one percent rounded up, at least one token. The fee is
   * computed for each transfer and stored in its record but moves no tokens.
   */
  function CalculateFee(amount: nat): (fee: nat)
    ensures fee >= 1
    ensures amount <= 100 * fee
    ensures fee == 1 || 100 * (fee - 1) < amount
  {
    var percent := (amount + 99) / 100;
    if percent < 1 then 1 else percent
  }

  /** Identity fields of a wallet, which no operation changes. */
  predicate SameIdentity(a: Wallet, b: Wallet) {
    a.id == b.id && a.userId == b.userId && a.address == b.address &&
    a.publicKey == b.publicKey && a.createdAt == b.createdAt
  }

  /**
   * The wallets after a transfer of `amount` from index `fi` to index `ti`,
   * in the source's order: debit, credit, then the transaction id appended to
   * the sender's list and to the receiver's list. A transfer from a wallet to
   * itself leaves its balance as it was and lists the id twice.
   */
  function Settle(ws: seq<Wallet>, fi: nat, ti: nat, amount: nat, txId: TransactionId): (r: seq<Wallet>)
    requires fi < |ws| && ti < |ws| && ws[fi].balance >= amount
    ensures |r| == |ws|
    ensures forall k :: 0 <= k < |ws| ==> SameIdentity(r[k], ws[k])
    ensures forall k :: 0 <= k < |ws| && k != fi && k != ti ==> r[k] == ws[k]
    ensures fi != ti ==> r[fi].balance == ws[fi].balance - amount && r[ti].balance == ws[ti].balance + amount
    ensures fi != ti ==> r[fi].transactions == ws[fi].transactions + [txId] && r[ti].transactions == ws[ti].transactions + [txId]
    ensures fi == ti ==> r[fi].balance == ws[fi].balance && r[fi].transactions == ws[fi].transactions + [txId, txId]
  {
    var debited := WithBalance(ws, fi, ws[fi].balance - amount);
    var credited := WithBalance(debited, ti, debited[ti].balance + amount);
    WithTransaction(WithTransaction(credited, fi, txId), ti, txId)
  }

  /** The wallets with the balance of wallet `k` replaced. */
  function WithBalance(ws: seq<Wallet>, k: nat, balance: nat): seq<Wallet>
    requires k < |ws|
  {
    ws[k := ws[k].(balance := balance)]
  }

  /** The wallets with a transaction id appended to the list of wallet `k`. */
  function WithTransaction(ws: seq<Wallet>, k: nat, txId: TransactionId): seq<Wallet>
    requires k < |ws|
  {
    ws[k := ws[k].(transactions := ws[k].transactions + [txId])]
  }

  /** The tokens held by all wallets together. */
  function TotalBalance(ws: seq<Wallet>): nat {
    if |ws| == 0 then 0 else ws[0].balance + TotalBalance(ws[1..])
  }

  /** Replacing one wallet changes the total by the change of that wallet's balance. */
  lemma {:induction false} TotalBalanceUpdate(ws: seq<Wallet>, k: nat, w: Wallet)
    requires k < |ws|
    ensures TotalBalance(ws[k := w]) == TotalBalance(ws) - ws[k].balance + w.balance
  {
    if k == 0 {
      assert ws[k := w][1..] == ws[1..];
    } else {
      assert ws[k := w][1..] == ws[1..][k - 1 := w];
      TotalBalanceUpdate(ws[1..], k - 1, w);
    }
  }

  /** Taking `amount` from one wallet lowers the total by `amount`. */
  lemma TotalAfterDebit(ws: seq<Wallet>, k: nat, amount: nat)
    requires k < |ws| && ws[k].balance >= amount
    ensures TotalBalance(WithBalance(ws, k, ws[k].balance - amount)) + amount == TotalBalance(ws)
  {
    TotalBalanceUpdate(ws, k, ws[k].(balance := ws[k].balance - amount));
  }

  /** Giving `amount` to one wallet raises the total by `amount`. */
  lemma TotalAfterCredit(ws: seq<Wallet>, k: nat, amount: nat)
    requires k < |ws|
    ensures TotalBalance(WithBalance(ws, k, ws[k].balance + amount)) == TotalBalance(ws) + amount
  {
    TotalBalanceUpdate(ws, k, ws[k].(balance := ws[k].balance + amount));
  }

  /** Logging a transaction id leaves the total alone. */
  lemma TotalAfterLogging(ws: seq<Wallet>, k: nat, txId: TransactionId)
    requires k < |ws|
    ensures TotalBalance(WithTransaction(ws, k, txId)) == TotalBalance(ws)
  {
    TotalBalanceUpdate(ws, k, ws[k].(transactions := ws[k].transactions + [txId]));
  }

  /** The steps `Settle` takes, one by one. */
  lemma SettleSteps(ws: seq<Wallet>, fi: nat, ti: nat, amount: nat, txId: TransactionId)
    requires fi < |ws| && ti < |ws| && ws[fi].balance >= amount
    ensures var debited := WithBalance(ws, fi, ws[fi].balance - amount);
            var credited := WithBalance(debited, ti, debited[ti].balance + amount);
            Settle(ws, fi, ti, amount, txId) == WithTransaction(WithTransaction(credited, fi, txId), ti, txId)
  {
  }

  /** The total after the four steps of a transfer, summed step by step. */
  lemma TotalAfterSteps(ws: seq<Wallet>, fi: nat, ti: nat, amount: nat, txId: TransactionId)
    requires fi < |ws| && ti < |ws| && ws[fi].balance >= amount
    ensures var debited := WithBalance(ws, fi, ws[fi].balance - amount);
            var credited := WithBalance(debited, ti, debited[ti].balance + amount);
            TotalBalance(WithTransaction(WithTransaction(credited, fi, txId), ti, txId)) == TotalBalance(ws)
  {
    var debited := WithBalance(ws, fi, ws[fi].balance - amount);
    var credited := WithBalance(debited, ti, debited[ti].balance + amount);
    var logged := WithTransaction(credited, fi, txId);
    TotalAfterLogging(logged, ti, txId);
    TotalAfterLogging(credited, fi, txId);
    TotalAfterCredit(debited, ti, amount);
    TotalAfterDebit(ws, fi, amount);
  }

  /** A transfer moves tokens and creates none: the total over all wallets is preserved. */
  lemma SettlePreservesTotal(ws: seq<Wallet>, fi: nat, ti: nat, amount: nat, txId: TransactionId)
    requires fi < |ws| && ti < |ws| && ws[fi].balance >= amount
    ensures TotalBalance(Settle(ws, fi, ti, amount, txId)) == TotalBalance(ws)
  {
    SettleSteps(ws, fi, ti, amount, txId);
    TotalAfterSteps(ws, fi, ti, amount, txId);
  }

  /**
   * The ledger's invariant over its wallets: ids are handed out from 1 upward
   * in creation order, so they are increasing along the vector and below the
   * next id; every wallet holds at least the floor.
   */
  predicate WellFormedWallets(ws: seq<Wallet>, floor: nat, nextId: nat) {
    (forall i :: 0 <= i < |ws| ==> 1 <= ws[i].id < nextId && ws[i].balance >= floor) &&
    (forall i, j :: 0 <= i < j < |ws| ==> ws[i].id < ws[j].id)
  }

  /** A transfer that leaves the sender at or above the floor keeps the invariant. */
  lemma SettleKeepsWellFormed(ws: seq<Wallet>, fi: nat, ti: nat, amount: nat, txId: TransactionId, floor: nat, nextId: nat)
    requires fi < |ws| && ti < |ws| && ws[fi].balance >= amount
    requires WellFormedWallets(ws, floor, nextId)
    requires ws[fi].balance - amount >= floor
    ensures WellFormedWallets(Settle(ws, fi, ti, amount, txId), floor, nextId)
  {
  }

  /** The text `calculate_hash` feeds to SHA-256: sender, receiver, amount and time, in decimal, run together. */
  function TransferDigestInput(tx: Transaction): string {
    DecimalString(tx.from) + DecimalString(tx.to) + DecimalString(tx.amount) + DecimalString(tx.timestamp)
  }

  /** The text hashed for a purchase record. */
  function PurchaseDigestInput(walletId: WalletId, amount: nat): string {
    "BUY:" + DecimalString(walletId) + ":" + DecimalString(amount)
  }

  /**
   * The transfer digest runs the numbers together with no separator, so two
   * transfers that differ in sender and receiver can hash the same text:
   * wallet 1 to wallet 23 and wallet 12 to wallet 3, same amount and time.
   */
  lemma TransferDigestCollision()
    ensures TransferDigestInput(Transaction(0, 1, 23, 5, 1, 7, Completed, "")) ==
            TransferDigestInput(Transaction(0, 12, 3, 5, 1, 7, Completed, ""))
  {
    assert DecimalString(23) == "23" && DecimalString(12) == "12";
  }

  /** The purchase digest separates its numbers, so the text determines the wallet and the amount. */
  lemma PurchaseDigestDetermines(w1: WalletId, a1: nat, w2: WalletId, a2: nat)
    requires PurchaseDigestInput(w1, a1) == PurchaseDigestInput(w2, a2)
    ensures w1 == w2 && a1 == a2
  {
    var d1, d2 := DecimalString(w1), DecimalString(w2);
    var e1, e2 := DecimalString(a1), DecimalString(a2);
    var t1, t2 := d1 + ":" + e1, d2 + ":" + e2;
    AppendAssoc("BUY:" + d1, ":", e1);
    AppendAssoc("BUY:", d1, ":" + e1);
    AppendAssoc(d1, ":", e1);
    AppendAssoc("BUY:" + d2, ":", e2);
    AppendAssoc("BUY:", d2, ":" + e2);
    AppendAssoc(d2, ":", e2);
    assert t1 == ("BUY:" + t1)[4..] == ("BUY:" + t2)[4..] == t2;
    ColonSeparated(d1, e1, d2, e2);
    DecimalStringInjective(w1, w2);
    DecimalStringInjective(a1, a2);
  }

  /** The record a transfer creates before the security check. */
  function PendingTransfer(txId: TransactionId, from: WalletId, to: WalletId, amount: nat, now: nat): (tx: Transaction)
    ensures tx.status == Pending && tx.hash == ""
    ensures tx.id == txId && tx.from == from && tx.to == to && tx.amount == amount && tx.timestamp == now
    ensures tx.fee == CalculateFee(amount) && tx.fee >= 1 && amount <= 100 * tx.fee
  {
    Transaction(txId, from, to, amount, CalculateFee(amount), now, Pending, "")
  }

  /** The message of `InsufficientBalance` from `create_wallet`. */
  function BelowOpeningFloor(minBalance: nat): string {
    "الحد الأدنى: " + DecimalString(minBalance)
  }

  /** The message of `InsufficientBalance` from `transfer`. */
  function CurrentBalanceMessage(balance: nat): string {
    "الرصيد الحالي: " + DecimalString(balance)
  }

  /** The message of `MinimumBalanceViolation`. */
  function KeepMinimumMessage(minBalance: nat, tokenName: string): string {
    "يجب الاحتفاظ ب " + DecimalString(minBalance) + " " + tokenName + " على الأقل"
  }

  /** `PaymentSystem`: the wallet vector, the transaction log and the wallet id counter change. */
  class PaymentSystem {
    const tokenName: string
    const minBalance: nat
    var wallets: seq<Wallet>
    var transactions: seq<Transaction>
    var nextWalletId: nat

    /**
     * Wallet ids are handed out from 1 upward in creation order, so they are
     * increasing along the vector and below the counter; every wallet holds at
     * least the minimum balance.
     */
    ghost predicate Valid()
      reads this
    {
      nextWalletId >= 1 && WellFormedWallets(wallets, minBalance, nextWalletId)
    }

    /** `PaymentSystem::new`: no wallets, no transactions, the kernel's floor; the id counter starts at 1. */
    constructor ()
      ensures Valid()
      ensures tokenName == Kernel.TokenName && minBalance == Kernel.MinTokens
      ensures wallets == [] && transactions == [] && nextWalletId == 1
    {
      tokenName := Kernel.TokenName;
      minBalance := Kernel.MinTokens;
      wallets := [];
      transactions := [];
      nextWalletId := 1;
    }

    /**
     * `create_wallet`: refuses an opening balance below the floor and adds
     * nothing; otherwise appends one wallet with the next id, the given balance
     * and no transactions, and returns its id.
     */
    method CreateWallet(userId: string, initialBalance: nat, now: nat, addressSuffix: string, keySuffix: string)
      returns (r: Result<WalletId, PaymentError>)
      requires Valid()
      modifies this`wallets, this`nextWalletId
      ensures Valid()
      ensures initialBalance < minBalance ==>
        r == Err(InsufficientBalance(BelowOpeningFloor(minBalance))) &&
        wallets == old(wallets) && nextWalletId == old(nextWalletId)
      ensures initialBalance >= minBalance ==>
        r == Ok(old(nextWalletId)) && nextWalletId == old(nextWalletId) + 1 &&
        wallets == old(wallets) + [Wallet(old(nextWalletId), userId, initialBalance, "ISLAM-" + addressSuffix, "PK-" + keySuffix, [], now)]
    {
      if initialBalance < minBalance {
        return Err(InsufficientBalance(BelowOpeningFloor(minBalance)));
      }
      var id := GenerateWalletId();
      var wallet := Wallet(id, userId, initialBalance, "ISLAM-" + addressSuffix, "PK-" + keySuffix, [], now);
      wallets := wallets + [wallet];
      r := Ok(wallet.id);
    }

    /** `generate_wallet_id`: the counter's value, after which the counter moves on by one. */
    method GenerateWalletId() returns (id: WalletId)
      modifies this`nextWalletId
      ensures id == old(nextWalletId) && nextWalletId == old(nextWalletId) + 1
    {
      id := nextWalletId;
      nextWalletId := nextWalletId + 1;
    }

    /**
     * `transfer`, checked in this order: both wallets must exist
     * (`WalletNotFound`), the sender must hold the amount
     * (`InsufficientBalance`), must keep the floor after paying it
     * (`MinimumBalanceViolation`) and the security engine must accept the
     * pending record (`SecurityViolation`). Any error leaves wallets and log as
     * they were. Success settles the balances, appends one Completed record to
     * the log and returns its id.
     */
    method Transfer(from: WalletId, to: WalletId, amount: nat, txId: TransactionId, now: nat,
                    security: Security.HarisSecurity, validate: (Security.TokenRule, Transaction) -> bool,
                    sha256: string -> string)
      returns (r: Result<TransactionId, PaymentError>)
      requires Valid()
      modifies this`wallets, this`transactions
      ensures Valid()
      ensures r.Err? ==> wallets == old(wallets) && transactions == old(transactions)
      ensures FindWalletIndex(old(wallets), from).Err? || FindWalletIndex(old(wallets), to).Err? ==> r == Err(WalletNotFound)
      ensures FindWalletIndex(old(wallets), from).Ok? && FindWalletIndex(old(wallets), to).Ok? ==>
        var fi, ti := FindWalletIndex(old(wallets), from).value, FindWalletIndex(old(wallets), to).value;
        var balance := old(wallets)[fi].balance;
        var pending := PendingTransfer(txId, from, to, amount, now);
        if balance < amount then
          r == Err(InsufficientBalance(CurrentBalanceMessage(balance)))
        else if balance - amount < minBalance then
          r == Err(MinimumBalanceViolation(KeepMinimumMessage(minBalance, tokenName)))
        else if !security.ProtectTokenTransaction(pending, validate) then
          r == Err(SecurityViolation)
        else
          var done := pending.(status := Completed, hash := sha256(TransferDigestInput(pending)));
          r == Ok(txId) &&
          wallets == Settle(old(wallets), fi, ti, amount, txId) &&
          transactions == old(transactions) + [done]
      ensures r.Ok? ==> TotalBalance(wallets) == TotalBalance(old(wallets))
    {
      var fromLookup := FindWalletIndex(wallets, from);
      if fromLookup.Err? {
        return Err(fromLookup.error);
      }
      var toLookup := FindWalletIndex(wallets, to);
      if toLookup.Err? {
        return Err(toLookup.error);
      }
      var fromIndex, toIndex := fromLookup.value, toLookup.value;

      if wallets[fromIndex].balance < amount {
        return Err(InsufficientBalance(CurrentBalanceMessage(wallets[fromIndex].balance)));
      }
      if wallets[fromIndex].balance - amount < minBalance {
        return Err(MinimumBalanceViolation(KeepMinimumMessage(minBalance, tokenName)));
      }

      var transaction := PendingTransfer(txId, from, to, amount, now);
      if !security.ProtectTokenTransaction(transaction, validate) {
        return Err(SecurityViolation);
      }

      SettlePreservesTotal(wallets, fromIndex, toIndex, amount, transaction.id);
      SettleKeepsWellFormed(wallets, fromIndex, toIndex, amount, transaction.id, minBalance, nextWalletId);
      wallets := Settle(wallets, fromIndex, toIndex, amount, transaction.id);
      transaction := transaction.(status := Completed);
      transaction := transaction.(hash := sha256(TransferDigestInput(transaction)));
      transactions := transactions + [transaction];
      r := Ok(transaction.id);
    }

    /** `get_balance`: the balance of the wallet with the id, or `WalletNotFound` when there is none. */
    method GetBalance(walletId: WalletId) returns (r: Result<nat, PaymentError>)
      requires Valid()
      ensures r.Err? <==> forall i :: 0 <= i < |wallets| ==> wallets[i].id != walletId
      ensures r.Err? ==> r.error == WalletNotFound
      ensures r.Ok? ==> exists i :: 0 <= i < |wallets| && wallets[i].id == walletId && wallets[i].balance == r.value
      ensures r.Ok? ==> forall i :: 0 <= i < |wallets| && wallets[i].id == walletId ==> wallets[i].balance == r.value
      ensures r.Ok? ==> r.value >= minBalance
    {
      var lookup := FindWalletIndex(wallets, walletId);
      if lookup.Err? {
        return Err(lookup.error);
      }
      r := Ok(wallets[lookup.value].balance);
    }

    /**
     * `buy_tokens` for an amount already converted to tokens: credits the
     * wallet and logs one Completed record from the system id 0 with fee 0.
     * The wallet's own transaction list is left alone. An unknown wallet
     * changes nothing.
     */
    method BuyTokens(walletId: WalletId, tokenAmount: nat, txId: TransactionId, now: nat, generateHash: string -> string)
      returns (r: Result<TransactionId, PaymentError>)
      requires Valid()
      modifies this`wallets, this`transactions
      ensures Valid()
      ensures FindWalletIndex(old(wallets), walletId).Err? ==>
        r == Err(WalletNotFound) && wallets == old(wallets) && transactions == old(transactions)
      ensures FindWalletIndex(old(wallets), walletId).Ok? ==>
        var i := FindWalletIndex(old(wallets), walletId).value;
        r == Ok(txId) &&
        wallets == old(wallets)[i := old(wallets)[i].(balance := old(wallets)[i].balance + tokenAmount)] &&
        transactions == old(transactions) +
          [Transaction(txId, 0, walletId, tokenAmount, 0, now, Completed, generateHash(PurchaseDigestInput(walletId, tokenAmount)))]
      ensures r.Ok? ==> TotalBalance(wallets) == TotalBalance(old(wallets)) + tokenAmount
    {
      var lookup := FindWalletIndex(wallets, walletId);
      if lookup.Err? {
        return Err(lookup.error);
      }
      var index := lookup.value;
      TotalBalanceUpdate(wallets, index, wallets[index].(balance := wallets[index].balance + tokenAmount));
      wallets := wallets[index := wallets[index].(balance := wallets[index].balance + tokenAmount)];
      var transaction := Transaction(txId, 0, walletId, tokenAmount, 0, now, Completed, generateHash(PurchaseDigestInput(walletId, tokenAmount)));
      transactions := transactions + [transaction];
      r := Ok(transaction.id);
    }
  }

  /** In a ledger holding wallets 1 and 2 in that order, the lookups find them at 0 and 1. */
  lemma TwoWalletLookup(ws: seq<Wallet>)
    requires |ws| == 2 && ws[0].id == 1 && ws[1].id == 2
    ensures FindWalletIndex(ws, 1) == Ok(0) && FindWalletIndex(ws, 2) == Ok(1)
  {
  }

  /**
   * The floor at work, with any security engine and rules that all pass: with a
   * floor of 100, a wallet opened with 150 can send 40 and is left with 110;
   * sending 20 more would take it below the floor and is refused with both
   * balances as they were.
   */
  method FloorScenario(security: Security.HarisSecurity)
    returns (first: Result<TransactionId, PaymentError>, second: Result<TransactionId, PaymentError>,
             balanceA: Result<nat, PaymentError>, balanceB: Result<nat, PaymentError>)
    ensures first == Ok(1000)
    ensures second == Err(MinimumBalanceViolation(KeepMinimumMessage(Kernel.MinTokens, Kernel.TokenName)))
    ensures balanceA == Ok(110) && balanceB == Ok(140)
  {
    var acceptAll := (rule: Security.TokenRule, tx: Transaction) => true;
    var sha256 := (data: string) => data;
    var ledger := new PaymentSystem();
    var a := ledger.CreateWallet("A", 150, 0, "", "");
    var b := ledger.CreateWallet("B", 100, 0, "", "");
    TwoWalletLookup(ledger.wallets);
    assert security.ProtectTokenTransaction(PendingTransfer(1000, 1, 2, 40, 1000), acceptAll);
    first := ledger.Transfer(1, 2, 40, 1000, 1000, security, acceptAll, sha256);
    assert ledger.wallets[0].balance == 110 && ledger.wallets[1].balance == 140;
    TwoWalletLookup(ledger.wallets);
    second := ledger.Transfer(1, 2, 20, 1001, 1001, security, acceptAll, sha256);
    balanceA := ledger.GetBalance(1);
    balanceB := ledger.GetBalance(2);
  }

  /** The opening floor: with a floor of 100, a wallet cannot be opened with 50, and none is added. */
  method OpeningBelowFloor() returns (opening: Result<WalletId, PaymentError>, count: nat)
    ensures opening == Err(InsufficientBalance(BelowOpeningFloor(Kernel.MinTokens)))
    ensures count == 0
  {
    var ledger := new PaymentSystem();
    opening := ledger.CreateWallet("C", 50, 0, "", "");
    count := |ledger.wallets|;
  }
}
