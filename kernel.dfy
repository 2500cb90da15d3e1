/**
 * The kernel's service token manager: the balance of the operating account and
 * the lock that refuses debits once the balance has been found below the floor.
 */
module Kernel {

  /** `MIN_TOKENS`: the floor of the operating account, also the ledger's minimum wallet balance. */
  const MinTokens: nat := 100

  /** `TOKEN_NAME`: the name of the token. */
  const TokenName: string := "INSAN"

  /** `CONTRACT_ADDRESS`: the token contract the manager reports. */
  const ContractAddress: string := "0xa23D57f128Df2517517CA0c195C5159d81324711"

  /** `TokenManager`: `current_tokens` and `is_locked` change; the other fields keep their initial values. */
  class TokenManager {
    const contractAddress: string
    const minTokens: nat
    var currentTokens: nat
    var isLocked: bool
    var lastCheck: nat

    /** `TokenManager::new`: fifty tokens above the floor, unlocked. */
    constructor ()
      ensures contractAddress == ContractAddress && minTokens == MinTokens
      ensures currentTokens == MinTokens + 50 && !isLocked && lastCheck == 0
    {
      contractAddress := ContractAddress;
      minTokens := MinTokens;
      currentTokens := MinTokens + 50;
      isLocked := false;
      lastCheck := 0;
    }

    /** `check_tokens`: locks below the floor, unlocks otherwise, and reports whether the account is usable. */
    method CheckTokens() returns (ok: bool)
      modifies this`isLocked
      ensures isLocked <==> currentTokens < minTokens
      ensures ok <==> !isLocked
    {
      if currentTokens < minTokens {
        isLocked := true;
        ok := false;
      } else {
        isLocked := false;
        ok := true;
      }
    }

    /** `use_token`: debits exactly `amount` when the balance covers it and the account is unlocked; otherwise nothing changes. */
    method UseToken(amount: nat) returns (ok: bool)
      modifies this`currentTokens
      ensures ok <==> old(currentTokens) >= amount && !isLocked
      ensures ok ==> currentTokens == old(currentTokens) - amount
      ensures !ok ==> currentTokens == old(currentTokens)
    {
      if currentTokens >= amount && !isLocked {
        currentTokens := currentTokens - amount;
        ok := true;
      } else {
        ok := false;
      }
    }

    /** `add_tokens`: credits the balance; the lock stays as it was until the next check. */
    method AddTokens(amount: nat)
      modifies this`currentTokens
      ensures currentTokens == old(currentTokens) + amount
    {
      currentTokens := currentTokens + amount;
    }
  }

  /** How `check_token_requirement` ends: the kernel boots, or it panics because the account is locked. */
  datatype BootOutcome = Booted(charged: bool) | Panicked

  /**
   * `check_token_requirement`: a failed check panics before anything is debited;
   * otherwise one token is charged for the boot.
   */
  method CheckTokenRequirement(manager: TokenManager) returns (outcome: BootOutcome)
    modifies manager`isLocked, manager`currentTokens
    ensures manager.isLocked <==> old(manager.currentTokens) < manager.minTokens
    ensures old(manager.currentTokens) < manager.minTokens ==> outcome == Panicked && manager.currentTokens == old(manager.currentTokens)
    ensures old(manager.currentTokens) >= manager.minTokens ==> outcome.Booted?
    ensures outcome.Booted? ==> outcome.charged == (old(manager.currentTokens) >= 1)
    ensures outcome.Booted? && outcome.charged ==> manager.currentTokens == old(manager.currentTokens) - 1
    ensures outcome.Booted? && !outcome.charged ==> manager.currentTokens == old(manager.currentTokens)
  {
    var usable := manager.CheckTokens();
    if !usable {
      return Panicked;
    }
    var charged := manager.UseToken(1);
    outcome := Booted(charged);
  }

  /**
   * The lock outlives a top-up: once a check has found the balance below the
   * floor, debits are refused, still refused after tokens are added, and
   * accepted again only after the next check sees the restored balance.
   */
  method LockedUntilRechecked(manager: TokenManager, amount: nat, topUp: nat)
    returns (whileLocked: bool, afterTopUp: bool, afterRecheck: bool)
    requires manager.currentTokens < manager.minTokens <= manager.currentTokens + topUp
    modifies manager`isLocked, manager`currentTokens
    ensures !whileLocked && !afterTopUp
    ensures afterRecheck <==> amount <= old(manager.currentTokens) + topUp
    ensures !manager.isLocked
  {
    var usable := manager.CheckTokens();
    whileLocked := manager.UseToken(amount);
    manager.AddTokens(topUp);
    afterTopUp := manager.UseToken(amount);
    usable := manager.CheckTokens();
    afterRecheck := manager.UseToken(amount);
  }

  /**
   * The kernel's unit test of the token manager: a fresh manager passes the
   * check, can pay for one token, and is left one token poorer.
   */
  method TokenManagerTest() returns (checked: bool, used: bool, balance: nat)
    ensures checked && used
    ensures balance == MinTokens + 49
  {
    var manager := new TokenManager();
    checked := manager.CheckTokens();
    used := manager.UseToken(1);
    balance := manager.currentTokens;
  }
}
