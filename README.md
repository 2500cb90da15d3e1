# Islam OS token ledger and security engine, in Dafny

This project models the logic at the centre of the Islam OS repository:

- **Wallet ledger.** The payment system's wallet ledger opens wallets at or above a minimum balance (the floor, 100 INSAN). It transfers tokens after four checks in a fixed order and credits purchased tokens. Every completed transfer and purchase is recorded in an append-only transaction log.
- **Security engine ("Haris").** It covers four parts:
  - a first-match firewall with permanent block and allow sets;
  - an intrusion response that blacklists the source and raises the threat level;
  - a key store keyed by creation time;
  - a token-transaction validator in which every rule must pass.
- **Kernel token manager.** It locks the system once its operating balance has been found below the floor.
- **Browser helpers:** the ad blocker, the safe-site whitelist, the line-by-line HTML-to-text renderer and the decision order of `navigate`.
- **Kernel window list:** creating a window appends it and makes it the active window.

Modules follow the source files:

| Module | Source file |
|---|---|
| `Payment` (`payment.dfy`) | `src/apps/payment/src/main.rs` |
| `Security` (`security.dfy`) | `src/security/src/haris_core.rs` |
| `Kernel` (`kernel.dfy`) | `src/kernel/src/lib.rs` |
| `Browser` (`browser.dfy`) | `src/apps/browser/src/main.rs` |
| `Gui` (`window.dfy`) | `src/kernel/src/gui/window.rs` |

Two modules are shared helpers:

- `Common` holds `Option`, `Result`, the first-match search behind every early-return loop of the core, and a concatenating map.
- `Text` holds the parts of Rust's string library the core uses: `contains`, `find`, `split('\n')` and decimal formatting. Their correctness lemmas are in the same module.

Objects whose fields the source updates in place are classes whose methods name what they modify: `PaymentSystem`, `Firewall`, `EncryptionEngine`, `TokenProtection`, `HarisSecurity`, `TokenManager`, `AdBlocker`, `Browser` and `WindowManager`. Records are datatypes. The source keeps browser windows as values in a vector and mutates them through `get_mut`. The model does the same: it replaces the element of the `windows` sequence with a new window value.

Code the core calls but that is not part of the model enters as parameters:

- `FirewallRule::matches`, `TokenRule::validate` together with the `Transaction` to `TokenTransaction` conversion, `scan_url` and the intrusion analysis become predicates;
- AES-256-GCM becomes a sealing function that may fail;
- SHA-256, which hashes the transfer digest, becomes a string function. The purchase hash comes from `generate_hash`, which no source file of this model defines, and is a string function parameter too;
- the clock, the random bytes and the random strings become values.

## Model

| member | source | states |
|---|---|---|
| Payment.FindWalletIndex | src/apps/payment/src/main.rs:318-322 | the index of the first wallet with the id; `WalletNotFound` exactly when no wallet has it |
| Payment.CalculateFee | src/apps/payment/src/main.rs:302-306 | the fee is at least 1 and is the smallest whole number of tokens covering one percent of the amount (`max(1, ceil(amount/100))`) |
| Payment.Settle | src/apps/payment/src/main.rs:132-144 | the sender loses exactly the amount and the receiver gains it. Both get the transaction id at the end of their lists. Identity fields never change and every other wallet is untouched. A self-transfer keeps the balance and lists the id twice |
| Payment.TotalBalanceUpdate | src/apps/payment/src/main.rs:133-134 | replacing one wallet changes the ledger total by exactly that wallet's balance change |
| Payment.TotalAfterDebit | src/apps/payment/src/main.rs:133 | a debit lowers the total by the amount |
| Payment.TotalAfterCredit | src/apps/payment/src/main.rs:134 | a credit raises the total by the amount |
| Payment.TotalAfterLogging | src/apps/payment/src/main.rs:143-144 | appending a transaction id leaves the total alone |
| Payment.SettlePreservesTotal | src/apps/payment/src/main.rs:133-144 | a transfer creates and destroys no tokens: the sum of all balances is unchanged |
| Payment.SettleKeepsWellFormed | src/apps/payment/src/main.rs:108-112 | a transfer that leaves the sender at or above the floor keeps every wallet at or above the floor, with ids unchanged |
| Payment.PendingTransfer | src/apps/payment/src/main.rs:115-124 | the record built before the security check: Pending, empty hash, fee per `calculate_fee` |
| Payment.PaymentSystem.constructor | src/apps/payment/src/main.rs:28-41 | no wallets, no transactions, floor `MIN_TOKENS`, token name `INSAN`, the id counter at 1 |
| Payment.PaymentSystem.CreateWallet | src/apps/payment/src/main.rs:66-90 | below the floor: `InsufficientBalance("الحد الأدنى: 100")` and no wallet added. Otherwise exactly one wallet is appended: the next id, the given balance, an `ISLAM-` address, a `PK-` key, no transactions; its id is returned. The ledger invariant is kept |
| Payment.PaymentSystem.GenerateWalletId | src/apps/payment/src/main.rs:280-287 | returns the counter and advances it by one, so ids run 1, 2, 3, … |
| Payment.PaymentSystem.Transfer | src/apps/payment/src/main.rs:92-151 | errors in the source's order: `WalletNotFound` (either side), `InsufficientBalance`, `MinimumBalanceViolation`, `SecurityViolation`, each with the source's message and with wallets and log unchanged. On success the wallets are `Settle`d, exactly one Completed record with the SHA-256 of sender, receiver, amount and time is appended, and the id is returned. The total is preserved and every wallet, sender included, stays at or above the floor |
| Payment.PaymentSystem.GetBalance | src/apps/payment/src/main.rs:153-156 | the balance of the wallet with that id, or `WalletNotFound` exactly when there is none; the balance found is at least the floor |
| Payment.PaymentSystem.BuyTokens | src/apps/payment/src/main.rs:158-187 | an unknown wallet changes nothing. Otherwise the wallet is credited, one Completed record from wallet 0 with fee 0 and the hash of `BUY:<id>:<amount>` is logged, the wallet's own list is untouched, and the total rises by exactly the amount |
| Payment.TransferDigestCollision | src/apps/payment/src/main.rs:309-315 | the transfer digest runs the numbers together with no separator: wallet 1 to 23 and wallet 12 to 3, same amount, fee and time, hash the same text |
| Payment.PurchaseDigestDetermines | src/apps/payment/src/main.rs:177 | the purchase digest separates its numbers with colons, so equal digest text means the same wallet and amount |
| Payment.FloorScenario | src/apps/payment/src/main.rs:66-156 | floor 100: a wallet opened with 150 sends 40 and keeps 110 while the receiver gets 140. A further 20 fails with `MinimumBalanceViolation` and leaves both balances |
| Payment.OpeningBelowFloor | src/apps/payment/src/main.rs:66-72 | floor 100: opening a wallet with 50 fails with `InsufficientBalance("الحد الأدنى: 100")` and adds no wallet |
| Security.Firewall.constructor | src/security/src/haris_core.rs:144-152 | inactive, no rules, empty block and allow sets |
| Security.Firewall.Activate | src/security/src/haris_core.rs:154-161 | switched on, with exactly the five default rules appended |
| Security.Firewall.AddDefaultRules | src/security/src/haris_core.rs:163-213 | appends the five default rules in order: block inbound 0-1023, allow TCP 22, allow TCP 80-443, block all inbound, allow all outbound |
| Security.Firewall.CheckPacket | src/security/src/haris_core.rs:215-238 | inactive accepts all. Otherwise a blocked source is refused and an allowed, unblocked source is accepted. Any other packet is accepted exactly when the first matching rule allows, and refused when no rule matches |
| Security.Firewall.BlockIp | src/security/src/haris_core.rs:240-242 | a set insertion, so repeating it changes nothing; the allow set, rules and switch are untouched |
| Security.Firewall.AllowIp | src/security/src/haris_core.rs:244-246 | a set insertion; the block set, rules and switch are untouched |
| Security.DefaultRulesFirstMatch | src/security/src/haris_core.rs:163-213 | with port-and-direction matching, the default rules send outbound traffic to rule 5, inbound to ports 0-1023 to rule 1 and other inbound traffic to rule 4; the SSH and web rules are never reached |
| Security.DefaultPolicy | src/security/src/haris_core.rs:215-238 | a firewall switched on with the default rules accepts a packet from an unlisted source exactly when it is outbound |
| Security.EncryptionEngine.constructor | src/security/src/haris_core.rs:257-264 | zero master key, one-day rotation interval, no keys |
| Security.EncryptionEngine.Initialize | src/security/src/haris_core.rs:266-275 | takes the random master key, then generates the first key |
| Security.EncryptionEngine.GenerateNewKey | src/security/src/haris_core.rs:296-315 | inserts a key under the current time that expires 86400 s later and sets the last rotation to that time; keys under other times stay, and a key already stored under the same time is replaced, as a `BTreeMap` insert does |
| Security.EncryptionEngine.Encrypt | src/security/src/haris_core.rs:277-294 | `KeyNotFound` exactly when the current key id is absent, `EncryptionFailed` exactly when sealing fails. On success: that key id, AES-256-GCM, the key's stored nonce as IV and the sealed ciphertext |
| Security.LatestKeyFound | src/security/src/haris_core.rs:277-280 | once a key exists, encrypting under the latest rotation never gives `KeyNotFound` |
| Security.NoncePerKey | src/security/src/haris_core.rs:282-292 | every encryption under one key carries the same IV, the nonce stored with that key |
| Security.TokenProtection.constructor | src/security/src/haris_core.rs:326-333 | the kernel's floor and contract address, no rules |
| Security.TokenProtection.Activate | src/security/src/haris_core.rs:335-338 | installs the default token rules |
| Security.TokenProtection.AddSecurityRules | src/security/src/haris_core.rs:340-358 | appends exactly three rules in order: balance below the floor (BlockSystem), transfer above 1000 (RequireApproval), suspicious pattern (BlockAndAlert) |
| Security.TokenProtection.ValidateTransaction | src/security/src/haris_core.rs:360-372 | accepts exactly when every rule validates the transaction |
| Security.HarisSecurity.constructor | src/security/src/haris_core.rs:29-67 | threat level Low, firewall on with the default rules and empty sets, first key generated, token rules installed |
| Security.HarisSecurity.MonitorNetwork | src/security/src/haris_core.rs:90-104 | passes exactly when the firewall accepts and no intrusion is seen. A firewall refusal changes nothing. An intrusion blocks the source, sets Critical and appends the emergency defenses, after which an active firewall refuses every packet from that source |
| Security.HarisSecurity.RespondToIntrusion | src/security/src/haris_core.rs:106-117 | the source is added to the block set and the emergency defenses are activated |
| Security.HarisSecurity.ActivateEmergencyDefenses | src/security/src/haris_core.rs:119-125 | threat level Critical; appends PortHoneypot, TrafficShaping, ConnectionLimiting in order, without removing duplicates |
| Security.HarisSecurity.ProtectTokenTransaction | src/security/src/haris_core.rs:130-132 | accepted exactly when every token rule validates the transaction |
| Kernel.TokenManager.constructor | src/kernel/src/lib.rs:102-110 | 150 tokens (`MIN_TOKENS + 50`), unlocked, the kernel's contract address |
| Kernel.TokenManager.CheckTokens | src/kernel/src/lib.rs:112-123 | afterwards locked exactly when the balance is below the floor; the result is the negation of the lock |
| Kernel.TokenManager.UseToken | src/kernel/src/lib.rs:125-132 | succeeds exactly when the balance covers the amount and the manager is unlocked. It then debits exactly the amount, so the balance never goes negative; a failure changes nothing |
| Kernel.TokenManager.AddTokens | src/kernel/src/lib.rs:134-137 | the balance rises by the amount; the lock is untouched |
| Kernel.CheckTokenRequirement | src/kernel/src/lib.rs:220-237 | a balance below the floor locks and panics with nothing debited; otherwise the boot proceeds and one token is charged when the balance covers it |
| Kernel.LockedUntilRechecked | src/kernel/src/lib.rs:112-137 | after a failed check, debits are refused even after a top-up restores the balance; only the next check unlocks |
| Kernel.TokenManagerTest | src/kernel/src/lib.rs:589-595 | a fresh manager passes the check, can pay one token, and holds `MIN_TOKENS + 49` |
| Browser.AdBlocker.constructor | src/apps/browser/src/main.rs:285-294 | enabled, with exactly the ten default domains in order and the two default filters |
| Browser.AdBlocker.LoadDefaultFilters | src/apps/browser/src/main.rs:296-316 | appends the ten default domains and the two filters |
| Browser.AdBlocker.ShouldBlock | src/apps/browser/src/main.rs:318-330 | false while disabled; otherwise true exactly when some blocked domain occurs in the URL |
| Browser.BlockedWithin | src/apps/browser/src/main.rs:323-327 | any URL that contains a blocked URL is itself blocked |
| Browser.CheckUrlSecurity | src/apps/browser/src/main.rs:81-101 | a URL naming one of the five safe sites is secure without a scan; any other URL gets the scan's verdict |
| Browser.WhitelistedWithin | src/apps/browser/src/main.rs:93-97 | any URL that contains a whitelisted URL is itself whitelisted |
| Browser.LineTag | src/apps/browser/src/main.rs:208-238 | a line is decided by the first of `<title>`, `<h1>`, `<p>`, `<li>` it contains; a line with none of them has no tag |
| Browser.Between | src/apps/browser/src/main.rs:209-237 | the text right after the first opening tag, up to the first closing tag after it, with no closing tag inside; nothing exactly when no closing tag follows |
| Browser.RenderHtml | src/apps/browser/src/main.rs:203-242 | the loop's text equals the line-by-line rendering of the split page by the corrected renderer (see Findings): it searches for the closing tag after the opening tag, so it does not panic on a line such as `</p><p>x</p>`, where the source's `render_html` does; wherever the source does not panic, the two agree (`Browser.RenderLinesAgrees`) |
| Browser.RenderConcat | src/apps/browser/src/main.rs:206-208 | a page joined at a newline renders as its two halves concatenated |
| Browser.ExtractAsWritten | src/apps/browser/src/main.rs:211-237 | the source's slicing panics exactly when the first closing tag of the line starts before the end of its first opening tag |
| Browser.ExtractAgrees | src/apps/browser/src/main.rs:211-237 | wherever the source does not panic on a line, it extracts what the corrected search extracts |
| Browser.RenderLinesAgrees | src/apps/browser/src/main.rs:203-242 | wherever the source's rendering does not panic, it equals the corrected rendering |
| Browser.ClosingFirstPanics | src/apps/browser/src/main.rs:224-230 | the source panics on the line `</p><p>x</p>` |
| Browser.ClosingFirstRendered | src/apps/browser/src/main.rs:224-230 | the corrected search renders `</p><p>x</p>` as `"  x\n"` |
| Browser.NewBrowserWindow | src/apps/browser/src/main.rs:153-166 | the given title and geometry, empty URL and content, no tabs, indicator Secure |
| Browser.ShowWarning | src/apps/browser/src/main.rs:244-251 | the content becomes the warning page around the message, the indicator Insecure, and nothing else changes |
| Browser.Navigated | src/apps/browser/src/main.rs:168-201 | the URL is set and the content is the loaded page rendered by the corrected renderer (see Findings); title, geometry, tabs and indicator stay |
| Browser.Browser.constructor | src/apps/browser/src/main.rs:28-40 | no windows, none active, no history, a fresh ad blocker that is enabled with the ten default domains and the two default filters |
| Browser.Browser.Navigate | src/apps/browser/src/main.rs:56-79 | the windows and the history become exactly what `Navigation` gives for the active window, the security verdict and the ad blocker's verdict |
| Browser.NavigationKeepsOtherWindows | src/apps/browser/src/main.rs:57-73 | navigating never adds or removes a window, and no window other than the active one changes |
| Browser.NavigationRecordsOnlyVisits | src/apps/browser/src/main.rs:60-74 | the history stays as it was, or grows by exactly one visit: that of a secure, unblocked URL in an existing active window, under that window's title |
| Browser.NavigationIgnored | src/apps/browser/src/main.rs:56-70 | with no existing active window, or for a secure URL the ad blocker matches, nothing changes |
| Browser.NavigationWarns | src/apps/browser/src/main.rs:60-63 | an insecure URL puts the warning page in the active window, marks it insecure, keeps its URL and records no visit |
| Browser.NavigationLoads | src/apps/browser/src/main.rs:73-74 | a secure, unblocked URL is loaded in the active window: the URL is set, the content is the rendered loaded page, every other field stays, and the history gains exactly one visit with the URL and the window's title |
| Browser.Browser.WarnWindow | src/apps/browser/src/main.rs:62 | the warning replaces the page of the indexed window and no other window changes |
| Browser.Browser.NavigateWindow | src/apps/browser/src/main.rs:73-74 | the indexed window navigates, no other window changes, and exactly one visit with that window's title is appended |
| Gui.NewWindow | src/kernel/src/gui/window.rs:84-95 | the given title and geometry, no content, neither minimized nor maximized |
| Gui.WindowManager.constructor | src/kernel/src/gui/window.rs:21-28 | no windows, no active window |
| Gui.WindowManager.CreateWindow | src/kernel/src/gui/window.rs:30-37 | the handle is the old window count; exactly one new window is appended with the others unchanged, and it becomes the active window, a valid index |
| Text.Find | src/apps/browser/src/main.rs:211-212 | `str::find`: the first occurrence, or nothing exactly when the pattern does not occur |
| Text.JoinSplitLines | src/apps/browser/src/main.rs:206 | `split('\n')` loses nothing: joining the pieces with newlines gives the text back |
| Text.SplitLinesConcat | src/apps/browser/src/main.rs:206 | splitting text joined at a newline gives the pieces of each side, one after the other |
| Text.SplitJoinLines | src/apps/browser/src/main.rs:206 | splitting a newline join of newline-free pieces gives the pieces back |
| Text.ParseDecimalString | src/apps/payment/src/main.rs:177 | the `{}` text of one number is digits and reads back as that number |
| Text.DecimalStringInjective | src/apps/payment/src/main.rs:177 | distinct numbers print as distinct text |
| Text.ColonSeparated | src/apps/payment/src/main.rs:177 | text made of a run of digits, a colon and a rest splits back into the same digits and rest |
| Text.SplitLinesNoNewline | src/apps/browser/src/main.rs:206 | no piece of `split('\n')` holds a newline |

## Left out

- The floating-point path of `buy_tokens` (ETH times the exchange rate, truncated to `u32`) and `ExchangeRates` are not modelled: `BuyTokens` takes the token amount.
- Payment.CalculateFee: computed exactly in integers. The source computes `amount as f32 * 0.01` in `f32` and rounds up. The constant `0.01f32` is not exactly 0.01, and the product is rounded to `f32`, so from 13,107,201 upward some amounts get a different fee: 13,107,201 gives 131,072 there, while the exact fee is 131,073.
- Payment.PaymentSystem.Transfer: a transfer from a wallet to itself is modelled as debit, then credit, with the id listed twice. The source holds two mutable borrows of the wallet vector, `from_wallet` and `to_wallet` (lines 97-98), alive at the same time, so `transfer` as written does not compile in any case. Debit then credit is the reading chosen here.
- Payment.PaymentSystem.BuyTokens: no arithmetic overflow; the model uses unbounded naturals for `u32`/`u64`. Overflow on a credit (`balance += amount`) is not modelled, and neither is overflow in `TokenManager::add_tokens` or in the key's expiry time.
- Transaction ids: the source takes them from the clock, and two successful operations in the same tick get the same id. The model takes the id as a parameter and does not rule out repeats.
- `PaymentSystem::activate` is not modelled. It logs through `verify_contract`, calls `initialize_wallets` and `update_exchange_rates` (neither is defined in the source files of this model), sets the security level to `Maximum` through `enable_security` and sets `is_active`; no modelled operation reads the level or the flag. Log lines are not modelled either.
- `start_payment_system` is not modelled as a whole: besides activating, it opens the wallet `"system"` with 10000 tokens, which is wallet 1. That step is `CreateWallet` on a fresh ledger.
- The `lazy_static` globals behind `spin::Mutex` (`ISLAM_PAYMENT`, `HARIS_SYSTEM`, which `transfer` and `check_url_security` lock, and the browser's global lookups) are explicit objects and parameters here. Locking and sharing between callers are not modelled.
- Navigation renders the loaded page with the corrected renderer. With the source's `render_html`, a URL such as `</title><title>` makes the page line panic, as the Findings row shows for `<p>`.
- `NEXT_ID` is a process-wide mutable static in the source. It is a field of each ledger object here, so two ledgers would not share a counter.
- Opening a wallet below the floor fails with `InsufficientBalance`, the variant the code uses; there is no separate opening-balance error.
- The source has no reserve-wallet exemption from the floor, so none is modelled. Wallet 0 in purchase records is a sender that no wallet of the vector carries.
- The token validator accepts exactly when every rule's `validate` passes (lines 360-372). It does not act on the first matching rule's action. Rule actions are carried but not interpreted, because `TokenRule::validate` is not part of the model.
- `FirewallRule::matches` is not part of the model: `CheckPacket` takes it as a parameter. The default-rule lemmas use one explicit reading of it (direction, protocol, port range); address ranges are not interpreted.
- `IntrusionDetectionSystem` (`start`, `analyze_packet`), `activate_defenses`, `send_alert`, the audit log and `scan_system` are not modelled. Intrusion analysis is a parameter and the initial defenses are a constructor argument.
- `EncryptionEngine::decrypt` and `get_current_key_id` are not part of the model; the current key id is a parameter of `Encrypt`. AES-256-GCM and `OsRng` are parameters: the sealing function and the supplied bytes.
- Security.NoncePerKey: states the source's behaviour of reusing the stored nonce of a key for every message. It does not model a per-message nonce, because the source has none.
- The transaction monitor that `validate_transaction` calls after acceptance is not modelled; it has no effect on the verdict.
- `Browser::start`, `load_homepage`, bookmarks, privacy mode and the browser's security level are not modelled; they are outside the named operations. The homepage is a fixed string rendered by the same renderer.
- `add_to_history` is not part of the model. History records the URL and the window title it is given, not timestamps or visit counts.
- `simulate_loading` is not modelled step by step: its ten progress strings and 100 ms sleeps are overwritten before it returns. The final content is modelled: the rendering of the loaded-page template with the URL.
- Character indices: strings are sequences of Unicode characters, while Rust slices by UTF-8 byte offsets. Every offset the renderer uses comes from `find` on the same line, so both cut out the same text.
- The filter list of the ad blocker is stored but not consulted, as in the source.
- Window rendering, the taskbar, `Theme` and `Background` are not modelled; they are VGA output.

## Findings

| source | as written | input that shows it | evidently intended | confidence | as-written member | corrected member |
|---|---|---|---|---|---|---|
| src/apps/browser/src/main.rs:211-236 | `render_html` finds the closing tag from the start of the line and slices `line[start+k..end]`; when the first closing tag lies before the opening tag, the slice bounds are reversed and the call panics | the line `</p><p>x</p>`: `<p>` opens at 4, so the text starts at 7, but `</p>` is first found at 0 | the closing tag is searched after the opening tag, giving `"  x\n"` | not executed | Browser.ClosingFirstPanics | Browser.ClosingFirstRendered |
