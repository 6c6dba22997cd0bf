# Cashback-address state machine of the wallet extension's background script

This project models how the browser extension's background script handles
the Bring cashback address (`packages/app/src/systems/CRX/background/bring/index.ts`).
The script keeps one "current cashback address" under the storage key
`bring_cashback_wallet_address` and a "pending selection" flag under
`bring_pending_cashback`. It keeps them consistent with the wallet's
accounts, answers four kinds of request from content scripts and the
selection popup, reacts to accounts being created and deleted, and
broadcasts `CASHBACK_WALLET_UPDATED` whenever the address changes.

There are two modules:

- `CashbackSpec` (`cashback_spec.dfy`) states the machine on values. A
  `State` holds the raw stored address, the pending flag, the current
  account addresses, the broadcasts sent so far (`outbox`) and the surface
  opened last. Each operation is a function from a state to the next state
  and its result: `Reconcile`/`Fetch` for `getCashbackWalletAddress`,
  `Open`, `Created`, `Deleted`, and `Route` for the message listener.
  `Step` and `Run` replay a history of requests and account events. The
  lemmas about these functions are the properties the script is meant to have:
  - every change of the stored address is broadcast (`Synced`);
  - the saved address belongs to a current account (`AccountBound`);
  - reconciliation is idempotent;
  - the creation-redirect flow and the selection flow end as intended.
- `BringBackground` (`bring_background.dfy`) is the script as an object.
  Its fields are the storage keys, the account list, the outbox and the
  opened surface. Each storage helper, the notifier, `getCashbackWalletAddress`,
  `openCashbackAddressSelection`, the message listener and the two account
  handlers are methods. They call one another in the source's order. Each
  handler is proved to leave the fields exactly as the matching
  `CashbackSpec` function says.

Two reading rules of the source are kept:

- A stored empty string reads back as "absent", because of `|| null`.
- A missing pending flag reads as `false`, because of `|| false`.

So `stored` is the raw storage value, and `ReadSaved` is what the script sees.

External calls become plain state or parameters:

- The account service's query is the `accounts` field. Whether one call of
  that query rejects is the `Query` parameter. The storage helpers always
  resolve and the notifier swallows every error, so the `.catch` branches
  of `DELETE_CASHBACK_ADDRESS` and `SET_CASHBACK_ADDRESS` cannot be reached,
  and the model has no path for them. Besides the account query, only a
  synchronous throw from `createPopUp` could reach OPEN's `.catch`; that
  failure is not modelled (see "Left out").
- The broadcast to all tabs is one entry appended to `outbox`.
- Opening the welcome page (`chrome.tabs.create`) or the selection popup
  (`createPopUp`) sets `lastOpened`.

Observations the proofs make precise:

- `SET_CASHBACK_ADDRESS` saves any non-empty address. It does not check the
  address against the accounts, so it can break `AccountBound` until the next
  `GET_CASHBACK_ADDRESS` heals it (`Route`'s contract). `RunKeepsAccountBound`
  proves `AccountBound` over every history whose SET requests name existing accounts.
- With a single account whose address is the empty string, every
  `getCashbackWalletAddress` call saves it and broadcasts it again, because
  the saved "" never reads back (`EmptySoleAddressIsNotKept`). Real account
  addresses are never empty, so `ReconcileIdempotent` excludes that case.

## Model

| member | source | states |
|---|---|---|
| CashbackSpec.ReadSaved | packages/app/src/systems/CRX/background/bring/index.ts:13-19 | the stored address reads back exactly when it is present and non-empty, and then unchanged |
| CashbackSpec.Reconcile | packages/app/src/systems/CRX/background/bring/index.ts:86-112 | a current saved address is returned with nothing written or sent. A stale one is removed with exactly one null broadcast before the single-account check. Without a valid saved address, an address is returned, saved and broadcast exactly when there is one account; otherwise null is returned and nothing reads back as saved. The result is always a current account. Afterwards `AccountBound` holds, and a synced state stays synced |
| CashbackSpec.Fetch | packages/app/src/systems/CRX/background/bring/index.ts:86-112 | a rejected account query rejects with its message before anything is written; otherwise the outcome of `Reconcile` |
| CashbackSpec.Open | packages/app/src/systems/CRX/background/bring/index.ts:115-127 | with no accounts the pending flag is set and the welcome page opened; otherwise the selection popup is opened and the flag kept. The stored address and outbox never change, and a query failure changes nothing |
| CashbackSpec.Created | packages/app/src/systems/CRX/background/bring/index.ts:191-208 | the flag is read and cleared, and its old value returned. If it was set, the new account's address is saved and broadcast; otherwise nothing changes |
| CashbackSpec.Deleted | packages/app/src/systems/CRX/background/bring/index.ts:211-222 | the saved address is cleared with a null broadcast exactly when it reads back as the deleted account's address; otherwise nothing changes |
| CashbackSpec.Route | packages/app/src/systems/CRX/background/bring/index.ts:130-185 | each of the four request kinds gets exactly one reply of its kind; other messages get no reply and change nothing. A failure reply changes nothing. GET answers the reconciled address, or null on failure. DELETE clears the address with a null broadcast and succeeds. SET succeeds exactly when an address is given: then it saves and broadcasts it; otherwise it answers 'No address provided'. A SET for a non-account address breaks `AccountBound`. OPEN succeeds exactly when the query resolves. Synced is preserved |
| CashbackSpec.RunKeepsSynced | packages/app/src/systems/CRX/background/bring/index.ts:86-222 | over any history of requests and account events, the last broadcast always equals the stored address: every change is broadcast |
| CashbackSpec.RunKeepsAccountBound | packages/app/src/systems/CRX/background/bring/index.ts:86-222 | over any history whose SET requests name existing accounts, the saved address always belongs to a current account (`AccountBound`), because deleting an account clears an address saved for it |
| CashbackSpec.StepKeepsAccountBound | packages/app/src/systems/CRX/background/bring/index.ts:211-222 | one request or account event keeps `AccountBound`, given that a SET names an existing account |
| CashbackSpec.StepKeepsSynced | packages/app/src/systems/CRX/background/bring/index.ts:86-222 | one request or account event keeps the stored address and the last broadcast equal |
| CashbackSpec.ReconcileIdempotent | packages/app/src/systems/CRX/background/bring/index.ts:88-108 | with unchanged accounts, a second call returns the same address and writes and sends nothing, unless the sole account's address is empty |
| CashbackSpec.EmptySoleAddressIsNotKept | packages/app/src/systems/CRX/background/bring/index.ts:13-107 | a sole account with the empty address is saved and broadcast again on every call |
| CashbackSpec.PendingFlow | packages/app/src/systems/CRX/background/bring/index.ts:115-208 | with no accounts, a selection request arms the flag and opens the welcome page. The next account created is saved, broadcast and returned by GET, and the flag is consumed. A later account leaves the saved address alone |
| CashbackSpec.SelectionFlow | packages/app/src/systems/CRX/background/bring/index.ts:130-222 | with two accounts and nothing saved, GET answers null and changes nothing. SET of the second account succeeds and broadcasts it. Deleting that account clears the address with a null broadcast |
| BringBackground.Background.GetSaved | packages/app/src/systems/CRX/background/bring/index.ts:13-19 | returns the stored address when present and non-empty, null otherwise |
| BringBackground.Background.Save | packages/app/src/systems/CRX/background/bring/index.ts:22-28 | the address is stored; nothing else changes |
| BringBackground.Background.Remove | packages/app/src/systems/CRX/background/bring/index.ts:31-37 | the stored address is absent afterwards, whether or not it was present |
| BringBackground.Background.SetPendingFlag | packages/app/src/systems/CRX/background/bring/index.ts:40-46 | the pending flag is set; nothing else changes |
| BringBackground.Background.CheckAndClearPendingFlag | packages/app/src/systems/CRX/background/bring/index.ts:49-62 | returns the flag's old value (missing reads false) and leaves it cleared |
| BringBackground.Background.Notify | packages/app/src/systems/CRX/background/bring/index.ts:65-83 | exactly one broadcast of the address is appended; nothing else changes |
| BringBackground.Background.GetCashbackWalletAddress | packages/app/src/systems/CRX/background/bring/index.ts:86-112 | new fields and result are those of `Fetch` |
| BringBackground.Background.OpenCashbackAddressSelection | packages/app/src/systems/CRX/background/bring/index.ts:115-127 | new fields and result are those of `Open` |
| BringBackground.Background.HandleMessage | packages/app/src/systems/CRX/background/bring/index.ts:130-185 | new fields and reply are those of `Route`; Synced is preserved |
| BringBackground.Background.OnAccountCreated | packages/app/src/systems/CRX/background/bring/index.ts:191-208 | new fields are those of `Created`; Synced is preserved |
| BringBackground.Background.OnAccountDeleted | packages/app/src/systems/CRX/background/bring/index.ts:211-222 | new fields are those of `Deleted`; Synced is preserved |

## Left out

- Browser and service I/O: `chrome.storage.local`, `chrome.tabs.query`, `chrome.tabs.sendMessage`, `chrome.tabs.create`, `createPopUp`, `AccountService.getAccounts` and the `DatabaseObservable` subscription. They are state fields, the `Query` parameter and the outbox.
- Per-tab delivery in `notifyWalletAddressUpdate`: the loop over tabs and its ignored send errors are one append to the outbox. Tab enumeration and delivery failure are I/O.
- A failure of `chrome.tabs.create` on the no-accounts branch, after the pending flag is set: its promise is not awaited, so a rejection never reaches OPEN's `.catch`.
- A synchronous throw from `createPopUp` on the branch with accounts, where the flag is not touched: it would reach OPEN's `.catch` and answer `{success:false, error}`. `createPopUp` is not part of this model, so `Open` treats it as always succeeding and only the account query can make OPEN fail.
- Interleaving of the asynchronous handlers: each handler runs atomically. The source's read-then-remove of the pending flag (two separate storage calls) can let two concurrent account creations both see the flag. This is an assumption of the model, not a verified property.
- The `bringInitBackground` and `bringInitContentScript` calls into the Bring SDK, whose internals are not shown.
- Payloads of SET_CASHBACK_ADDRESS that are not strings (numbers, objects): the payload is a string or missing.
- The selection popup (`SelectCashbackAddress.tsx`), the content-script proxy, the content-script connection setup and the routes: UI and plumbing outside the background script.
- The account database itself: `Step` appends a created account's address, and `Without` drops every account with the deleted address, before the handler runs.
