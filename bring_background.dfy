/**
 * The background script's cashback-address handling as an object: the two
 * storage keys, the account list, the broadcasts sent and the surface
 * opened are fields, and each helper and handler of the script is a method
 * that updates them in the script's own order (read saved, read accounts,
 * remove or save, notify). Every handler is proved to leave the object in
 * the state the corresponding CashbackSpec function computes.
 */
module BringBackground {
  import opened CashbackSpec

  class Background {
    var stored: Option<string>
    var pending: bool
    var accounts: seq<string>
    var outbox: seq<Option<string>>
    var lastOpened: Option<Surface>

    /** The object's fields as a specification state. */
    function Snapshot(): State
      reads this
    {
      State(stored, pending, accounts, outbox, lastOpened)
    }

    /** A fresh install, with the wallet's current accounts. */
    constructor (accounts: seq<string>)
      ensures Snapshot() == Initial(accounts)
    {
      stored := None;
      pending := false;
      this.accounts := accounts;
      outbox := [];
      lastOpened := None;
    }

    /** `getSavedCashbackAddress`: a missing key and a stored empty string both read as null. */
    method GetSaved() returns (r: Option<string>)
      ensures r == ReadSaved(stored)
    {
      if stored.Some? && stored.value != "" {
        r := stored;
      } else {
        r := None;
      }
    }

    /** `saveCashbackAddress`. */
    method Save(address: string)
      modifies this`stored
      ensures stored == Some(address)
    {
      stored := Some(address);
    }

    /** `deleteCashbackAddress`: removing an absent key is a no-op. */
    method Remove()
      modifies this`stored
      ensures stored == None
    {
      stored := None;
    }

    /** `setPendingCashbackFlag`. */
    method SetPendingFlag()
      modifies this`pending
      ensures pending
    {
      pending := true;
    }

    /** `checkAndClearPendingCashbackFlag`: a missing flag reads as false; a set one is removed. */
    method CheckAndClearPendingFlag() returns (wasPending: bool)
      modifies this`pending
      ensures wasPending == old(pending) && !pending
    {
      wasPending := pending;
      if wasPending {
        pending := false;
      }
    }

    /** `notifyWalletAddressUpdate`: one broadcast to every tab, delivery failures ignored. */
    method Notify(address: Option<string>)
      modifies this`outbox
      ensures outbox == old(outbox) + [address]
    {
      outbox := outbox + [address];
    }

    /** `getCashbackWalletAddress`. */
    method GetCashbackWalletAddress(q: Query) returns (r: Outcome<Option<string>>)
      modifies this`stored, this`outbox
      ensures Transition(Snapshot(), r) == Fetch(old(Snapshot()), q)
    {
      var savedAddress := GetSaved();
      if q.Rejects? {
        return Rejected(q.message);
      }
      var addresses := accounts;
      if savedAddress.Some? {
        if savedAddress.value in addresses {
          return Resolved(savedAddress);
        }
        Remove();
        Notify(None);
      }
      if |addresses| == 1 {
        var address := addresses[0];
        Save(address);
        Notify(Some(address));
        return Resolved(Some(address));
      }
      return Resolved(None);
    }

    /** `openCashbackAddressSelection`. */
    method OpenCashbackAddressSelection(q: Query) returns (r: Outcome<()>)
      modifies this`pending, this`lastOpened
      ensures Transition(Snapshot(), r) == Open(old(Snapshot()), q)
    {
      if q.Rejects? {
        return Rejected(q.message);
      }
      if |accounts| == 0 {
        SetPendingFlag();
        lastOpened := Some(WelcomePage);
      } else {
        lastOpened := Some(SelectionPopup);
      }
      return Resolved(());
    }

    /** The `chrome.runtime.onMessage` listener: each recognised request gets exactly one reply. */
    method HandleMessage(msg: Message, q: Query) returns (reply: Reply)
      modifies this`stored, this`outbox, this`pending, this`lastOpened
      ensures Transition(Snapshot(), reply) == Route(old(Snapshot()), msg, q)
      ensures old(Synced(Snapshot())) ==> Synced(Snapshot())
    {
      match msg
      case GetCashbackAddress =>
        var r := GetCashbackWalletAddress(q);
        reply := AddressReply(if r.Resolved? then r.value else None);
      case DeleteCashbackAddress =>
        Remove();
        Notify(None);
        reply := StatusReply(true, None);
      case SetCashbackAddress(address) =>
        if address.None? || address.value == "" {
          reply := StatusReply(false, Some(NoAddressProvided));
        } else {
          Save(address.value);
          Notify(address);
          reply := StatusReply(true, None);
        }
      case OpenCashbackSelection =>
        var r := OpenCashbackAddressSelection(q);
        reply := if r.Resolved? then StatusReply(true, None) else StatusReply(false, Some(r.message));
      case OtherMessage =>
        reply := NoReply;
    }

    /** The `accounts:create` handler, run once the new account is in the account list. */
    method OnAccountCreated(address: string)
      modifies this`pending, this`stored, this`outbox
      ensures Snapshot() == Created(old(Snapshot()), address).next
      ensures old(Synced(Snapshot())) ==> Synced(Snapshot())
    {
      var wasPending := CheckAndClearPendingFlag();
      if wasPending {
        Save(address);
        Notify(Some(address));
      }
    }

    /** The `accounts:delete` handler, run once the account is gone from the account list. */
    method OnAccountDeleted(address: string)
      modifies this`stored, this`outbox
      ensures Snapshot() == Deleted(old(Snapshot()), address)
      ensures old(Synced(Snapshot())) ==> Synced(Snapshot())
    {
      var savedAddress := GetSaved();
      if savedAddress == Some(address) {
        Remove();
        Notify(None);
      }
    }
  }
}
