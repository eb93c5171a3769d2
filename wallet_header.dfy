/** The header's wallet badge: the abbreviated account and a copy button whose tick resets. */
module WalletHeaderView {
  import opened Wrappers
  import opened Address

  const NotConnected := "Not connected"
  const CopiedResetMs := 2000

  /** `account` is truthy: present and not the empty string. */
  predicate HasAccount(account: Option<string>)
  {
    account.Some? && account.value != ""
  }

  /** The badge text. */
  function DisplayText(account: Option<string>): (r: string)
    ensures HasAccount(account) ==> r == FormatAddress(account.value)
    ensures !HasAccount(account) ==> r == NotConnected
  {
    if HasAccount(account) then FormatAddress(account.value) else NotConnected
  }

  /** The copy button is rendered only for a truthy account. */
  predicate ShowsCopyButton(account: Option<string>)
  {
    HasAccount(account)
  }

  /** An abbreviation is never the disconnected text: it always contains the ellipsis. */
  lemma DisplayTellsConnection(account: Option<string>)
    ensures DisplayText(account) == NotConnected <==> !HasAccount(account)
  {
    if HasAccount(account) {
      var a := account.value;
      var r := FormatAddress(a);
      var h := HeadLength(a);
      assert r[h..h + 3] == Ellipsis;
      assert r[h] == '.';
      assert NotConnected[h] != '.';
    }
  }

  /** The component's state. The clipboard is the text last written to it; `timers` holds the due
      times, in ms, of the pending `setTimeout` callbacks that clear `copied`. */
  class WalletHeader {
    var copied: bool
    var clipboard: Option<string>
    var timers: seq<int>

    constructor()
      ensures !copied && clipboard == None && timers == []
    {
      copied := false;
      clipboard := None;
      timers := [];
    }

    /** `copyAddress` at time `now`; `writeOk` is whether the clipboard write resolved. Nothing changes
        without an account, and nothing after a rejected write. */
    method CopyAddress(account: Option<string>, now: int, writeOk: bool)
      modifies this
      ensures !HasAccount(account) ==> copied == old(copied) && clipboard == old(clipboard) && timers == old(timers)
      ensures HasAccount(account) && writeOk ==> clipboard == account
      ensures HasAccount(account) && !writeOk ==> copied == old(copied) && clipboard == old(clipboard) && timers == old(timers)
      ensures HasAccount(account) && writeOk ==> copied && timers == old(timers) + [now + CopiedResetMs]
    {
      if HasAccount(account) {
        if writeOk {
          clipboard := account;
          copied := true;
          timers := timers + [now + CopiedResetMs];
        }
      }
    }

    /** The first scheduled of the pending timers fires and clears the flag. */
    method TimerFires()
      requires timers != []
      modifies this
      ensures !copied && clipboard == old(clipboard) && timers == old(timers)[1..]
    {
      copied := false;
      timers := timers[1..];
    }
  }
}
