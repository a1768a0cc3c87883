/** The status line (`setStatus`) and the page's record of what it did: every status
    message written and every external call made, in order. */
module Status {

  /** The messages the page writes with `setStatus`. */
  datatype Status =
    | Pending(action: string)                  // transaction under way
    | Sent(hash: string)                       // transaction submitted
    | Succeeded(action: string, hash: string)  // one confirmation received
    | Cancelled(action: string)                // the user rejected it in the wallet
    | Failed(action: string, message: string)  // any other error
    | ConnectionRejected                       // the account request was refused
    | Disconnected                             // explicit disconnect
  {
    /** A message that ends a transaction attempt. */
    predicate IsTerminal() {
      Succeeded? || Cancelled? || Failed?
    }
  }

  /** The explorer base URL of the success message. */
  const ExplorerTxBase := "https://sepolia.etherscan.io/tx/"

  predicate EndsWith(text: string, suffix: string) {
    |suffix| <= |text| && text[|text| - |suffix|..] == suffix
  }

  /** The exact text `setStatus` writes for each message. The action name follows the
      two-character mark; the hash, the explorer link of the hash, the cancelled action
      and the error message close their texts verbatim. */
  function Render(s: Status): (text: string)
    ensures s.Pending? ==> |text| >= 2 + |s.action| && text[2..2 + |s.action|] == s.action
    ensures s.Sent? ==> EndsWith(text, s.hash)
    ensures s.Succeeded? ==> EndsWith(text, ExplorerTxBase + s.hash)
    ensures s.Cancelled? ==> EndsWith(text, s.action)
    ensures s.Failed? ==> EndsWith(text, s.message)
  {
    match s
    case Pending(action) => "⏳ " + action + "中..."
    case Sent(hash) => "✅ 交易已发送！哈希: " + hash
    case Succeeded(action, hash) => "🎉 " + action + "成功！交易: " + ExplorerTxBase + hash
    case Cancelled(action) => "❌ 用户取消了 " + action
    case Failed(action, message) => "❌ " + action + "失败: " + message
    case ConnectionRejected => "❌ 用户拒绝了连接请求"
    case Disconnected => "已断开连接"
  }

  /** The first character of a rendered message tells its kind apart: a success, a
      submission, a progress note, or one of the error messages (all marked with ❌). */
  lemma RenderedMark(s: Status)
    ensures |Render(s)| > 0
    ensures Render(s)[0] == '❌' <==> s.Cancelled? || s.Failed? || s.ConnectionRejected?
    ensures Render(s)[0] == '🎉' <==> s.Succeeded?
    ensures Render(s)[0] == '✅' <==> s.Sent?
  {
  }

  /** For an action name not starting with '用' (all four names of the page start with
      'E'), a failure text never reads as a cancellation text, whatever the error message. */
  lemma CancelledTextIsNotFailedText(action: string, message: string)
    requires |action| > 0 && action[0] != '用'
    ensures Render(Cancelled(action)) != Render(Failed(action, message))
  {
    assert Render(Cancelled(action))[2] == '用';
    assert Render(Failed(action, message))[2] == action[0];
  }

  /** The external calls the page makes, with the arguments it passes. */
  datatype ExtCall =
    | RequestSwitchChain(chainIdHex: string)   // wallet_switchEthereumChain
    | RequestAccounts                          // eth_requestAccounts
    | GetNetwork                               // provider.getNetwork()
    | ParseEther(text: string)
    | SendTransaction(to: string, value: int)
    | Decimals(contract: string)
    | ParseUnits(text: string, decimals: nat)
    | Transfer(contract: string, to: string, amount: int)
    | Approve(contract: string, spender: string, amount: int)
    | OwnerOf(contract: string, tokenId: string)
    | SafeTransferFrom(contract: string, from: string, to: string, tokenId: string)
    | Wait(hash: string, confirmations: nat)

  /** One entry of the page's record: a status write or an external call. */
  datatype Event = Wrote(status: Status) | Called(call: ExtCall)

  /** The calls of a sequence, as record entries. */
  function CallEvents(calls: seq<ExtCall>): seq<Event> {
    seq(|calls|, i requires 0 <= i < |calls| => Called(calls[i]))
  }

  /** The status trace of a record: the messages written, in order. */
  function Statuses(log: seq<Event>): seq<Status> {
    if log == [] then []
    else (if log[0].Wrote? then [log[0].status] else []) + Statuses(log[1..])
  }

  /** The external calls of a record, in order. */
  function Calls(log: seq<Event>): seq<ExtCall> {
    if log == [] then []
    else (if log[0].Called? then [log[0].call] else []) + Calls(log[1..])
  }

  lemma {:induction false} StatusesAppend(a: seq<Event>, b: seq<Event>)
    ensures Statuses(a + b) == Statuses(a) + Statuses(b)
  {
    if a == [] {
      assert a + b == b;
    } else {
      assert (a + b)[0] == a[0];
      assert (a + b)[1..] == a[1..] + b;
      StatusesAppend(a[1..], b);
    }
  }

  lemma {:induction false} CallsAppend(a: seq<Event>, b: seq<Event>)
    ensures Calls(a + b) == Calls(a) + Calls(b)
  {
    if a == [] {
      assert a + b == b;
    } else {
      assert (a + b)[0] == a[0];
      assert (a + b)[1..] == a[1..] + b;
      CallsAppend(a[1..], b);
    }
  }

  /** Recording calls writes no status and records exactly those calls. */
  lemma {:induction false} CallEventsProjections(calls: seq<ExtCall>)
    ensures Statuses(CallEvents(calls)) == []
    ensures Calls(CallEvents(calls)) == calls
  {
    if calls != [] {
      assert CallEvents(calls)[1..] == CallEvents(calls[1..]);
      CallEventsProjections(calls[1..]);
    }
  }
}
