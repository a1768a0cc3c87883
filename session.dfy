/** The page's global session: the `provider` and `signer` bindings, the listeners
    `connectMetaMask` registers, and the page's record of status writes and external
    calls. Every operation of the page is a method of `Wallet`. */
module Session {
  import opened JsValues
  import opened Status
  import opened Pipeline
  import opened Transfers

  /** A `Web3Provider` instance; `id` tells apart the instances `initProvider` creates. */
  datatype Provider = Provider(id: nat)

  /** The signer `provider.getSigner()` returns for a provider. */
  datatype Signer = Signer(provider: Provider)

  /** Sepolia's chain id in the hexadecimal form `wallet_switchEthereumChain` takes. */
  const SepoliaHex := "0xaa36a7"

  /** The wallet RPC code of a request the user refused. */
  const UserRejectedRequest: int := 4001

  const ConnectWalletFirst := "请先连接钱包！"

  /** How an async operation that may throw before its pipeline ends: normally, or by
      rejecting its promise with an error. */
  datatype Completion = Normal | Threw(error: JsError)

  /** What `connectMetaMask` records when the wallet is present: the switch request,
      the network read of `initProvider` if the switch succeeded, the account request,
      then the network read of `initProvider` on success, or the rejection message when
      the user refused (any other error only raises an alert). The only status a
      connection attempt writes is that rejection message. */
  function ConnectLog(switched: Call<()>, accounts: Call<seq<string>>): (events: seq<Event>)
    ensures Statuses(events) ==
              if accounts.Err? && accounts.error.code == Numeric(UserRejectedRequest) then [ConnectionRejected] else []
    ensures Calls(events) ==
              [RequestSwitchChain(SepoliaHex)] + (if switched.Ok? then [GetNetwork] else [])
              + [RequestAccounts] + (if accounts.Ok? then [GetNetwork] else [])
  {
    var requests := [Called(RequestSwitchChain(SepoliaHex))]
                    + (if switched.Ok? then [Called(GetNetwork)] else [])
                    + [Called(RequestAccounts)];
    var outcome := match accounts
                   case Ok(_) => [Called(GetNetwork)]
                   case Err(e) => if e.code == Numeric(UserRejectedRequest) then [Wrote(ConnectionRejected)] else [];
    var switchPart := if switched.Ok? then [Called(GetNetwork)] else [];
    StatusesAppend([Called(RequestSwitchChain(SepoliaHex))], switchPart);
    StatusesAppend([Called(RequestSwitchChain(SepoliaHex))] + switchPart, [Called(RequestAccounts)]);
    StatusesAppend(requests, outcome);
    CallsAppend([Called(RequestSwitchChain(SepoliaHex))], switchPart);
    CallsAppend([Called(RequestSwitchChain(SepoliaHex))] + switchPart, [Called(RequestAccounts)]);
    CallsAppend(requests, outcome);
    requests + outcome
  }

  class Wallet {
    var provider: Option<Provider>
    var signer: Option<Signer>
    /** How many providers `initProvider` has created. */
    var created: nat
    /** How many listener pairs `connectMetaMask` has registered. */
    var listeners: nat
    /** Every status write and external call, in order. */
    var log: seq<Event>

    /** A signer only ever exists together with the provider it came from, and provider
        ids are below the creation count (so a new provider is a new instance). */
    ghost predicate Valid()
      reads this
    {
      && (provider.Some? ==> provider.value.id < created)
      && (signer.Some? ==> provider.Some? && signer.value == Signer(provider.value))
    }

    /** Page load: `let provider; let signer;`, nothing registered, nothing written. */
    constructor ()
      ensures Valid()
      ensures provider == None && signer == None && created == 0 && listeners == 0 && log == []
    {
      provider, signer, created, listeners, log := None, None, 0, 0, [];
    }

    /** `setStatus`: the status line keeps only its last message; the record keeps all. */
    method SetStatus(s: Status)
      modifies this`log
      ensures log == old(log) + [Wrote(s)]
    {
      log := log + [Wrote(s)];
    }

    method Record(c: ExtCall)
      modifies this`log
      ensures log == old(log) + [Called(c)]
    {
      log := log + [Called(c)];
    }

    /** `initProvider`: without an injected wallet it returns false and changes nothing;
        otherwise it installs a new provider and its signer before awaiting the network
        query, and returns whether that query succeeded. */
    method InitProvider(ethereumPresent: bool, network: Call<nat>) returns (ok: bool)
      requires Valid()
      modifies this
      ensures Valid() && listeners == old(listeners)
      ensures !ethereumPresent ==>
                && !ok && provider == old(provider) && signer == old(signer)
                && created == old(created) && log == old(log)
      ensures ethereumPresent ==>
                && provider == Some(Provider(old(created))) && signer == Some(Signer(Provider(old(created))))
                && provider != old(provider) && signer != old(signer)
                && created == old(created) + 1
                && log == old(log) + [Called(GetNetwork)]
                && ok == network.Ok?
    {
      if !ethereumPresent {
        return false;
      }
      var p := Provider(created);
      created := created + 1;
      provider := Some(p);
      signer := Some(Signer(p));
      Record(GetNetwork);
      ok := network.Ok?;
    }

    /** `connectMetaMask`. Without an injected wallet nothing happens. Otherwise the switch
        to Sepolia is requested (and on success the session re-derived), then the accounts;
        when they are granted the session is re-derived and one more pair of listeners is
        registered. */
    method ConnectMetaMask(ethereumPresent: bool, switched: Call<()>, switchNetwork: Call<nat>,
                           accounts: Call<seq<string>>, network: Call<nat>)
      requires Valid()
      modifies this
      ensures Valid()
      ensures !ethereumPresent ==>
                && provider == old(provider) && signer == old(signer) && created == old(created)
                && listeners == old(listeners) && log == old(log)
      ensures ethereumPresent ==>
                && log == old(log) + ConnectLog(switched, accounts)
                && created == old(created) + (if switched.Ok? then 1 else 0) + (if accounts.Ok? then 1 else 0)
                && listeners == old(listeners) + (if accounts.Ok? then 1 else 0)
                && (switched.Ok? || accounts.Ok? ==>
                      provider == Some(Provider(created - 1)) && signer == Some(Signer(Provider(created - 1))))
                && (switched.Err? && accounts.Err? ==> provider == old(provider) && signer == old(signer))
    {
      if !ethereumPresent {
        return;
      }
      Record(RequestSwitchChain(SepoliaHex));
      if switched.Ok? {
        var _ := InitProvider(true, switchNetwork);
      }
      Record(RequestAccounts);
      match accounts {
        case Ok(_) =>
          var _ := InitProvider(true, network);
          listeners := listeners + 1;
        case Err(e) =>
          if e.code == Numeric(UserRejectedRequest) {
            SetStatus(ConnectionRejected);
          }
      }
    }

    /** The `accountsChanged` listener: an empty account list drops the signer and keeps
        the provider; any other list re-runs `initProvider`. */
    method OnAccountsChanged(accounts: seq<string>, network: Call<nat>)
      requires Valid() && listeners > 0
      modifies this
      ensures Valid() && listeners == old(listeners)
      ensures |accounts| == 0 ==>
                && signer == None && provider == old(provider)
                && created == old(created) && log == old(log)
      ensures |accounts| > 0 ==>
                && provider == Some(Provider(old(created))) && signer == Some(Signer(Provider(old(created))))
                && created == old(created) + 1
                && log == old(log) + [Called(GetNetwork)]
    {
      if |accounts| == 0 {
        signer := None;
      } else {
        var _ := InitProvider(true, network);
      }
    }

    /** The `chainChanged` listener: whatever the new chain, `initProvider` runs again. */
    method OnChainChanged(chainId: string, network: Call<nat>)
      requires Valid() && listeners > 0
      modifies this
      ensures Valid() && listeners == old(listeners)
      ensures provider == Some(Provider(old(created))) && signer == Some(Signer(Provider(old(created))))
      ensures provider != old(provider) && created == old(created) + 1
      ensures log == old(log) + [Called(GetNetwork)]
    {
      var _ := InitProvider(true, network);
    }

    /** `disconnect`: drops the signer, keeps the provider, writes "已断开连接". */
    method Disconnect()
      requires Valid()
      modifies this
      ensures Valid()
      ensures signer == None && provider == old(provider)
      ensures created == old(created) && listeners == old(listeners)
      ensures log == old(log) + [Wrote(Disconnected)]
    {
      signer := None;
      SetStatus(Disconnected);
    }

    /** `handleTransaction`, step by step: the progress message, the closure's calls, then
        either one terminal message or the hash, the wait and one terminal message. */
    method HandleTransaction(action: string, run: BuildRun, wait: Call<()>)
      modifies this`log
      ensures log == old(log) + PipelineLog(action, run, wait)
    {
      SetStatus(Pending(action));
      log := log + CallEvents(run.calls);
      match run.result {
        case Err(e) =>
          SetStatus(Terminal(action, e));
        case Ok(tx) =>
          SetStatus(Sent(tx.hash));
          Record(Wait(tx.hash, 1));
          match wait {
            case Ok(_) => SetStatus(Succeeded(action, tx.hash));
            case Err(e) => SetStatus(Terminal(action, e));
          }
      }
    }

    /** `transferETH`: the closure runs inside the pipeline whether or not a signer exists. */
    method TransferETH(to: string, amount: string, v: Checks, env: Env)
      modifies this`log
      ensures log == old(log) + PipelineLog(EthAction, EthBuild(to, amount, signer.Some?, v, env), env.wait)
    {
      HandleTransaction(EthAction, EthBuild(to, amount, signer.Some?, v, env), env.wait);
    }

    /** `transferERC20`: with no signer it throws before the pipeline starts, so nothing is
        written or called; otherwise the pipeline runs the ERC20 transfer closure. */
    method TransferERC20(contract: string, to: string, amount: string, v: Checks, env: Env)
      returns (c: Completion)
      modifies this`log
      ensures signer.None? ==> c == Threw(Plain(ConnectWalletFirst)) && log == old(log)
      ensures signer.Some? ==>
                c == Normal &&
                log == old(log) + PipelineLog(Erc20TransferAction, Erc20TransferBuild(contract, to, amount, v, env), env.wait)
    {
      if signer.None? {
        return Threw(Plain(ConnectWalletFirst));
      }
      HandleTransaction(Erc20TransferAction, Erc20TransferBuild(contract, to, amount, v, env), env.wait);
      c := Normal;
    }

    /** `approveERC20`: the same signer precondition, then the approval closure. */
    method ApproveERC20(contract: string, spender: string, amount: string, v: Checks, env: Env)
      returns (c: Completion)
      modifies this`log
      ensures signer.None? ==> c == Threw(Plain(ConnectWalletFirst)) && log == old(log)
      ensures signer.Some? ==>
                c == Normal &&
                log == old(log) + PipelineLog(Erc20ApproveAction, Erc20ApproveBuild(contract, spender, amount, v, env), env.wait)
    {
      if signer.None? {
        return Threw(Plain(ConnectWalletFirst));
      }
      HandleTransaction(Erc20ApproveAction, Erc20ApproveBuild(contract, spender, amount, v, env), env.wait);
      c := Normal;
    }

    /** `transferERC721`: no signer check; `walletAddress` is what `wallet.address`
        yields, `None` when reading it throws. */
    method TransferERC721(contract: string, to: string, tokenId: string, walletAddress: Option<string>,
                          v: Checks, env: Env)
      modifies this`log
      ensures log == old(log) + PipelineLog(Erc721Action, Erc721Build(contract, to, tokenId, walletAddress, v, env), env.wait)
    {
      HandleTransaction(Erc721Action, Erc721Build(contract, to, tokenId, walletAddress, v, env), env.wait);
    }
  }

  /** A client of the session: connect (the switch is refused with code 4902, the
      accounts are granted), disconnect, then try an ERC20 transfer. The transfer throws
      "connect wallet first" and the status trace holds only the disconnect message. */
  method DisconnectedTransferScenario(network: Call<nat>, v: Checks, env: Env)
    returns (c: Completion, trace: seq<Status>)
    ensures c == Threw(Plain(ConnectWalletFirst))
    ensures trace == [Disconnected]
  {
    var w := new Wallet();
    w.ConnectMetaMask(true, Err(JsError(Numeric(4902), "Unrecognized chain ID")), network, Ok(["0x5a"]), network);
    assert w.signer.Some?;
    w.Disconnect();
    c := w.TransferERC20("0xc0", "0x70", "5", v, env);
    var connectLog := ConnectLog(Err(JsError(Numeric(4902), "Unrecognized chain ID")), Ok(["0x5a"]));
    assert connectLog == [Called(RequestSwitchChain(SepoliaHex)), Called(RequestAccounts), Called(GetNetwork)];
    assert w.log == connectLog + [Wrote(Disconnected)];
    StatusesAppend(connectLog, [Wrote(Disconnected)]);
    trace := Statuses(w.log);
  }

  /** The statuses of a record whose statuses so far are only the disconnect message,
      extended by an ERC20 transfer's pipeline run. */
  lemma ReconnectedTransferTrace(prefix: seq<Event>, run: BuildRun, wait: Call<()>)
    requires Statuses(prefix) == [Disconnected]
    ensures var t := Statuses(prefix + PipelineLog(Erc20TransferAction, run, wait));
            |t| >= 3 && t[0] == Disconnected && t[1] == Pending(Erc20TransferAction)
  {
    StatusesAppend(prefix, PipelineLog(Erc20TransferAction, run, wait));
    PipelineOneTerminal(Erc20TransferAction, run, wait);
  }

  /** A `chainChanged` event after `disconnect` re-runs `initProvider`, which installs a
      fresh signer: the ERC20 transfer then passes its signer precondition and runs the
      pipeline although the user never connected again. */
  method ChainChangeAfterDisconnectScenario(network: Call<nat>, v: Checks, env: Env)
    returns (c: Completion, trace: seq<Status>)
    ensures c == Normal
    ensures |trace| >= 3 && trace[0] == Disconnected && trace[1] == Pending(Erc20TransferAction)
  {
    var w := new Wallet();
    w.ConnectMetaMask(true, Err(JsError(Numeric(4902), "Unrecognized chain ID")), network, Ok(["0x5a"]), network);
    var connectLog := ConnectLog(Err(JsError(Numeric(4902), "Unrecognized chain ID")), Ok(["0x5a"]));
    assert [] + connectLog == connectLog;
    var before := w.log;
    assert Statuses(before) == [];
    w.Disconnect();
    StatusesAppend(before, [Wrote(Disconnected)]);
    assert [Wrote(Disconnected)][1..] == [];
    assert Statuses(w.log) == [Disconnected];
    before := w.log;
    w.OnChainChanged("0xaa36a7", network);
    StatusesAppend(before, [Called(GetNetwork)]);
    assert [Called(GetNetwork)][1..] == [];
    assert Statuses(w.log) == [Disconnected];
    before := w.log;
    c := w.TransferERC20("0xc0", "0x70", "5", v, env);
    ReconnectedTransferTrace(before, Erc20TransferBuild("0xc0", "0x70", "5", v, env), env.wait);
    trace := Statuses(w.log);
  }
}
