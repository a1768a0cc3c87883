# mini-wallet: session, transaction pipeline and transfers in Dafny

This is a model of the logic in `wallet.js`, the browser script of mini-wallet that connects
MetaMask (`window.ethereum`) through ethers. The model covers three parts:

- **The session.** The page-global `provider` and `signer`, changed by `initProvider`,
  by the two listeners `connectMetaMask` registers (`accountsChanged`, `chainChanged`)
  and by `disconnect`. This is the class `Session.Wallet`, with `Option` fields for both
  bindings.
- **The transaction pipeline `handleTransaction`.** It writes a progress message, runs the
  caller's building closure and reports the hash. Then it waits for one confirmation and
  reports success, or it classifies the first error as a cancellation (code
  `"ACTION_REJECTED"`) or a failure.
- **The four transfer operations.** These are `transferETH`, `transferERC20`,
  `approveERC20` and `transferERC721`. The two ERC20 operations first require a signer,
  before the pipeline starts. Inside the pipeline, each closure runs its input checks in
  source order, then the Sepolia gate (ERC20 transfer only) or the owner check (ERC721),
  then its contract calls.

Every ethers and MetaMask call is an oracle. Its outcome is a parameter of type
`Call<T> = Ok(value) | Err(JsError(code, message))`. `Transfers.Env` holds one outcome per
call kind for one user action. The three validity tests (`isAddress`, "positive amount",
"non-negative token id") are the uninterpreted function fields of `Transfers.Checks`.

`setStatus` becomes an append-only record `Wallet.log` of `Event`s. A `Wrote(Status)` entry
is a status write. A `Called(ExtCall)` entry is an external call, with its arguments.
`Status.Statuses` projects the status trace out of the record. `Status.Render` gives the
exact text of each message. One record shows both the order of the messages and the fact
that no call is made after a failing check.

Modules, leaves first:

- `JsValues` (js_values.dfy): errors and call outcomes.
- `Decimal` (decimal.dfy): how a chain id is written into a string.
- `Network` (network.dfy): the chain-id label of `updateNetworkInfo`.
- `Status` (status.dfy): messages, their texts, the record and its projections.
- `Pipeline` (pipeline.dfy): `handleTransaction` as a function of its closure's run.
- `Transfers` (transfers.dfy): the four building closures and their properties.
- `Session` (session.dfy): the `Wallet` class, whose methods are the page's operations.

The imperative code is modelled by the methods of `Session.Wallet`. Each method's
`ensures` ties the new log and session to the pure functions above. For example,
`log == old(log) + PipelineLog(action, run, wait)`. The lemmas about those functions state
the promised properties.

Behaviours of the code the model keeps:

- The label of a chain without a fixed name is `"未知网络 (Chain ID: " + id + ")"`.
- `approveERC20` has no chain-id check.
- `transferETH` has no signer check. With no signer, `signer.sendTransaction` raises a
  TypeError inside the pipeline.
- Each successful `connectMetaMask` registers one more pair of listeners.
- The listeners stay registered after `disconnect`. A later `chainChanged` event (wallet.js:72) re-runs
  `initProvider`, which installs a new signer (wallet.js:14). The transfers that check for a signer then
  go ahead without a new connect. A non-empty `accountsChanged` list does the same.
- The ERC721 owner check reads `wallet.address`, and `wallet` is never declared (see
  Findings).

## Model

| member | source | states |
|---|---|---|
| `Decimal.NatToString` | wallet.js:102 | the id is written as a non-empty string of decimal digits with no leading zero |
| `Decimal.NatToStringRoundTrip` | wallet.js:102 | reading back the written digits gives the chain id |
| `Decimal.NatToStringInjective` | wallet.js:102 | distinct chain ids are written as distinct strings |
| `Network.NetworkLabel` | wallet.js:91-103 | 1, 11155111 and 5 get "Ethereum Mainnet", "Sepolia Testnet" and "Goerli Testnet"; a label starts with "未知网络 (Chain ID: " exactly when the id is none of those, and is then that prefix, the id's canonical decimal digits and ")"; the id can be read back from those digits |
| `Network.NetworkLabelInjective` | wallet.js:91-103 | two chain ids never share a label |
| `Network.NetworkInfoText` | wallet.js:85-107 | nothing is written with no provider or when getNetwork throws; otherwise "🌐 当前网络: " followed by the chain's label |
| `Network.NetworkInfoIdentifiesChain` | wallet.js:104 | the network display text determines the chain id |
| `Status.Render` | wallet.js:77-281 | each status text quotes its data verbatim: the action right after the progress mark; the hash at the end of the sent text; "https://sepolia.etherscan.io/tx/" and the transaction's own hash at the end of the success text; the action at the end of the cancellation text; the error message at the end of the failure text |
| `Status.RenderedMark` | wallet.js:77-281 | the first character of a status text tells its kind: ❌ exactly for cancellation, failure and refused connection, 🎉 exactly for success, ✅ exactly for a sent transaction |
| `Status.CancelledTextIsNotFailedText` | wallet.js:278-282 | for an action name not starting with '用', a failure text never equals the cancellation text, whatever the error message |
| `Pipeline.Terminal` | wallet.js:277-283 | the catch block writes a cancellation of the action exactly when the code is "ACTION_REJECTED", otherwise a failure quoting the error's message; never a success |
| `Pipeline.Outcome` | wallet.js:270-283 | after the closure returns, a thrown error leads to exactly one entry, the catch block's message for that error (`Terminal`); a returned transaction leads to exactly three: the hash report for its hash, the wait on that hash for one confirmation, and a terminal message |
| `Pipeline.PipelineLog` | wallet.js:266-284 | a run records the pending message first, then exactly the closure's calls, and ends with a terminal message |
| `Pipeline.PipelineTrace` | wallet.js:266-284 | a closure error gives the trace [pending, terminal]; a wait error gives [pending, sent(hash), terminal]; two successes give [pending, sent(hash), success(hash)]; the calls are the closure's calls, then `wait(hash, 1)` only when a transaction was returned |
| `Pipeline.PipelineOneTerminal` | wallet.js:266-284 | every run starts with the pending message and writes exactly one terminal message, as its last event (no call or write after it) |
| `Pipeline.PipelineSucceededAfterSent` | wallet.js:271-275 | a success message is always preceded by the sent message for the same hash |
| `Pipeline.PipelineOutcomeClassified` | wallet.js:267-283 | the terminal message is a success iff nothing failed; a cancellation iff the failing error's code is "ACTION_REJECTED"; otherwise a failure quoting that error's message; no success is written when anything failed |
| `Transfers.RejectedRunTrace` | wallet.js:266-282 | a closure that throws before any call leaves exactly [pending, failed(message)] in the record, with no external call |
| `Transfers.ActionTextsUnambiguous` | wallet.js:278-282 | for all four action names, the cancellation and failure texts differ for every message |
| `Transfers.EthBuild` | wallet.js:144-157 | the ETH closure makes at most two calls; it returns a transaction only as sendTransaction's outcome, made last, to the to-address with the parsed value (further properties: `EthShortCircuit`, `EthSubmits`) |
| `Transfers.Erc20Submit` | wallet.js:203-208 | decimals() is read first, then parseUnits on those decimals. A third call happens exactly when both succeed; it is the submitting call for the scaled amount, and the closure returns the submission's outcome. A failing decimals() or parseUnits ends the run with that call's own error, which is what the pipeline then classifies |
| `Transfers.Erc20TransferBuild` | wallet.js:188-209 | the ERC20 transfer closure returns a transaction only on Sepolia, as the outcome of transfer(to, scaled amount), made last (further properties: `Erc20TransferShortCircuit`, `Erc20ChainGate`, `Erc20TransferSubmits`) |
| `Transfers.Erc20ApproveBuild` | wallet.js:219-234 | the approval closure returns a transaction only as the outcome of approve(spender, scaled amount), made last (further properties: `Erc20ApproveShortCircuit`, `ApproveIgnoresNetwork`, `Erc20ApproveSubmits`) |
| `Transfers.Erc721Build` | wallet.js:239-262 | the ERC721 closure returns a transaction only when `wallet.address` could be read, as the outcome of safeTransferFrom(wallet address, to, id), made last (further properties: `Erc721ShortCircuit`, `Erc721OwnerCheck`) |
| `Transfers.LowerAscii` | wallet.js:253 | the lower-cased address has the same length, no upper-case ASCII letter, and each character is kept or is the lower-case form of an upper-case letter |
| `Transfers.OwnerCheckPasses` | wallet.js:251-255 | the owner check passes only when `ownerOf` returned and `wallet.address` could be read, and then the two addresses have the same length; an address always matches itself |
| `Transfers.OwnerCheckCharwise` | wallet.js:251-255 | the owner check passes exactly when `ownerOf` returned, `wallet.address` could be read, and the two addresses have the same length and agree at every position up to ASCII case |
| `Transfers.OwnerCheckCaseInsensitive` | wallet.js:251-255 | the owner check's verdict does not change when either address is lower-cased, does not depend on which side is which, and an address always matches itself |
| `Transfers.EthShortCircuit` | wallet.js:148-151 | ETH checks: the first failing check (to-address, then amount) decides the message; a call is made iff every check passes, and the first call is parseEther |
| `Transfers.EthSubmits` | wallet.js:151-156 | a sendTransaction call, namely sendTransaction(to, parsed value), is made iff the checks pass, parseEther succeeds and a signer exists; a failing parseEther ends the run with parseEther's own error; with no signer the TypeError follows parseEther |
| `Transfers.Erc20TransferShortCircuit` | wallet.js:193-198 | ERC20 transfer: contract, then to, then amount: the first failing check decides; calls happen iff all pass, starting with getNetwork |
| `Transfers.Erc20ChainGate` | wallet.js:198-201 | after the checks, the network is read first; any chain other than 11155111 throws "请切换到 Sepolia 网络！" with no further call; a getNetwork error is rethrown; any later call implies the chain is Sepolia |
| `Transfers.Erc20TransferSubmits` | wallet.js:203-208 | a transfer call is made iff the checks pass, the chain is Sepolia, and decimals and parseUnits succeed; it sends the scaled amount to the to-address and the closure returns the submission's outcome |
| `Transfers.Erc20ApproveShortCircuit` | wallet.js:224-229 | approve: contract, then spender, then amount: the first failing check decides; calls happen iff all pass, starting with decimals |
| `Transfers.ApproveIgnoresNetwork` | wallet.js:219-234 | the approval never reads the network, and its run is the same whatever the network outcome |
| `Transfers.Erc20ApproveSubmits` | wallet.js:228-233 | an approve call is made iff the checks pass and decimals and parseUnits succeed, and it is approve(spender, scaled amount) |
| `Transfers.Erc721ShortCircuit` | wallet.js:244-252 | ERC721: contract, then to, then token id: the first failing check decides; calls happen iff all pass, starting with ownerOf |
| `Transfers.Erc721OwnerCheck` | wallet.js:251-261 | any owner-check failure (ownerOf throws, `wallet.address` unreadable, owner differs up to ASCII case) becomes the single "Token ID 不存在或你不是所有者" error with no further call; safeTransferFrom(contract, wallet address, to, id) is called iff the check passes |
| `Transfers.Erc721AsWrittenNeverTransfers` | wallet.js:251-258 | with `wallet` undeclared, no input and no oracle outcome leads to safeTransferFrom, and the closure always throws |
| `Transfers.Erc721OwnerTransfers` | wallet.js:251-261 | given the connected address, the owner's transfer is submitted, whatever the ASCII case on either side |
| `Session.Wallet.constructor` | wallet.js:2-3 | the page starts with no provider, no signer, no listeners and an empty record |
| `Session.ConnectLog` | wallet.js:32-82 | the only status a connection attempt writes is the rejection message, exactly when the account request fails with code 4001; the calls are the switch request, getNetwork if the switch succeeded, the account request, then getNetwork if the accounts were granted |
| `Session.Wallet.SetStatus` | wallet.js:287-289 | a status write appends exactly that message to the record |
| `Session.Wallet.Record` | wallet.js:13-17 | each awaited external call (getNetwork at :17, and the same way the requests at :40 and :54 and `tx.wait` at :274) appends exactly that call to the record |
| `Session.Wallet.InitProvider` | wallet.js:6-29 | without `window.ethereum` it returns false and nothing changes; otherwise it installs a new provider and its signer before awaiting getNetwork, and returns whether that succeeded |
| `Session.Wallet.ConnectMetaMask` | wallet.js:32-82 | with no wallet nothing happens; otherwise the switch request (re-deriving the session on success), the account request, then either a re-derivation plus one more listener pair, or the rejection message for code 4001 |
| `Session.Wallet.OnAccountsChanged` | wallet.js:60-67 | an empty account list drops the signer and keeps the provider; any other list re-derives both |
| `Session.Wallet.OnChainChanged` | wallet.js:70-73 | any chain change re-derives provider and signer |
| `Session.Wallet.Disconnect` | wallet.js:110-114 | the signer is dropped, the provider kept, and "已断开连接" written |
| `Session.Wallet.HandleTransaction` | wallet.js:266-284 | the record grows by exactly the pipeline's events for the closure run and the wait outcome |
| `Session.Wallet.TransferETH` | wallet.js:143-158 | the record grows by the pipeline run of the ETH closure for the current signer |
| `Session.Wallet.TransferERC20` | wallet.js:183-210 | with no signer it throws "请先连接钱包！" and nothing is written or called; otherwise the pipeline runs the ERC20 transfer closure |
| `Session.Wallet.ApproveERC20` | wallet.js:214-235 | the same signer precondition, then the pipeline runs the approval closure |
| `Session.Wallet.TransferERC721` | wallet.js:238-263 | the record grows by the pipeline run of the ERC721 closure for the given `wallet.address` |
| `Session.DisconnectedTransferScenario` | wallet.js:184-186 | after connect and disconnect, an ERC20 transfer throws "请先连接钱包！", and the only status written is the disconnect message |
| `Session.ReconnectedTransferTrace` | wallet.js:188-209 | once the record's only status is the disconnect message, an ERC20 transfer's pipeline run adds its progress message right after it and at least one more message |
| `Session.ChainChangeAfterDisconnectScenario` | wallet.js:70-73 | after connect and disconnect, a `chainChanged` event re-runs `initProvider` (wallet.js:14), which installs a new signer; an ERC20 transfer then passes its signer check and runs the pipeline without a new connect |

## Left out

- DOM and UI: `innerText` writes other than the status line (`walletAddress`, `networkInfo`), `alert` and `console`. This includes the alerts of `connectMetaMask` (codes 4902 and others) and of `initProvider`.
- `updateBalance` (wallet.js:129-139): it only formats the address and balance into the page. The commented-out version (116-127) is dead code. The ABI tables (162-179) are data.
- The `updateNetworkInfo()` and `updateBalance()` calls inside `initProvider` are not awaited and only refresh the display. Their calls are not in the record. `Network.NetworkInfoText` models what `updateNetworkInfo` writes.
- ethers and MetaMask internals (`Web3Provider`, `getSigner`, `getNetwork`, `request`, `Contract`, `parseEther`, `parseUnits`, `wait`): they are oracles. The model does not specialise what ethers does for a contract call without a signer; the oracle's `Err` covers it.
- JavaScript's numeric parsing (`isNaN`, `parseFloat`, `parseInt`) and `ethers.utils.isAddress`: these are the uninterpreted predicates of `Transfers.Checks`. Decimal scaling is the outcome of the `parseUnits` oracle.
- `trim()` of the input fields: the inputs of the model are the trimmed field values.
- Async interleaving: events arriving while a `wait` is pending, and a listener running between two awaits of a closure. Events are discrete method calls.
- Listener dispatch: each `connectMetaMask` registers one more listener pair, and `Wallet.listeners` counts the pairs. `OnAccountsChanged` and `OnChainChanged` model one invocation of the handler, not the repeated invocation by every registered copy.
- The `wallet_switchEthereumChain` request (39-50) is modelled only through its outcome: on success `initProvider` runs; on failure nothing but an alert happens.
- The TypeError message for a method call on a missing signer depends on the engine. It is the `typeError` field of `Transfers.Env`.
- Network.NetworkLabel: chain ids are non-negative integers written in decimal. JavaScript's exponential notation for numbers of 10^21 and more is not modelled.
- Transfers.OwnerCheckPasses: `toLowerCase` is modelled on ASCII letters only. Addresses are ASCII hexadecimal strings.
- Strings are sequences of Unicode code points, not of JavaScript's UTF-16 code units. So '🎉' is one character in the model and two code units in the page. `Status.RenderedMark` and `Status.CancelledTextIsNotFailedText` index these code points. The page never indexes its status texts.

## Findings

| source | as written | input that shows it | evidently intended | confidence | as-written member | corrected member |
|---|---|---|---|---|---|---|
| wallet.js:253 | the owner check compares `ownerOf`'s result with `wallet.address`. The `wallet` binding is commented out at line 1, so reading it throws a ReferenceError inside the `try`, and the catch at 256 rewrites it to "Token ID 不存在或你不是所有者" | any valid contract, recipient and token id where `ownerOf` returns the connected account: the transfer is still refused | compare the owner with the connected account's address, and transfer from it | high; not executed | `Transfers.Erc721AsWrittenNeverTransfers` | `Transfers.Erc721OwnerTransfers` |

`Transfers.Erc721Build` takes the value of `wallet.address` as an `Option<string>`: `None` is the code as written, and `Some(address)` is the corrected check. `Session.Wallet.TransferERC721` takes that value as a parameter, so the session can be driven with the connected address.
