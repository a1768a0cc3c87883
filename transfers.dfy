/** The building closures of `transferETH`, `transferERC20`, `approveERC20` and
    `transferERC721`: input checks in source order, each throwing a fixed message,
    then the contract calls. Address, amount and token-id validity are the predicates
    of `Checks`; every ethers call is an oracle whose outcome `Env` gives. */
module Transfers {
  import opened JsValues
  import opened Status
  import opened Pipeline
  import Network

  /** The validity tests the closures apply to the trimmed input fields:
      `ethers.utils.isAddress`, "a number greater than zero" (`isNaN`/`parseFloat`) and
      "a number not below zero" (`isNaN`/`parseInt`). */
  datatype Checks = Checks(
    isAddress: string -> bool,
    isPositiveAmount: string -> bool,
    isTokenId: string -> bool)

  /** The outcome of each external call for one user action. `typeError` is the message
      of the TypeError the JavaScript engine raises for a method call on a missing signer. */
  datatype Env = Env(
    parseEther: Call<int>,
    network: Call<nat>,
    decimals: Call<nat>,
    parseUnits: Call<int>,
    ownerOf: Call<string>,
    submit: Call<Tx>,
    wait: Call<()>,
    typeError: string)

  const InvalidRecipient := "接收地址无效"
  const InvalidAmount := "金额无效"
  const InvalidContract := "合约地址无效"
  const InvalidSpender := "授权地址无效"
  const InvalidNftContract := "ERC721 合约地址无效"
  const InvalidTokenId := "Token ID 无效"
  const WrongNetwork := "请切换到 Sepolia 网络！"
  const NotOwnerOrMissing := "Token ID 不存在或你不是所有者"

  const EthAction := "ETH 转账"
  const Erc20TransferAction := "ERC20 转账"
  const Erc20ApproveAction := "ERC20 授权"
  const Erc721Action := "ERC721 转账"

  /** An external call `c` made before the rest of a closure. */
  function Then(c: ExtCall, rest: BuildRun): BuildRun {
    BuildRun([c] + rest.calls, rest.result)
  }

  /** A check that throws before any external call. */
  function Reject(message: string): BuildRun {
    BuildRun([], Err(Plain(message)))
  }

  // ---------------------------------------------------------------------------
  // The reference: a list of checks, the first failing one decides.

  datatype Check = Check(passes: bool, message: string)

  /** The message of the first failing check, in list order. */
  function FirstFailure(checks: seq<Check>): Option<string> {
    if checks == [] then None
    else if !checks[0].passes then Some(checks[0].message)
    else FirstFailure(checks[1..])
  }

  /** The first failure of a two-check list. */
  lemma FirstFailureOfTwo(a: Check, b: Check)
    ensures FirstFailure([a, b]) ==
              if !a.passes then Some(a.message) else if !b.passes then Some(b.message) else None
  {
    assert [a, b][1..] == [b];
    assert [b][1..] == [];
    assert FirstFailure([b]) == if !b.passes then Some(b.message) else FirstFailure([]);
  }

  /** The first failure of a three-check list. */
  lemma FirstFailureOfThree(a: Check, b: Check, c: Check)
    ensures FirstFailure([a, b, c]) ==
              if !a.passes then Some(a.message) else if !b.passes then Some(b.message)
              else if !c.passes then Some(c.message) else None
  {
    assert [a, b, c][1..] == [b, c];
    FirstFailureOfTwo(b, c);
  }

  function EthChecks(to: string, amount: string, v: Checks): seq<Check> {
    [Check(v.isAddress(to), InvalidRecipient), Check(v.isPositiveAmount(amount), InvalidAmount)]
  }

  function Erc20TransferChecks(contract: string, to: string, amount: string, v: Checks): seq<Check> {
    [Check(v.isAddress(contract), InvalidContract), Check(v.isAddress(to), InvalidRecipient),
     Check(v.isPositiveAmount(amount), InvalidAmount)]
  }

  function Erc20ApproveChecks(contract: string, spender: string, amount: string, v: Checks): seq<Check> {
    [Check(v.isAddress(contract), InvalidContract), Check(v.isAddress(spender), InvalidSpender),
     Check(v.isPositiveAmount(amount), InvalidAmount)]
  }

  function Erc721Checks(contract: string, to: string, tokenId: string, v: Checks): seq<Check> {
    [Check(v.isAddress(contract), InvalidNftContract), Check(v.isAddress(to), InvalidRecipient),
     Check(v.isTokenId(tokenId), InvalidTokenId)]
  }

  // ---------------------------------------------------------------------------
  // The closures.

  /** `transferETH`'s closure. With no signer, `signer.sendTransaction` throws a
      TypeError after the amount has been parsed. */
  function EthBuild(to: string, amount: string, hasSigner: bool, v: Checks, env: Env): (run: BuildRun)
    ensures |run.calls| <= 2
    ensures run.result.Ok? ==>
              run.result == env.submit && env.parseEther.Ok? &&
              |run.calls| > 0 && run.calls[|run.calls| - 1] == SendTransaction(to, env.parseEther.value)
  {
    if !v.isAddress(to) then Reject(InvalidRecipient)
    else if !v.isPositiveAmount(amount) then Reject(InvalidAmount)
    else Then(ParseEther(amount),
      match env.parseEther
      case Err(e) => BuildRun([], Err(e))
      case Ok(wei) =>
        if !hasSigner then BuildRun([], Err(Plain(env.typeError)))
        else BuildRun([SendTransaction(to, wei)], env.submit))
  }

  /** The tail shared by the two ERC20 closures: read `decimals()`, scale the amount with
      `parseUnits`, then make the submitting call. Decimals are always read first, and a
      transaction is only returned by the submitting call for the scaled amount, made last. */
  function Erc20Submit(contract: string, amount: string, submit: int -> ExtCall, env: Env): (run: BuildRun)
    ensures 1 <= |run.calls| <= 3 && run.calls[0] == Decimals(contract)
    ensures |run.calls| > 1 ==> env.decimals.Ok? && run.calls[1] == ParseUnits(amount, env.decimals.value)
    ensures |run.calls| == 3 <==> env.decimals.Ok? && env.parseUnits.Ok?
    ensures |run.calls| == 3 ==> run.calls[2] == submit(env.parseUnits.value) && run.result == env.submit
    ensures env.decimals.Err? ==> run == BuildRun([Decimals(contract)], Err(env.decimals.error))
    ensures env.decimals.Ok? && env.parseUnits.Err? ==>
              run == BuildRun([Decimals(contract), ParseUnits(amount, env.decimals.value)], Err(env.parseUnits.error))
    ensures run.result.Ok? ==>
              run.result == env.submit && env.decimals.Ok? && env.parseUnits.Ok? &&
              run.calls == [Decimals(contract), ParseUnits(amount, env.decimals.value), submit(env.parseUnits.value)]
  {
    Then(Decimals(contract),
      match env.decimals
      case Err(e) => BuildRun([], Err(e))
      case Ok(d) =>
        Then(ParseUnits(amount, d),
          match env.parseUnits
          case Err(e) => BuildRun([], Err(e))
          case Ok(units) => BuildRun([submit(units)], env.submit)))
  }

  /** `transferERC20`'s closure: the checks, then the Sepolia gate, then the transfer. */
  function Erc20TransferBuild(contract: string, to: string, amount: string, v: Checks, env: Env): (run: BuildRun)
    ensures |run.calls| <= 4
    ensures run.result.Ok? ==>
              run.result == env.submit && env.network == Ok(Network.SepoliaId) && env.parseUnits.Ok? &&
              |run.calls| > 0 && run.calls[|run.calls| - 1] == Transfer(contract, to, env.parseUnits.value)
  {
    if !v.isAddress(contract) then Reject(InvalidContract)
    else if !v.isAddress(to) then Reject(InvalidRecipient)
    else if !v.isPositiveAmount(amount) then Reject(InvalidAmount)
    else Then(GetNetwork,
      match env.network
      case Err(e) => BuildRun([], Err(e))
      case Ok(chainId) =>
        if chainId != Network.SepoliaId then Reject(WrongNetwork)
        else Erc20Submit(contract, amount, units => Transfer(contract, to, units), env))
  }

  /** `approveERC20`'s closure: the checks, then the approval, with no network check. */
  function Erc20ApproveBuild(contract: string, spender: string, amount: string, v: Checks, env: Env): (run: BuildRun)
    ensures |run.calls| <= 3
    ensures run.result.Ok? ==>
              run.result == env.submit && env.parseUnits.Ok? &&
              |run.calls| > 0 && run.calls[|run.calls| - 1] == Approve(contract, spender, env.parseUnits.value)
  {
    if !v.isAddress(contract) then Reject(InvalidContract)
    else if !v.isAddress(spender) then Reject(InvalidSpender)
    else if !v.isPositiveAmount(amount) then Reject(InvalidAmount)
    else Erc20Submit(contract, amount, units => Approve(contract, spender, units), env)
  }

  /** ASCII lower-casing, the part of `toLowerCase` that matters for hex addresses. */
  function LowerAscii(s: string): (r: string)
    ensures |r| == |s|
    ensures forall i :: 0 <= i < |r| ==> !('A' <= r[i] <= 'Z')
    ensures forall i :: 0 <= i < |r| ==> r[i] == s[i] || ('A' <= s[i] <= 'Z' && r[i] as int == s[i] as int + 32)
  {
    seq(|s|, i requires 0 <= i < |s| => if 'A' <= s[i] <= 'Z' then (s[i] as int + 32) as char else s[i])
  }

  /** Whether the owner check of `transferERC721` lets the transfer go ahead: `ownerOf`
      returned, `wallet.address` could be read (`wallet` is `None` when the binding does
      not exist), and the two addresses agree up to case. */
  function OwnerCheckPasses(owner: Call<string>, wallet: Option<string>): (passes: bool)
    ensures passes ==> owner.Ok? && wallet.Some? && |owner.value| == |wallet.value|
    ensures owner.Ok? && wallet.Some? && owner.value == wallet.value ==> passes
  {
    owner.Ok? && wallet.Some? && LowerAscii(owner.value) == LowerAscii(wallet.value)
  }

  /** `transferERC721`'s closure. Whatever goes wrong in the owner check (the query
      throws, `wallet.address` throws, or the owner differs and the inner
      "你不是这个 NFT 的所有者" is thrown) is rethrown as one message, so the inner
      message never reaches the caller. A transaction is only returned by the
      `safeTransferFrom` call, made last, from the wallet address. */
  function Erc721Build(contract: string, to: string, tokenId: string, wallet: Option<string>,
                       v: Checks, env: Env): (run: BuildRun)
    ensures |run.calls| <= 2
    ensures run.result.Ok? ==>
              run.result == env.submit && wallet.Some? &&
              |run.calls| > 0 && run.calls[|run.calls| - 1] == SafeTransferFrom(contract, wallet.value, to, tokenId)
  {
    if !v.isAddress(contract) then Reject(InvalidNftContract)
    else if !v.isAddress(to) then Reject(InvalidRecipient)
    else if !v.isTokenId(tokenId) then Reject(InvalidTokenId)
    else Then(OwnerOf(contract, tokenId),
      if !OwnerCheckPasses(env.ownerOf, wallet) then Reject(NotOwnerOrMissing)
      else BuildRun([SafeTransferFrom(contract, wallet.value, to, tokenId)], env.submit))
  }

  // ---------------------------------------------------------------------------
  // Properties.

  /** A closure that throws before any external call writes the progress message and
      one failure quoting the check's message, and calls nothing at all. */
  lemma RejectedRunTrace(action: string, message: string, wait: Call<()>)
    ensures PipelineLog(action, Reject(message), wait) == [Wrote(Pending(action)), Wrote(Failed(action, message))]
  {
  }

  /** For each of the page's four actions, the cancellation text and a failure text
      never coincide, whatever the error message: the status line tells them apart. */
  lemma ActionTextsUnambiguous(message: string)
    ensures forall action :: action in {EthAction, Erc20TransferAction, Erc20ApproveAction, Erc721Action} ==>
              Render(Cancelled(action)) != Render(Failed(action, message))
  {
    forall action | action in {EthAction, Erc20TransferAction, Erc20ApproveAction, Erc721Action}
      ensures Render(Cancelled(action)) != Render(Failed(action, message))
    {
      CancelledTextIsNotFailedText(action, message);
    }
  }

  /** ETH: the first failing check, in the order to-address then amount, decides the
      message, and a closure makes an external call exactly when every check passes. */
  lemma EthShortCircuit(to: string, amount: string, hasSigner: bool, v: Checks, env: Env)
    ensures var run := EthBuild(to, amount, hasSigner, v, env);
            var first := FirstFailure(EthChecks(to, amount, v));
            && (run.calls == [] <==> first.Some?)
            && (first.Some? ==> run == Reject(first.value))
            && (first.None? ==> run.calls[0] == ParseEther(amount))
  {
    FirstFailureOfTwo(Check(v.isAddress(to), InvalidRecipient), Check(v.isPositiveAmount(amount), InvalidAmount));
    var run := EthBuild(to, amount, hasSigner, v, env);
    if |run.calls| == 2 {
      assert run.calls[1].SendTransaction?;
    }
  }

  /** ERC20 transfer: the checks in the order contract, to, amount. */
  lemma Erc20TransferShortCircuit(contract: string, to: string, amount: string, v: Checks, env: Env)
    ensures var run := Erc20TransferBuild(contract, to, amount, v, env);
            var first := FirstFailure(Erc20TransferChecks(contract, to, amount, v));
            && (run.calls == [] <==> first.Some?)
            && (first.Some? ==> run == Reject(first.value))
            && (first.None? ==> run.calls[0] == GetNetwork)
  {
    FirstFailureOfThree(Check(v.isAddress(contract), InvalidContract), Check(v.isAddress(to), InvalidRecipient),
                        Check(v.isPositiveAmount(amount), InvalidAmount));
  }

  /** ERC20 approve: the checks in the order contract, spender, amount. */
  lemma Erc20ApproveShortCircuit(contract: string, spender: string, amount: string, v: Checks, env: Env)
    ensures var run := Erc20ApproveBuild(contract, spender, amount, v, env);
            var first := FirstFailure(Erc20ApproveChecks(contract, spender, amount, v));
            && (run.calls == [] <==> first.Some?)
            && (first.Some? ==> run == Reject(first.value))
            && (first.None? ==> run.calls[0] == Decimals(contract))
  {
    FirstFailureOfThree(Check(v.isAddress(contract), InvalidContract), Check(v.isAddress(spender), InvalidSpender),
                        Check(v.isPositiveAmount(amount), InvalidAmount));
  }

  /** ERC721: the checks in the order contract, to, token id. */
  lemma Erc721ShortCircuit(contract: string, to: string, tokenId: string, wallet: Option<string>,
                           v: Checks, env: Env)
    ensures var run := Erc721Build(contract, to, tokenId, wallet, v, env);
            var first := FirstFailure(Erc721Checks(contract, to, tokenId, v));
            && (run.calls == [] <==> first.Some?)
            && (first.Some? ==> run == Reject(first.value))
            && (first.None? ==> run.calls[0] == OwnerOf(contract, tokenId))
  {
    FirstFailureOfThree(Check(v.isAddress(contract), InvalidNftContract), Check(v.isAddress(to), InvalidRecipient),
                        Check(v.isTokenId(tokenId), InvalidTokenId));
  }

  /** The Sepolia gate of the ERC20 transfer: once the checks pass, the network is read
      first; on any other chain the closure throws the switch-network message with no
      further call, and the transfer is only ever submitted on Sepolia. */
  lemma Erc20ChainGate(contract: string, to: string, amount: string, v: Checks, env: Env)
    requires FirstFailure(Erc20TransferChecks(contract, to, amount, v)).None?
    ensures var run := Erc20TransferBuild(contract, to, amount, v, env);
            && |run.calls| > 0 && run.calls[0] == GetNetwork
            && (env.network.Ok? && env.network.value != Network.SepoliaId ==>
                  run == BuildRun([GetNetwork], Err(Plain(WrongNetwork))))
            && (env.network.Err? ==> run == BuildRun([GetNetwork], Err(env.network.error)))
            && (run.calls != [GetNetwork] ==> env.network == Ok(Network.SepoliaId))
  {
    FirstFailureOfThree(Check(v.isAddress(contract), InvalidContract), Check(v.isAddress(to), InvalidRecipient),
                        Check(v.isPositiveAmount(amount), InvalidAmount));
  }

  /** The ERC20 transfer submits exactly when the checks pass, the chain is Sepolia and
      `decimals`/`parseUnits` succeed, and then sends the scaled amount to the to-address;
      the closure result is the submission's. */
  lemma Erc20TransferSubmits(contract: string, to: string, amount: string, v: Checks, env: Env)
    ensures var run := Erc20TransferBuild(contract, to, amount, v, env);
            var fits := FirstFailure(Erc20TransferChecks(contract, to, amount, v)).None? &&
                        env.network == Ok(Network.SepoliaId) && env.decimals.Ok? && env.parseUnits.Ok?;
            && ((exists i :: 0 <= i < |run.calls| && run.calls[i].Transfer?) <==> fits)
            && (fits ==> run == BuildRun([GetNetwork, Decimals(contract), ParseUnits(amount, env.decimals.value),
                                          Transfer(contract, to, env.parseUnits.value)], env.submit))
  {
    FirstFailureOfThree(Check(v.isAddress(contract), InvalidContract), Check(v.isAddress(to), InvalidRecipient),
                        Check(v.isPositiveAmount(amount), InvalidAmount));
    var run := Erc20TransferBuild(contract, to, amount, v, env);
    var fits := FirstFailure(Erc20TransferChecks(contract, to, amount, v)).None? &&
                env.network == Ok(Network.SepoliaId) && env.decimals.Ok? && env.parseUnits.Ok?;
    if fits {
      assert run.calls[3].Transfer?;
    } else if |run.calls| > 1 {
      var tail := Erc20Submit(contract, amount, units => Transfer(contract, to, units), env);
      assert run.calls == [GetNetwork] + tail.calls;
      forall i | 0 <= i < |run.calls| ensures !run.calls[i].Transfer? {
        if i > 0 { assert run.calls[i] == tail.calls[i - 1]; }
      }
    }
  }

  /** The approval has no chain check: it never reads the network and does the same
      whatever network the wallet is on. */
  lemma ApproveIgnoresNetwork(contract: string, spender: string, amount: string, v: Checks, env: Env,
                              network: Call<nat>)
    ensures var run := Erc20ApproveBuild(contract, spender, amount, v, env);
            && GetNetwork !in run.calls
            && run == Erc20ApproveBuild(contract, spender, amount, v, env.(network := network))
  {
  }

  /** The approval submits exactly when the checks pass and `decimals`/`parseUnits`
      succeed, approving the scaled amount for the spender. */
  lemma Erc20ApproveSubmits(contract: string, spender: string, amount: string, v: Checks, env: Env)
    ensures var run := Erc20ApproveBuild(contract, spender, amount, v, env);
            var fits := FirstFailure(Erc20ApproveChecks(contract, spender, amount, v)).None? &&
                        env.decimals.Ok? && env.parseUnits.Ok?;
            && ((exists i :: 0 <= i < |run.calls| && run.calls[i].Approve?) <==> fits)
            && (fits ==> run == BuildRun([Decimals(contract), ParseUnits(amount, env.decimals.value),
                                          Approve(contract, spender, env.parseUnits.value)], env.submit))
  {
    FirstFailureOfThree(Check(v.isAddress(contract), InvalidContract), Check(v.isAddress(spender), InvalidSpender),
                        Check(v.isPositiveAmount(amount), InvalidAmount));
    var run := Erc20ApproveBuild(contract, spender, amount, v, env);
    if |run.calls| == 3 {
      assert run.calls[2].Approve?;
    } else {
      forall i | 0 <= i < |run.calls| ensures !run.calls[i].Approve? {
        assert i < 2;
      }
    }
  }

  /** ETH submits exactly when the checks pass, the amount parses and a signer exists. */
  lemma EthSubmits(to: string, amount: string, hasSigner: bool, v: Checks, env: Env)
    ensures var run := EthBuild(to, amount, hasSigner, v, env);
            var fits := FirstFailure(EthChecks(to, amount, v)).None? && env.parseEther.Ok? && hasSigner;
            && ((exists i :: 0 <= i < |run.calls| && run.calls[i].SendTransaction?) <==> fits)
            && (fits ==> run == BuildRun([ParseEther(amount), SendTransaction(to, env.parseEther.value)], env.submit))
            && (FirstFailure(EthChecks(to, amount, v)).None? && env.parseEther.Err? ==>
                  run == BuildRun([ParseEther(amount)], Err(env.parseEther.error)))
            && (!hasSigner && FirstFailure(EthChecks(to, amount, v)).None? && env.parseEther.Ok? ==>
                  run == BuildRun([ParseEther(amount)], Err(Plain(env.typeError))))
  {
    FirstFailureOfTwo(Check(v.isAddress(to), InvalidRecipient), Check(v.isPositiveAmount(amount), InvalidAmount));
    var run := EthBuild(to, amount, hasSigner, v, env);
    if |run.calls| == 2 {
      assert run.calls[1].SendTransaction?;
    }
  }

  /** The owner check of ERC721: once the inputs pass, `ownerOf` is queried; any failure
      of the check becomes the single "does not exist or not the owner" error with no
      further call, and `safeTransferFrom` is called, from the wallet address, exactly
      when the check passes. */
  lemma Erc721OwnerCheck(contract: string, to: string, tokenId: string, wallet: Option<string>,
                         v: Checks, env: Env)
    requires FirstFailure(Erc721Checks(contract, to, tokenId, v)).None?
    ensures var run := Erc721Build(contract, to, tokenId, wallet, v, env);
            && |run.calls| > 0 && run.calls[0] == OwnerOf(contract, tokenId)
            && (!OwnerCheckPasses(env.ownerOf, wallet) ==>
                  run == BuildRun([OwnerOf(contract, tokenId)], Err(Plain(NotOwnerOrMissing))))
            && ((exists i :: 0 <= i < |run.calls| && run.calls[i].SafeTransferFrom?) <==>
                  OwnerCheckPasses(env.ownerOf, wallet))
            && (OwnerCheckPasses(env.ownerOf, wallet) ==>
                  run == BuildRun([OwnerOf(contract, tokenId), SafeTransferFrom(contract, wallet.value, to, tokenId)],
                                  env.submit))
  {
    FirstFailureOfThree(Check(v.isAddress(contract), InvalidNftContract), Check(v.isAddress(to), InvalidRecipient),
                        Check(v.isTokenId(tokenId), InvalidTokenId));
    var run := Erc721Build(contract, to, tokenId, wallet, v, env);
    if OwnerCheckPasses(env.ownerOf, wallet) {
      assert run.calls[1].SafeTransferFrom?;
    }
  }

  /** As written, `wallet` is never declared, so reading `wallet.address` always throws:
      no input and no chain state lets `transferERC721` reach `safeTransferFrom`. */
  lemma Erc721AsWrittenNeverTransfers(contract: string, to: string, tokenId: string, v: Checks, env: Env)
    ensures var run := Erc721Build(contract, to, tokenId, None, v, env);
            && (forall i :: 0 <= i < |run.calls| ==> !run.calls[i].SafeTransferFrom?)
            && run.result.Err?
  {
  }

  /** With the connected address supplied, the transfer does happen for the owner, and
      the comparison ignores ASCII case on both sides. */
  lemma Erc721OwnerTransfers(contract: string, to: string, tokenId: string, account: string,
                             v: Checks, env: Env)
    requires FirstFailure(Erc721Checks(contract, to, tokenId, v)).None?
    requires env.ownerOf.Ok? && LowerAscii(env.ownerOf.value) == LowerAscii(account)
    ensures Erc721Build(contract, to, tokenId, Some(account), v, env)
              == BuildRun([OwnerOf(contract, tokenId), SafeTransferFrom(contract, account, to, tokenId)], env.submit)
    ensures Erc721Build(contract, to, tokenId, Some(LowerAscii(account)), v, env).calls[1]
              == SafeTransferFrom(contract, LowerAscii(account), to, tokenId)
  {
    FirstFailureOfThree(Check(v.isAddress(contract), InvalidNftContract), Check(v.isAddress(to), InvalidRecipient),
                        Check(v.isTokenId(tokenId), InvalidTokenId));
    LowerAsciiIdempotent(account);
  }

  lemma LowerAsciiIdempotent(s: string)
    ensures LowerAscii(LowerAscii(s)) == LowerAscii(s)
  {
  }

  /** Two characters are the same letter up to ASCII case, or simply equal. */
  predicate SameUpToCase(c: char, d: char) {
    c == d || ('A' <= c <= 'Z' && d as int == c as int + 32) || ('A' <= d <= 'Z' && c as int == d as int + 32)
  }

  /** The owner check, character by character: it passes exactly when both addresses are
      known, have the same length, and agree at each position up to ASCII case. */
  lemma OwnerCheckCharwise(owner: Call<string>, wallet: Option<string>)
    ensures OwnerCheckPasses(owner, wallet) <==>
              owner.Ok? && wallet.Some? && |owner.value| == |wallet.value| &&
              forall i :: 0 <= i < |owner.value| ==> SameUpToCase(owner.value[i], wallet.value[i])
  {
    if owner.Ok? && wallet.Some? && |owner.value| == |wallet.value| {
      var a, b := owner.value, wallet.value;
      var la, lb := LowerAscii(a), LowerAscii(b);
      forall i | 0 <= i < |a| ensures la[i] == lb[i] <==> SameUpToCase(a[i], b[i]) {
      }
      if forall i :: 0 <= i < |a| ==> SameUpToCase(a[i], b[i]) {
        assert la == lb;
      }
    }
  }

  /** The owner check compares addresses up to ASCII case: lower-casing either side does
      not change its verdict, and the comparison is symmetric. */
  lemma OwnerCheckCaseInsensitive(owner: string, account: string)
    ensures OwnerCheckPasses(Ok(owner), Some(account)) == OwnerCheckPasses(Ok(LowerAscii(owner)), Some(account))
    ensures OwnerCheckPasses(Ok(owner), Some(account)) == OwnerCheckPasses(Ok(owner), Some(LowerAscii(account)))
    ensures OwnerCheckPasses(Ok(owner), Some(account)) == OwnerCheckPasses(Ok(account), Some(owner))
    ensures OwnerCheckPasses(Ok(owner), Some(owner))
  {
    LowerAsciiIdempotent(owner);
    LowerAsciiIdempotent(account);
  }
}
