/**
 * The contract of src/lib.rs: a read-only configuration, three payable relays
 * that forward a call carrying 1 yoctoNEAR and chain one callback to it, the
 * private callback that logs a failed call, and the `ft_on_transfer` hook of
 * the fungible-token receiver standard.
 *
 * Every entry point is a function of the configuration and the call's
 * environment. Its result is either an abort with the panic message, or the
 * (unchanged) configuration, the value handed back to the host and the log
 * lines emitted, in order.
 */
module Contract {
  import opened Host
  import opened Json

  const FT_CONTRACT: AccountId := "token-v3.cheddar.testnet"
  const AMM_CONTRACT: AccountId := "v2.ref-finance.near"
  const PRICE: U128 := 100_000_000_000_000_000_000_000
  const YOCTO_NEAR: Balance := 1

  /** The contract's persistent state; no entry point writes it. */
  datatype Config = Config(ftContract: AccountId, ammContract: AccountId, price: U128)

  /**
   * The state a fresh deployment starts from: the cheddar token on testnet,
   * the Ref Finance AMM, and a price of 0.1 of a 24-decimal token.
   */
  function Default(): (c: Config)
    ensures c.ftContract == "token-v3.cheddar.testnet" && c.ammContract == "v2.ref-finance.near"
    ensures c.ftContract != c.ammContract
    ensures c.price == 100_000_000_000_000_000_000_000
  {
    Config(FT_CONTRACT, AMM_CONTRACT, PRICE)
  }

  // Panic messages.
  const DEPOSIT_NOT_ONE := "Requires attached deposit of exactly 1 yoctoNEAR"
  const TOKEN_NOT_SUPPORTED := "The token is not supported"
  const AMOUNT_NOT_ENOUGH := "The attached amount is not enough"
  const WRONG_MSG_FORMAT := "WRONG_MSG_FORMAT"
  /** Raised by the `#[private]` guard that near_bindgen puts in front of the callback. */
  const CALLBACK_IS_PRIVATE := "Method external_call_callback is private"
  /** Raised by the generated code that decodes a `#[callback_result]` parameter. */
  const CALLBACK_NOT_DECODED := "Failed to deserialize callback using JSON"
  /** The host error raised when a call reads a promise result that does not exist. */
  const NO_PROMISE_RESULT := "InvalidPromiseResultIndex"
  /** Raised by the guard near_bindgen puts in front of a non-payable `&mut self` method. */
  const NO_DEPOSIT_ON_TRANSFER := "Method ft_on_transfer doesn't accept deposit"

  // Method names of the outgoing calls.
  const FT_TRANSFER := "ft_transfer"
  const FT_TRANSFER_CALL := "ft_transfer_call"
  const SWAP := "swap"
  const CALLBACK := "external_call_callback"

  // Static gas of the outgoing calls and their callbacks.
  const SWAP_GAS: Gas := 300 * TGAS
  const FT_TRANSFER_CALL_GAS: Gas := 150 * TGAS
  const RELAY_CALLBACK_GAS: Gas := 30 * TGAS
  const TRANSFER_CALL_CALLBACK_GAS: Gas := 100 * TGAS

  /** A log line; its text formatting is not modelled. */
  datatype LogEntry =
    | ExternalCallFailed                      // "There was an error contacting external contract"
    | SenderIdLog(sender: AccountId)          // "Sender id: ..."
    | TargetBuyerIdLog(buyer: Option<AccountId>) // "Target buyer id: ..."

  /** Arguments of the outgoing calls: the token's `ft_transfer` and `ft_transfer_call`,
      the AMM's `swap`, and the callback, which takes none of its own. */
  datatype CallArgs =
    | FtTransferArgs(receiverId: AccountId, amount: U128, memo: Option<string>)
    | FtTransferCallArgs(receiverId: AccountId, amount: U128, memo: Option<string>, msg: string)
    | SwapArgs(poolId: U64, tokenIn: AccountId, tokenOut: AccountId, amountIn: U128, minAmountOut: U128)
    | NoArgs

  type Call = FunctionCall<CallArgs>
  type Relay = Promise<CallArgs>

  /** How one entry point ends. */
  datatype Outcome<T> =
    | Abort(message: string)
    | Done(state: Config, value: T, logs: seq<LogEntry>)

  /** The instruction an `ft_on_transfer` message may carry (an untagged enum with one variant). */
  datatype TokenReceiverMessage = Action(buyerId: Option<AccountId>)

  const BUYER_ID := "buyer_id"

  // ---------------------------------------------------------------------------
  // Payable relays

  /** The callback every relay chains: `external_call_callback` on the contract itself. */
  function CallbackCall(env: Env, gas: Gas): Call
  {
    FunctionCall(env.currentAccount, CALLBACK, NoArgs, 0, Some(gas))
  }

  /** The guard and the `then` shared by the three relays. */
  function GuardedRelay(config: Config, env: Env, call: Call, callbackGas: Gas): Outcome<Relay>
  {
    if env.attachedDeposit != YOCTO_NEAR then Abort(DEPOSIT_NOT_ONE)
    else Done(config, Then(call, CallbackCall(env, callbackGas)), [])
  }

  /**
   * What every accepted relay hands the host: a call that carries exactly
   * 1 yoctoNEAR to one of the configured accounts, chained with exactly one
   * callback to `external_call_callback` on the contract's own account, with
   * no deposit, no arguments and a positive static gas of its own.
   */
  predicate RelayShape(config: Config, env: Env, p: Relay)
  {
    && p.call.deposit == YOCTO_NEAR
    && (p.call.target == config.ftContract || p.call.target == config.ammContract)
    && p.callback.target == env.currentAccount
    && p.callback.methodName == CALLBACK
    && p.callback.args == NoArgs
    && p.callback.deposit == 0
    && p.callback.staticGas.Some? && p.callback.staticGas.value > 0
  }

  /** `send_tokens`: relay an `ft_transfer` to the token contract. */
  function SendTokens(config: Config, env: Env, receiverId: AccountId, amount: U128): (r: Outcome<Relay>)
    ensures r.Abort? <==> env.attachedDeposit != YOCTO_NEAR
    ensures r.Abort? ==> r.message == DEPOSIT_NOT_ONE
    ensures r.Done? ==> r.state == config && r.logs == [] && RelayShape(config, env, r.value)
    ensures r.Done? ==> r.value.call.target == config.ftContract && r.value.call.methodName == FT_TRANSFER
    ensures r.Done? ==> r.value.call.args == FtTransferArgs(receiverId, amount, None)
    ensures r.Done? ==> r.value.call.staticGas == None && r.value.callback.staticGas == Some(30 * TGAS)
  {
    GuardedRelay(config, env,
      FunctionCall(config.ftContract, FT_TRANSFER, FtTransferArgs(receiverId, amount, None), YOCTO_NEAR, None),
      RELAY_CALLBACK_GAS)
  }

  /** `swap_tokens`: relay a `swap` to the AMM contract. */
  function SwapTokens(config: Config, env: Env, poolId: U64, tokenIn: AccountId, tokenOut: AccountId,
                      amountIn: U128, minAmountOut: U128): (r: Outcome<Relay>)
    ensures r.Abort? <==> env.attachedDeposit != YOCTO_NEAR
    ensures r.Abort? ==> r.message == DEPOSIT_NOT_ONE
    ensures r.Done? ==> r.state == config && r.logs == [] && RelayShape(config, env, r.value)
    ensures r.Done? ==> r.value.call.target == config.ammContract && r.value.call.methodName == SWAP
    ensures r.Done? ==> r.value.call.args == SwapArgs(poolId, tokenIn, tokenOut, amountIn, minAmountOut)
    ensures r.Done? ==> r.value.call.staticGas == Some(300 * TGAS) && r.value.callback.staticGas == Some(30 * TGAS)
  {
    GuardedRelay(config, env,
      FunctionCall(config.ammContract, SWAP, SwapArgs(poolId, tokenIn, tokenOut, amountIn, minAmountOut),
                   YOCTO_NEAR, Some(SWAP_GAS)),
      RELAY_CALLBACK_GAS)
  }

  /** `call_with_attached_tokens`: relay an `ft_transfer_call` with an empty message to the token contract. */
  function CallWithAttachedTokens(config: Config, env: Env, receiverId: AccountId, amount: U128): (r: Outcome<Relay>)
    ensures r.Abort? <==> env.attachedDeposit != YOCTO_NEAR
    ensures r.Abort? ==> r.message == DEPOSIT_NOT_ONE
    ensures r.Done? ==> r.state == config && r.logs == [] && RelayShape(config, env, r.value)
    ensures r.Done? ==> r.value.call.target == config.ftContract && r.value.call.methodName == FT_TRANSFER_CALL
    ensures r.Done? ==> r.value.call.args == FtTransferCallArgs(receiverId, amount, None, "")
    ensures r.Done? ==> r.value.call.staticGas == Some(150 * TGAS) && r.value.callback.staticGas == Some(100 * TGAS)
  {
    GuardedRelay(config, env,
      FunctionCall(config.ftContract, FT_TRANSFER_CALL, FtTransferCallArgs(receiverId, amount, None, ""),
                   YOCTO_NEAR, Some(FT_TRANSFER_CALL_GAS)),
      TRANSFER_CALL_CALLBACK_GAS)
  }

  // ---------------------------------------------------------------------------
  // Callback reconciler

  /**
   * The `#[callback_result] Result<(), PromiseError>` parameter as the code
   * near_bindgen generates reads it from the resolution: a failed or unready
   * promise is an error, an empty success payload is `Ok(())`, and any other
   * payload must deserialise as JSON into `()`, that is be `null`; `None`
   * when it does not, and when there is no promise result to read.
   */
  function CallbackResult(res: Resolution, parse: string -> Option<Json>): (r: Option<CallResult>)
    ensures res.ResolvedFailed? ==> r == Some(Err(Failed))
    ensures res.ResolvedNotReady? ==> r == Some(Err(NotReady))
    ensures res.NoResult? ==> r.None?
    ensures res.ResolvedOk? ==> (r.Some? <==> res.data == "" || parse(res.data) == Some(JNull))
    ensures res.ResolvedOk? && r.Some? ==> r.value == Ok
  {
    match res
    case ResolvedFailed => Some(Err(Failed))
    case ResolvedNotReady => Some(Err(NotReady))
    case NoResult => None
    case ResolvedOk(data) =>
      if data == "" then Some(Ok)
      else if parse(data) == Some(JNull) then Some(Ok)
      else None
  }

  /**
   * `external_call_callback`: rejected unless the contract calls itself,
   * then rejected by the host when no promise scheduled the call, and
   * rejected when the relayed call's return value is not `()`;
   * otherwise one log line when the relayed call failed, none when it
   * succeeded, and no value.
   */
  function ExternalCallCallback(config: Config, env: Env, res: Resolution, parse: string -> Option<Json>)
    : (r: Outcome<()>)
    ensures r.Abort? <==> env.predecessor != env.currentAccount || CallbackResult(res, parse).None?
    ensures env.predecessor != env.currentAccount ==> r == Abort(CALLBACK_IS_PRIVATE)
    ensures env.predecessor == env.currentAccount && res.NoResult? ==> r == Abort(NO_PROMISE_RESULT)
    ensures env.predecessor == env.currentAccount && !res.NoResult? && CallbackResult(res, parse).None? ==>
      r == Abort(CALLBACK_NOT_DECODED)
    ensures r.Done? ==> r.state == config && |r.logs| == (if res.ResolvedOk? then 0 else 1)
    ensures r.Done? ==> forall e :: e in r.logs ==> e == ExternalCallFailed
  {
    if env.predecessor != env.currentAccount then Abort(CALLBACK_IS_PRIVATE)
    else
      match CallbackResult(res, parse)
      case None => if res.NoResult? then Abort(NO_PROMISE_RESULT) else Abort(CALLBACK_NOT_DECODED)
      case Some(callResult) =>
        if callResult.Err? then Done(config, (), [ExternalCallFailed])
        else Done(config, (), [])
  }

  // ---------------------------------------------------------------------------
  // Message decoding

  /** `Option<AccountId>` from a JSON value: null is None, a string is Some, anything else fails. */
  function DecodeOptionalAccount(j: Json): Option<Option<AccountId>>
  {
    match j
    case JNull => Some(None)
    case JString(s) => Some(Some(s))
    case _ => None
  }

  /**
   * `TokenReceiverMessage` from a JSON value. The one variant is a struct
   * variant of an untagged enum, whose derived decoder accepts only a map:
   * an object, where buyer_id missing is None, repeated is an error, and
   * other keys are skipped. Arrays and scalars match no variant.
   */
  function DecodeMessage(j: Json): (m: Option<TokenReceiverMessage>)
    ensures !j.JObject? ==> m.None?
    ensures j.JObject? && m.Some? ==>
      forall i, k :: 0 <= i < k < |j.entries| ==> !(KeyAt(j.entries, i, BUYER_ID) && KeyAt(j.entries, k, BUYER_ID))
  {
    match j
    case JObject(entries) => (
      match FindField(entries, BUYER_ID)
      case Absent => Some(Action(None))
      case Repeated => None
      case Unique(v) => (
        match DecodeOptionalAccount(v)
        case Some(b) => Some(Action(b))
        case None => None))
    case _ => None
  }

  /** The derived `Serialize` of `TokenReceiverMessage`: an object with the one key. */
  function EncodeMessage(m: TokenReceiverMessage): (j: Json)
    ensures j.JObject? && |j.entries| == 1 && j.entries[0].0 == BUYER_ID
    ensures j.entries[0].1 == JNull <==> m.buyerId.None?
    ensures m.buyerId.Some? ==> j.entries[0].1 == JString(m.buyerId.value)
  {
    JObject([(BUYER_ID, match m.buyerId case None => JNull case Some(s) => JString(s))])
  }

  /** `serde_json::from_str::<TokenReceiverMessage>`, with the text-to-JSON parser as a parameter. */
  function DecodeText(parse: string -> Option<Json>, msg: string): (m: Option<TokenReceiverMessage>)
    ensures parse(msg).None? ==> m.None?
    ensures m.Some? ==> parse(msg).Some? && parse(msg).value.JObject?
  {
    match parse(msg)
    case None => None
    case Some(j) => DecodeMessage(j)
  }

  // ---------------------------------------------------------------------------
  // Inbound router

  /** The guards of `ft_on_transfer` that come before the message is looked at. */
  predicate TransferAdmitted(config: Config, env: Env, amount: U128)
  {
    env.attachedDeposit == 0 && env.predecessor == config.ftContract && amount >= config.price
  }

  /**
   * `ft_on_transfer`: the token contract reports that `senderId` sent
   * `amount` to this contract with `msg`. Returns how much to refund.
   */
  function FtOnTransfer(config: Config, env: Env, senderId: AccountId, amount: U128, msg: string,
                        parse: string -> Option<Json>): (r: Outcome<PromiseOrValue<CallArgs, U128>>)
    ensures env.attachedDeposit != 0 ==> r == Abort(NO_DEPOSIT_ON_TRANSFER)
    ensures env.attachedDeposit == 0 && env.predecessor != config.ftContract ==> r == Abort(TOKEN_NOT_SUPPORTED)
    ensures env.attachedDeposit == 0 && env.predecessor == config.ftContract && amount < config.price ==>
      r == Abort(AMOUNT_NOT_ENOUGH)
    ensures r.Done? <==> TransferAdmitted(config, env, amount) && (msg == "" || DecodeText(parse, msg).Some?)
    ensures TransferAdmitted(config, env, amount) && r.Abort? ==> msg != "" && r.message == WRONG_MSG_FORMAT
    ensures r.Done? ==> r.state == config && r.value == Value(0)
    ensures r.Done? && msg == "" ==> r.logs == [SenderIdLog(senderId)]
    ensures r.Done? && msg != "" ==>
      r.logs == [SenderIdLog(senderId), TargetBuyerIdLog(DecodeText(parse, msg).value.buyerId)]
  {
    if env.attachedDeposit != 0 then Abort(NO_DEPOSIT_ON_TRANSFER)
    else if env.predecessor != config.ftContract then Abort(TOKEN_NOT_SUPPORTED)
    else if amount < config.price then Abort(AMOUNT_NOT_ENOUGH)
    else if msg == "" then Done(config, Value(0), [SenderIdLog(senderId)])
    else
      match DecodeText(parse, msg)
      case None => Abort(WRONG_MSG_FORMAT)
      case Some(Action(buyerId)) => Done(config, Value(0), [SenderIdLog(senderId), TargetBuyerIdLog(buyerId)])
  }
}
