/**
 * Properties that relate several entry points of the contract, or the
 * message decoder to its encoder and to the shape of the JSON it reads.
 */
module ContractProperties {
  import opened Host
  import opened Json
  import opened Contract

  /** Dropping an entry whose key is not `key` does not change what the walk finds for `key`. */
  lemma {:induction false} FindFieldSkipsOtherKey(front: seq<(string, Json)>, back: seq<(string, Json)>,
                                                  k: string, v: Json, key: string)
    requires k != key
    ensures FindField(front + [(k, v)] + back, key) == FindField(front + back, key)
  {
    var joined := front + [(k, v)] + back;
    if front == [] {
      assert joined[0] == (k, v) && joined[1..] == back && front + back == back;
    } else {
      FindFieldSkipsOtherKey(front[1..], back, k, v, key);
      assert joined[0] == front[0] && joined[1..] == front[1..] + [(k, v)] + back;
      assert (front + back)[0] == front[0] && (front + back)[1..] == front[1..] + back;
    }
  }

  /** Keys other than buyer_id never change how a message object decodes. */
  lemma DecodeIgnoresUnknownKey(front: seq<(string, Json)>, back: seq<(string, Json)>, k: string, v: Json)
    requires k != BUYER_ID
    ensures DecodeMessage(JObject(front + [(k, v)] + back)) == DecodeMessage(JObject(front + back))
  {
    FindFieldSkipsOtherKey(front, back, k, v, BUYER_ID);
  }

  /** What the derived `Serialize` writes, the derived `Deserialize` reads back. */
  lemma DecodeEncode(m: TokenReceiverMessage)
    ensures DecodeMessage(EncodeMessage(m)) == Some(m)
  {
  }

  /** An object with at most one buyer_id decodes to no buyer exactly when that key is missing or null. */
  lemma DecodeObjectWithoutBuyer(entries: seq<(string, Json)>)
    requires forall i, k :: 0 <= i < k < |entries| ==> !(KeyAt(entries, i, BUYER_ID) && KeyAt(entries, k, BUYER_ID))
    ensures DecodeMessage(JObject(entries)) == Some(Action(None)) <==>
      forall i :: 0 <= i < |entries| && entries[i].0 == BUYER_ID ==> entries[i].1 == JNull
  {
    var found := FindField(entries, BUYER_ID);
    if found.Unique? {
      var i :| 0 <= i < |entries| && entries[i] == (BUYER_ID, found.value);
      forall j | 0 <= j < |entries| && entries[j].0 == BUYER_ID ensures j == i {
        assert KeyAt(entries, i, BUYER_ID) && KeyAt(entries, j, BUYER_ID);
      }
    } else if found.Absent? {
      forall j | 0 <= j < |entries| ensures entries[j].0 != BUYER_ID {
        assert !KeyAt(entries, j, BUYER_ID);
      }
    }
  }

  /** An object with at most one buyer_id decodes to buyer `s` exactly when its buyer_id is the string `s`. */
  lemma DecodeObjectWithBuyer(entries: seq<(string, Json)>, s: AccountId)
    requires forall i, k :: 0 <= i < k < |entries| ==> !(KeyAt(entries, i, BUYER_ID) && KeyAt(entries, k, BUYER_ID))
    ensures DecodeMessage(JObject(entries)) == Some(Action(Some(s))) <==>
      exists i :: 0 <= i < |entries| && entries[i] == (BUYER_ID, JString(s))
  {
    var found := FindField(entries, BUYER_ID);
    if exists i :: 0 <= i < |entries| && entries[i] == (BUYER_ID, JString(s)) {
      var i :| 0 <= i < |entries| && entries[i] == (BUYER_ID, JString(s));
      assert KeyAt(entries, i, BUYER_ID);
      var j :| 0 <= j < |entries| && entries[j] == (BUYER_ID, found.value);
      assert KeyAt(entries, j, BUYER_ID);
    }
  }

  /** A foreign caller is rejected whatever the relayed call's resolution and payload. */
  lemma CallbackAuthorizationFirst(config: Config, env: Env, a: Resolution, b: Resolution,
                                   parseA: string -> Option<Json>, parseB: string -> Option<Json>)
    requires env.predecessor != env.currentAccount
    ensures ExternalCallCallback(config, env, a, parseA) == ExternalCallCallback(config, env, b, parseB)
  {
  }

  /** The callback depends on whether the relayed call failed, never on how it failed. */
  lemma CallbackIgnoresErrorDetail(config: Config, env: Env, parse: string -> Option<Json>)
    ensures ExternalCallCallback(config, env, ResolvedFailed, parse) ==
            ExternalCallCallback(config, env, ResolvedNotReady, parse)
  {
  }

  /**
   * The callback an accepted relay schedules passes the private guard when
   * the host runs it, and the host hands it the relayed call's result. When
   * the relayed call failed, or succeeded returning
   * nothing or `null`, it completes and logs exactly once if and only if
   * the relayed call failed.
   */
  lemma ScheduledCallbackRuns(config: Config, env: Env, p: Relay, res: Resolution, parse: string -> Option<Json>)
    requires RelayShape(config, env, p)
    requires !res.NoResult?
    requires res.ResolvedOk? ==> res.data == "" || parse(res.data) == Some(JNull)
    ensures ExternalCallCallback(config, CallbackEnv(env, p), res, parse).Done?
    ensures ExternalCallCallback(config, CallbackEnv(env, p), res, parse).logs ==
      (if res.ResolvedOk? then [] else [ExternalCallFailed])
  {
  }

  /**
   * The callback an accepted relay schedules aborts when the relayed call
   * succeeds returning a JSON string, which is how a `U128` is returned:
   * the return value does not deserialise into `()`.
   */
  lemma ScheduledCallbackRejectsValue(config: Config, env: Env, p: Relay, data: string, s: string,
                                      parse: string -> Option<Json>)
    requires RelayShape(config, env, p)
    requires data != "" && parse(data) == Some(JString(s))
    ensures ExternalCallCallback(config, CallbackEnv(env, p), ResolvedOk(data), parse) == Abort(CALLBACK_NOT_DECODED)
  {
  }

  /** Static gas each accepted relay reserves, call and callback together. */
  lemma RelayStaticGas(config: Config, env: Env, receiverId: AccountId, amount: U128,
                       poolId: U64, tokenIn: AccountId, tokenOut: AccountId,
                       amountIn: U128, minAmountOut: U128)
    requires env.attachedDeposit == YOCTO_NEAR
    ensures StaticGas(SendTokens(config, env, receiverId, amount).value) == 30 * TGAS
    ensures StaticGas(SwapTokens(config, env, poolId, tokenIn, tokenOut, amountIn, minAmountOut).value) == 330 * TGAS
    ensures StaticGas(CallWithAttachedTokens(config, env, receiverId, amount).value) == 250 * TGAS
  {
  }

  /**
   * A transfer from the token contract, with enough tokens and a message
   * that parses to the encoding of `m`, is kept in full and logs m's buyer.
   */
  lemma FtOnTransferEncodedMessage(config: Config, env: Env, senderId: AccountId, amount: U128,
                                   m: TokenReceiverMessage, msg: string, parse: string -> Option<Json>)
    requires TransferAdmitted(config, env, amount)
    requires msg != "" && parse(msg) == Some(EncodeMessage(m))
    ensures FtOnTransfer(config, env, senderId, amount, msg, parse) ==
      Done(config, Value(0), [SenderIdLog(senderId), TargetBuyerIdLog(m.buyerId)])
  {
    DecodeEncode(m);
  }

  /** An admitted transfer whose msg parses to a JSON array is refused: arrays match no variant. */
  lemma FtOnTransferRejectsArrayMessage(config: Config, env: Env, senderId: AccountId, amount: U128,
                                        msg: string, elems: seq<Json>, parse: string -> Option<Json>)
    requires TransferAdmitted(config, env, amount)
    requires msg != "" && parse(msg) == Some(JArray(elems))
    ensures FtOnTransfer(config, env, senderId, amount, msg, parse) == Abort(WRONG_MSG_FORMAT)
  {
  }

  /** Under the default configuration a bare deposit of the token is accepted exactly from 10^23 up. */
  lemma DefaultThreshold(env: Env, senderId: AccountId, amount: U128, parse: string -> Option<Json>)
    requires env.attachedDeposit == 0 && env.predecessor == "token-v3.cheddar.testnet"
    ensures FtOnTransfer(Default(), env, senderId, amount, "", parse).Done? <==>
      amount >= 100_000_000_000_000_000_000_000
  {
  }
}
