# A model of the cross-call relay contract

This project models the NEAR smart contract in `src/lib.rs` and proves properties of the model in Dafny. The contract has a read-only configuration: the fungible-token contract, the AMM contract and a minimum price. It has three payable relays. Each one forwards a call that carries exactly 1 yoctoNEAR and chains one callback, `external_call_callback`, onto it. That callback is private and logs when the relayed call failed. Finally there is `ft_on_transfer`, the hook of the fungible-token receiver standard. It checks which token contract called, checks the amount, and then checks the message, which is either empty or a JSON `TokenReceiverMessage`.

The contract never writes its state and has no loops, so every entry point is a Dafny function. Each takes the configuration and the call's environment: attached deposit, predecessor account and current account. Each returns an `Outcome`, which is one of:
- `Abort(message)`, carrying the panic message;
- `Done(state, value, logs)`, carrying the unchanged configuration, the value handed to the host and the log entries in order.

A relay's value is a `Promise`: one outgoing `FunctionCall` descriptor (target, method, arguments, deposit, optional static gas) chained `Then` with exactly one callback descriptor.

Files:
- `host.dfy` (module `Host`): what near_sdk provides.
  - account identifiers;
  - `U64`/`U128` as bounded subset types;
  - gas and `TGAS`;
  - the environment `Env`;
  - function-call and promise descriptors;
  - the promise resolution a callback receives, and the `Result<(), PromiseError>` read from it;
  - the environment in which the host runs a scheduled callback.
- `json.dfy` (module `Json`): the JSON values a derived serde `Deserialize` sees, and the walk a derived struct visitor makes over an object's entries. That walk rejects a repeated key and skips unknown keys.
- `contract.dfy` (module `Contract`): `src/lib.rs`.
  - the constants and `Default()`;
  - the relays;
  - the callback;
  - decoding and encoding of `TokenReceiverMessage`;
  - `ft_on_transfer`.
- `properties.dfy` (module `ContractProperties`): lemmas that relate several members.

Besides the guards written in `src/lib.rs`, the model includes the guards that `#[near_bindgen]` generates around the methods:
- `#[private]` on `external_call_callback` (`src/lib.rs:71`) adds a check that the predecessor is the current account. On failure it panics with "Method external_call_callback is private".
- `#[callback_result]` (`src/lib.rs:72`) reads the relayed call's resolution into `Result<(), PromiseError>`. A failed or unready promise gives `Err`. A success with an empty payload gives `Ok(())`. Any other payload must deserialise as JSON into `()`, so it must be `null`; otherwise the callback panics with "Failed to deserialize callback using JSON". When no promise scheduled the call, for instance when the contract's own account calls `external_call_callback` directly, there is no promise result to read, and the host aborts the call with its `InvalidPromiseResultIndex` error. `ft_transfer_call` and the AMM's `swap` are expected to return a `U128`, which is written as a JSON string. If they do, the callbacks of `call_with_attached_tokens` and `swap_tokens` abort on the success path (`ScheduledCallbackRejectsValue`). `ft_transfer` returns nothing, so `send_tokens`' callback completes.
- `ft_on_transfer` is a non-payable `&mut self` method, so the generated wrapper first rejects any attached deposit with "Method ft_on_transfer doesn't accept deposit". The sender check and the amount check of `src/lib.rs:122-125` therefore apply to calls with no deposit.

`TokenReceiverMessage` is an untagged enum with one struct variant, `Action { buyer_id: Option<AccountId> }`. serde's derive gives an untagged struct variant only a map visitor, so the decoder accepts only a JSON object. In it, a missing or `null` `buyer_id` gives `None` and a string gives `Some`. A repeated `buyer_id` or any other value for it fails. Other keys are skipped. Arrays and scalars match no variant, so `ft_on_transfer` aborts with "WRONG_MSG_FORMAT" on them. Its derived `Serialize` writes `{"buyer_id": null}` or `{"buyer_id": "<id>"}`.

## Model

| member | source | states |
|---|---|---|
| `Contract.SendTokens` | src/lib.rs:56-69 | Aborts with "Requires attached deposit of exactly 1 yoctoNEAR" exactly when the deposit is not 1, and then issues no call. Otherwise the config is unchanged and there are no logs. The promise has the relay shape: the call goes to `config.ftContract` with 1 yoctoNEAR and a single callback to `external_call_callback` on the current account. The call is `ft_transfer(receiver_id, amount, None)` with the caller's arguments unchanged. It has no static gas; the callback has 30 TGas. |
| `Contract.SwapTokens` | src/lib.rs:79-93 | Same deposit guard and message. On acceptance the call goes to `config.ammContract`: `swap(pool_id, token_in, token_out, amount_in, min_amount_out)` with the arguments unchanged. It carries 1 yoctoNEAR and 300 TGas static gas, and the callback has 30 TGas. Config unchanged, no logs, relay shape. |
| `Contract.CallWithAttachedTokens` | src/lib.rs:95-109 | Same deposit guard and message. On acceptance the call goes to `config.ftContract`: `ft_transfer_call(receiver_id, amount, None, "")`, so memo None and an empty msg. It carries 1 yoctoNEAR and 150 TGas, and the callback has 100 TGas. Config unchanged, no logs, relay shape. |
| `Contract.Default` | src/lib.rs:25-34 | The default state names `token-v3.cheddar.testnet` as the token contract and `v2.ref-finance.near` as the AMM, two different accounts. The price is 10^23. |
| `Contract.CallbackResult` | src/lib.rs:72 | How the `#[callback_result]` parameter is read. A failed or unready promise gives `Err` with that detail. A success gives `Ok(())` exactly when its payload is empty or the JSON `null`, and fails to decode otherwise. Without a promise result there is no value to read. |
| `Contract.ExternalCallCallback` | src/lib.rs:71-77 | A foreign predecessor aborts with the private-method message. Otherwise a call that no promise scheduled aborts with the host's `InvalidPromiseResultIndex` error, and a resolution that does not decode into `Result<(), PromiseError>` aborts with the deserialisation message. It aborts in no other case. When it returns, it returns no value, leaves the config unchanged, and logs exactly one entry, "error contacting external contract", for a failed or unready promise and none on success. |
| `Contract.DecodeMessage` | src/lib.rs:36-45 | Anything but a JSON object never decodes: null, booleans, numbers, strings and arrays match no variant of the untagged enum. A decoded object never names `buyer_id` twice. |
| `Contract.EncodeMessage` | src/lib.rs:37-44 | The derived `Serialize` writes an object with exactly one key, `buyer_id`. Its value is `null` exactly when there is no buyer, and otherwise the buyer's id as a string. |
| `Contract.DecodeText` | src/lib.rs:133-134 | Text that does not parse as JSON never decodes. Text that decodes always parses to a JSON object. |
| `Contract.FtOnTransfer` | src/lib.rs:112-146 | A deposit is rejected first. Then, whatever the amount and msg, a predecessor other than `config.ftContract` aborts with "The token is not supported". Then `amount < price` aborts with "The attached amount is not enough", so `amount == price` passes. The call returns iff the guards pass and msg is empty or decodes. Every other admitted call aborts with "WRONG_MSG_FORMAT" and has a non-empty msg. Whenever it returns, the result is `Value(0)` with the config unchanged. It logs the sender, and when msg is non-empty also the decoded buyer id. |
| `Json.FindField` | src/lib.rs:37-43 | The derived visitor's walk over an object's entries for one field. Absent iff no entry has the key. Repeated iff two entries have it. Unique only with the value of an entry that has it. |
| `ContractProperties.FindFieldSkipsOtherKey` | src/lib.rs:37-43 | Removing an entry whose key is different does not change what the walk finds (by induction on the entries before it). |
| `ContractProperties.DecodeIgnoresUnknownKey` | src/lib.rs:40-44 | Adding a key other than `buyer_id` anywhere in a message object never changes its decoding. |
| `ContractProperties.DecodeEncode` | src/lib.rs:37-45 | Round trip: decoding what the derived `Serialize` writes for a message gives that message back, with or without a buyer. |
| `ContractProperties.DecodeObjectWithoutBuyer` | src/lib.rs:40-44 | Take an object with at most one `buyer_id`. It decodes to `Action { buyer_id: None }` exactly when every `buyer_id` entry in it is null, which includes the case where it has none. |
| `ContractProperties.DecodeObjectWithBuyer` | src/lib.rs:40-44 | Take an object with at most one `buyer_id`. It decodes to `Action { buyer_id: Some(s) }` exactly when it holds the entry `"buyer_id": "s"`. |
| `ContractProperties.CallbackAuthorizationFirst` | src/lib.rs:71-72 | A callback from a foreign caller has the same outcome whatever the resolution and its payload. The authorization check does not depend on them. |
| `ContractProperties.CallbackIgnoresErrorDetail` | src/lib.rs:72-76 | The callback's outcome depends on whether the relayed call failed, never on how: a failed promise and an unready one give the same outcome. |
| `ContractProperties.ScheduledCallbackRuns` | src/lib.rs:64-77 | Take a promise with the relay shape; the callback runs with the contract as both predecessor and receiver, so it passes the private guard, and the host hands it the relayed call's result. When the relayed call failed, or succeeded returning nothing or `null`, the callback completes. It logs `[ExternalCallFailed]` on failure and nothing on success. |
| `ContractProperties.ScheduledCallbackRejectsValue` | src/lib.rs:72 | Take a promise with the relay shape whose relayed call succeeds returning a JSON string, as a `U128` is returned. Its callback aborts with "Failed to deserialize callback using JSON". |
| `ContractProperties.RelayStaticGas` | src/lib.rs:84-106 | Static gas reserved by call and callback together: 30 TGas for `send_tokens`, 330 TGas for `swap_tokens` and 250 TGas for `call_with_attached_tokens`. |
| `ContractProperties.FtOnTransferEncodedMessage` | src/lib.rs:129-145 | Take an admitted transfer whose non-empty msg parses to the encoding of message `m`. It returns `Value(0)` with the config unchanged and logs the sender, then `m`'s buyer id. |
| `ContractProperties.FtOnTransferRejectsArrayMessage` | src/lib.rs:133-134 | An admitted transfer whose msg parses to a JSON array aborts with "WRONG_MSG_FORMAT". |
| `ContractProperties.DefaultThreshold` | src/lib.rs:25-34 | Under the default configuration, take a call without deposit from `token-v3.cheddar.testnet` with an empty msg. It is accepted exactly when the amount is at least 10^23. |

## Left out

- Executing promises is the host's job and is not modelled: scheduling, gas metering, the refund of unused gas, and the contents of `PromiseError`. A relay's result is only a descriptor of the calls. The callback receives the host's `PromiseResult` as an input, a `Host.Resolution`, which `CallbackResult` decodes. How the host finds out that no promise result exists is not modelled; `NoResult` stands for that case.
- The behaviour of the token's `ft_transfer` and `ft_transfer_call` and of the AMM's `swap` is not modelled. They are other contracts.
- Which value each external method returns is not modelled. That `ft_transfer_call` and `swap` return a `U128` is an expectation about those contracts. The model states the callback's outcome for every payload.
- Parsing text into JSON is the parameter `parse`. `FtOnTransfer` uses it for the `serde_json::from_str` of the message (`src/lib.rs:133-134`). `CallbackResult` and `ExternalCallCallback` use it for the `serde_json::from_slice` that the code generated for `#[callback_result]` (`src/lib.rs:72`) applies to the callback payload. The model does not include a JSON text parser. JSON numbers are integers only.
- `AccountId` validation is not modelled, because `AccountId` is any string. This covers:
  - the `.parse().unwrap()` of the two constants (`src/lib.rs:29-30`);
  - the check that near_sdk applies when it deserialises `buyer_id` or the entry points' account arguments.
- Deserialising the entry points' JSON arguments is not modelled. Arguments arrive as typed values, and `U64`/`U128` bound their ranges.
- Borsh (de)serialisation of the contract state is not modelled. The state is the `Config` value.
- Log text formatting is not modelled: logs are abstract entries. Logs emitted before an abort are not kept in `Abort`.
- Decoration of panic messages is not modelled. That covers the host's `panicked at …` prefix, the left/right text of `assert_eq!`, and the `: <serde error>` suffix that std's `expect` appends to "WRONG_MSG_FORMAT" (`src/lib.rs:134`). `Abort` carries the message the source gives.
- A global gas ceiling per transaction is not modelled, because the contract does not enforce one. The gas constants are recorded as data, and `RelayStaticGas` sums them. `swap_tokens` reserves 330 TGas of static gas (`src/lib.rs:84` plus `src/lib.rs:90`). That is more than the 300 TGas per-transaction prepaid-gas limit NEAR has applied, and under that limit the host would refuse to create the promise. This follows from the constants alone; the model does not encode the limit.
- This integration pattern can extend to NFT and marketplace services, but `src/lib.rs` has no such entry point, so none is modelled. For the same reason the callback returns no decoded value: the source's `external_call_callback` returns nothing.
