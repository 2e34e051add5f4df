/**
 * The parts of the NEAR host (near_sdk) that the contract sees: account
 * identifiers, the fixed-width integers of its interface, gas, the execution
 * environment of one function call, outgoing function-call descriptors
 * chained into a promise, and the resolved outcome of a promise.
 */
module Host {

  /** An account identifier. Validation of the identifier syntax is not modelled. */
  type AccountId = string

  const U64_LIMIT: nat := 0x1_0000_0000_0000_0000
  const U128_LIMIT: nat := 0x1_0000_0000_0000_0000_0000_0000_0000_0000

  /** Rust's u64 and u128 (also near_sdk's `U128`, a u128 carried as a JSON string). */
  type U64 = x: nat | x < U64_LIMIT
  type U128 = x: nat | x < U128_LIMIT

  /** Balances are counted in yoctoNEAR as u128; gas is counted as u64. */
  type Balance = U128
  type Gas = U64

  /** One teragas. */
  const TGAS: Gas := 1_000_000_000_000

  /** What `env::attached_deposit`, `env::predecessor_account_id` and
      `env::current_account_id` return during one function call. */
  datatype Env = Env(attachedDeposit: Balance, predecessor: AccountId, currentAccount: AccountId)

  /** The failure detail near_sdk hands to a callback; the contract never looks into it. */
  datatype PromiseError = Failed | NotReady

  /** `Result<(), PromiseError>` as a `#[callback_result]` parameter receives it. */
  datatype CallResult = Ok | Err(error: PromiseError)

  /**
   * How the host reports a resolved promise to its callback (near_sdk's
   * `PromiseResult`): a success with the bytes the called method returned,
   * here as the JSON text they hold, a failure, or not ready. `NoResult` is
   * a call that no promise scheduled, such as an account calling the method
   * directly: the host holds no promise result for it to read.
   */
  datatype Resolution = ResolvedOk(data: string) | ResolvedFailed | ResolvedNotReady | NoResult

  /**
   * One outgoing function call: the account it goes to, the method name, the
   * arguments, the attached deposit and the static gas. `staticGas == None`
   * is a call built without `with_static_gas`: it gets no fixed amount, only
   * its share of the gas left over.
   */
  datatype FunctionCall<A> = FunctionCall(
    target: AccountId,
    methodName: string,
    args: A,
    deposit: Balance,
    staticGas: Option<Gas>)

  datatype Option<+T> = None | Some(value: T)

  /** `call.then(callback)`: a call and the single continuation the host runs once it resolves. */
  datatype Promise<A> = Then(call: FunctionCall<A>, callback: FunctionCall<A>)

  /** What a function call hands back to the host. */
  datatype PromiseOrValue<A, T> = PromiseResult(promise: Promise<A>) | Value(value: T)

  /**
   * The environment in which the host runs the callback of a promise created
   * during a call in `env`: the callback is received by its target, its
   * predecessor is the account that created the promise, and it carries the
   * deposit the callback descriptor attached.
   */
  function CallbackEnv<A>(env: Env, p: Promise<A>): Env
  {
    Env(p.callback.deposit, env.currentAccount, p.callback.target)
  }

  /** Static gas a promise reserves for its call and its callback together. */
  function StaticGas<A>(p: Promise<A>): nat
  {
    (if p.call.staticGas.Some? then p.call.staticGas.value else 0)
    + (if p.callback.staticGas.Some? then p.callback.staticGas.value else 0)
  }
}
