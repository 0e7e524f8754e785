# Coordinator swap quote consumer, modelled in Dafny

The asset-swapper's `CoordinatorSwapQuoteConsumer` takes a swap quote that the
quoting engine has already computed (signed 0x orders, a direction, a fill
amount, a gas price and a worst-case protocol fee) and either

- builds the calldata of the exchange's fill-or-kill call for it, or
- executes it: checks the caller's execution options, resolves the taker
  address, and submits the fill-or-kill call through the coordinator client,
  returning the transaction hash.

The model has three modules:

- `Types` (`types.dfy`): quotes, orders, contract addresses, the calldata
  record, execution options, transaction options and the error taxonomy.
  Execution options are JavaScript values (`JsValue`), because the option
  checks exist to reject values of the wrong run-time type; `Truthy` and `Or`
  give JavaScript's `||`, which picks the attached value.
- `Externals` (`externals.dfy`): the foreign collaborators. The ABI encoder,
  the coordinator's answer, the taker-address resolver's answer and the two
  opaque assertions (`isValidSwapQuote`, `isETHAddressHex`) are functions
  supplied at construction, so the model claims nothing about what they
  compute. The coordinator client keeps a log of the requests it submitted
  and the provider a log of taker lookups, so contracts can state whether a
  submission or lookup happened and with which arguments.
- `QuoteConsumers` (`coordinator_swap_quote_consumer.dfy`): the consumer
  class with its immutable configuration. `GetCalldataOrThrow` is a
  function and `ExecuteSwapQuoteOrThrow` a method. `MarketCall` is the
  direction-to-call mapping. Both operations branch on the quote's type as
  the source does. Both are proved to produce exactly `MarketCall(quote)`,
  so the buy/sell mapping cannot differ between calldata building and
  execution.

Behaviour kept exactly as the code has it:

- The `ethAmount` check is `isBigNumber` only; a negative BigNumber passes, and is attached.
- Execution always goes through the coordinator client; this consumer has no direct-exchange path.
- The calldata record pairs an encoded *exchange* call with the *coordinator* address as `toAddress`. The model does not model what the coordinator contract does with such calldata.

## Model

| member | source | states |
|---|---|---|
| `QuoteConsumers.Signatures` | packages/asset-swapper/src/quote_consumers/coordinator_swap_quote_consumer.ts:51 | one signature per order, same length, `sigs[i]` is `orders[i].signature` |
| `QuoteConsumers.MarketCall` | packages/asset-swapper/src/quote_consumers/coordinator_swap_quote_consumer.ts:54-62 | a buy quote maps to the buy fill-or-kill entry point with `makerAssetFillAmount`; a sell quote maps to the sell entry point with `takerAssetFillAmount`; arguments are (orders, amount, signatures of those orders) |
| `QuoteConsumers.CheckExecutionOpts` | packages/asset-swapper/src/quote_consumers/coordinator_swap_quote_consumer.ts:80-88 | no error exactly when every supplied option is well formed (absent options are not checked); the reported error is the first failing check in the order taker address, gas limit, ETH amount |
| `QuoteConsumers.AttachedValueIsOverrideOrFee` | packages/asset-swapper/src/quote_consumers/coordinator_swap_quote_consumer.ts:93 | after the checks pass, JavaScript's "ethAmount or protocol fee" is the supplied ETH amount whenever one is given, zero included, and the protocol fee otherwise |
| `QuoteConsumers.CoordinatorSwapQuoteConsumer.constructor` | packages/asset-swapper/src/quote_consumers/coordinator_swap_quote_consumer.ts:30-43 | chain id, contract addresses and provider are stored; the coordinator client is bound to the coordinator address and chain id, the exchange wrapper to the exchange address; nothing has been submitted |
| `QuoteConsumers.CoordinatorSwapQuoteConsumer.GetCalldataOrThrow` | packages/asset-swapper/src/quote_consumers/coordinator_swap_quote_consumer.ts:45-70 | fails with `InvalidQuote` exactly when the quote is invalid; otherwise the bytes are the encoding of `MarketCall(quote)`, `ethAmount` is the worst-case protocol fee, `toAddress` the coordinator address and `allowanceTarget` the ERC-20 proxy address |
| `QuoteConsumers.CalldataIgnoresOutputOpts` | packages/asset-swapper/src/quote_consumers/coordinator_swap_quote_consumer.ts:47 | the calldata record does not depend on the output options |
| `QuoteConsumers.CoordinatorSwapQuoteConsumer.ExecuteSwapQuoteOrThrow` | packages/asset-swapper/src/quote_consumers/coordinator_swap_quote_consumer.ts:72-118 | an invalid quote or a malformed supplied option fails with its error and causes no taker lookup and no submission; otherwise exactly one lookup; if it fails, its error is returned and nothing is submitted; else exactly one request is submitted with `MarketCall(quote)`, the time in whole seconds, `from` the resolved taker, `gas` the caller's gas limit, `gasPrice` the quote's, `value` the override or the protocol fee; the result is the coordinator's hash or its refusal |
| `QuoteConsumers.ExecutionSubmitsTheCalldataCall` | packages/asset-swapper/src/quote_consumers/coordinator_swap_quote_consumer.ts:95-113 | for an admitted quote, the call execution submits is the call whose encoding calldata building returns, for buy and sell alike |
| `Externals.CoordinatorClient.constructor` | packages/asset-swapper/src/quote_consumers/coordinator_swap_quote_consumer.ts:41 | the client is bound to the coordinator address and the chain id |
| `Externals.CoordinatorClient.MarketBuyOrdersFillOrKillAsync` | packages/asset-swapper/src/quote_consumers/coordinator_swap_quote_consumer.ts:97-103 | one buy fill-or-kill request with the given arguments is appended to the log; the answer is the coordinator's |
| `Externals.CoordinatorClient.MarketSellOrdersFillOrKillAsync` | packages/asset-swapper/src/quote_consumers/coordinator_swap_quote_consumer.ts:106-112 | one sell fill-or-kill request with the given arguments is appended to the log; the answer is the coordinator's |
| `Externals.ExchangeContract.constructor` | packages/asset-swapper/src/quote_consumers/coordinator_swap_quote_consumer.ts:42 | the exchange wrapper is bound to the exchange address |
| `Externals.Provider.constructor` | packages/asset-swapper/src/quote_consumers/coordinator_swap_quote_consumer.ts:37-38 | the provider answers taker lookups through `takerAddressFor` and has served none yet |
| `Externals.GetTakerAddressOrThrow` | packages/asset-swapper/src/quote_consumers/coordinator_swap_quote_consumer.ts:92 | one lookup with the caller's options is logged; the answer is the resolver's |

## Left out

- ABI encoding: `abiEncoder` is an arbitrary function of the call; how the bytes are produced is not modelled.
- The taker-address resolver (`swapQuoteConsumerUtils.getTakerAddressOrThrowAsync`) is not part of this model: `takerAddressFor` is an arbitrary answer per lookup, and nothing is claimed about how it chooses.
- `isValidSwapQuote` and `isETHAddressHex` are not part of this model: they are arbitrary predicates supplied at construction. `isNumber` and `isBigNumber` are modelled as run-time type tests on `JsValue`.
- JavaScript numbers are integers here: fractional values, NaN and infinities are not represented, so `isNumber` cannot reject them.
- Coordinator client internals, the network, `async`/`await` and promises: the submission is one call whose answer is `relay(k, request)`; signer refusals and incomplete fills reach the caller only as that answer.
- The wall clock is the parameter `nowMilliseconds`; the no-op progress callback passed to the coordinator client is not modelled.
- Constructor plumbing: the lodash merge with default options, the `isNumber` check of the chain id (the model takes an integer chain id) and provider standardisation.
- `_getCoordinatorContractAddress` (never called) and the commented-out `getSignedZeroExTransactionAsync` have no behaviour to model.
- Concurrent executions: the consumer's own fields never change, and the model has no interleaving of two executions over the shared provider and client logs.
