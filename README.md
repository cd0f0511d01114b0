# Lock-and-stake Solana Action, modelled in Dafny

This project models the `/blink/lock` route of the GREED Academy "lock blink": a
Solana Actions endpoint that lets a wallet discover a staking offer and fetch an
unsigned transaction that creates a time-locked stake account for the caller and
delegates it to a fixed validator.

- `GET` (and `OPTIONS`, which is the same handler) returns the discovery
  document: an icon resolved against the request origin, a title, a label, a
  description, three fixed-amount links (1, 5 and 10 SOL) and one templated link
  whose single parameter is `amount`.
- `POST` checks, in this order, that the JSON body parses, that `account` is a
  public key and that an explicit numeric `amount` is not below one. It then
  derives the stake account from (account, `"deposit"`, stake program id). It
  fills a fresh transaction with a compute-unit price of 1000 micro-lamports, a
  create-account-with-seed instruction and a delegate instruction. It sets the
  fee payer, asks the ledger node for a recent blockhash and encodes the result.
  Any failure after the two checks gives the generic error; every response
  carries the Actions CORS headers.

Files:

- `wrappers.dfy`: `Option` and `Result`.
- `web3.dfy`: the library shapes the route uses. It holds public keys (by their
  base58 text), the three instructions, the `Transaction` class that is filled in
  step by step, and the `RpcNode` class that answers blockhash requests and
  counts them.
- `actions.dfy`: the Actions documents and HTTP responses (status, JSON body,
  CORS flag).
- `lock_route.dfy`: the constants, `Descriptor`/`Get`/`Options`, the
  specification functions of `POST` and the imperative `Post` method proved
  against them.
- `lock_route_properties.dfy`: properties across requests and the scenarios.

Library behaviour that the route relies on but does not define is passed in as
`Collaborators`. That covers whether a base58 text decodes to 32 bytes,
`PublicKey.createWithSeed` (which may throw) and the transaction encoder of
`createPostResponse` (which may throw). The ledger node is an `RpcNode` whose
answer may be a failure.

Two behaviours of the code worth noting:

- The generic error body is the bare JSON string `"An error occurred"`, not a
  `{ message }` object.
- A body that is not valid JSON is answered with the generic error before the
  account is looked at.

## Model

| member | source | states |
|---|---|---|
| `LockRoute.Descriptor` | src/app/blink/lock/route.ts:24-59 | icon is origin joined with `/greed_blink_participate.png`; exactly four actions; the first three are parameterless links to `/blink/lock?amount=` 1, 5 and 10; the last has exactly one parameter, named `amount`, and its href template is `/blink/lock?amount={` + that name + `}` |
| `LockRoute.Get` | src/app/blink/lock/route.ts:23-64 | the discovery document is sent with status 200 and the CORS headers |
| `LockRoute.Options` | src/app/blink/lock/route.ts:66 | OPTIONS answers exactly what GET answers |
| `LockRoute.StakeSol` | src/app/blink/lock/route.ts:119-122 | modelled as written (a number that is truthy, else the default 1); once the amount check has passed it is the requested number, at least 1, and exactly 1 SOL when the amount is absent or not a number |
| `LockRoute.Validate` | src/app/blink/lock/route.ts:70-96 | error order as iff's: unparsable body gives the generic failure; otherwise an account that does not decode gives InvalidAccount; otherwise a number below 1 gives InvalidAmount; success yields the key of the given account text |
| `LockRoute.UnsignedDraft` | src/app/blink/lock/route.ts:98-140 | exactly three instructions: price 1000, then create, then delegate; from, base, staker and withdrawer are the requester; seed `deposit`; lockup (1726815600, 0, custodian); create and delegate name the same stake key; delegate authority is the requester, vote key the fixed validator; fee payer is the requester; blockhash is the fetched one |
| `LockRoute.Assemble` | src/app/blink/lock/route.ts:70-140 | succeeds iff validation, derivation and the blockhash fetch all succeed, and then yields the requester's draft with the derived key; a validation error is passed on unchanged, and a non-generic error comes only from validation; otherwise no partial draft, only a failure |
| `LockRoute.PostSpec` | src/app/blink/lock/route.ts:69-155 | every response has CORS headers and status 200 or 400; 200 iff assembly and encoding succeed, with the encoded draft as payload; the two validation messages appear iff the matching validation error occurs; an unparsable body gives the generic body `An error occurred`, and once validation has passed every 400 has that generic body; a `{ message }` body only ever reports a validation error |
| `LockRoute.Post` | src/app/blink/lock/route.ts:69-155 | the step-by-step handler returns exactly `PostSpec` for the node's answer; the ledger node receives one blockhash request iff validation and derivation succeeded, none otherwise |
| `Web3.Transaction.constructor` | src/app/blink/lock/route.ts:98 | a new transaction has no instructions, fee payer or blockhash |
| `Web3.Transaction.Add` | src/app/blink/lock/route.ts:108-131 | appends the instructions in order and changes nothing else |
| `Web3.RpcNode.constructor` | src/app/blink/lock/route.ts:135-137 | a node with a given answer has served no requests |
| `Web3.RpcNode.GetLatestBlockhash` | src/app/blink/lock/route.ts:138-140 | returns the node's answer and counts one request |
| `LockRouteProperties.InvalidAccountShortCircuits` | src/app/blink/lock/route.ts:74-85 | an account that does not decode gives 400 "Invalid account provided" whatever the amount, derivation or ledger, and the fetch is not reached |
| `LockRouteProperties.NotAKeyIsRejected` | src/app/blink/lock/route.ts:74-85 | `not-a-key` is rejected as an invalid account for every amount and environment |
| `LockRouteProperties.SmallAmountShortCircuits` | src/app/blink/lock/route.ts:87-96 | a valid account with a numeric amount below 1 gives 400 "Invalid amount (less than 1)" and the fetch is not reached |
| `LockRouteProperties.FundingFollowsAmount` | src/app/blink/lock/route.ts:119-122 | in a successful draft the funded lamports are amount × 10^9 for a numeric amount and 1 × 10^9 otherwise |
| `LockRouteProperties.FundingRange` | src/app/blink/lock/route.ts:87-122 | the fundable lamport amounts are exactly those of at least one SOL (lower bound enforced, no upper bound) |
| `LockRouteProperties.StakeKeyIsDeterministic` | src/app/blink/lock/route.ts:102-125 | two successful requests from the same account use the same derived stake key, the one derived from (account, `deposit`, stake program) |
| `LockRouteProperties.DraftOrderIsFixed` | src/app/blink/lock/route.ts:108-140 | every successful draft is [price, create, delegate], paid by the requester, with the fetched blockhash |
| `LockRouteProperties.DefaultAndExplicitAmounts` | src/app/blink/lock/route.ts:119-122 | no amount funds 10^9 lamports; `amount=5` funds 5 × 10^9 |
| `LockRouteProperties.ExampleOriginDescriptor` | src/app/blink/lock/route.ts:24-57 | for origin `https://example.com` the icon is `https://example.com/greed_blink_participate.png` and there are four actions |
| `LockRouteProperties.SmallAmountNeverQueriesLedger` | src/app/blink/lock/route.ts:87-140 | `amount=0` from a valid account is refused and a fresh ledger node has received no blockhash request |

## Left out

- HTTP plumbing: only status, JSON body and a "CORS headers attached" flag are kept. The header contents and the `statusText` of the amount error are not modelled.
- Query-string parsing: the parsed `amount` is an input (`Absent`, `Num`, `NonNumeric`). Repeated keys, `null` and strings all count as `NonNumeric`.
- JavaScript numbers: amounts and lamports are exact reals. NaN is never produced by the parser, and Infinity is not modelled. Rounding of `amount * LAMPORTS_PER_SOL` is not modelled either.
- Public key decoding: the base58 alphabet check is concrete. Whether the digits decode to exactly 32 bytes is a collaborator. A body that is not a JSON object is not modelled (reading `account` from it throws inside the account check, so the route answers "Invalid account provided"). An `account` that is not a string is not modelled either; what the route answers then depends on how `new PublicKey` treats non-string input.
- `PublicKey.createWithSeed`: its SHA-256 derivation is a collaborator function of (base, seed, program id); it may fail.
- Instruction construction is total in the model. Library-level rejection of, for example, non-integral lamports is not modelled. Instruction byte layouts are left out too.
- The model's `Instruction` values are the three arguments of `transaction.add`. The library turns the create-account-with-seed argument into two on-chain instructions (a system create-with-seed and a stake initialize), so the encoded transaction holds four instructions; that expansion is not modelled.
- `createPostResponse`: transaction wire serialisation and base64 encoding are a collaborator that may fail.
- RPC endpoint choice (`NEXT_PUBLIC_RPC_URL` or the mainnet-beta default) is not modelled: the ledger node is an input.
- URL resolution: the request origin is an input, and the icon is the origin followed by the icon path. Host normalisation and an unparsable request URL are not modelled.
- `async`/`await`: handling is sequential; there is no concurrency here.
