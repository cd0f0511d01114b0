/**
 * The `/blink/lock` Solana Action: GET and OPTIONS serve the discovery
 * document; POST validates the requester and the amount and answers with an
 * unsigned transaction that creates a locked stake account and delegates it.
 *
 * The library calls the route makes are collaborators: whether a base58 text
 * decodes to 32 bytes, the seed-based address derivation, and the encoder of
 * the finished transaction are fields of `Collaborators`; the ledger node that
 * supplies the blockhash is a `Web3.RpcNode`.
 */
module LockRoute {
  import opened Wrappers
  import opened Web3
  import opened Actions

  // ---------------------------------------------------------------- constants

  /** SOL staked when the request carries no usable amount. */
  const DEFAULT_SOL_TO_STAKE: real := 1.0

  /** Lockup authority of every stake account the route creates. */
  const CUSTODIAN: PublicKey := PublicKey("DYSfcQYyioaQL3uLQk2xvjaHB4zx6DyGEDhywd3mfh8s")

  /** Unix time until which the stake stays locked. */
  const LOCKUP_TIME: int := 1726815600

  /** Validator vote account the stake is delegated to. */
  const VOTE_ACCOUNT: PublicKey := PublicKey("GREEDkpTvpKzcGvBu9qd36yk6BfjTWPShB67gLWuixMv")

  /** Seed from which the stake account address is derived. */
  const STAKE_SEED: string := "deposit"

  /** Compute unit price, in micro-lamports, of every transaction. */
  const COMPUTE_UNIT_PRICE: int := 1000

  const ICON_PATH: string := "/greed_blink_participate.png"
  const AMOUNT_QUERY: string := "/blink/lock?amount="

  const INVALID_ACCOUNT_MESSAGE: string := "Invalid account provided"
  const INVALID_AMOUNT_MESSAGE: string := "Invalid amount (less than 1)"
  const GENERIC_ERROR: string := "An error occurred"

  // ---------------------------------------------------------- GET / OPTIONS

  /**
   * The discovery document for a request whose origin is `origin`. The icon is
   * the icon path resolved against the origin; the hrefs are relative.
   */
  function Descriptor(origin: string): (d: ActionGetResponse)
    ensures d.icon == origin + ICON_PATH
    ensures |d.actions| == 4
    ensures d.actions[0].href == AMOUNT_QUERY + "1"
    ensures d.actions[1].href == AMOUNT_QUERY + "5"
    ensures d.actions[2].href == AMOUNT_QUERY + "10"
    ensures forall i :: 0 <= i < 3 ==> d.actions[i].parameters == None
    ensures d.actions[3].parameters.Some? && |d.actions[3].parameters.value| == 1
    ensures d.actions[3].parameters.value[0].name == "amount"
    ensures d.actions[3].href == AMOUNT_QUERY + "{" + d.actions[3].parameters.value[0].name + "}"
  {
    ActionGetResponse(
      origin + ICON_PATH,
      "Stake with a lockup",
      "Lock and stake SOL until Breakpoint (September 20th) to participate in the Academy and earn rewards!",
      "GREED Academy",
      [ LinkedAction("1 SOL", "/blink/lock?amount=1", None),
        LinkedAction("5 SOL", "/blink/lock?amount=5", None),
        LinkedAction("10 SOL", "/blink/lock?amount=10", None),
        LinkedAction("Stake with a lockup", "/blink/lock?amount={amount}",
                     Some([ActionParameter("amount", "Enter a custom SOL amount")])) ])
  }

  /** GET: the discovery document, with status 200 and the Actions CORS headers. */
  function Get(origin: string): (r: HttpResponse)
    ensures r.status == 200 && r.cors
    ensures r.body == GetPayload(Descriptor(origin))
  {
    HttpResponse(200, GetPayload(Descriptor(origin)), true)
  }

  /** OPTIONS is bound to the GET handler itself. */
  function Options(origin: string): (r: HttpResponse)
    ensures r == Get(origin)
  {
    Get(origin)
  }

  // ---------------------------------------------------------------- POST

  /** What the query-string parser made of `amount` (numbers parsed). */
  datatype AmountQuery = Absent | Num(r: real) | NonNumeric

  /** The JSON body of a POST. */
  datatype ActionPostRequest = ActionPostRequest(account: string)

  /** A POST: its body (None when it is not valid JSON) and its `amount` query value. */
  datatype PostRequest = PostRequest(body: Option<ActionPostRequest>, amount: AmountQuery)

  /** The library behaviour the route depends on but that is not modelled. */
  datatype Collaborators = Collaborators(
    // the base58 payload of the text is exactly 32 bytes long
    decodesTo32Bytes: string -> bool,
    // PublicKey.createWithSeed(base, seed, programId); None when it throws
    createWithSeed: (PublicKey, string, PublicKey) -> Option<PublicKey>,
    // createPostResponse: the encoded transaction, None when encoding throws
    serialize: TxDraft -> Option<string>)

  /** The three ways a POST fails. */
  datatype Failure = InvalidAccount | InvalidAmount | AssemblyFailure

  /** `new PublicKey(text)`: the text must be base58 and decode to 32 bytes. */
  function DecodeAccount(text: string, env: Collaborators): Option<PublicKey>
  {
    if IsBase58Text(text) && env.decodesTo32Bytes(text) then Some(PublicKey(text)) else None
  }

  /** An explicit numeric amount below one SOL is refused. */
  predicate AmountRejected(q: AmountQuery)
  {
    q.Num? && q.r < 1.0
  }

  /**
   * The SOL to stake, as the route computes it: the query amount when it is a
   * number and truthy (non-zero), the default otherwise.
   */
  function StakeSol(q: AmountQuery): (sol: real)
    ensures !AmountRejected(q) ==> sol >= DEFAULT_SOL_TO_STAKE
    ensures !AmountRejected(q) && q.Num? ==> sol == q.r
    ensures !q.Num? ==> sol == DEFAULT_SOL_TO_STAKE
  {
    if q.Num? && q.r != 0.0 then q.r else DEFAULT_SOL_TO_STAKE
  }

  function FundedLamports(q: AmountQuery): real
  {
    StakeSol(q) * LAMPORTS_PER_SOL
  }

  /** The address of the requester's stake account. */
  function DeriveStakeKey(account: PublicKey, env: Collaborators): Option<PublicKey>
  {
    env.createWithSeed(account, STAKE_SEED, STAKE_PROGRAM_ID)
  }

  /**
   * The checks before any construction: the body must parse (otherwise the
   * generic failure), then the account must decode, then the amount must not
   * be a number below one.
   */
  function Validate(req: PostRequest, env: Collaborators): (r: Result<PublicKey, Failure>)
    ensures r == Err(AssemblyFailure) <==> req.body.None?
    ensures r == Err(InvalidAccount)
        <==> req.body.Some? && DecodeAccount(req.body.value.account, env).None?
    ensures r == Err(InvalidAmount)
        <==> req.body.Some? && DecodeAccount(req.body.value.account, env).Some? && AmountRejected(req.amount)
    ensures r.Ok? ==> req.body.Some? && r.value == PublicKey(req.body.value.account)
                      && IsBase58Text(r.value.base58) && !AmountRejected(req.amount)
  {
    match req.body
    case None => Err(AssemblyFailure)
    case Some(body) =>
      match DecodeAccount(body.account, env)
      case None => Err(InvalidAccount)
      case Some(account) =>
        if AmountRejected(req.amount) then Err(InvalidAmount) else Ok(account)
  }

  /** The three instructions, in the order the route adds them. */
  function StakeInstructions(account: PublicKey, stakeKey: PublicKey, q: AmountQuery): seq<Instruction>
  {
    [ SetComputeUnitPrice(COMPUTE_UNIT_PRICE),
      CreateAccountWithSeed(account, stakeKey, account, STAKE_SEED, Authorized(account, account),
                            Lockup(LOCKUP_TIME, 0, CUSTODIAN), FundedLamports(q)),
      Delegate(stakeKey, account, VOTE_ACCOUNT) ]
  }

  /**
   * The complete unsigned draft for a validated requester: every instruction
   * that names the stake account names the same derived key, every authority
   * and the fee payer are the requester.
   */
  function UnsignedDraft(account: PublicKey, stakeKey: PublicKey, q: AmountQuery, blockhash: Blockhash): (d: TxDraft)
    ensures |d.instructions| == 3
    ensures d.instructions[0] == SetComputeUnitPrice(COMPUTE_UNIT_PRICE)
    ensures d.instructions[1].CreateAccountWithSeed? && d.instructions[2].Delegate?
    ensures var create, delegate := d.instructions[1], d.instructions[2];
      && create.fromPubkey == account && create.basePubkey == account
      && create.authorized.staker == account && create.authorized.withdrawer == account
      && create.seed == STAKE_SEED
      && create.lockup == Lockup(LOCKUP_TIME, 0, CUSTODIAN)
      && create.lamports == FundedLamports(q)
      && create.stakePubkey == stakeKey && delegate.stakePubkey == stakeKey
      && delegate.authorizedPubkey == account && delegate.votePubkey == VOTE_ACCOUNT
    ensures d.feePayer == Some(account) && d.recentBlockhash == Some(blockhash)
  {
    TxDraft(StakeInstructions(account, stakeKey, q), Some(account), Some(blockhash))
  }

  /** Whether handling `req` gets as far as asking the ledger node for a blockhash. */
  predicate ReachesFetch(req: PostRequest, env: Collaborators)
  {
    Validate(req, env).Ok? && DeriveStakeKey(Validate(req, env).value, env).Some?
  }

  /**
   * Validation and assembly up to, not including, encoding. `latest` is the
   * ledger node's answer to the blockhash request. Either a complete draft or
   * a failure: there is no partial result.
   */
  function Assemble(req: PostRequest, env: Collaborators, latest: Option<Blockhash>): (r: Result<TxDraft, Failure>)
    ensures r.Ok? <==> ReachesFetch(req, env) && latest.Some?
    ensures r.Err? && r.error != AssemblyFailure ==> Validate(req, env) == Err(r.error)
    ensures Validate(req, env).Err? ==> r == Err(Validate(req, env).error)
    ensures r.Ok? ==> r.value == UnsignedDraft(PublicKey(req.body.value.account),
                                               DeriveStakeKey(PublicKey(req.body.value.account), env).value,
                                               req.amount, latest.value)
  {
    match Validate(req, env)
    case Err(f) => Err(f)
    case Ok(account) =>
      match DeriveStakeKey(account, env)
      case None => Err(AssemblyFailure)
      case Some(stakeKey) =>
        match latest
        case None => Err(AssemblyFailure)
        case Some(blockhash) => Ok(UnsignedDraft(account, stakeKey, req.amount, blockhash))
  }

  /** The response sent for a failure. */
  function ErrorResponse(f: Failure): HttpResponse
  {
    match f
    case InvalidAccount => HttpResponse(400, Message(INVALID_ACCOUNT_MESSAGE), true)
    case InvalidAmount => HttpResponse(400, Message(INVALID_AMOUNT_MESSAGE), true)
    case AssemblyFailure => HttpResponse(400, Text(GENERIC_ERROR), true)
  }

  /** The response to a POST, given the ledger node's blockhash answer. */
  function PostSpec(req: PostRequest, env: Collaborators, latest: Option<Blockhash>): (r: HttpResponse)
    ensures r.cors
    ensures r.status == 200 || r.status == 400
    ensures r.status == 200 <==> Assemble(req, env, latest).Ok? && env.serialize(Assemble(req, env, latest).value).Some?
    ensures r.status == 200 ==> r.body == PostPayload(env.serialize(Assemble(req, env, latest).value).value)
    ensures r.body == Message(INVALID_ACCOUNT_MESSAGE) <==> Validate(req, env) == Err(InvalidAccount)
    ensures r.body == Message(INVALID_AMOUNT_MESSAGE) <==> Validate(req, env) == Err(InvalidAmount)
    ensures r.body == Text(GENERIC_ERROR) <==> r.status == 400 && !r.body.Message?
    ensures Validate(req, env).Ok? && r.status == 400 ==> r.body == Text(GENERIC_ERROR)
    ensures req.body.None? ==> r == HttpResponse(400, Text(GENERIC_ERROR), true)
    ensures r.body.Message? ==> Validate(req, env).Err? && Validate(req, env).error != AssemblyFailure
  {
    match Assemble(req, env, latest)
    case Err(f) => ErrorResponse(f)
    case Ok(draft) =>
      match env.serialize(draft)
      case None => ErrorResponse(AssemblyFailure)
      case Some(encoded) => HttpResponse(200, PostPayload(encoded), true)
  }

  /**
   * POST, step by step: validate, derive, fill a fresh transaction, ask the
   * ledger node for a blockhash, encode. The node is asked exactly when
   * validation and derivation succeeded.
   */
  method Post(req: PostRequest, env: Collaborators, node: RpcNode) returns (resp: HttpResponse)
    modifies node
    ensures resp == PostSpec(req, env, node.latest)
    ensures node.blockhashRequests == old(node.blockhashRequests) + (if ReachesFetch(req, env) then 1 else 0)
  {
    if req.body.None? {
      return ErrorResponse(AssemblyFailure);
    }
    var decoded := DecodeAccount(req.body.value.account, env);
    if decoded.None? {
      return ErrorResponse(InvalidAccount);
    }
    var account := decoded.value;
    if AmountRejected(req.amount) {
      return ErrorResponse(InvalidAmount);
    }
    var transaction := new Transaction();
    var lockup := Lockup(LOCKUP_TIME, 0, CUSTODIAN);
    var derived := DeriveStakeKey(account, env);
    if derived.None? {
      return ErrorResponse(AssemblyFailure);
    }
    var stakeAccount := derived.value;
    transaction.Add([
      SetComputeUnitPrice(COMPUTE_UNIT_PRICE),
      CreateAccountWithSeed(account, stakeAccount, account, STAKE_SEED, Authorized(account, account),
                            lockup, FundedLamports(req.amount)),
      Delegate(stakeAccount, account, VOTE_ACCOUNT)]);
    assert transaction.instructions == StakeInstructions(account, stakeAccount, req.amount);
    transaction.feePayer := Some(account);
    var blockhash := node.GetLatestBlockhash();
    if blockhash.None? {
      return ErrorResponse(AssemblyFailure);
    }
    transaction.recentBlockhash := blockhash;
    var encoded := env.serialize(transaction.Draft());
    if encoded.None? {
      return ErrorResponse(AssemblyFailure);
    }
    return HttpResponse(200, PostPayload(encoded.value), true);
  }
}
