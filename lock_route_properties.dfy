/**
 * Properties of the `/blink/lock` route that relate several requests or
 * several stages, and the concrete scenarios the route is expected to meet.
 */
module LockRouteProperties {
  import opened Wrappers
  import opened Web3
  import opened Actions
  import opened LockRoute

  /** A malformed account is answered before the amount, the derivation or the ledger is consulted. */
  lemma InvalidAccountShortCircuits(req: PostRequest, env: Collaborators, latest: Option<Blockhash>)
    requires req.body.Some? && DecodeAccount(req.body.value.account, env).None?
    ensures PostSpec(req, env, latest) == HttpResponse(400, Message(INVALID_ACCOUNT_MESSAGE), true)
    ensures !ReachesFetch(req, env)
  {
  }

  /** "not-a-key" holds a '-', which is not a base58 digit, whatever the rest of the request. */
  lemma NotAKeyIsRejected(amount: AmountQuery, env: Collaborators, latest: Option<Blockhash>)
    ensures PostSpec(PostRequest(Some(ActionPostRequest("not-a-key")), amount), env, latest)
         == HttpResponse(400, Message(INVALID_ACCOUNT_MESSAGE), true)
  {
    assert !IsBase58Digit("not-a-key"[3]);
  }

  /** A valid account with an explicit amount below one is refused before any construction or fetch. */
  lemma SmallAmountShortCircuits(req: PostRequest, env: Collaborators, latest: Option<Blockhash>)
    requires req.body.Some? && DecodeAccount(req.body.value.account, env).Some?
    requires req.amount.Num? && req.amount.r < 1.0
    ensures PostSpec(req, env, latest) == HttpResponse(400, Message(INVALID_AMOUNT_MESSAGE), true)
    ensures !ReachesFetch(req, env)
  {
  }

  /**
   * The stake account is funded with the requested amount of SOL when the
   * amount is a number, and with one SOL when it is absent or not a number.
   */
  lemma FundingFollowsAmount(req: PostRequest, env: Collaborators, latest: Option<Blockhash>)
    requires Assemble(req, env, latest).Ok?
    ensures Assemble(req, env, latest).value.instructions[1].lamports
         == (if req.amount.Num? then req.amount.r else DEFAULT_SOL_TO_STAKE) * LAMPORTS_PER_SOL
  {
  }

  /**
   * The lamport amounts a request can fund are exactly those of at least one
   * SOL: the lower bound is enforced and there is no upper bound.
   */
  lemma FundingRange(lamports: real)
    ensures (exists q :: !AmountRejected(q) && FundedLamports(q) == lamports) <==> lamports >= LAMPORTS_PER_SOL
  {
    if lamports >= LAMPORTS_PER_SOL {
      var q := Num(lamports / LAMPORTS_PER_SOL);
      assert !AmountRejected(q) && FundedLamports(q) == lamports;
    }
  }

  /**
   * The stake account is a function of the requester alone: two successful
   * requests from the same account create and delegate the same derived key.
   */
  lemma StakeKeyIsDeterministic(req1: PostRequest, req2: PostRequest, env: Collaborators,
                                latest1: Option<Blockhash>, latest2: Option<Blockhash>)
    requires Assemble(req1, env, latest1).Ok? && Assemble(req2, env, latest2).Ok?
    requires req1.body.value.account == req2.body.value.account
    ensures var d1, d2 := Assemble(req1, env, latest1).value, Assemble(req2, env, latest2).value;
      && d1.instructions[1].stakePubkey == d2.instructions[1].stakePubkey
      && d1.instructions[2].stakePubkey == d2.instructions[2].stakePubkey
      && d1.instructions[1].stakePubkey
         == env.createWithSeed(PublicKey(req1.body.value.account), "deposit", STAKE_PROGRAM_ID).value
  {
  }

  /** A successful draft always carries, in this order, the price, create and delegate instructions. */
  lemma DraftOrderIsFixed(req: PostRequest, env: Collaborators, latest: Option<Blockhash>)
    requires Assemble(req, env, latest).Ok?
    ensures var ixs := Assemble(req, env, latest).value.instructions;
      |ixs| == 3 && ixs[0].SetComputeUnitPrice? && ixs[1].CreateAccountWithSeed? && ixs[2].Delegate?
    ensures Assemble(req, env, latest).value.feePayer == Some(PublicKey(req.body.value.account))
    ensures Assemble(req, env, latest).value.recentBlockhash == latest
  {
  }

  /** Scenarios: no amount funds one SOL, `amount=5` funds five. */
  lemma DefaultAndExplicitAmounts(account: string, env: Collaborators, blockhash: Blockhash)
    requires DecodeAccount(account, env).Some? && DeriveStakeKey(PublicKey(account), env).Some?
    ensures Assemble(PostRequest(Some(ActionPostRequest(account)), Absent), env, Some(blockhash))
              .value.instructions[1].lamports == 1_000_000_000.0
    ensures Assemble(PostRequest(Some(ActionPostRequest(account)), Num(5.0)), env, Some(blockhash))
              .value.instructions[1].lamports == 5_000_000_000.0
  {
  }

  /** Scenario: discovery from https://example.com. */
  lemma ExampleOriginDescriptor()
    ensures Descriptor("https://example.com").icon == "https://example.com/greed_blink_participate.png"
    ensures |Descriptor("https://example.com").actions| == 4
  {
  }

  /**
   * An amount of zero from a valid account is refused, and the ledger node
   * receives no blockhash request.
   */
  method SmallAmountNeverQueriesLedger(account: string, env: Collaborators)
    returns (resp: HttpResponse, requests: nat)
    requires DecodeAccount(account, env).Some?
    ensures resp == HttpResponse(400, Message(INVALID_AMOUNT_MESSAGE), true)
    ensures requests == 0
  {
    var node := new RpcNode(Some("blockhash"));
    resp := Post(PostRequest(Some(ActionPostRequest(account)), Num(0.0)), env, node);
    requests := node.blockhashRequests;
  }
}
