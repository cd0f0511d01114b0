/**
 * The parts of the Solana web3 library that the lock route uses, reduced to
 * their observable shape: public keys, the three instructions the route builds,
 * the mutable transaction draft and the RPC node that hands out blockhashes.
 * Cryptography, byte layouts and wire formats are not modelled.
 */
module Web3 {
  import opened Wrappers

  /** A public key, identified by its (canonical) base58 text. */
  datatype PublicKey = PublicKey(base58: string)

  /** An opaque recent blockhash as returned by the RPC node. */
  type Blockhash = string

  /** Lamports in one SOL. */
  const LAMPORTS_PER_SOL: real := 1_000_000_000.0

  /** Identifier of the native stake program. */
  const STAKE_PROGRAM_ID: PublicKey := PublicKey("Stake11111111111111111111111111111111111111")

  /**
   * The digits of the Bitcoin base58 alphabet: '1'-'9', 'A'-'Z' without 'I'
   * and 'O', 'a'-'z' without 'l'. Any other character makes the decoder throw.
   */
  predicate IsBase58Digit(c: char)
  {
    || ('1' <= c <= '9')
    || ('A' <= c <= 'Z' && c != 'I' && c != 'O')
    || ('a' <= c <= 'z' && c != 'l')
  }

  predicate IsBase58Text(s: string)
  {
    forall i :: 0 <= i < |s| ==> IsBase58Digit(s[i])
  }

  /** Lockup of a stake account: expiry time, expiry epoch and the custodian who may lift it. */
  datatype Lockup = Lockup(unixTimestamp: int, epoch: int, custodian: PublicKey)

  /** The stake authority and the withdraw authority of a stake account. */
  datatype Authorized = Authorized(staker: PublicKey, withdrawer: PublicKey)

  /** The instructions the route puts into a transaction, by their parameters. */
  datatype Instruction =
    | SetComputeUnitPrice(microLamports: int)
    | CreateAccountWithSeed(fromPubkey: PublicKey, stakePubkey: PublicKey, basePubkey: PublicKey,
                            seed: string, authorized: Authorized, lockup: Lockup, lamports: real)
    | Delegate(stakePubkey: PublicKey, authorizedPubkey: PublicKey, votePubkey: PublicKey)

  /** The value of a transaction draft at one moment: what an encoder serialises. */
  datatype TxDraft = TxDraft(instructions: seq<Instruction>, feePayer: Option<PublicKey>,
                             recentBlockhash: Option<Blockhash>)

  /** An unsigned transaction that is filled in step by step. */
  class Transaction {
    var instructions: seq<Instruction>
    var feePayer: Option<PublicKey>
    var recentBlockhash: Option<Blockhash>

    constructor ()
      ensures instructions == [] && feePayer == None && recentBlockhash == None
    {
      instructions := [];
      feePayer := None;
      recentBlockhash := None;
    }

    /** Appends the given instructions, in order, after those already present. */
    method Add(items: seq<Instruction>)
      modifies this
      ensures instructions == old(instructions) + items
      ensures feePayer == old(feePayer) && recentBlockhash == old(recentBlockhash)
    {
      instructions := instructions + items;
    }

    function Draft(): TxDraft
      reads this
    {
      TxDraft(instructions, feePayer, recentBlockhash)
    }
  }

  /**
   * The ledger node behind a connection. `latest` is what it answers to a
   * latest-blockhash request (None: the request fails); `blockhashRequests`
   * counts the requests it has received.
   */
  class RpcNode {
    const latest: Option<Blockhash>
    var blockhashRequests: nat

    constructor (answer: Option<Blockhash>)
      ensures latest == answer && blockhashRequests == 0
    {
      latest := answer;
      blockhashRequests := 0;
    }

    method GetLatestBlockhash() returns (r: Option<Blockhash>)
      modifies this
      ensures r == latest
      ensures blockhashRequests == old(blockhashRequests) + 1
    {
      blockhashRequests := blockhashRequests + 1;
      r := latest;
    }
  }
}
