/** The money path of `submit_task`: the three signature checks, the balance
    gate on the delegate, the split of the price between agent and node, and
    the two token transfers out of the delegate. */
module Settlement {
  import opened Types
  import Borsh

  /** An Ed25519 verifier: decodes the public key and checks the signature
      over the message. It is a parameter of the model, not part of it. */
  type Verifier = (seq<Byte>, Pubkey, seq<Byte>) -> bool

  /** Length of an Ed25519 signature; `Signature::from_bytes` refuses any
      other length. */
  const SIGNATURE_LENGTH: nat := 64

  predicate SignatureValid(verify: Verifier, msg: seq<Byte>, key: Pubkey, sig: seq<Byte>) {
    |sig| == SIGNATURE_LENGTH && verify(msg, key, sig)
  }

  /** The three checks of `submit_task`. Each is made against the payload
      of `task` and against the key `task.user`, including the ones on the
      agent's and the node's signatures. */
  predicate SignaturesAccepted(task: AiTask, sig: AiTaskSignature, verify: Verifier) {
    var msg := Borsh.EncodeTask(task);
    && SignatureValid(verify, msg, task.user, sig.user)
    && SignatureValid(verify, msg, task.user, sig.agent)
    && SignatureValid(verify, msg, task.user, sig.gpuNode)
  }

  /** The user's own signature, copied into all three slots, is accepted:
      nothing requires the agent or the node to have signed. */
  lemma SingleSignerSuffices(task: AiTask, s: seq<Byte>, verify: Verifier)
    requires SignatureValid(verify, Borsh.EncodeTask(task), task.user, s)
    ensures SignaturesAccepted(task, AiTaskSignature(s, s, s), verify)
  {
  }

  /** Whether a task is accepted depends only on what the verifier says about
      the user's key: the agent's and the node's keys are never consulted. */
  lemma OnlyUserKeyConsulted(task: AiTask, sig: AiTaskSignature, v1: Verifier, v2: Verifier)
    requires forall m, s :: v1(m, task.user, s) == v2(m, task.user, s)
    ensures SignaturesAccepted(task, sig, v1) == SignaturesAccepted(task, sig, v2)
  {
  }

  /** The balance gate: the instruction fails with `InsufficientFunds`
      exactly when the delegate holds less than the price. */
  function Gate(amount: nat, price: U64): (r: Option<Error>)
    ensures r.Some? <==> amount < price
    ensures r.Some? ==> r.value == InsufficientFunds
  {
    if amount < price then Some(InsufficientFunds) else None
  }

  /** `gpu_node_reward = price - agent_reward` on `u64`s: the node gets the
      remainder of the price; an agent reward above the price makes the
      subtraction panic. */
  function Split(price: U64, agentReward: U64): (r: Result<(U64, U64)>)
    ensures r.Ok? <==> agentReward <= price
    ensures r.Err? ==> r.error == Panic(SubtractionUnderflow)
    ensures r.Ok? ==> r.value.0 == agentReward && r.value.0 + r.value.1 == price
  {
    if agentReward <= price then Ok((agentReward, price - agentReward))
    else Err(Panic(SubtractionUnderflow))
  }

  /** One token transfer instruction. */
  datatype TransferIx = TransferIx(from: Pubkey, to: Pubkey, authority: Pubkey, amount: nat)

  /** Token balances: an address is a token account exactly when it has an
      entry. */
  type Balances = map<Pubkey, nat>

  /** A token transfer: both ends must be token accounts and the source must
      hold the amount; the source is debited and the destination credited. */
  function Transfer(b: Balances, ix: TransferIx): (r: Option<Balances>)
    ensures r.Some? <==> ix.from in b && ix.to in b && ix.amount <= b[ix.from]
    ensures r.Some? ==> r.value.Keys == b.Keys
    ensures r.Some? && ix.from == ix.to ==> r.value == b
    ensures r.Some? && ix.from != ix.to ==>
      r.value[ix.from] == b[ix.from] - ix.amount && r.value[ix.to] == b[ix.to] + ix.amount
    ensures r.Some? ==> forall k :: k in b && k != ix.from && k != ix.to ==> r.value[k] == b[k]
  {
    if ix.from !in b || ix.to !in b || b[ix.from] < ix.amount then None
    else
      var debited: Balances := b[ix.from := b[ix.from] - ix.amount];
      var credited: Balances := debited[ix.to := debited[ix.to] + ix.amount];
      Some(credited)
  }

  /** What a successful settlement did. */
  datatype Receipt = Receipt(agentReward: U64, nodeReward: U64, transfers: seq<TransferIx>, balances: Balances)

  /** Everything `submit_task` does after the signature checks: read the
      delegate, gate on its amount, split the price, and transfer to the agent
      and then to the node, both signed for by `signer`. */
  function Settle(b: Balances, signer: Pubkey, delegate: Pubkey, agentAcct: Pubkey, nodeAcct: Pubkey,
                  price: U64, agentReward: U64): (r: Result<Receipt>)
    ensures delegate !in b ==> r == Err(AccountDidNotDeserialize)
    ensures r == Err(InsufficientFunds) <==> delegate in b && b[delegate] < price
    ensures delegate in b && price <= b[delegate] && price < agentReward ==> r == Err(Panic(SubtractionUnderflow))
    ensures delegate in b && price <= b[delegate] && agentReward <= price && (agentAcct !in b || nodeAcct !in b) ==>
      r == Err(Panic(TransferFailed))
    ensures r.Ok? <==> delegate in b && agentAcct in b && nodeAcct in b && price <= b[delegate] && agentReward <= price
    ensures r.Ok? ==>
      && r.value.agentReward == agentReward
      && r.value.agentReward + r.value.nodeReward == price
      && r.value.transfers == [TransferIx(delegate, agentAcct, signer, r.value.agentReward),
                               TransferIx(delegate, nodeAcct, signer, r.value.nodeReward)]
  {
    if delegate !in b then Err(AccountDidNotDeserialize)
    else match Gate(b[delegate], price)
      case Some(e) => Err(e)
      case None =>
        match Split(price, agentReward)
        case Err(e) => Err(e)
        case Ok(rewards) =>
          var toAgent := TransferIx(delegate, agentAcct, signer, rewards.0);
          var toNode := TransferIx(delegate, nodeAcct, signer, rewards.1);
          match Transfer(b, toAgent)
          case None => Err(Panic(TransferFailed))
          case Some(b1) =>
            match Transfer(b1, toNode)
            case None => Err(Panic(TransferFailed))
            case Some(b2) => Ok(Receipt(rewards.0, rewards.1, [toAgent, toNode], b2))
  }

  /** Once the gate passes and the reward fits in the price, neither transfer
      can fail for want of funds: the delegate holds the whole price, which
      the two transfers exactly use up. */
  lemma SettleSucceedsAfterGate(b: Balances, signer: Pubkey, delegate: Pubkey, agentAcct: Pubkey,
                                nodeAcct: Pubkey, price: U64, agentReward: U64)
    requires delegate in b && agentAcct in b && nodeAcct in b
    requires price <= b[delegate] && agentReward <= price
    ensures Settle(b, signer, delegate, agentAcct, nodeAcct, price, agentReward).Ok?
  {
  }

  /** A successful settlement debits the delegate by the whole price, credits
      the agent with its reward and the node with the remainder, and leaves
      every other account as it was. */
  lemma SettleMovesPrice(b: Balances, signer: Pubkey, delegate: Pubkey, agentAcct: Pubkey,
                         nodeAcct: Pubkey, price: U64, agentReward: U64)
    requires delegate != agentAcct && delegate != nodeAcct && agentAcct != nodeAcct
    requires Settle(b, signer, delegate, agentAcct, nodeAcct, price, agentReward).Ok?
    ensures var s := Settle(b, signer, delegate, agentAcct, nodeAcct, price, agentReward).value;
      && s.balances.Keys == b.Keys
      && s.balances[delegate] == b[delegate] - price
      && s.balances[agentAcct] == b[agentAcct] + agentReward
      && s.balances[nodeAcct] == b[nodeAcct] + (price - agentReward)
      && forall k :: k in b && k != delegate && k != agentAcct && k != nodeAcct ==> s.balances[k] == b[k]
  {
  }

  /** An allowance of N against a price of N + 1 is refused with
      `InsufficientFunds`, before any transfer. */
  lemma SettleInsufficientExample(delegate: Pubkey, agentAcct: Pubkey, nodeAcct: Pubkey, signer: Pubkey, n: nat)
    requires n + 1 < U64_LIMIT
    ensures Settle(map[delegate := n, agentAcct := 0, nodeAcct := 0], signer, delegate, agentAcct, nodeAcct, n + 1, 0)
            == Err(InsufficientFunds)
  {
  }

  /** An allowance of 1000 settling a task priced 1000 whose agent is owed
      300: the agent receives 300, the node 700, and the delegate is
      emptied. */
  lemma SettleExample(delegate: Pubkey, agentAcct: Pubkey, nodeAcct: Pubkey, signer: Pubkey)
    requires delegate != agentAcct && delegate != nodeAcct && agentAcct != nodeAcct
    ensures var r := Settle(map[delegate := 1000, agentAcct := 0, nodeAcct := 0], signer, delegate, agentAcct, nodeAcct, 1000, 300);
      && r.Ok?
      && r.value.nodeReward == 700
      && r.value.balances == map[delegate := 0, agentAcct := 300, nodeAcct := 700]
  {
  }
}
