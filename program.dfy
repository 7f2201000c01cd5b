/** The program's state and its instructions: `initialize`,
    `register_gpu_node`, `register_agent` and `submit_task`. */
module Program {
  import opened Types
  import opened Registry
  import opened Settlement

  /** `((price as f64) * revenue_split) as u64`: the agent's share, computed
      in floating point and cast back with saturation. A parameter of the
      model. */
  type RewardOf = (U64, F64) -> U64

  /** Per-owner lists: each duplicate-free and listed in `registry`. */
  ghost predicate ListsValid(lists: map<Pubkey, seq<Pubkey>>, registry: seq<Pubkey>) {
    forall o | o in lists :: NoDuplicates(lists[o]) && Within(lists[o], registry)
  }

  /** The list of `owner`; an owner without one has an empty list. */
  function ListOf(lists: map<Pubkey, seq<Pubkey>>, owner: Pubkey): seq<Pubkey> {
    if owner in lists then lists[owner] else []
  }

  /** Replacing the owner's list leaves every other owner's list alone. */
  lemma OtherOwnersUnchanged(lists: map<Pubkey, seq<Pubkey>>, owner: Pubkey, owned: seq<Pubkey>)
    ensures lists[owner := owned] - {owner} == lists - {owner}
  {
    var updated := lists[owner := owned] - {owner};
    assert updated.Keys == (lists - {owner}).Keys;
    forall o | o in updated ensures updated[o] == lists[o] {
    }
  }

  /** A key missing from the registry is missing from every owner list. */
  lemma UnregisteredIsUnlisted(lists: map<Pubkey, seq<Pubkey>>, registry: seq<Pubkey>, owner: Pubkey, k: Pubkey)
    requires ListsValid(lists, registry) && k !in registry
    ensures k !in ListOf(lists, owner)
  {
  }

  /** Pushing a key absent from the owner's list onto it and onto the
      registry keeps every owner list valid. */
  lemma ListsValidAfterPush(lists: map<Pubkey, seq<Pubkey>>, registry: seq<Pubkey>, owner: Pubkey, k: Pubkey)
    requires ListsValid(lists, registry) && k !in ListOf(lists, owner)
    ensures ListsValid(lists[owner := ListOf(lists, owner) + [k]], registry + [k])
  {
    var owned := ListOf(lists, owner);
    var pushed := lists[owner := owned + [k]];
    forall o | o in pushed
      ensures NoDuplicates(pushed[o]) && Within(pushed[o], registry + [k])
    {
      if o == owner {
        assert NoDuplicates(owned) && Within(owned, registry);
        PushAbsentKeepsUnique(owned, k);
        WithinAfterPush(owned, registry, k);
      } else {
        assert pushed[o] == lists[o];
        WithinAfterPush(lists[o], registry, k);
      }
    }
  }

  class ProgramState {
    /** Node and agent accounts, by account address. */
    var gpuNodeAccounts: map<Pubkey, GpuNode>
    var agentAccounts: map<Pubkey, Agent>
    /** The global registries. */
    var gpuNodeRegistry: seq<Pubkey>
    var agentRegistry: seq<Pubkey>
    var aiTaskRegistry: seq<Pubkey>
    /** The per-owner lists, by owner address (the `gpu_nodes` and `agents`
        accounts derived from the owner's key). */
    var gpuNodeLists: map<Pubkey, seq<Pubkey>>
    var agentLists: map<Pubkey, seq<Pubkey>>
    /** Token account amounts, among them the delegates the users fund. */
    var balances: Balances

    /** The agent registry never lists a key twice; every owner list is
        duplicate-free and listed in its global registry. */
    ghost predicate Valid()
      reads this
    {
      && NoDuplicates(agentRegistry)
      && ListsValid(agentLists, agentRegistry)
      && ListsValid(gpuNodeLists, gpuNodeRegistry)
    }

    /** The owner's node list; an owner without one has an empty list. */
    function OwnedGpuNodes(owner: Pubkey): seq<Pubkey>
      reads this
    {
      ListOf(gpuNodeLists, owner)
    }

    /** The owner's agent list; an owner without one has an empty list. */
    function OwnedAgents(owner: Pubkey): seq<Pubkey>
      reads this
    {
      ListOf(agentLists, owner)
    }

    /** `initialize`: the global registries start empty. Token balances are
        kept by the token program and are given. */
    constructor (tokenBalances: Balances)
      ensures Valid()
      ensures gpuNodeRegistry == [] && agentRegistry == [] && aiTaskRegistry == []
      ensures gpuNodeLists == map[] && agentLists == map[]
      ensures gpuNodeAccounts == map[] && agentAccounts == map[]
      ensures balances == tokenBalances
    {
      gpuNodeAccounts, agentAccounts := map[], map[];
      gpuNodeRegistry, agentRegistry, aiTaskRegistry := [], [], [];
      gpuNodeLists, agentLists := map[], map[];
      balances := tokenBalances;
    }

    /** `register_gpu_node`: the node account is overwritten with `node`
        whether or not the key is listed; the key is pushed onto the owner's
        list and the global registry unless the owner's list has it. */
    method RegisterGpuNode(owner: Pubkey, nodeKey: Pubkey, node: GpuNode)
      requires Valid()
      modifies this`gpuNodeAccounts, this`gpuNodeLists, this`gpuNodeRegistry
      ensures Valid()
      ensures gpuNodeAccounts == old(gpuNodeAccounts)[nodeKey := node]
      ensures var r := GpuInsert(Lists(old(OwnedGpuNodes(owner)), old(gpuNodeRegistry)), nodeKey);
        OwnedGpuNodes(owner) == r.owned && gpuNodeRegistry == r.global
      ensures gpuNodeLists - {owner} == old(gpuNodeLists) - {owner}
    {
      gpuNodeAccounts := gpuNodeAccounts[nodeKey := node];
      var owned := OwnedGpuNodes(owner);
      var found := Scan(owned, nodeKey);
      if found {
        return;
      }
      ListsValidAfterPush(gpuNodeLists, gpuNodeRegistry, owner, nodeKey);
      OtherOwnersUnchanged(gpuNodeLists, owner, owned + [nodeKey]);
      gpuNodeLists := gpuNodeLists[owner := owned + [nodeKey]];
      gpuNodeRegistry := gpuNodeRegistry + [nodeKey];
    }

    /** `register_agent`: the agent account is overwritten with `agent`
        whether or not the key is listed; the key is pushed onto the owner's
        list and the global registry unless the global registry has it. */
    method RegisterAgent(owner: Pubkey, agentKey: Pubkey, agent: Agent)
      requires Valid()
      modifies this`agentAccounts, this`agentLists, this`agentRegistry
      ensures Valid()
      ensures agentAccounts == old(agentAccounts)[agentKey := agent]
      ensures var r := AgentInsert(Lists(old(OwnedAgents(owner)), old(agentRegistry)), agentKey);
        OwnedAgents(owner) == r.owned && agentRegistry == r.global
      ensures agentLists - {owner} == old(agentLists) - {owner}
    {
      agentAccounts := agentAccounts[agentKey := agent];
      var found := Scan(agentRegistry, agentKey);
      if found {
        return;
      }
      var owned := OwnedAgents(owner);
      UnregisteredIsUnlisted(agentLists, agentRegistry, owner, agentKey);
      PushAbsentKeepsUnique(agentRegistry, agentKey);
      ListsValidAfterPush(agentLists, agentRegistry, owner, agentKey);
      OtherOwnersUnchanged(agentLists, owner, owned + [agentKey]);
      agentLists := agentLists[owner := owned + [agentKey]];
      agentRegistry := agentRegistry + [agentKey];
    }

    /** `submit_task`. `signer` signs the transaction and authorises both
        transfers; `delegate` is the token account derived from its key.
        Account loading refuses an agent or node address that holds no such
        record; the three signature checks panic on failure; then the money
        moves as `Settle` says. A failed instruction leaves the balances as
        they were, and no instruction writes the task registry. */
    method SubmitTask(signer: Pubkey, delegate: Pubkey, agentKey: Pubkey, nodeKey: Pubkey,
                      task: AiTask, sig: AiTaskSignature, verify: Verifier, rewardOf: RewardOf)
      returns (r: Result<Receipt>)
      modifies this`balances
      ensures agentKey !in agentAccounts || nodeKey !in gpuNodeAccounts ==> r == Err(AccountNotInitialized)
      ensures agentKey in agentAccounts && nodeKey in gpuNodeAccounts && !SignaturesAccepted(task, sig, verify) ==>
        r == Err(Panic(SignatureRejected))
      ensures agentKey in agentAccounts && nodeKey in gpuNodeAccounts && SignaturesAccepted(task, sig, verify) ==>
        r == Settle(old(balances), signer, delegate, agentKey, nodeKey,
                    task.price, rewardOf(task.price, agentAccounts[agentKey].revenueSplit))
      ensures balances == if r.Ok? then r.value.balances else old(balances)
      ensures aiTaskRegistry == old(aiTaskRegistry)
    {
      if agentKey !in agentAccounts || nodeKey !in gpuNodeAccounts {
        return Err(AccountNotInitialized);
      }
      var msg := Borsh.EncodeTask(task);
      if !SignatureValid(verify, msg, task.user, sig.user)
        || !SignatureValid(verify, msg, task.user, sig.agent)
        || !SignatureValid(verify, msg, task.user, sig.gpuNode)
      {
        return Err(Panic(SignatureRejected));
      }
      if delegate !in balances {
        return Err(AccountDidNotDeserialize);
      }
      var approvedAmount := balances[delegate];
      if approvedAmount < task.price {
        return Err(InsufficientFunds);
      }
      var price := task.price;
      var agentReward := rewardOf(price, agentAccounts[agentKey].revenueSplit);
      if price < agentReward {
        return Err(Panic(SubtractionUnderflow));
      }
      var gpuNodeReward := price - agentReward;
      var before := balances;
      var toAgent := TransferIx(delegate, agentKey, signer, agentReward);
      var afterAgent := Transfer(balances, toAgent);
      if afterAgent.None? {
        return Err(Panic(TransferFailed));
      }
      balances := afterAgent.value;
      var toNode := TransferIx(delegate, nodeKey, signer, gpuNodeReward);
      var afterNode := Transfer(balances, toNode);
      if afterNode.None? {
        // the runtime discards the first transfer of a failed instruction
        balances := before;
        return Err(Panic(TransferFailed));
      }
      balances := afterNode.value;
      r := Ok(Receipt(agentReward, gpuNodeReward, [toAgent, toNode], balances));
      assert SignaturesAccepted(task, sig, verify);
      assert Gate(approvedAmount, price) == None;
      assert Split(price, agentReward) == Ok((agentReward, gpuNodeReward));
      assert r == Settle(before, signer, delegate, agentKey, nodeKey, price, agentReward);
    }
  }

  /** Registering the same node twice on a fresh program lists it exactly
      once in the owner's list and once in the global registry. */
  method RegisterGpuNodeTwice(owner: Pubkey, nodeKey: Pubkey, node: GpuNode)
    returns (owned: seq<Pubkey>, registry: seq<Pubkey>)
    ensures owned == [nodeKey] && registry == [nodeKey]
  {
    var p := new ProgramState(map[]);
    p.RegisterGpuNode(owner, nodeKey, node);
    p.RegisterGpuNode(owner, nodeKey, node);
    owned, registry := p.OwnedGpuNodes(owner), p.gpuNodeRegistry;
  }

  /** Registering the same agent twice on a fresh program lists it exactly
      once in the owner's list and once in the global registry. */
  method RegisterAgentTwice(owner: Pubkey, agentKey: Pubkey, agent: Agent)
    returns (owned: seq<Pubkey>, registry: seq<Pubkey>)
    ensures owned == [agentKey] && registry == [agentKey]
  {
    var p := new ProgramState(map[]);
    p.RegisterAgent(owner, agentKey, agent);
    p.RegisterAgent(owner, agentKey, agent);
    owned, registry := p.OwnedAgents(owner), p.agentRegistry;
  }

  /** From any valid state, registering a node a second time changes no
      list: both end as the first registration left them. */
  method RegisterGpuNodeTwiceFromAnyState(p: ProgramState, owner: Pubkey, nodeKey: Pubkey, node: GpuNode)
    requires p.Valid()
    modifies p
    ensures p.Valid()
    ensures var once := GpuInsert(Lists(old(p.OwnedGpuNodes(owner)), old(p.gpuNodeRegistry)), nodeKey);
      p.OwnedGpuNodes(owner) == once.owned && p.gpuNodeRegistry == once.global
    ensures nodeKey in p.gpuNodeAccounts && p.gpuNodeAccounts[nodeKey] == node
  {
    p.RegisterGpuNode(owner, nodeKey, node);
    p.RegisterGpuNode(owner, nodeKey, node);
  }

  /** From any valid state, registering an agent a second time changes no
      list, and the agent registry then lists the key exactly once. */
  method RegisterAgentTwiceFromAnyState(p: ProgramState, owner: Pubkey, agentKey: Pubkey, agent: Agent)
    requires p.Valid()
    modifies p
    ensures p.Valid()
    ensures var once := AgentInsert(Lists(old(p.OwnedAgents(owner)), old(p.agentRegistry)), agentKey);
      p.OwnedAgents(owner) == once.owned && p.agentRegistry == once.global
    ensures multiset(p.agentRegistry)[agentKey] == 1
    ensures agentKey in p.agentAccounts && p.agentAccounts[agentKey] == agent
  {
    p.RegisterAgent(owner, agentKey, agent);
    p.RegisterAgent(owner, agentKey, agent);
    OccursOnce(p.agentRegistry, agentKey);
  }

  /** A fresh program in which `agent` is registered at `agentKey`, `node` at
      `nodeKey`, and the token accounts hold `funded`. */
  method SetUp(agentKey: Pubkey, agent: Agent, nodeKey: Pubkey, node: GpuNode, funded: Balances)
    returns (p: ProgramState)
    ensures fresh(p)
    ensures p.balances == funded
    ensures agentKey in p.agentAccounts && p.agentAccounts[agentKey] == agent
    ensures nodeKey in p.gpuNodeAccounts && p.gpuNodeAccounts[nodeKey] == node
  {
    p := new ProgramState(funded);
    p.RegisterAgent(agent.owner, agentKey, agent);
    p.RegisterGpuNode(node.owner, nodeKey, node);
  }

  /** A registered agent and node settle a task priced 1000 against an
      allowance of 1000, the agent being owed 300: the agent receives 300,
      the node 700, and the delegate is emptied. */
  method SettleScenario(user: Pubkey, delegate: Pubkey, agentKey: Pubkey, nodeKey: Pubkey,
                        agent: Agent, node: GpuNode, timestamp: U64)
    returns (r: Result<Receipt>)
    requires delegate != agentKey && delegate != nodeKey && agentKey != nodeKey
    ensures r.Ok? && r.value.agentReward == 300 && r.value.nodeReward == 700
    ensures r.value.balances == map[delegate := 0, agentKey := 300, nodeKey := 700]
  {
    var funded := map[delegate := 1000, agentKey := 0, nodeKey := 0];
    var task := AiTask(user, agent.owner, node.owner, timestamp, 1000);
    var signature: seq<Byte> := seq(SIGNATURE_LENGTH, i => 0);
    var sig := AiTaskSignature(signature, signature, signature);
    var acceptAll: Verifier := (m, k, s) => true;
    var agentShare: RewardOf := (price, split) => 300;
    SingleSignerSuffices(task, signature, acceptAll);
    SettleExample(delegate, agentKey, nodeKey, user);
    var p := SetUp(agentKey, agent, nodeKey, node, funded);
    r := p.SubmitTask(user, delegate, agentKey, nodeKey, task, sig, acceptAll, agentShare);
  }
}
