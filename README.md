# Settlement program of the GPU/agent marketplace, in Dafny

The Solana program `solana_hackthon_program` keeps registries of GPU compute
nodes and AI agents and settles a task between a user, an agent and a node.
This project models its core and proves properties of the model:

- **Registration** (`register_gpu_node`, `register_agent`). The participant's
  account is overwritten with the supplied record. Then a linear scan decides
  whether the account key is already listed. If it is not, the key is pushed
  onto the owner's list and onto the global registry. A node is looked up in
  its **owner's list**; an agent is looked up in the **global registry**. The
  model keeps this asymmetry.
- **Settlement** (`submit_task`). Three Ed25519 checks run over the Borsh
  encoding of the task, all three under the key `task.user`. The delegate
  token account's amount is compared with the price (`InsufficientFunds` when
  short). The agent's reward comes from the revenue split and the node gets
  `price - agent_reward`. Two token transfers leave the delegate, first to the
  agent and then to the node, both authorised by the transaction's signer.
  Their destinations are the `agent` and `gpu_node` data accounts themselves;
  the model treats them as token accounts (see "Left out").

Modules:

- `types.dfy` (`Types`): keys, integer widths, the account records
  (`GpuNode`, `Agent`, `AiTask`, `AiTaskSignature`), errors and results.
- `borsh.dfy` (`Borsh`): the 112-byte payload the signatures cover, with its
  decoder and round trip.
- `registry.dfy` (`Registry`): the check-then-append on the two lists as
  functions, the scan as a method, and the at-most-once lemmas.
- `settlement.dfy` (`Settlement`): the signature predicate, the balance gate,
  the split, token transfers and the whole money path `Settle`, with lemmas.
- `program.dfy` (`Program`): the class `ProgramState` that holds the
  registries, the per-owner lists, the node and agent accounts and the token
  balances. Its methods mirror the instructions and are proved against the
  functions above.

Notes on the code as written:

- All three signatures are checked against the user's key, not each party's.
- A failed signature check, a failed transfer or an oversized agent reward
  panics (an `unwrap` or the overflow check) rather than returning a typed
  error. Either way the runtime discards every write of the failed instruction.
- `submit_task` creates the `ai_task` account (lib.rs:236) but never sets its
  fields and never pushes onto the task registry, so no receipt is recorded. `SubmitTask` leaves
  `aiTaskRegistry` unchanged.
- The check at lib.rs:28 looks for a node key in the owner's list, not in the
  global registry. `GpuInsertCanDuplicateGlobal` is a property of that check
  on its own: a key in the global registry but not in this owner's list would
  be pushed again. In the deployed program the `init` constraints keep the
  key from being listed anywhere beforehand (see "Left out").

## Model

| member | source | states |
|---|---|---|
| `Borsh.EncodeTask` | programs/solana-hackthon-program/src/lib.rs:59 | the signed payload of a task is 112 bytes: three keys and two little-endian `u64`s in declaration order |
| `Borsh.LittleEndianRoundTrip` | programs/solana-hackthon-program/src/lib.rs:207-208 | reading back the `n` little-endian bytes of any `x < 256^n` gives `x` |
| `Borsh.TaskRoundTrip` | programs/solana-hackthon-program/src/lib.rs:203-215 | decoding the payload of a task gives back every field of the task |
| `Borsh.EncodingInjective` | programs/solana-hackthon-program/src/lib.rs:59 | two tasks with the same payload are equal |
| `Registry.Scan` | programs/solana-hackthon-program/src/lib.rs:28-32 | the scan reports a hit exactly when the key occurs in the list |
| `Registry.GpuInsert` | programs/solana-hackthon-program/src/lib.rs:28-35 | afterwards the key is in the owner's list; if it was already there both lists are unchanged; otherwise both lists grow by exactly one, the key at the end and earlier entries unchanged |
| `Registry.AgentInsert` | programs/solana-hackthon-program/src/lib.rs:45-52 | afterwards the key is in the global registry; if it was already there both lists are unchanged; otherwise both lists grow by exactly one, the key at the end and earlier entries unchanged |
| `Registry.OccursOnce` | programs/solana-hackthon-program/src/lib.rs:45-49 | a key of a duplicate-free list occurs in it exactly once |
| `Registry.AgentInsertKeepsUnique` | programs/solana-hackthon-program/src/lib.rs:45-52 | agent registration keeps the registry and the owner's list duplicate-free and the list within the registry; the key ends up in the registry exactly once |
| `Registry.GpuInsertKeepsOwnedUnique` | programs/solana-hackthon-program/src/lib.rs:28-35 | node registration keeps the owner's list duplicate-free and within the global registry; the key ends up in the owner's list exactly once |
| `Registry.GpuInsertKeepsGlobalUnique` | programs/solana-hackthon-program/src/lib.rs:28-35 | the global node registry stays duplicate-free when a key already in it is also in the owner's list |
| `Registry.GpuInsertCanDuplicateGlobal` | programs/solana-hackthon-program/src/lib.rs:28-35 | for any lists, a node key in the global registry but not in the owner's list is pushed a second time: the registry gains one more occurrence of it and is no longer duplicate-free; with `GpuInsertKeepsGlobalUnique`, the registry stays duplicate-free exactly when such a key is also in the owner's list |
| `Registry.GpuInsertIdempotent` | programs/solana-hackthon-program/src/lib.rs:28-35 | registering a node key twice leaves both lists as after the first time |
| `Registry.AgentInsertIdempotent` | programs/solana-hackthon-program/src/lib.rs:45-52 | registering an agent key twice leaves both lists as after the first time |
| `Settlement.OnlyUserKeyConsulted` | programs/solana-hackthon-program/src/lib.rs:60-62 | acceptance depends only on what the verifier says for the user's key: the agent's and node's keys are never consulted |
| `Settlement.SingleSignerSuffices` | programs/solana-hackthon-program/src/lib.rs:60-62 | one valid 64-byte signature by the user over the payload, copied into all three slots, passes all three checks: the agent and the node need not sign |
| `Settlement.Transfer` | programs/solana-hackthon-program/src/lib.rs:78-87 | a transfer succeeds exactly when both ends are token accounts and the source holds the amount; it debits the source, credits the destination and touches nothing else |
| `Settlement.Settle` | programs/solana-hackthon-program/src/lib.rs:64-87 | a delegate that is not a token account is refused with `AccountDidNotDeserialize`; `InsufficientFunds` exactly when the delegate holds less than the price (the gate at lib.rs:69-72); past the gate, an agent reward above the price is a `SubtractionUnderflow` panic (the `u64` split at lib.rs:75-77); past the split, an agent or node that is not a token account is a `TransferFailed` panic (the unwraps at lib.rs:82, 87); success exactly when the delegate, agent and node are token accounts, the delegate holds the price and the reward fits in it; on success the rewards sum to the price, and the two transfers out of the delegate go to the agent and then to the node, authorised by the signer |
| `Settlement.SettleSucceedsAfterGate` | programs/solana-hackthon-program/src/lib.rs:69-87 | once the gate passes and the reward fits in the price, neither transfer can fail for want of funds |
| `Settlement.SettleMovesPrice` | programs/solana-hackthon-program/src/lib.rs:75-87 | on success the delegate is debited the whole price, the agent credited its reward, the node the remainder, every other account unchanged |
| `Settlement.SettleInsufficientExample` | programs/solana-hackthon-program/src/lib.rs:69-72 | an allowance of N against a price of N + 1 fails with `InsufficientFunds` |
| `Settlement.SettleExample` | programs/solana-hackthon-program/src/lib.rs:75-87 | allowance 1000, price 1000, agent owed 300: agent 300, node 700, delegate 0 |
| `Program.ProgramState.constructor` | programs/solana-hackthon-program/src/lib.rs:18-20 | `initialize` starts with empty registries and no node or agent accounts |
| `Program.ProgramState.RegisterGpuNode` | programs/solana-hackthon-program/src/lib.rs:22-37 | the node account is overwritten even when already listed; the owner's list and the global registry change as `GpuInsert` says; other owners' lists are unchanged; the invariant is kept |
| `Program.ProgramState.RegisterAgent` | programs/solana-hackthon-program/src/lib.rs:39-54 | the agent account is overwritten even when already listed; the owner's list and the global registry change as `AgentInsert` says; other owners' lists are unchanged; the agent registry stays duplicate-free |
| `Program.ProgramState.SubmitTask` | programs/solana-hackthon-program/src/lib.rs:56-89 | unknown agent or node accounts are refused; a rejected signature panics; otherwise the result is `Settle` on the old balances; a failed instruction leaves the balances as they were; the task registry is never written |
| `Program.RegisterGpuNodeTwice` | programs/solana-hackthon-program/src/lib.rs:22-37 | on a freshly initialised program, registering the same node twice lists it exactly once in the owner's list and once in the global registry |
| `Program.RegisterGpuNodeTwiceFromAnyState` | programs/solana-hackthon-program/src/lib.rs:22-37 | from any valid state, a second registration of the same node leaves both lists as the first left them, keeps the invariant and leaves the account holding the node |
| `Program.RegisterAgentTwice` | programs/solana-hackthon-program/src/lib.rs:39-54 | on a freshly initialised program, registering the same agent twice lists it exactly once in the owner's list and once in the global registry |
| `Program.RegisterAgentTwiceFromAnyState` | programs/solana-hackthon-program/src/lib.rs:39-54 | from any valid state, a second registration of the same agent leaves both lists as the first left them, keeps the invariant, and the agent registry lists the key exactly once |
| `Program.SettleScenario` | programs/solana-hackthon-program/src/lib.rs:56-89 | in the model (whose transfer destinations are token accounts), with a registered agent and node, allowance 1000, price 1000 and agent owed 300: agent 300, node 700, delegate 0 |

## Left out

- Ed25519 verification (lib.rs:60-62, the `ed25519_dalek` crate) is the `verify` parameter. It also covers the decoding of the public key, which can fail and panic. Only the 64-byte length check of `Signature::from_bytes` is kept explicit.
- The floating-point reward `((price as f64) * revenue_split) as u64` (lib.rs:76) is the `rewardOf` parameter. The model proves exactness for every value that function returns, and treats a value above the price as a panic of the subtraction at lib.rs:77. That case is reachable with a split inside [0, 1]: for price 2^53 + 3 and `revenue_split` 1.0, `price as f64` rounds (ties to even) to 2^53 + 4, so the agent reward exceeds the price.
- That panic assumes the build enables `u64` overflow checks, as Anchor's workspace template does. The workspace `Cargo.toml` is not part of this model.
- Token transfers (lib.rs:78-87, cross-program calls into the token program) are modelled only as balance debits and credits. The token program's check that the authority may move the delegate's funds is not modelled. Its `u64` overflow on the credit is not modelled either. It is also not modelled that the destinations are the program's own `agent` and `gpu_node` data accounts rather than token accounts. The token program refuses such a destination, so in the program as written every `submit_task` that reaches the first transfer (lib.rs:78-82) panics; the successful settlement (`Settle`'s `Ok` case, `SettleMovesPrice`, `SettleExample`, `SettleScenario`) exists only in the model, which treats both destinations as token accounts.
- `TokenAccount::try_deserialize` of the delegate (lib.rs:65-67) is modelled as the delegate having an entry in the balance map.
- Anchor account constraints (lib.rs:95-247) are runtime plumbing. This covers `init`, `space`, `seeds`/`bump` derivation and `owner =` checks. `init` refuses an address that already exists. `gpu_node` and `agent` are `init` (lib.rs:147, 193), so a registered key is always a new account. The per-owner lists `gpu_nodes` and `agent_list` are `init` at the owner's derived address (lib.rs:145, 191), so the owner list that `register_gpu_node` scans is always empty, the `agent` account is new so its key is never in `agent_registry`, and a second registration by the same owner fails when the account is created. The model drops `init`. Overwriting an already-listed account, the repeated registrations (`RegisterGpuNodeTwice`, `RegisterAgentTwice`, the `FromAnyState` variants, the idempotence lemmas) and the duplicate in the global node registry (`GpuInsertCanDuplicateGlobal`) are therefore reachable only in the model. Per-owner lists are keyed by owner instead of by derived address. The delegate's address is a parameter. Account loading is kept only as the `AccountNotInitialized` refusal of an agent or node address without a record.
- Account capacity is left out and the model's lists are unbounded. Anchor serialises each mutable account when the instruction exits; a list that has outgrown the space reserved for it (lib.rs:97, 99, 145, 191) makes the instruction fail with `AccountDidNotSerialize`.
- The `max_len` bounds on strings and on the card list are space reservations only and are not enforced.
- The transaction-level rollback is modelled only as "a failed instruction leaves the balances as they were". Registration cannot fail in the model.
- `tests/solana-hackthon-program.ts` only sends `initialize` to a local cluster and asserts nothing.
