/** The Borsh byte layout of an `AiTask`: the payload that `submit_task`
    hands to the signature checks. Fields follow declaration order; a
    `Pubkey` is its 32 bytes and a `u64` is eight bytes, least significant
    first. */
module Borsh {
  import opened Types

  /** Size of an encoded task: three keys and two `u64`s. */
  const TASK_SIZE: nat := 112

  function Pow256(n: nat): (p: nat)
    ensures p > 0
  {
    if n == 0 then 1 else 256 * Pow256(n - 1)
  }

  lemma Pow256Eight()
    ensures Pow256(8) == U64_LIMIT
  {
  }

  /** The `n` low-order bytes of `x`, least significant first. */
  function LittleEndian(x: nat, n: nat): (r: seq<Byte>)
    ensures |r| == n
  {
    if n == 0 then [] else [x % 256] + LittleEndian(x / 256, n - 1)
  }

  /** The number whose little-endian bytes are `s`. */
  function FromLittleEndian(s: seq<Byte>): (x: nat)
    ensures x < Pow256(|s|)
  {
    if s == [] then 0 else s[0] + 256 * FromLittleEndian(s[1..])
  }

  lemma {:induction false} LittleEndianRoundTrip(x: nat, n: nat)
    requires x < Pow256(n)
    ensures FromLittleEndian(LittleEndian(x, n)) == x
  {
    if n > 0 {
      var q := x / 256;
      assert x == 256 * q + x % 256;
      assert q < Pow256(n - 1);
      var r := LittleEndian(x, n);
      assert r[0] == x % 256;
      assert r[1..] == LittleEndian(q, n - 1);
      LittleEndianRoundTrip(q, n - 1);
      assert FromLittleEndian(r) == r[0] + 256 * FromLittleEndian(r[1..]);
    }
  }

  function EncodeU64(x: U64): (r: seq<Byte>)
    ensures |r| == 8
  {
    LittleEndian(x, 8)
  }

  function DecodeU64(s: seq<Byte>): U64
    requires |s| == 8
  {
    Pow256Eight();
    FromLittleEndian(s)
  }

  lemma U64RoundTrip(x: U64)
    ensures DecodeU64(EncodeU64(x)) == x
  {
    Pow256Eight();
    LittleEndianRoundTrip(x, 8);
  }

  /** `task.try_to_vec()`. */
  function EncodeTask(t: AiTask): (r: seq<Byte>)
    ensures |r| == TASK_SIZE
  {
    t.user + t.agentOwner + t.gpuNodeOwner + EncodeU64(t.timestamp) + EncodeU64(t.price)
  }

  /** Reads a task back from its 112 payload bytes. */
  function DecodeTask(s: seq<Byte>): AiTask
    requires |s| == TASK_SIZE
  {
    AiTask(s[..32], s[32..64], s[64..96], DecodeU64(s[96..104]), DecodeU64(s[104..112]))
  }

  /** Decoding the signed payload gives back every field of the task. */
  lemma TaskRoundTrip(t: AiTask)
    ensures DecodeTask(EncodeTask(t)) == t
  {
    var s := EncodeTask(t);
    assert s[..32] == t.user;
    assert s[32..64] == t.agentOwner;
    assert s[64..96] == t.gpuNodeOwner;
    assert s[96..104] == EncodeU64(t.timestamp);
    assert s[104..112] == EncodeU64(t.price);
    U64RoundTrip(t.timestamp);
    U64RoundTrip(t.price);
  }

  /** Two tasks with the same payload are the same task, so a signature over
      the payload commits to every field, the price included. */
  lemma EncodingInjective(t1: AiTask, t2: AiTask)
    requires EncodeTask(t1) == EncodeTask(t2)
    ensures t1 == t2
  {
    TaskRoundTrip(t1);
    TaskRoundTrip(t2);
  }
}
