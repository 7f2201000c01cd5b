/** The check-then-append that registration performs on two key lists: the
    owner-scoped list and the global registry. A node is looked up in its
    owner's list, an agent in the global registry; when the key is found
    neither list changes, otherwise it is pushed onto the end of both. */
module Registry {
  import opened Types

  /** No key occurs twice. */
  ghost predicate NoDuplicates(s: seq<Pubkey>) {
    forall i, j :: 0 <= i < j < |s| ==> s[i] != s[j]
  }

  /** Every key of `s` also occurs in `t`. */
  ghost predicate Within(s: seq<Pubkey>, t: seq<Pubkey>) {
    forall i :: 0 <= i < |s| ==> s[i] in t
  }

  /** `t` is `s` with `k` pushed onto the end: one entry longer, every earlier
      entry unchanged. */
  ghost predicate Pushed(s: seq<Pubkey>, k: Pubkey, t: seq<Pubkey>) {
    |t| == |s| + 1 && t[..|s|] == s && t[|s|] == k
  }

  /** The two lists one registration touches. */
  datatype Lists = Lists(owned: seq<Pubkey>, global: seq<Pubkey>)

  function Push(l: Lists, k: Pubkey): (r: Lists)
    ensures Pushed(l.owned, k, r.owned) && Pushed(l.global, k, r.global)
  {
    Lists(l.owned + [k], l.global + [k])
  }

  /** The list update of `register_gpu_node`: presence is decided by the
      owner's list alone. */
  function GpuInsert(l: Lists, k: Pubkey): (r: Lists)
    ensures k in r.owned
    ensures k in l.owned ==> r == l
    ensures k !in l.owned ==> Pushed(l.owned, k, r.owned) && Pushed(l.global, k, r.global)
  {
    if k in l.owned then l else Push(l, k)
  }

  /** The list update of `register_agent`: presence is decided by the global
      registry alone. */
  function AgentInsert(l: Lists, k: Pubkey): (r: Lists)
    ensures k in r.global
    ensures k in l.global ==> r == l
    ensures k !in l.global ==> Pushed(l.owned, k, r.owned) && Pushed(l.global, k, r.global)
  {
    if k in l.global then l else Push(l, k)
  }

  /** The scan `for n in list { if n == key { return } }`. */
  method Scan(s: seq<Pubkey>, k: Pubkey) returns (found: bool)
    ensures found <==> k in s
  {
    for i := 0 to |s|
      invariant k !in s[..i]
    {
      if s[i] == k {
        return true;
      }
    }
    return false;
  }

  /** A key of a duplicate-free list occurs in it exactly once. */
  lemma {:induction false} OccursOnce(s: seq<Pubkey>, k: Pubkey)
    requires NoDuplicates(s) && k in s
    ensures multiset(s)[k] == 1
  {
    assert s == [s[0]] + s[1..];
    assert NoDuplicates(s[1..]) by {
      forall i, j | 0 <= i < j < |s[1..]| ensures s[1..][i] != s[1..][j] {
        assert s[1..][i] == s[i + 1] && s[1..][j] == s[j + 1];
      }
    }
    if s[0] == k {
      assert k !in s[1..] by {
        forall i | 0 <= i < |s[1..]| ensures s[1..][i] != k {
          assert s[1..][i] == s[i + 1];
        }
      }
    } else {
      OccursOnce(s[1..], k);
    }
  }

  /** Pushing a key that is absent keeps a list duplicate-free. */
  lemma PushAbsentKeepsUnique(s: seq<Pubkey>, k: Pubkey)
    requires NoDuplicates(s) && k !in s
    ensures NoDuplicates(s + [k])
  {
  }

  /** Pushing the same key onto both lists keeps one within the other. */
  lemma WithinAfterPush(s: seq<Pubkey>, t: seq<Pubkey>, k: Pubkey)
    requires Within(s, t)
    ensures Within(s, t + [k]) && Within(s + [k], t + [k])
  {
  }

  /** Registering an agent keeps the global registry and the owner's list
      free of duplicates and the owner's list within the registry; afterwards
      the key is in the registry exactly once. */
  lemma AgentInsertKeepsUnique(l: Lists, k: Pubkey)
    requires NoDuplicates(l.global) && NoDuplicates(l.owned) && Within(l.owned, l.global)
    ensures var r := AgentInsert(l, k);
      NoDuplicates(r.global) && NoDuplicates(r.owned) && Within(r.owned, r.global)
      && multiset(r.global)[k] == 1
  {
    var r := AgentInsert(l, k);
    if k !in l.global {
      PushAbsentKeepsUnique(l.global, k);
      PushAbsentKeepsUnique(l.owned, k);
    }
    OccursOnce(r.global, k);
  }

  /** Registering a node keeps the owner's list free of duplicates and within
      the global registry; afterwards the key is in the owner's list exactly
      once. */
  lemma GpuInsertKeepsOwnedUnique(l: Lists, k: Pubkey)
    requires NoDuplicates(l.owned) && Within(l.owned, l.global)
    ensures var r := GpuInsert(l, k);
      NoDuplicates(r.owned) && Within(r.owned, r.global) && multiset(r.owned)[k] == 1
  {
    var r := GpuInsert(l, k);
    if k !in l.owned {
      PushAbsentKeepsUnique(l.owned, k);
    }
    OccursOnce(r.owned, k);
  }

  /** The global node registry stays duplicate-free when a key already in
      it is also in the registering owner's list. */
  lemma GpuInsertKeepsGlobalUnique(l: Lists, k: Pubkey)
    requires NoDuplicates(l.global)
    requires k in l.global ==> k in l.owned
    ensures NoDuplicates(GpuInsert(l, k).global)
  {
  }

  /** Otherwise it does not: a node key already in the global registry but
      missing from this owner's list is pushed a second time. */
  lemma GpuInsertCanDuplicateGlobal(l: Lists, k: Pubkey)
    requires k in l.global && k !in l.owned
    ensures !NoDuplicates(GpuInsert(l, k).global)
    ensures multiset(GpuInsert(l, k).global)[k] == multiset(l.global)[k] + 1
  {
    var i :| 0 <= i < |l.global| && l.global[i] == k;
    var g := GpuInsert(l, k).global;
    assert g[i] == k && g[|l.global|] == k;
  }

  /** Registering the same node twice leaves both lists as the first
      registration left them. */
  lemma GpuInsertIdempotent(l: Lists, k: Pubkey)
    ensures GpuInsert(GpuInsert(l, k), k) == GpuInsert(l, k)
  {
  }

  /** Registering the same agent twice leaves both lists as the first
      registration left them. */
  lemma AgentInsertIdempotent(l: Lists, k: Pubkey)
    ensures AgentInsert(AgentInsert(l, k), k) == AgentInsert(l, k)
  {
  }
}
