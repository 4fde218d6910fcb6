/** Reference counts and claims of resources, and what keeps a resource from being cleaned up. */
module Refcount {

  type Ptr = nat

  /** One more than this many visits cannot be counted. */
  const INT_MAX: int := 0x7FFF_FFFF

  datatype Code = OK | Unavailable | Ownership

  datatype Ref = Ref(visits: int, claims: nat)

  /** `added` and `cleaned` are history: how often each address was added, and cleaned up. */
  datatype Table = Table(refs: map<Ptr, Ref>, added: multiset<Ptr>, cleaned: multiset<Ptr>)

  datatype Op =
    | Incr(p: Ptr)
    | Decr(p: Ptr)
    | Claim(p: Ptr)
    | Unclaim(p: Ptr)
    /** incr, or add where incr says the resource is unavailable. */
    | Take(p: Ptr)

  const EMPTY := Table(map[], multiset{}, multiset{})

  // ------------------------------------------------------------------ operations

  /** _winecord_refcounter_incr_no_lock */
  function IncrCall(t: Table, p: Ptr): (Table, Code) {
    if p !in t.refs || t.refs[p].visits == INT_MAX then (t, Unavailable)
    else (t.(refs := t.refs[p := t.refs[p].(visits := t.refs[p].visits + 1)]), OK)
  }

  /** _winecord_refcounter_decr_no_lock */
  function DecrCall(t: Table, p: Ptr): (Table, Code) {
    if p !in t.refs || t.refs[p].visits < t.refs[p].claims then (t, Unavailable)
    else
      var visits := t.refs[p].visits - 1;
      if visits > 0 then (t.(refs := t.refs[p := t.refs[p].(visits := visits)]), OK)
      else if t.refs[p].claims != 0 then (t, Ownership)
      else (t.(refs := t.refs - {p}, cleaned := t.cleaned + multiset{p}), OK)
  }

  /** winecord_refcounter_claim: the claim is counted even if the visit cannot be. */
  function ClaimCall(t: Table, p: Ptr): (Table, Code) {
    if p !in t.refs then (t, Unavailable)
    else IncrCall(t.(refs := t.refs[p := t.refs[p].(claims := t.refs[p].claims + 1)]), p)
  }

  /** winecord_refcounter_unclaim */
  function UnclaimCall(t: Table, p: Ptr): (Table, Code) {
    if p !in t.refs || t.refs[p].claims == 0 then (t, Unavailable)
    else DecrCall(t.(refs := t.refs[p := t.refs[p].(claims := t.refs[p].claims - 1)]), p)
  }

  /** winecord_refcounter_add_internal and _add_client */
  function AddCall(t: Table, p: Ptr): Table {
    t.(refs := t.refs[p := Ref(1, 0)], added := t.added + multiset{p})
  }

  function TakeCall(t: Table, p: Ptr): Table {
    var (t1, code) := IncrCall(t, p);
    if code == Unavailable then AddCall(t1, p) else t1
  }

  function Do(t: Table, op: Op): (Table, Code) {
    match op
    case Incr(p) => IncrCall(t, p)
    case Decr(p) => DecrCall(t, p)
    case Claim(p) => ClaimCall(t, p)
    case Unclaim(p) => UnclaimCall(t, p)
    case Take(p) => (TakeCall(t, p), OK)
  }

  /** There is room to count another visit. */
  predicate Room(t: Table, p: Ptr) {
    p in t.refs ==> t.refs[p].visits < INT_MAX
  }

  predicate Enabled(t: Table, op: Op) {
    op.Take? ==> Room(t, op.p)
  }

  // ------------------------------------------------------------- arbitrary callers

  ghost predicate RefSound(r: Ref) {
    1 <= r.visits <= INT_MAX && (r.claims <= r.visits + 1 || r.visits == INT_MAX)
  }

  /** Each time `p` was added it was cleaned up since, but for the last time if it is live. */
  ghost predicate Once(t: Table, p: Ptr) {
    t.added[p] == t.cleaned[p] + if p in t.refs then 1 else 0
  }

  /** The invariant that holds whatever callers do. */
  ghost predicate Sound(t: Table) {
    && (forall p :: p in t.refs ==> RefSound(t.refs[p]))
    && forall p :: Once(t, p)
  }

  predicate Legal(t: Table, ops: seq<Op>)
    decreases |ops|
  {
    ops == [] || (Enabled(t, ops[0]) && Legal(Do(t, ops[0]).0, ops[1..]))
  }

  function Run(t: Table, ops: seq<Op>): Table
    requires Legal(t, ops)
    decreases |ops|
  {
    if ops == [] then t else Run(Do(t, ops[0]).0, ops[1..])
  }

  lemma StepSound(t: Table, op: Op)
    requires Sound(t) && Enabled(t, op)
    ensures Sound(Do(t, op).0)
  {
    forall p
      ensures Once(Do(t, op).0, p)
    {
      assert Once(t, p);
    }
  }

  /** Whatever callers do, each resource that was added is live or was cleaned up, once, and one that
      is live has a visit. */
  lemma {:induction false} RunSound(t: Table, ops: seq<Op>)
    requires Sound(t) && Legal(t, ops)
    ensures Sound(Run(t, ops))
    decreases |ops|
  {
    if ops != [] {
      StepSound(t, ops[0]);
      RunSound(Do(t, ops[0]).0, ops[1..]);
    }
  }

  /** A resource is cleaned up exactly by the decrement of its only visit when nobody claims it, or
      by giving back its only claim and visit. */
  lemma CleansIff(t: Table, op: Op, p: Ptr)
    requires Sound(t) && Enabled(t, op) && p in t.refs
    ensures p !in Do(t, op).0.refs
       <==> (op == Decr(p) && t.refs[p] == Ref(1, 0)) || (op == Unclaim(p) && t.refs[p] == Ref(1, 1))
    ensures Do(t, op).0.cleaned[p] == t.cleaned[p] + if p in Do(t, op).0.refs then 0 else 1
  {
  }

  /** How often the resource is unclaimed. */
  function Unclaims(ops: seq<Op>, p: Ptr): nat {
    if ops == [] then 0 else (if ops[0] == Unclaim(p) then 1 else 0) + Unclaims(ops[1..], p)
  }

  lemma ClaimKept(t: Table, op: Op, p: Ptr)
    requires Sound(t) && Enabled(t, op) && p in t.refs
    requires t.refs[p].claims > if op == Unclaim(p) then 1 else 0
    ensures var t1 := Do(t, op).0;
            && Sound(t1) && p in t1.refs && t1.cleaned[p] == t.cleaned[p]
            && t1.refs[p].claims >= t.refs[p].claims - if op == Unclaim(p) then 1 else 0
  {
    StepSound(t, op);
    assert Once(t, p) && Once(Do(t, op).0, p);
    CleansIff(t, op, p);
    hide Sound;
  }

  /** A claimed resource survives whatever callers do, as long as it is not unclaimed as often as it
      is claimed; no number of decrements suffices. */
  lemma {:induction false} ClaimsProtect(t: Table, ops: seq<Op>, p: Ptr)
    requires Sound(t) && Legal(t, ops) && p in t.refs && Unclaims(ops, p) < t.refs[p].claims
    ensures p in Run(t, ops).refs && Run(t, ops).cleaned[p] == t.cleaned[p]
    ensures Run(t, ops).refs[p].claims >= t.refs[p].claims - Unclaims(ops, p)
    decreases |ops|
  {
    if ops != [] {
      ClaimKept(t, ops[0], p);
      hide Do, Sound, Enabled;
      ClaimsProtect(Do(t, ops[0]).0, ops[1..], p);
    }
  }

  /** When incr, decr and unclaim are turned down, and with which code. That a resource never claimed is
      reported as unavailable differs from the documentation, which promises the ownership code. */
  lemma RefusalCodes(t: Table, p: Ptr)
    requires Sound(t)
    ensures IncrCall(t, p).1 == Unavailable <==> p !in t.refs || t.refs[p].visits == 2147483647
    ensures IncrCall(t, p).1 != OK ==> IncrCall(t, p) == (t, Unavailable)
    ensures DecrCall(t, p).1 == Unavailable <==> p !in t.refs || t.refs[p].visits < t.refs[p].claims
    ensures DecrCall(t, p).1 == Ownership <==> p in t.refs && t.refs[p] == Ref(1, 1)
    ensures DecrCall(t, p).1 != OK ==> DecrCall(t, p).0 == t
    ensures UnclaimCall(t, p).1 == Ownership <==> p in t.refs && t.refs[p] == Ref(1, 2)
    ensures p in t.refs && t.refs[p].claims == 0 ==> UnclaimCall(t, p) == (t, Unavailable)
  {
  }

  /** Counting one visit too many does not fail: the count starts again at one and claims are forgotten. */
  lemma TakeOverflows(t: Table, p: Ptr)
    requires Sound(t) && p in t.refs
    ensures TakeCall(t, p).refs[p] == t.refs[p].(visits := t.refs[p].visits + 1) <==> Room(t, p)
    ensures !Room(t, p) ==> TakeCall(t, p).refs[p] == Ref(1, 0)
  {
  }

  // -------------------------------------------------------------- balanced callers

  /** The table has for `p` the count of its plain references and its claims, and no entry if there
      are none. */
  ghost predicate Agrees(t: Table, p: Ptr, plain: nat, claims: nat) {
    if plain + claims == 0 then p !in t.refs
    else p in t.refs && t.refs[p] == Ref(plain + claims, claims)
  }

  /** The references to `p` that are held after `ops`, beginning with `held`; -1 if some were given
      back that were not held. */
  function Plain(ops: seq<Op>, p: Ptr, held: int): int
    decreases |ops|
  {
    if ops == [] || held < 0 then held
    else
      Plain(ops[1..], p,
            if ops[0] == Incr(p) || ops[0] == Take(p) then held + 1
            else if ops[0] == Decr(p) then held - 1
            else held)
  }

  function Claims(ops: seq<Op>, p: Ptr, held: int): int
    decreases |ops|
  {
    if ops == [] || held < 0 then held
    else
      Claims(ops[1..], p,
             if ops[0] == Claim(p) then held + 1 else if ops[0] == Unclaim(p) then held - 1 else held)
  }

  /** `p` is never incremented or claimed when it is not there, nor counted beyond the limit. */
  predicate Careful(t: Table, ops: seq<Op>, p: Ptr)
    decreases |ops|
  {
    ops == []
    || (&& (ops[0] == Incr(p) || ops[0] == Claim(p) ==> p in t.refs)
        && (ops[0].p == p ==> Room(t, p))
        && Careful(Do(t, ops[0]).0, ops[1..], p))
  }

  lemma StepAgrees(t: Table, op: Op, p: Ptr, plain: nat, claims: nat)
    requires Agrees(t, p, plain, claims)
    requires (op == Incr(p) || op == Claim(p) ==> p in t.refs) && (op.p == p ==> Room(t, p))
    requires (op == Decr(p) ==> plain > 0) && (op == Unclaim(p) ==> claims > 0)
    ensures var plain1 := if op == Incr(p) || op == Take(p) then plain + 1
                          else if op == Decr(p) then plain - 1 else plain;
            var claims1 := if op == Claim(p) then claims + 1 else if op == Unclaim(p) then claims - 1 else claims;
            Agrees(Do(t, op).0, p, plain1, claims1)
    ensures op.p == p ==> Do(t, op).1 == OK
    ensures Once(t, p) ==> Once(Do(t, op).0, p)
  {
  }

  /** Balanced callers, who give back only what they hold: the count of a resource is the number of
      references and claims outstanding, and it is there exactly while there is one. */
  lemma {:induction false} BalancedCount(t: Table, ops: seq<Op>, p: Ptr, plain: nat, claims: nat)
    requires Legal(t, ops) && Agrees(t, p, plain, claims) && Careful(t, ops, p)
    requires Plain(ops, p, plain) >= 0 && Claims(ops, p, claims) >= 0
    ensures Agrees(Run(t, ops), p, Plain(ops, p, plain), Claims(ops, p, claims))
    decreases |ops|
  {
    if ops != [] {
      var op := ops[0];
      var plain1 := if op == Incr(p) || op == Take(p) then plain + 1 else if op == Decr(p) then plain - 1 else plain;
      var claims1 := if op == Claim(p) then claims + 1 else if op == Unclaim(p) then claims - 1 else claims;
      StepAgrees(t, op, p, plain, claims);
      BalancedCount(Do(t, op).0, ops[1..], p, plain1, claims1);
    }
  }

  /** From an empty table, with balanced callers: cleaned up exactly once for each time it was added,
      and exactly when nothing is outstanding. */
  lemma CleanedOnce(ops: seq<Op>, p: Ptr)
    requires Legal(EMPTY, ops) && Careful(EMPTY, ops, p) && Plain(ops, p, 0) >= 0 && Claims(ops, p, 0) >= 0
    ensures var t := Run(EMPTY, ops);
            t.added[p] == t.cleaned[p] + if Plain(ops, p, 0) + Claims(ops, p, 0) > 0 then 1 else 0
  {
    RunSound(EMPTY, ops);
    BalancedCount(EMPTY, ops, p, 0, 0);
    assert Once(Run(EMPTY, ops), p);
  }

  // ------------------------------------------------------------------ the refcounter

  class Refcounter {
    var refs: map<Ptr, Ref>
    ghost var added: multiset<Ptr>
    ghost var cleaned: multiset<Ptr>

    ghost function Snapshot(): Table
      reads this
    {
      Table(refs, added, cleaned)
    }

    constructor ()
      ensures Snapshot() == EMPTY && Sound(Snapshot())
    {
      refs, added, cleaned := map[], multiset{}, multiset{};
    }

    /** _winecord_refvalue_delete: the entry is deleted and its value cleaned up. */
    method Delete(p: Ptr)
      modifies this
      ensures refs == old(refs) - {p} && added == old(added) && cleaned == old(cleaned) + multiset{p}
    {
      refs := refs - {p};
      cleaned := cleaned + multiset{p};
    }

    method Incr(p: Ptr) returns (code: Code)
      modifies this`refs
      ensures (Snapshot(), code) == IncrCall(old(Snapshot()), p)
    {
      code := Unavailable;
      if p in refs {
        if refs[p].visits != INT_MAX {
          refs := refs[p := refs[p].(visits := refs[p].visits + 1)];
          code := OK;
        }
      }
    }

    method Decr(p: Ptr) returns (code: Code)
      modifies this
      ensures (Snapshot(), code) == DecrCall(old(Snapshot()), p)
    {
      code := Unavailable;
      if p in refs {
        if refs[p].visits < refs[p].claims {
          return;
        }
        refs := refs[p := refs[p].(visits := refs[p].visits - 1)];
        if refs[p].visits > 0 {
          return OK;
        }
        if refs[p].claims != 0 {
          refs := refs[p := refs[p].(visits := refs[p].visits + 1)];
          assert refs == old(refs);
          return Ownership;
        }
        Delete(p);
        assert refs == old(refs) - {p};
        code := OK;
      }
    }

    method Claim(p: Ptr) returns (code: Code)
      modifies this`refs
      ensures (Snapshot(), code) == ClaimCall(old(Snapshot()), p)
    {
      code := Unavailable;
      if p in refs {
        refs := refs[p := refs[p].(claims := refs[p].claims + 1)];
        code := Incr(p);
      }
    }

    method Unclaim(p: Ptr) returns (code: Code)
      modifies this
      ensures (Snapshot(), code) == UnclaimCall(old(Snapshot()), p)
    {
      code := Unavailable;
      if p in refs {
        if refs[p].claims == 0 {
          return;
        }
        refs := refs[p := refs[p].(claims := refs[p].claims - 1)];
        code := Decr(p);
      }
    }

    method Add(p: Ptr)
      modifies this
      ensures Snapshot() == AddCall(old(Snapshot()), p)
    {
      refs := refs[p := Ref(1, 0)];
      added := added + multiset{p};
    }

    /** The protocol of gateway_dispatch and request_begin. */
    method Take(p: Ptr)
      modifies this
      ensures Snapshot() == TakeCall(old(Snapshot()), p)
    {
      var code := Incr(p);
      if code == Unavailable {
        Add(p);
      }
    }
  }
}
