/** A runtime's refresh: its live tenants and their keys reconciled with the user's
    memberships. */
module RuntimeRefresh {
  import opened Folds
  import opened Text

  datatype Membership = Membership(tenant: string, name: string, role: string)

  /** The runtime's live bindings (tenant to key id), every API key (id to tenant), and
      how many key ids were drawn. */
  datatype Store = Store(live: map<string, string>, keys: map<string, string>, drawn: nat)

  type Ids = nat -> string

  /** DeleteByID refuses these two. */
  predicate Deletable(id: string) { id != "" && id != "__legacy__" }

  /** Key ids are random: never drawn twice, never in use before. */
  ghost predicate FreshIds(ids: Ids, st: Store) {
    && (forall n: nat {:trigger ids(n)} | n >= st.drawn ::
          ids(n) !in st.keys && ids(n) !in st.live.Values && Deletable(ids(n)))
    && forall m: nat, n: nat {:trigger ids(m), ids(n)} | m != n :: ids(m) != ids(n)
  }

  /** A key minted for a tenant and bound to it. */
  function Mint(ids: Ids, st: Store, tenant: string): Store {
    var id := ids(st.drawn);
    Store(st.live[tenant := id], st.keys[id := tenant], st.drawn + 1)
  }

  function MintAll(ids: Ids, st: Store, tenants: seq<string>): Store {
    if tenants == [] then st else Mint(ids, MintAll(ids, st, tenants[..|tenants| - 1]), tenants[|tenants| - 1])
  }

  function IdOf(m: Membership): seq<string> { [m.tenant] }

  function Tenants(members: seq<Membership>): seq<string> { Gather(IdOf, members) }

  function Bound(live: map<string, string>): string -> seq<string> {
    (t: string) => if t in live then [t] else []
  }

  function Unbound(live: map<string, string>): string -> seq<string> {
    (t: string) => if t in live then [] else [t]
  }

  function ToRotate(tenants: seq<string>, live: map<string, string>): seq<string> { Gather(Bound(live), tenants) }

  function ToAdd(tenants: seq<string>, live: map<string, string>): seq<string> { Gather(Unbound(live), tenants) }

  /** The tenants a key is minted for, in that order. */
  function Minted(tenants: seq<string>, live: map<string, string>): seq<string> {
    ToRotate(tenants, live) + ToAdd(tenants, live)
  }

  function Members(live: map<string, string>, tenants: seq<string>): map<string, string> {
    map t | t in live && t in tenants :: live[t]
  }

  /** The keys a refresh means to delete. */
  function Doomed(st: Store): set<string> { set id | id in st.live.Values && Deletable(id) }

  /** The bindings of members only, and the keys but those that are gone. */
  function Left(st: Store, tenants: seq<string>, gone: set<string>): Store {
    Store(Members(st.live, tenants), st.keys - gone, st.drawn)
  }

  /** What a refresh leaves that replied, when these keys could be deleted. */
  function RefreshedBut(ids: Ids, st: Store, tenants: seq<string>, gone: set<string>): Store {
    MintAll(ids, Left(st, tenants, gone), Minted(tenants, st.live))
  }

  /** What it leaves when every deletion succeeded. */
  function Refreshed(ids: Ids, st: Store, tenants: seq<string>): Store {
    RefreshedBut(ids, st, tenants, Doomed(st))
  }

  /** Of the keys tried, those deleted and those whose deletion failed at least once:
      every one that may be deleted is in one of the two. */
  ghost predicate Accounted(tried: set<string>, gone: set<string>, failed: set<string>) {
    && (forall id | id in gone || id in failed :: id in tried && Deletable(id))
    && forall id | id in tried && Deletable(id) :: id in gone || id in failed
  }

  datatype WireTenant = WireTenant(id: string, name: string, role: string, key: string)

  datatype Reply = Reply(tenants: seq<WireTenant>, added: seq<string>, revoked: seq<string>)

  function Wire(keys: map<string, string>): Membership -> seq<WireTenant> {
    (m: Membership) =>
      [WireTenant(m.tenant, if m.name == "" then m.tenant else m.name, m.role,
                  if m.tenant in keys then keys[m.tenant] else "")]
  }

  class Repositories {
    const ids: Ids
    /** Whether the n-th repository call fails. */
    const faults: nat -> bool
    var calls: nat
    var live: map<string, string>
    var keys: map<string, string>
    var drawn: nat

    constructor (ids: Ids, faults: nat -> bool, st: Store)
      ensures this.ids == ids && this.faults == faults && Now() == st && calls == 0
    {
      this.ids, this.faults, calls := ids, faults, 0;
      live, keys, drawn := st.live, st.keys, st.drawn;
    }

    function Now(): Store
      reads this
    {
      Store(live, keys, drawn)
    }

    method Call() returns (ok: bool)
      modifies `calls
    {
      ok := !faults(calls);
      calls := calls + 1;
    }

    /** An error of this call is ignored by the refresh. */
    method DeleteByID(id: string) returns (ok: bool)
      modifies `keys, `calls
      ensures keys == if ok && Deletable(id) then old(keys) - {id} else old(keys)
      ensures !Deletable(id) ==> ok && calls == old(calls)
      ensures Deletable(id) ==> ok == !faults(old(calls)) && calls == old(calls) + 1
    {
      if id == "" || id == "__legacy__" {
        return true;
      }
      ok := !faults(calls);
      calls := calls + 1;
      if ok {
        keys := keys - {id};
      }
    }

    /** An old key's deletion, and the account of what could be deleted. */
    method TryDelete(id: string, ghost tried: set<string>, ghost gone: set<string>, ghost failed: set<string>)
      returns (ghost cut: set<string>, ghost moreFailed: set<string>)
      requires Accounted(tried, gone, failed)
      modifies `keys, `calls
      ensures Accounted(tried + {id}, gone + cut, moreFailed) && cut <= {id}
      ensures keys == old(keys) - cut
    {
      var deleted := DeleteByID(id);
      cut := if deleted && Deletable(id) then {id} else {};
      moreFailed := if deleted then failed else failed + {id};
    }

    method RevokeRuntimeTenant(tenant: string) returns (ok: bool)
      modifies `live, `calls
      ensures live == if ok then old(live) - {tenant} else old(live)
    {
      ok := Call();
      if ok {
        live := live - {tenant};
      }
    }

    method MintRuntimeAgentKey(tenant: string) returns (id: Option<string>)
      modifies `keys, `drawn, `calls
      ensures id.None? ==> keys == old(keys) && drawn == old(drawn)
      ensures id.Some? ==> id.value == ids(old(drawn)) && keys == old(keys)[id.value := tenant]
      ensures id.Some? ==> drawn == old(drawn) + 1
    {
      var ok := Call();
      if !ok {
        return None;
      }
      id := Some(ids(drawn));
      keys := keys[ids(drawn) := tenant];
      drawn := drawn + 1;
    }

    /** UpdateRuntimeTenantKey and UpsertRuntimeTenant bind the key. */
    method BindTenant(tenant: string, id: string) returns (ok: bool)
      modifies `live, `calls
      ensures live == if ok then old(live)[tenant := id] else old(live)
    {
      ok := Call();
      if ok {
        live := live[tenant := id];
      }
    }

    method MintAndBind(tenant: string) returns (id: Option<string>)
      modifies `live, `keys, `drawn, `calls
      ensures id.Some? ==> Now() == Mint(ids, old(Now()), tenant) && id.value == live[tenant]
      ensures id.None? ==> live == old(live) && old(drawn) <= drawn
      ensures id.None? ==> keys == old(keys) || keys == old(keys)[ids(old(drawn)) := tenant]
    {
      id := MintRuntimeAgentKey(tenant);
      if id.None? {
        return;
      }
      var ok := BindTenant(tenant, id.value);
      if !ok {
        return None;
      }
    }

    /** Bindings of tenants the user is no member of any more, in any order. */
    method RevokeAll(tenants: seq<string>)
      returns (revoked: Option<seq<string>>, ghost gone: set<string>, ghost failed: set<string>)
      modifies `live, `keys, `calls
      ensures keys == old(keys) - gone && gone <= old(live).Values
      ensures revoked.Some? ==>
        && NoDup(revoked.value) && (forall t :: t in revoked.value <==> t in old(live) && t !in tenants)
        && live == Members(old(live), tenants)
        && Accounted(IdsOf(old(live), revoked.value), gone, failed)
    {
      ghost var live0, keys0 := live, keys;
      gone, failed := {}, {};
      var liveByID := live;
      var left := set t | t in liveByID && t !in tenants;
      var done: seq<string> := [];
      while left != {}
        invariant forall t :: t in left <==> t in live0 && t !in tenants && t !in done
        invariant NoDup(done) && forall t | t in done :: t in live0 && t !in tenants
        invariant live == Without(live0, done)
        invariant keys == keys0 - gone && gone <= live0.Values
        invariant Accounted(IdsOf(live0, done), gone, failed)
        decreases |left|
      {
        var t :| t in left;
        assert liveByID[t] in live0.Values;
        ghost var cut, moreFailed := TryDelete(liveByID[t], IdsOf(live0, done), gone, failed);
        IdsOfMore(live0, done, t);
        assert keys0 - gone - cut == keys0 - (gone + cut);
        gone, failed := gone + cut, moreFailed;
        var ok := RevokeRuntimeTenant(t);
        if !ok {
          return None, gone, failed;
        }
        WithoutMore(live0, done, t);
        left, done := left - {t}, done + [t];
      }
      assert Without(live0, done) == Members(live0, tenants);
      return Some(done), gone, failed;
    }

    /** A tenant's old key deleted, if it can be, and a new one minted and bound. */
    method RotateOne(t: string, id: string, ghost st: Store, ghost used: set<string>, ghost done: seq<string>,
                     ghost tried: set<string>, ghost gone: set<string>, ghost failed: set<string>)
      returns (key: Option<string>, ghost cut: set<string>, ghost moreFailed: set<string>)
      requires FreshIds(ids, st) && NotDrawn(ids, st.drawn, used) && id in used && gone <= used
      requires Accounted(tried, gone, failed) && Now() == MintAll(ids, st.(keys := st.keys - gone), done)
      modifies `live, `keys, `drawn, `calls
      ensures Accounted(tried + {id}, gone + cut, moreFailed) && cut <= {id}
      ensures key.Some? ==>
        && Now() == MintAll(ids, st.(keys := st.keys - (gone + cut)), done + [t])
        && live == old(live)[t := key.value]
      ensures key.None? ==> Kept(st.keys, used, keys)
    {
      MintKeeps(ids, st, done, gone, used);
      ghost var before := keys;
      cut, moreFailed := TryDelete(id, tried, gone, failed);
      RotateStep(ids, st, used, done, t, gone, cut);
      key := MintAndBind(t);
      KeptOneMore(st.keys, used, before, cut, keys);
    }

    /** Keys of the tenants that stay are replaced one by one. */
    method RotateAll(toRotate: seq<string>, liveByID: map<string, string>, ghost st: Store)
      returns (ok: bool, mintedKeys: map<string, string>, ghost gone: set<string>, ghost failed: set<string>)
      requires FreshIds(ids, st) && Now() == st && NotDrawn(ids, st.drawn, liveByID.Values)
      requires forall t | t in toRotate :: t in liveByID
      modifies `live, `keys, `drawn, `calls
      ensures ok ==> Now() == MintAll(ids, st.(keys := st.keys - gone), toRotate)
      ensures ok ==> Known(mintedKeys, live, toRotate) && Accounted(IdsOf(liveByID, toRotate), gone, failed)
      ensures gone <= liveByID.Values && Kept(st.keys, liveByID.Values, keys)
    {
      assert st.keys - {} == st.keys;
      mintedKeys, gone, failed := map[], {}, {};
      for i := 0 to |toRotate|
        invariant Now() == MintAll(ids, st.(keys := st.keys - gone), toRotate[..i])
        invariant Known(mintedKeys, live, toRotate[..i]) && Accounted(IdsOf(liveByID, toRotate[..i]), gone, failed)
        invariant gone <= liveByID.Values
      {
        var t := toRotate[i];
        assert toRotate[..i + 1] == toRotate[..i] + [t];
        assert liveByID[t] in liveByID.Values;
        IdsOfMore(liveByID, toRotate[..i], t);
        ghost var cut, moreFailed;
        var key;
        key, cut, moreFailed := RotateOne(t, liveByID[t], st, liveByID.Values, toRotate[..i],
                                          IdsOf(liveByID, toRotate[..i]), gone, failed);
        if key.None? {
          return false, mintedKeys, gone, failed;
        }
        gone, failed := gone + cut, moreFailed;
        mintedKeys := mintedKeys[t := key.value];
      }
      assert toRotate[..|toRotate|] == toRotate;
      MintKeeps(ids, st, toRotate, gone, liveByID.Values);
      return true, mintedKeys, gone, failed;
    }

    method AddOne(t: string, ghost st: Store, ghost done: seq<string>) returns (key: Option<string>)
      requires FreshIds(ids, st) && Now() == MintAll(ids, st, done)
      modifies `live, `keys, `drawn, `calls
      ensures key.Some? ==> Now() == MintAll(ids, st, done + [t]) && live == old(live)[t := key.value]
      ensures key.None? ==> Kept(st.keys, {}, keys)
    {
      assert (done + [t])[..|done|] == done && st.keys - {} == st.keys;
      MintKeeps(ids, st, done, {}, {});
      ghost var before := keys;
      assert before - {} == before;
      key := MintAndBind(t);
      KeptOneMore(st.keys, {}, before, {}, keys);
    }

    method AddAll(toAdd: seq<string>, minted: map<string, string>, ghost before: seq<string>, ghost st: Store)
      returns (ok: bool, mintedKeys: map<string, string>)
      requires FreshIds(ids, st) && Now() == st && Known(minted, live, before)
      modifies `live, `keys, `drawn, `calls
      ensures ok ==> Now() == MintAll(ids, st, toAdd) && Known(mintedKeys, live, before + toAdd)
      ensures Kept(st.keys, {}, keys)
    {
      mintedKeys := minted;
      for i := 0 to |toAdd|
        invariant Now() == MintAll(ids, st, toAdd[..i])
        invariant Known(mintedKeys, live, before + toAdd[..i])
      {
        assert toAdd[..i + 1] == toAdd[..i] + [toAdd[i]];
        var key := AddOne(toAdd[i], st, toAdd[..i]);
        if key.None? {
          return false, mintedKeys;
        }
        mintedKeys := mintedKeys[toAdd[i] := key.value];
      }
      assert toAdd[..|toAdd|] == toAdd && st.keys - {} == st.keys;
      MintKeeps(ids, st, toAdd, {}, {});
      return true, mintedKeys;
    }

    /** Revoke, rotate, add, in this order; None when a repository call failed whose
        error is not ignored. */
    method Reconcile(tenants: seq<string>)
      returns (revoked: Option<seq<string>>, mintedKeys: map<string, string>,
        ghost gone: set<string>, ghost failed: set<string>)
      requires FreshIds(ids, Now())
      modifies this
      ensures revoked.Some? ==>
        && Now() == RefreshedBut(ids, old(Now()), tenants, gone) && Accounted(old(live).Values, gone, failed)
        && Known(mintedKeys, live, Minted(tenants, old(live)))
        && NoDup(revoked.value) && forall t :: t in revoked.value <==> t in old(live) && t !in tenants
      ensures Spared(old(Now()), Now())
    {
      var liveByID := live;
      ghost var st := Now();
      var toAdd, toRotate := ToAdd(tenants, liveByID), ToRotate(tenants, liveByID);
      RotateIsBound(tenants, liveByID);
      mintedKeys := map[];
      revoked, gone, failed := RevokeAll(tenants);
      if revoked.None? {
        return;
      }
      ghost var cut := Now();
      LeftFresh(ids, st, tenants, gone);
      ghost var more, moreFailed;
      var ok;
      ok, mintedKeys, more, moreFailed := RotateAll(toRotate, liveByID, cut);
      if !ok {
        return None, mintedKeys, gone, failed;
      }
      Together(ids, st, tenants, revoked.value, gone, failed, more, moreFailed);
      gone, failed := gone + more, failed + moreFailed;
      ok, mintedKeys := AddAll(toAdd, mintedKeys, toRotate, Now());
      if !ok {
        return None, mintedKeys, gone, failed;
      }
    }

    /** handleRuntimeRefresh: the reply comes even when deletions failed. */
    method Refresh(members: seq<Membership>)
      returns (reply: Option<Reply>, ghost gone: set<string>, ghost failed: set<string>)
      requires FreshIds(ids, Now())
      modifies this
      ensures reply.Some? ==>
        && Now() == RefreshedBut(ids, old(Now()), Tenants(members), gone) && Accounted(old(live).Values, gone, failed)
        && reply.value.tenants == Gather(Wire(live), members)
        && reply.value.added == ToAdd(Tenants(members), old(live))
        && NoDup(reply.value.revoked)
        && forall t :: t in reply.value.revoked <==> t in old(live) && t !in Tenants(members)
      ensures Spared(old(Now()), Now())
    {
      var tenants := Tenants(members);
      var added := ToAdd(tenants, live);
      ghost var before := live;
      var revoked, minted;
      revoked, minted, gone, failed := Reconcile(tenants);
      if revoked.None? {
        return None, gone, failed;
      }
      var wire := WireTenants(members, minted);
      SameWire(members, minted, live, before);
      return Some(Reply(wire, added, revoked.value)), gone, failed;
    }

    static method WireTenants(members: seq<Membership>, minted: map<string, string>) returns (wire: seq<WireTenant>)
      ensures wire == Gather(Wire(minted), members)
    {
      wire := [];
      for i := 0 to |members|
        invariant wire == Gather(Wire(minted), members[..i])
      {
        assert members[..i + 1][..i] == members[..i];
        var m := members[i];
        var name := m.name;
        if name == "" {
          name := m.tenant;
        }
        wire := wire + [WireTenant(m.tenant, name, m.role, if m.tenant in minted then minted[m.tenant] else "")];
      }
      assert members[..|members|] == members;
    }
  }

  /** None of these ids will be drawn. */
  ghost predicate NotDrawn(ids: Ids, from: nat, used: set<string>) {
    forall n: nat {:trigger ids(n)} | n >= from :: ids(n) !in used
  }

  /** Keys outside `touched` are as they were. */
  ghost predicate Kept(before: map<string, string>, touched: set<string>, now: map<string, string>) {
    forall id | id in before && id !in touched :: id in now && now[id] == before[id]
  }

  lemma LeftFresh(ids: Ids, st: Store, tenants: seq<string>, gone: set<string>)
    requires FreshIds(ids, st)
    ensures FreshIds(ids, Left(st, tenants, gone)) && NotDrawn(ids, st.drawn, st.live.Values)
  {
    var cut := Left(st, tenants, gone);
    forall n: nat | n >= cut.drawn ensures ids(n) !in cut.keys && ids(n) !in cut.live.Values && Deletable(ids(n)) {
      assert ids(n) !in st.live.Values;
    }
  }

  /** These tenants are bound to the key last minted for them. */
  ghost predicate Known(minted: map<string, string>, live: map<string, string>, tenants: seq<string>) {
    forall t | t in tenants :: t in minted && t in live && minted[t] == live[t]
  }

  lemma {:induction false} RotateIsBound(tenants: seq<string>, live: map<string, string>)
    ensures forall t :: t in ToRotate(tenants, live) <==> t in tenants && t in live
    ensures forall t :: t in ToAdd(tenants, live) <==> t in tenants && t !in live
  {
    if tenants != [] {
      RotateIsBound(tenants[..|tenants| - 1], live);
      assert tenants == tenants[..|tenants| - 1] + [tenants[|tenants| - 1]];
    }
  }

  /** A key is minted for every membership, in another order. */
  lemma {:induction false} MintedOrder(tenants: seq<string>, live: map<string, string>)
    ensures multiset(Minted(tenants, live)) == multiset(tenants)
  {
    if tenants != [] {
      var init, last := tenants[..|tenants| - 1], tenants[|tenants| - 1];
      MintedOrder(init, live);
      assert tenants == init + [last];
      if last in live {
        GatherExtends(Bound(live), init, last);
        GatherSilent(Unbound(live), init, last);
      } else {
        GatherSilent(Bound(live), init, last);
        GatherExtends(Unbound(live), init, last);
      }
    }
  }

  lemma {:induction false} TenantsOf(members: seq<Membership>)
    ensures forall m | m in members :: m.tenant in Tenants(members)
  {
    if members != [] {
      TenantsOf(members[..|members| - 1]);
    }
  }

  lemma SameWire(members: seq<Membership>, minted: map<string, string>, live: map<string, string>,
        before: map<string, string>)
    requires Known(minted, live, Minted(Tenants(members), before))
    ensures Gather(Wire(minted), members) == Gather(Wire(live), members)
  {
    TenantsOf(members);
    RotateIsBound(Tenants(members), before);
    SameWireOf(members, minted, live);
  }

  lemma {:induction false} SameWireOf(members: seq<Membership>, minted: map<string, string>, live: map<string, string>)
    requires forall m | m in members :: m.tenant in minted && m.tenant in live && minted[m.tenant] == live[m.tenant]
    ensures Gather(Wire(minted), members) == Gather(Wire(live), members)
  {
    if members != [] {
      SameWireOf(members[..|members| - 1], minted, live);
      assert members[|members| - 1] in members;
    }
  }

  lemma {:induction false} MintSplits(ids: Ids, st: Store, a: seq<string>, b: seq<string>)
    ensures MintAll(ids, st, a + b) == MintAll(ids, MintAll(ids, st, a), b)
  {
    if b == [] {
      assert a + b == a;
    } else {
      MintSplits(ids, st, a, b[..|b| - 1]);
      assert (a + b)[..|a + b| - 1] == a + b[..|b| - 1];
    }
  }

  /** Revoked and rotated keys together are all that were live. */
  lemma AllTried(st: Store, tenants: seq<string>, revoked: seq<string>)
    requires forall t :: t in revoked <==> t in st.live && t !in tenants
    ensures IdsOf(st.live, revoked) + IdsOf(st.live, ToRotate(tenants, st.live)) == st.live.Values
  {
    RotateIsBound(tenants, st.live);
    var a, b := IdsOf(st.live, revoked), IdsOf(st.live, ToRotate(tenants, st.live));
    forall id | id in st.live.Values ensures id in a + b {
      var t :| t in st.live && st.live[t] == id;
      assert t in revoked || t in ToRotate(tenants, st.live);
    }
  }

  /** Revoking and rotating, taken together. */
  lemma Together(ids: Ids, st: Store, tenants: seq<string>, revoked: seq<string>,
                 gone: set<string>, failed: set<string>, more: set<string>, moreFailed: set<string>)
    requires FreshIds(ids, st) && forall t :: t in revoked <==> t in st.live && t !in tenants
    requires Accounted(IdsOf(st.live, revoked), gone, failed)
    requires Accounted(IdsOf(st.live, ToRotate(tenants, st.live)), more, moreFailed)
    ensures Accounted(st.live.Values, gone + more, failed + moreFailed)
    ensures
      var cut, toRotate := Left(st, tenants, gone), ToRotate(tenants, st.live);
      var rotated := MintAll(ids, cut.(keys := cut.keys - more), toRotate);
      && FreshIds(ids, rotated)
      && RefreshedBut(ids, st, tenants, gone + more) == MintAll(ids, rotated, ToAdd(tenants, st.live))
  {
    var all := Left(st, tenants, gone + more);
    AllTried(st, tenants, revoked);
    assert st.keys - gone - more == st.keys - (gone + more);
    LeftFresh(ids, st, tenants, gone + more);
    MintSplits(ids, all, ToRotate(tenants, st.live), ToAdd(tenants, st.live));
    MintedFresh(ids, all, ToRotate(tenants, st.live));
  }

  function Without(live: map<string, string>, tenants: seq<string>): map<string, string> {
    map t | t in live && t !in tenants :: live[t]
  }

  lemma WithoutMore(live: map<string, string>, tenants: seq<string>, t: string)
    ensures Without(live, tenants) - {t} == Without(live, tenants + [t])
  {
  }

  function IdsOf(live: map<string, string>, tenants: seq<string>): set<string> {
    set t | t in tenants && t in live :: live[t]
  }

  lemma IdsOfMore(live: map<string, string>, tenants: seq<string>, t: string)
    requires t in live
    ensures IdsOf(live, tenants + [t]) == IdsOf(live, tenants) + {live[t]}
  {
    var now, more := IdsOf(live, tenants), IdsOf(live, tenants + [t]);
    assert t in tenants + [t];
    forall id | id in more ensures id in now + {live[t]} {
      var u :| u in tenants + [t] && u in live && live[u] == id;
    }
    forall id | id in now ensures id in more {
      var u :| u in tenants && u in live && live[u] == id;
      assert u in tenants + [t];
    }
  }

  /** Keys that no live tenant of the runtime had are as they were. */
  ghost predicate Spared(before: Store, now: Store) { Kept(before.keys, before.live.Values, now.keys) }

  /** Deleting old keys can wait until after the minting. */
  lemma {:induction false} DropCommutes(ids: Ids, st: Store, tenants: seq<string>, gone: set<string>)
    requires NotDrawn(ids, st.drawn, gone)
    ensures MintAll(ids, st, tenants).drawn == st.drawn + |tenants|
    ensures
      var all := MintAll(ids, st, tenants);
      MintAll(ids, st.(keys := st.keys - gone), tenants) == all.(keys := all.keys - gone)
  {
    if tenants != [] {
      DropCommutes(ids, st, tenants[..|tenants| - 1], gone);
    }
  }

  /** Minting and deleting used keys keeps every other key; the next id is new. */
  lemma {:induction false} MintKeeps(ids: Ids, st: Store, tenants: seq<string>, gone: set<string>, used: set<string>)
    requires FreshIds(ids, st) && gone <= used
    ensures
      var now := MintAll(ids, st.(keys := st.keys - gone), tenants);
      Kept(st.keys, used, now.keys) && now.drawn >= st.drawn && ids(now.drawn) !in st.keys
  {
    if tenants != [] {
      MintKeeps(ids, st, tenants[..|tenants| - 1], gone, used);
    }
  }

  lemma KeptOneMore(first: map<string, string>, used: set<string>, before: map<string, string>, cut: set<string>,
        now: map<string, string>)
    requires Kept(first, used, before) && cut <= used
    requires forall id | id in before && id !in cut && id in first :: id in now && now[id] == before[id]
    ensures Kept(first, used, now)
  {
  }

  /** Rotating one more tenant, whether its old key could be deleted or not. */
  lemma RotateStep(ids: Ids, st: Store, used: set<string>, done: seq<string>, t: string,
        gone: set<string>, cut: set<string>)
    requires FreshIds(ids, st) && NotDrawn(ids, st.drawn, used) && cut <= used
    ensures
      var now := MintAll(ids, st.(keys := st.keys - gone), done);
      var next := MintAll(ids, st.(keys := st.keys - (gone + cut)), done + [t]);
      && next == Mint(ids, now.(keys := now.keys - cut), t)
      && ids(now.drawn) !in st.keys
  {
    DropCommutes(ids, st.(keys := st.keys - gone), done, cut);
    assert st.keys - gone - cut == st.keys - (gone + cut);
    assert (done + [t])[..|done|] == done;
  }

  lemma {:induction false} MintedFresh(ids: Ids, st: Store, tenants: seq<string>)
    requires FreshIds(ids, st)
    ensures FreshIds(ids, MintAll(ids, st, tenants)) && MintAll(ids, st, tenants).drawn == st.drawn + |tenants|
  {
    if tenants != [] {
      var init := tenants[..|tenants| - 1];
      MintedFresh(ids, st, init);
      var a, b := MintAll(ids, st, init), MintAll(ids, st, tenants);
      forall n: nat | n >= b.drawn ensures ids(n) !in b.keys && ids(n) !in b.live.Values && Deletable(ids(n)) {
        assert ids(n) != ids(a.drawn);
        assert ids(n) !in a.live.Values;
      }
    }
  }

  // ---- what an error-free refresh achieves ------------------------------------------------

  /** Position of a tenant's last mention. */
  function LastAt(tenants: seq<string>, t: string): (k: nat)
    requires t in tenants
    ensures k < |tenants| && tenants[k] == t && forall j | k < j < |tenants| :: tenants[j] != t
  {
    if tenants[|tenants| - 1] == t then |tenants| - 1 else LastAt(tenants[..|tenants| - 1], t)
  }

  /** The next n key ids. */
  function Drawn(ids: Ids, from: nat, n: nat): (drawn: seq<string>)
    ensures |drawn| == n
  {
    if n == 0 then [] else Drawn(ids, from, n - 1) + [ids(from + n - 1)]
  }

  lemma {:induction false} DrawnAt(ids: Ids, from: nat, n: nat, k: nat)
    requires k < n
    ensures Drawn(ids, from, n)[k] == ids(from + k)
  {
    if k < n - 1 {
      DrawnAt(ids, from, n - 1, k);
    }
  }

  lemma DrawnFresh(ids: Ids, st: Store, n: nat)
    requires FreshIds(ids, st)
    ensures NoDup(Drawn(ids, st.drawn, n))
    ensures forall id | id in Drawn(ids, st.drawn, n) :: id !in st.keys && id !in st.live.Values && Deletable(id)
  {
    var drawn := Drawn(ids, st.drawn, n);
    forall i, j | 0 <= i < j < n ensures drawn[i] != drawn[j] {
      DrawnAt(ids, st.drawn, n, i);
      DrawnAt(ids, st.drawn, n, j);
    }
    forall id | id in drawn ensures id !in st.keys && id !in st.live.Values && Deletable(id) {
      var i :| 0 <= i < n && drawn[i] == id;
      DrawnAt(ids, st.drawn, n, i);
    }
  }

  lemma {:induction false} MintDraws(ids: Ids, st: Store, tenants: seq<string>)
    ensures MintAll(ids, st, tenants).drawn == st.drawn + |tenants|
  {
    if tenants != [] {
      MintDraws(ids, st, tenants[..|tenants| - 1]);
    }
  }

  /** Minting binds each tenant to the key drawn for its last mention. */
  lemma {:induction false} MintBinds(ids: Ids, st: Store, tenants: seq<string>)
    ensures
      var live, drawn := MintAll(ids, st, tenants).live, Drawn(ids, st.drawn, |tenants|);
      && (forall t :: t in live <==> t in st.live || t in tenants)
      && (forall t | t in tenants :: live[t] == drawn[LastAt(tenants, t)])
  {
    if tenants != [] {
      var init := tenants[..|tenants| - 1];
      MintBinds(ids, st, init);
      MintDraws(ids, st, init);
      assert tenants == init + [tenants[|tenants| - 1]];
    }
  }

  /** Minting adds one key for every mention and nothing else. */
  lemma {:induction false} MintAdds(ids: Ids, st: Store, tenants: seq<string>)
    requires FreshIds(ids, st)
    ensures
      var keys, drawn := MintAll(ids, st, tenants).keys, Drawn(ids, st.drawn, |tenants|);
      && (forall id :: id in keys <==> id in st.keys || id in drawn)
      && (forall id | id in st.keys :: keys[id] == st.keys[id])
      && (forall k | 0 <= k < |tenants| :: keys[drawn[k]] == tenants[k])
  {
    if tenants != [] {
      var n := |tenants| - 1;
      MintAdds(ids, st, tenants[..n]);
      MintDraws(ids, st, tenants[..n]);
      DrawnFresh(ids, st, |tenants|);
      var drawn, before := Drawn(ids, st.drawn, n + 1), MintAll(ids, st, tenants[..n]);
      assert drawn == Drawn(ids, st.drawn, n) + [ids(before.drawn)];
      assert drawn[n] in drawn && drawn[n] !in st.keys;
      forall k | 0 <= k < n ensures MintAll(ids, st, tenants).keys[drawn[k]] == tenants[k] {
        assert drawn[k] == Drawn(ids, st.drawn, n)[k] && drawn[k] != drawn[n];
      }
    }
  }

  /** All that is known of the state after a refresh, by position in the minting order. */
  lemma RefreshedIs(ids: Ids, st: Store, tenants: seq<string>, gone: set<string>)
    requires FreshIds(ids, st)
    ensures
      var now, minted := RefreshedBut(ids, st, tenants, gone), Minted(tenants, st.live);
      var drawn := Drawn(ids, st.drawn, |minted|);
      && (forall t :: t in now.live <==> t in minted) && (forall t :: t in minted <==> t in tenants)
      && (forall t | t in minted :: now.live[t] == drawn[LastAt(minted, t)])
      && (forall id :: id in now.keys <==> (id in st.keys && id !in gone) || id in drawn)
      && (forall id | id in st.keys && id !in gone :: now.keys[id] == st.keys[id])
      && (forall k | 0 <= k < |minted| :: now.keys[drawn[k]] == minted[k])
      && NoDup(drawn) && forall id | id in drawn :: id !in st.keys && id !in st.live.Values
  {
    var cut, minted := Left(st, tenants, gone), Minted(tenants, st.live);
    LeftFresh(ids, st, tenants, gone);
    MintBinds(ids, cut, minted);
    MintAdds(ids, cut, minted);
    RotateIsBound(tenants, st.live);
    DrawnFresh(ids, st, |minted|);
  }

  /** After a refresh that replied the live tenants are the memberships, each bound to a
      fresh key of its own; of the keys that were live exactly those not deleted are
      left, and all others are untouched. */
  lemma ReconciledBut(ids: Ids, st: Store, tenants: seq<string>, gone: set<string>)
    requires FreshIds(ids, st) && gone <= Doomed(st)
    ensures
      var now := RefreshedBut(ids, st, tenants, gone);
      && (forall t :: t in now.live <==> t in tenants)
      && (forall t | t in now.live :: now.live[t] in now.keys && now.keys[now.live[t]] == t && now.live[t] !in st.keys)
      && (forall t, u | t in now.live && u in now.live && t != u :: now.live[t] != now.live[u])
      && (forall id | id in st.live.Values && id in st.keys :: id in now.keys <==> id !in gone)
      && (forall id | id in st.live.Values && id !in st.keys :: id !in now.keys)
      && Spared(st, now)
  {
    RefreshedIs(ids, st, tenants, gone);
  }

  lemma {:induction false} TenantsAre(members: seq<Membership>)
    ensures |Tenants(members)| == |members|
    ensures forall k | 0 <= k < |members| :: Tenants(members)[k] == members[k].tenant
  {
    GatherEach(IdOf, members);
  }

  /** A reply shows every membership in its place, named after its tenant when it has no
      name, with the new key its tenant is now bound to; and as added the tenants that
      were not live. */
  lemma ReplyTells(ids: Ids, st: Store, members: seq<Membership>, gone: set<string>)
    requires FreshIds(ids, st) && gone <= Doomed(st)
    ensures
      var now := RefreshedBut(ids, st, Tenants(members), gone);
      var wire := Gather(Wire(now.live), members);
      |wire| == |members| &&
      forall k | 0 <= k < |members| ::
        && wire[k].id == members[k].tenant && wire[k].role == members[k].role
        && wire[k].name == (if members[k].name != "" then members[k].name else members[k].tenant)
        && wire[k].key in now.keys && now.keys[wire[k].key] == wire[k].id && wire[k].key !in st.keys
        && wire[k].id in now.live && now.live[wire[k].id] == wire[k].key
    ensures forall t :: t in ToAdd(Tenants(members), st.live) <==>
      t !in st.live && exists k :: 0 <= k < |members| && members[k].tenant == t
  {
    var tenants := Tenants(members);
    var now := RefreshedBut(ids, st, tenants, gone);
    TenantsAre(members);
    ReconciledBut(ids, st, tenants, gone);
    GatherEach(Wire(now.live), members);
    forall k | 0 <= k < |members| ensures members[k].tenant in now.live {
      assert tenants[k] in tenants;
    }
    RotateIsBound(tenants, st.live);
    forall t ensures t in tenants <==> exists k :: 0 <= k < |members| && members[k].tenant == t {
      if t in tenants {
        var k :| 0 <= k < |tenants| && tenants[k] == t;
        assert members[k].tenant == t;
      }
      if k :| 0 <= k < |members| && members[k].tenant == t {
        assert tenants[k] == t;
      }
    }
  }

  /** When every deletion succeeded, of the keys that were live exactly the reserved ones
      are left. */
  lemma Reconciled(ids: Ids, st: Store, tenants: seq<string>)
    requires FreshIds(ids, st)
    ensures
      var now := Refreshed(ids, st, tenants);
      && (forall t :: t in now.live <==> t in tenants)
      && (forall t | t in now.live :: now.live[t] in now.keys && now.keys[now.live[t]] == t && now.live[t] !in st.keys)
      && (forall t, u | t in now.live && u in now.live && t != u :: now.live[t] != now.live[u])
      && (forall id | id in st.live.Values && id in st.keys :: id in now.keys <==> id == "" || id == "__legacy__")
      && Spared(st, now)
  {
    ReconciledBut(ids, st, tenants, Doomed(st));
  }

  /** A refresh that replied did all it means to do if and only if no key is left whose
      deletion failed: each was deleted for another tenant or mention, or had no row. */
  lemma RefreshedExactly(ids: Ids, st: Store, tenants: seq<string>, gone: set<string>, failed: set<string>)
    requires FreshIds(ids, st) && Accounted(st.live.Values, gone, failed)
    ensures
      var now := RefreshedBut(ids, st, tenants, gone);
      && (now == Refreshed(ids, st, tenants) <==> forall id | id in failed && id in st.keys :: id in gone)
      && now.live == Refreshed(ids, st, tenants).live
      && forall id | id in now.keys && id !in Refreshed(ids, st, tenants).keys :: id in failed && id in st.live.Values
  {
    var now, rest := RefreshedBut(ids, st, tenants, gone), Doomed(st) - gone;
    MeantIs(ids, st, tenants, gone);
    ReconciledBut(ids, st, tenants, gone);
    if forall id | id in failed && id in st.keys :: id in gone {
      assert now.keys - rest == now.keys;
    } else {
      var id :| id in failed && id in st.keys && id !in gone;
      assert id in now.keys && id !in now.keys - rest;
    }
  }

  lemma MeantIs(ids: Ids, st: Store, tenants: seq<string>, gone: set<string>)
    requires FreshIds(ids, st) && gone <= Doomed(st)
    ensures
      var now := RefreshedBut(ids, st, tenants, gone);
      Refreshed(ids, st, tenants) == now.(keys := now.keys - (Doomed(st) - gone))
  {
    var rest := Doomed(st) - gone;
    LeftFresh(ids, st, tenants, gone);
    DropCommutes(ids, Left(st, tenants, gone), Minted(tenants, st.live), rest);
    assert st.keys - gone - rest == st.keys - Doomed(st);
  }

  lemma Distinct(s: seq<string>)
    ensures NoDup(s) <==> forall k: nat | k < |s| :: LastAt(s, s[k]) == k
  {
    if NoDup(s) {
      forall k: nat | k < |s| ensures LastAt(s, s[k]) == k {
      }
    } else {
      var i, j :| 0 <= i < j < |s| && s[i] == s[j];
      assert LastAt(s, s[i]) == LastAt(s, s[j]) >= j;
    }
  }

  lemma {:induction false} DistinctCount(s: seq<string>)
    ensures NoDup(s) <==> forall t :: multiset(s)[t] <= 1
  {
    if s != [] {
      var init, last := s[..|s| - 1], s[|s| - 1];
      DistinctCount(init);
      assert s == init + [last];
      assert multiset(s) == multiset(init) + multiset{last};
      assert NoDup(s) <==> NoDup(init) && last !in init;
      assert last in init <==> last in multiset(init);
      if exists t :: multiset(init)[t] > 1 {
        var t :| multiset(init)[t] > 1;
        assert multiset(s)[t] > 1;
      } else if last in init {
        assert multiset(s)[last] > 1;
      }
    }
  }

  /** No minted key is left without a tenant exactly when no membership is listed
      twice: a second mention mints again and forgets the first key. */
  lemma NoOrphanKeys(ids: Ids, st: Store, tenants: seq<string>, gone: set<string>)
    requires FreshIds(ids, st)
    ensures
      var now := RefreshedBut(ids, st, tenants, gone);
      NoDup(tenants) <==> forall id | id in now.keys && id !in st.keys :: id in now.live.Values
  {
    var minted := Minted(tenants, st.live);
    MintedOrder(tenants, st.live);
    DistinctCount(tenants);
    DistinctCount(minted);
    Distinct(minted);
    RefreshedIs(ids, st, tenants, gone);
    if NoDup(minted) {
      NoneOrphaned(ids, st, tenants, gone);
    } else {
      var k: nat :| k < |minted| && LastAt(minted, minted[k]) != k;
      Orphaned(ids, st, tenants, gone, k);
    }
  }

  lemma NoneOrphaned(ids: Ids, st: Store, tenants: seq<string>, gone: set<string>)
    requires FreshIds(ids, st) && NoDup(Minted(tenants, st.live))
    ensures
      var now := RefreshedBut(ids, st, tenants, gone);
      forall id | id in now.keys && id !in st.keys :: id in now.live.Values
  {
    var minted, now := Minted(tenants, st.live), RefreshedBut(ids, st, tenants, gone);
    var drawn := Drawn(ids, st.drawn, |minted|);
    RefreshedIs(ids, st, tenants, gone);
    forall id | id in now.keys && id !in st.keys ensures id in now.live.Values {
      var k :| 0 <= k < |drawn| && drawn[k] == id;
      assert minted[k] in minted && LastAt(minted, minted[k]) == k;
      assert now.live[minted[k]] == id;
    }
  }

  /** The key of a mention that is not the last is bound to nobody. */
  lemma Orphaned(ids: Ids, st: Store, tenants: seq<string>, gone: set<string>, k: nat)
    requires FreshIds(ids, st) && k < |Minted(tenants, st.live)|
    requires LastAt(Minted(tenants, st.live), Minted(tenants, st.live)[k]) != k
    ensures
      var now := RefreshedBut(ids, st, tenants, gone);
      var id := Drawn(ids, st.drawn, |Minted(tenants, st.live)|)[k];
      id in now.keys && id !in st.keys && id !in now.live.Values
  {
    var minted, now := Minted(tenants, st.live), RefreshedBut(ids, st, tenants, gone);
    var drawn := Drawn(ids, st.drawn, |minted|);
    RefreshedIs(ids, st, tenants, gone);
    assert drawn[k] in drawn;
    forall t | t in now.live ensures now.live[t] != drawn[k] {
      assert LastAt(minted, t) != k;
    }
  }

  /** A second refresh with the same memberships adds and revokes nothing. */
  lemma SecondChangesNothing(ids: Ids, st: Store, tenants: seq<string>, gone: set<string>)
    requires FreshIds(ids, st)
    ensures
      var now := RefreshedBut(ids, st, tenants, gone);
      && FreshIds(ids, now) && ToAdd(tenants, now.live) == [] && ToRotate(tenants, now.live) == tenants
      && (forall t :: !(t in now.live && t !in tenants))
      && Refreshed(ids, now, tenants).live.Keys == now.live.Keys
  {
    var now := RefreshedBut(ids, st, tenants, gone);
    RefreshedIs(ids, st, tenants, gone);
    LeftFresh(ids, st, tenants, gone);
    MintedFresh(ids, Left(st, tenants, gone), Minted(tenants, st.live));
    AllBound(tenants, now.live);
    Reconciled(ids, now, tenants);
  }

  lemma {:induction false} AllBound(tenants: seq<string>, live: map<string, string>)
    requires forall t | t in tenants :: t in live
    ensures ToAdd(tenants, live) == [] && ToRotate(tenants, live) == tenants
  {
    if tenants != [] {
      AllBound(tenants[..|tenants| - 1], live);
    }
  }
}
