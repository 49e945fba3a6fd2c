/**
 Address pools and allocations: what pool create, update and delete and address allocate, assign and
 release keep over any sequence of requests.
 */
module Ipam {
  import opened Wrappers
  import opened Cidr

  type PoolId = string
  type AllocationId = string

  /** The body of a pool create or update. */
  datatype PoolInput = PoolInput(block: Block, gateway: Option<int>, excluded: seq<Block>, active: bool)

  datatype Pool = Pool(data: PoolInput, nextOffset: nat)

  datatype Status = Reserved | Assigned | Released

  datatype Allocation = Allocation(pool: PoolId, address: int, status: Status)

  datatype State = State(pools: map<PoolId, Pool>, allocations: map<AllocationId, Allocation>)

  datatype Outcome = NotFound | Conflict | Invalid | Done

  // ----- Pools and addresses -----

  /** Prefixes /16 to /30; gateway and exclusions inside the pool. */
  predicate Coherent(data: PoolInput) {
    && Canonical(data.block)
    && 2 <= data.block.bits <= 16
    && Last(data.block) < 0x1_0000_0000
    && (data.gateway.Some? ==> data.block.base < data.gateway.value < Last(data.block))
    && (forall b :: b in data.excluded ==> Within(b, data.block))
  }

  predicate Excluded(data: PoolInput, a: int) {
    data.gateway == Some(a) || exists b :: b in data.excluded && Holds(b, a)
  }

  /** An address that may be handed out: a host of the network, not excluded. */
  predicate Usable(data: PoolInput, a: int) {
    Holds(data.block, a) && a != data.block.base && a != Last(data.block) && !Excluded(data, a)
  }

  predicate Active(a: Allocation) {
    a.status in {Reserved, Assigned}
  }

  function Used(s: State, id: PoolId): set<int> {
    set a | a in s.allocations && Active(s.allocations[a]) && s.allocations[a].pool == id :: s.allocations[a].address
  }

  ghost predicate HasHistory(s: State, id: PoolId) {
    exists a :: a in s.allocations && s.allocations[a].pool == id
  }

  ghost predicate Clear(s: State, block: Block, except: set<PoolId>) {
    forall p :: p in s.pools && p !in except ==> !Overlaps(block, s.pools[p].data.block)
  }

  ghost predicate Fits(s: State, id: PoolId, data: PoolInput) {
    forall a :: a in s.allocations && Active(s.allocations[a]) && s.allocations[a].pool == id ==>
                  Usable(data, s.allocations[a].address)
  }

  // ----- Choosing an address -----

  function Hosts(data: PoolInput): nat
    requires Coherent(data)
  {
    HostsArePositive(data.block.bits);
    Size(data.block) - 2
  }

  lemma HostsArePositive(bits: nat)
    requires 2 <= bits
    ensures Pow2(bits) >= 4
  {
  }

  function Candidate(data: PoolInput, start: nat, i: nat): int
    requires Coherent(data) && start >= 1
  {
    HostsArePositive(data.block.bits);
    data.block.base + RingOffset(start, i, Hosts(data))
  }

  predicate Free(data: PoolInput, used: set<int>, a: int) {
    Usable(data, a) && a !in used
  }

  /** The first free address going round from `start`, from the i-th try on. */
  function FirstFree(data: PoolInput, used: set<int>, start: nat, i: nat): Option<int>
    requires Coherent(data) && start >= 1 && i <= Hosts(data)
    decreases Hosts(data) - i
  {
    if i == Hosts(data) then None
    else if Free(data, used, Candidate(data, start, i)) then Some(Candidate(data, start, i))
    else FirstFree(data, used, start, i + 1)
  }

  method FindFree(data: PoolInput, used: set<int>, start: nat) returns (r: Option<int>)
    requires Coherent(data) && start >= 1
    ensures r == FirstFree(data, used, start, 0)
  {
    for i := 0 to Hosts(data)
      invariant FirstFree(data, used, start, 0) == FirstFree(data, used, start, i)
    {
      if Free(data, used, Candidate(data, start, i)) {
        return Some(Candidate(data, start, i));
      }
    }
    return None;
  }

  lemma {:induction false} FirstFreeFrom(data: PoolInput, used: set<int>, start: nat, i: nat, k: nat)
    requires Coherent(data) && start >= 1 && i <= k < Hosts(data)
    ensures FirstFree(data, used, start, i).Some? ==> Free(data, used, FirstFree(data, used, start, i).value)
    ensures FirstFree(data, used, start, i).None? ==> !Free(data, used, Candidate(data, start, k))
    decreases Hosts(data) - i
  {
    if !Free(data, used, Candidate(data, start, i)) && i + 1 < Hosts(data) {
      FirstFreeFrom(data, used, start, i + 1, if i < k then k else k + 1);
    }
  }

  /** Every usable address is tried: the pool is exhausted exactly when none of them is free. */
  lemma ExhaustedIsExact(data: PoolInput, used: set<int>, start: nat)
    requires Coherent(data) && start >= 1
    ensures FirstFree(data, used, start, 0).None? <==> forall a :: Usable(data, a) ==> a in used
    ensures FirstFree(data, used, start, 0).Some? ==> Free(data, used, FirstFree(data, used, start, 0).value)
  {
    HostsArePositive(data.block.bits);
    FirstFreeFrom(data, used, start, 0, 0);
    if FirstFree(data, used, start, 0).None? {
      forall a | Usable(data, a) ensures a in used {
        var i := RingCovers(start, Hosts(data), a - data.block.base);
        FirstFreeFrom(data, used, start, 0, i);
      }
    }
  }

  /** The address found is the first free one met going round. */
  lemma {:induction false} FoundIsFirst(data: PoolInput, used: set<int>, start: nat, i: nat) returns (k: nat)
    requires Coherent(data) && start >= 1 && i <= Hosts(data) && FirstFree(data, used, start, i).Some?
    ensures i <= k < Hosts(data) && FirstFree(data, used, start, i) == Some(Candidate(data, start, k))
    ensures forall j :: i <= j < k ==> !Free(data, used, Candidate(data, start, j))
    decreases Hosts(data) - i
  {
    if Free(data, used, Candidate(data, start, i)) {
      k := i;
    } else {
      k := FoundIsFirst(data, used, start, i + 1);
    }
  }

  /** The tries go up one address at a time and from the last host back to the first. */
  lemma TriesGoRound(data: PoolInput, start: nat, i: nat)
    requires Coherent(data) && start >= 1
    ensures var a := Candidate(data, start, i);
            && data.block.base < a < data.block.base + Pow2(data.block.bits) - 1
            && Candidate(data, start, i + 1) ==
                 if a + 1 == data.block.base + Pow2(data.block.bits) - 1 then data.block.base + 1 else a + 1
  {
    HostsArePositive(data.block.bits);
    NextOnRing(start - 1 + i, Hosts(data));
  }

  lemma NextOnRing(x: nat, n: nat)
    requires n >= 1
    ensures (x + 1) % n == if x % n == n - 1 then 0 else x % n + 1
  {
    ModAdd(x, 1, n);
    if x % n == n - 1 {
      ModUnique(x % n + 1, n, 1, 0);
    } else {
      ModUnique(x % n + 1, n, 0, x % n + 1);
    }
  }

  // ----- Requests -----

  datatype Request =
    | CreatePool(id: PoolId, data: PoolInput)
    | UpdatePool(id: PoolId, data: PoolInput)
    | DeletePool(id: PoolId)
    | Allocate(id: PoolId, allocation: AllocationId, preferred: Option<int>)
    | Assign(allocation: AllocationId)
    | Release(allocation: AllocationId)
    /** Retention deletes a released allocation, and with it the history of its pool. */
    | Forget(allocation: AllocationId)

  ghost predicate CanUpdate(s: State, id: PoolId, data: PoolInput) {
    && id in s.pools
    && (data.block != s.pools[id].data.block ==> !HasHistory(s, id) && Clear(s, data.block, {id}))
    && Fits(s, id, data)
  }

  function Chosen(s: State, id: PoolId, preferred: Option<int>): Option<int>
    requires id in s.pools && Coherent(s.pools[id].data)
  {
    var pool := s.pools[id];
    if preferred.Some? then if Free(pool.data, Used(s, id), preferred.value) then preferred else None
    else FirstFree(pool.data, Used(s, id), if pool.nextOffset < 1 then 1 else pool.nextOffset, 0)
  }

  function NextOffset(pool: Pool, chosen: int, preferred: Option<int>): nat
    requires Coherent(pool.data) && pool.data.block.base <= chosen
  {
    HostsArePositive(pool.data.block.bits);
    if preferred.Some? then pool.nextOffset else (chosen - pool.data.block.base) % Hosts(pool.data) + 1
  }

  ghost predicate Accepted(s: State, q: Request) {
    match q
    case CreatePool(id, data) => id !in s.pools && Coherent(data) && Clear(s, data.block, {})
    case UpdatePool(id, data) => Coherent(data) && CanUpdate(s, id, data)
    case DeletePool(id) => id in s.pools && !HasHistory(s, id)
    case Allocate(id, a, preferred) =>
      && a !in s.allocations
      && id in s.pools
      && s.pools[id].data.active
      && Coherent(s.pools[id].data)
      && Chosen(s, id, preferred).Some?
      && s.pools[id].data.block.base <= Chosen(s, id, preferred).value
    case Assign(a) => a in s.allocations && s.allocations[a].status == Reserved
    case Release(a) => a in s.allocations && s.allocations[a].status != Released
    case Forget(a) => a in s.allocations && s.allocations[a].status == Released
  }

  ghost function Next(s: State, q: Request): State {
    if !Accepted(s, q) then s
    else
      match q
      case CreatePool(id, data) => s.(pools := s.pools[id := Pool(data, 1)])
      case UpdatePool(id, data) =>
        var offset := if data.block != s.pools[id].data.block then 1 else s.pools[id].nextOffset;
        s.(pools := s.pools[id := Pool(data, offset)])
      case DeletePool(id) => s.(pools := s.pools - {id})
      case Allocate(id, a, preferred) =>
        var chosen := Chosen(s, id, preferred).value;
        State(s.pools[id := s.pools[id].(nextOffset := NextOffset(s.pools[id], chosen, preferred))],
              s.allocations[a := Allocation(id, chosen, Reserved)])
      case Assign(a) => s.(allocations := s.allocations[a := s.allocations[a].(status := Assigned)])
      case Release(a) => s.(allocations := s.allocations[a := s.allocations[a].(status := Released)])
      case Forget(a) => s.(allocations := s.allocations - {a})
  }

  // ----- What every sequence of requests keeps -----

  ghost predicate PoolsDisjoint(s: State) {
    forall p, q :: p in s.pools && q in s.pools && p != q ==> !Overlaps(s.pools[p].data.block, s.pools[q].data.block)
  }

  ghost predicate PoolsCoherent(s: State) {
    forall p :: p in s.pools ==> Coherent(s.pools[p].data)
  }

  /** No allocation is without its pool, and no active one is outside what the pool may hand out. */
  ghost predicate Homed(s: State, a: Allocation) {
    a.pool in s.pools && (Active(a) ==> Usable(s.pools[a.pool].data, a.address))
  }

  ghost predicate AllHomed(s: State) {
    forall a :: a in s.allocations ==> Homed(s, s.allocations[a])
  }

  ghost predicate SamePoolUnique(s: State) {
    forall a, b :: InUse(s, a) && InUse(s, b) && SamePlace(s.allocations[a], s.allocations[b]) ==> a == b
  }

  predicate InUse(s: State, a: AllocationId) {
    a in s.allocations && Active(s.allocations[a])
  }

  predicate SamePlace(x: Allocation, y: Allocation) {
    x.pool == y.pool && x.address == y.address
  }

  ghost predicate Sound(s: State) {
    PoolsCoherent(s) && PoolsDisjoint(s) && AllHomed(s) && SamePoolUnique(s)
  }

  lemma PutPoolKeepsSound(s: State, id: PoolId, pool: Pool)
    requires Sound(s) && Coherent(pool.data) && Clear(s, pool.data.block, {id}) && Fits(s, id, pool.data)
    ensures Sound(s.(pools := s.pools[id := pool]))
  {
  }

  lemma CreateKeepsSound(s: State, id: PoolId, data: PoolInput)
    requires Sound(s) && Accepted(s, CreatePool(id, data))
    ensures Sound(Next(s, CreatePool(id, data)))
  {
    forall a | a in s.allocations ensures s.allocations[a].pool != id {
      assert Homed(s, s.allocations[a]);
    }
    PutPoolKeepsSound(s, id, Pool(data, 1));
  }

  lemma UpdateKeepsSound(s: State, id: PoolId, data: PoolInput)
    requires Sound(s) && Accepted(s, UpdatePool(id, data))
    ensures Sound(Next(s, UpdatePool(id, data)))
  {
    PutPoolKeepsSound(s, id, Next(s, UpdatePool(id, data)).pools[id]);
  }

  lemma DeleteKeepsSound(s: State, id: PoolId)
    requires Sound(s) && Accepted(s, DeletePool(id))
    ensures Sound(Next(s, DeletePool(id)))
  {
  }

  lemma ChosenIsFree(s: State, id: PoolId, preferred: Option<int>)
    requires id in s.pools && Coherent(s.pools[id].data) && Chosen(s, id, preferred).Some?
    ensures Free(s.pools[id].data, Used(s, id), Chosen(s, id, preferred).value)
  {
    var offset := s.pools[id].nextOffset;
    ExhaustedIsExact(s.pools[id].data, Used(s, id), if offset < 1 then 1 else offset);
  }

  lemma NewAllocationKeepsSound(s: State, id: PoolId, a: AllocationId, chosen: int, offset: nat)
    requires Sound(s) && id in s.pools && a !in s.allocations && Free(s.pools[id].data, Used(s, id), chosen)
    ensures Sound(State(s.pools[id := s.pools[id].(nextOffset := offset)], s.allocations[a := Allocation(id, chosen, Reserved)]))
  {
  }

  lemma StatusKeepsSound(s: State, a: AllocationId, status: Status)
    requires Sound(s) && a in s.allocations && Active(s.allocations[a])
    ensures Sound(s.(allocations := s.allocations[a := s.allocations[a].(status := status)]))
  {
  }

  lemma ForgetKeepsSound(s: State, a: AllocationId)
    requires Sound(s)
    ensures Sound(s.(allocations := s.allocations - {a}))
  {
    var t := s.(allocations := s.allocations - {a});
    forall b | b in t.allocations ensures Homed(t, t.allocations[b]) {
      assert Homed(s, s.allocations[b]);
    }
  }

  lemma RequestKeepsSound(s: State, q: Request)
    requires Sound(s)
    ensures Sound(Next(s, q))
  {
    if Accepted(s, q) {
      match q
      case CreatePool(id, data) => CreateKeepsSound(s, id, data);
      case UpdatePool(id, data) => UpdateKeepsSound(s, id, data);
      case DeletePool(id) => DeleteKeepsSound(s, id);
      case Allocate(id, a, preferred) =>
        ChosenIsFree(s, id, preferred);
        var chosen := Chosen(s, id, preferred).value;
        NewAllocationKeepsSound(s, id, a, chosen, NextOffset(s.pools[id], chosen, preferred));
      case Assign(a) => StatusKeepsSound(s, a, Assigned);
      case Release(a) => StatusKeepsSound(s, a, Released);
      case Forget(a) => ForgetKeepsSound(s, a);
    }
  }

  ghost function AfterAll(s: State, requests: seq<Request>): State {
    if requests == [] then s else Next(AfterAll(s, requests[..|requests| - 1]), requests[|requests| - 1])
  }

  const EMPTY := State(map[], map[])

  lemma {:induction false} SequenceIsSound(requests: seq<Request>)
    ensures Sound(AfterAll(EMPTY, requests))
    decreases |requests|
  {
    if requests != [] {
      SequenceIsSound(requests[..|requests| - 1]);
      RequestKeepsSound(AfterAll(EMPTY, requests[..|requests| - 1]), requests[|requests| - 1]);
    }
  }

  /** After any requests no address is in use twice, in whatever pools, and none is outside its pool. */
  lemma NoAddressTwice(requests: seq<Request>, a: AllocationId, b: AllocationId)
    requires var s := AfterAll(EMPTY, requests);
             InUse(s, a) && InUse(s, b) && s.allocations[a].address == s.allocations[b].address
    ensures a == b
  {
    SequenceIsSound(requests);
    var s := AfterAll(EMPTY, requests);
    var x, y := s.allocations[a], s.allocations[b];
    assert Homed(s, x) && Homed(s, y);
    if x.pool != y.pool {
      OverlapIsNesting(s.pools[x.pool].data.block, s.pools[y.pool].data.block);
    }
  }

  /**
   After any requests an address in use is a host of its network: never the network or broadcast
   address, never the gateway and never in an excluded block.
   */
  lemma HandedOutIsHost(requests: seq<Request>, a: AllocationId)
    requires InUse(AfterAll(EMPTY, requests), a)
    ensures var s := AfterAll(EMPTY, requests);
            && s.allocations[a].pool in s.pools
            && var address, data := s.allocations[a].address, s.pools[s.allocations[a].pool].data;
            && 0 <= data.block.base < address < data.block.base + Pow2(data.block.bits) - 1 < 0x1_0000_0000
            && data.gateway != Some(address)
            && forall b :: b in data.excluded ==> address < b.base || b.base + Pow2(b.bits) <= address
  {
    SequenceIsSound(requests);
    var s := AfterAll(EMPTY, requests);
    assert Homed(s, s.allocations[a]);
  }

  /** A wanted address is given exactly when it is such a host of an active pool and nobody in the pool uses it. */
  lemma WantedIsGiven(s: State, id: PoolId, a: AllocationId, wanted: int)
    requires Sound(s) && a !in s.allocations
    ensures Accepted(s, Allocate(id, a, Some(wanted))) <==>
              && id in s.pools
              && var data := s.pools[id].data;
              && data.active
              && data.block.base < wanted < data.block.base + Pow2(data.block.bits) - 1
              && data.gateway != Some(wanted)
              && (forall b :: b in data.excluded ==> wanted < b.base || b.base + Pow2(b.bits) <= wanted)
              && forall x :: x in s.allocations && s.allocations[x].pool == id && s.allocations[x].status in {Reserved, Assigned}
                   ==> s.allocations[x].address != wanted
    ensures Accepted(s, Allocate(id, a, Some(wanted))) ==>
              Next(s, Allocate(id, a, Some(wanted))) == s.(allocations := s.allocations[a := Allocation(id, wanted, Reserved)])
  {
    if id in s.pools {
      assert Coherent(s.pools[id].data);
      assert wanted in Used(s, id) <==>
             exists x :: x in s.allocations && Active(s.allocations[x]) && s.allocations[x].pool == id && s.allocations[x].address == wanted;
      assert s.pools[id := s.pools[id]] == s.pools;
    }
  }

  /** Without a wish the search goes on behind the address it gave last. */
  lemma SearchGoesOn(s: State, id: PoolId, a: AllocationId)
    requires Sound(s) && Accepted(s, Allocate(id, a, None))
    ensures var t := Next(s, Allocate(id, a, None));
            && t.pools[id].data == s.pools[id].data
            && Coherent(s.pools[id].data)
            && t.pools[id].nextOffset >= 1
            && a in t.allocations
            && var data, given := s.pools[id].data, t.allocations[a].address;
            && t.allocations[a] == Allocation(id, given, Reserved)
            && Candidate(data, t.pools[id].nextOffset, 0) ==
                 if given + 1 == data.block.base + Pow2(data.block.bits) - 1 then data.block.base + 1 else given + 1
  {
    var pool := s.pools[id];
    HostsArePositive(pool.data.block.bits);
    ChosenIsFree(s, id, None);
    var o := Chosen(s, id, None).value - pool.data.block.base;
    var n := Hosts(pool.data);
    if o == n {
      ModUnique(o, n, 1, 0);
    } else {
      ModUnique(o, n, 0, o);
    }
    ModUnique(o % n, n, 0, o % n);
  }

  /** Pools hold 4 to 65536 addresses from a multiple of their size, with the gateway and the exclusions inside. */
  lemma PoolsAreWellFormed(requests: seq<Request>, id: PoolId)
    requires id in AfterAll(EMPTY, requests).pools
    ensures var data := AfterAll(EMPTY, requests).pools[id].data;
            var size := Pow2(data.block.bits);
            && 4 <= size <= 65536
            && 0 <= data.block.base && data.block.base % size == 0 && data.block.base + size <= 0x1_0000_0000
            && (data.gateway.Some? ==> data.block.base < data.gateway.value < data.block.base + size - 1)
            && forall b :: b in data.excluded ==> data.block.base <= b.base && b.base + Pow2(b.bits) <= data.block.base + size
  {
    SequenceIsSound(requests);
    var bits := AfterAll(EMPTY, requests).pools[id].data.block.bits;
    assert Coherent(AfterAll(EMPTY, requests).pools[id].data);
    BlockSizes();
    Pow2Grows(2, bits);
    Pow2Grows(bits, 16);
  }

  /** While an allocation of the pool is on record, released or not, the pool is neither deleted nor moved. */
  lemma HistoryPinsPool(s: State, q: Request, a: AllocationId)
    requires Sound(s) && a in s.allocations
    ensures var id := s.allocations[a].pool;
            id in s.pools && id in Next(s, q).pools && Next(s, q).pools[id].data.block == s.pools[id].data.block
  {
    assert Homed(s, s.allocations[a]);
    if Accepted(s, q) && (q.UpdatePool? || q.DeletePool?) && q.id == s.allocations[a].pool {
      assert HasHistory(s, q.id);
    }
  }

  // ----- The handlers -----

  class Registry {
    var pools: map<PoolId, Pool>
    var allocations: map<AllocationId, Allocation>

    function Contents(): State
      reads this
    {
      State(pools, allocations)
    }

    method EnsureNoOverlap(block: Block, ignored: set<PoolId>) returns (ok: bool)
      ensures ok <==> Clear(Contents(), block, ignored)
    {
      var left := pools.Keys;
      while left != {}
        invariant forall p :: p in left ==> p in pools
        invariant forall p :: p in pools && p !in left && p !in ignored ==> !Overlaps(block, pools[p].data.block)
        decreases |left|
      {
        var p :| p in left;
        left := left - {p};
        if p in ignored {
          continue;
        }
        if Overlaps(block, pools[p].data.block) {
          return false;
        }
      }
      return true;
    }

    method EnsureActiveAllocationsFit(id: PoolId, data: PoolInput) returns (ok: bool)
      ensures ok <==> Fits(Contents(), id, data)
    {
      var active := set a | a in allocations && allocations[a].pool == id && Active(allocations[a]);
      var left := active;
      while left != {}
        invariant left <= active
        invariant forall a :: a in active - left ==> Usable(data, allocations[a].address)
        decreases |left|
      {
        var a :| a in left;
        left := left - {a};
        if !Usable(data, allocations[a].address) {
          return false;
        }
      }
      return true;
    }

    method CreatePool(id: PoolId, data: PoolInput) returns (r: Outcome)
      requires id !in pools
      modifies this
      ensures r == Done <==> Accepted(old(Contents()), Request.CreatePool(id, data))
      ensures Contents() == Next(old(Contents()), Request.CreatePool(id, data))
    {
      if !Coherent(data) {
        return Invalid;
      }
      var clear := EnsureNoOverlap(data.block, {});
      if !clear {
        return Conflict;
      }
      pools := pools[id := Pool(data, 1)];
      return Done;
    }

    method DeletePool(id: PoolId) returns (r: Outcome)
      modifies this
      ensures r == Done <==> Accepted(old(Contents()), Request.DeletePool(id))
      ensures Contents() == Next(old(Contents()), Request.DeletePool(id))
    {
      if id !in pools {
        return NotFound;
      }
      if exists a :: a in allocations && allocations[a].pool == id {
        return Conflict;
      }
      pools := pools - {id};
      return Done;
    }

    method UpdatePool(id: PoolId, data: PoolInput) returns (r: Outcome)
      modifies this
      ensures r == Done <==> Accepted(old(Contents()), Request.UpdatePool(id, data))
      ensures Contents() == Next(old(Contents()), Request.UpdatePool(id, data))
    {
      if !Coherent(data) {
        return Invalid;
      }
      if id !in pools {
        return NotFound;
      }
      var offset := pools[id].nextOffset;
      if pools[id].data.block != data.block {
        if exists a :: a in allocations && allocations[a].pool == id {
          return Conflict;
        }
        var clear := EnsureNoOverlap(data.block, {id});
        if !clear {
          return Conflict;
        }
        offset := 1;
      }
      var fits := EnsureActiveAllocationsFit(id, data);
      if !fits {
        return Conflict;
      }
      pools := pools[id := Pool(data, offset)];
      return Done;
    }

    method AllocateAddress(id: PoolId, a: AllocationId, preferred: Option<int>) returns (r: Outcome)
      requires a !in allocations && PoolsCoherent(Contents())
      modifies this
      ensures r == Done <==> Accepted(old(Contents()), Allocate(id, a, preferred))
      ensures Contents() == Next(old(Contents()), Allocate(id, a, preferred))
    {
      if id !in pools || !pools[id].data.active {
        return NotFound;
      }
      var pool := pools[id];
      HostsArePositive(pool.data.block.bits);
      var used := Used(Contents(), id);
      var candidate;
      if preferred.Some? {
        if !Usable(pool.data, preferred.value) {
          return Invalid;
        }
        if preferred.value in used {
          return Conflict;
        }
        candidate := preferred.value;
      } else {
        var start := if pool.nextOffset < 1 then 1 else pool.nextOffset;
        ExhaustedIsExact(pool.data, used, start);
        var found := FindFree(pool.data, used, start);
        if found.None? {
          return Conflict;
        }
        candidate := found.value;
        pool := pool.(nextOffset := (candidate - pool.data.block.base) % Hosts(pool.data) + 1);
      }
      pools := pools[id := pool];
      allocations := allocations[a := Allocation(id, candidate, Reserved)];
      return Done;
    }

    method AssignAddress(a: AllocationId) returns (r: Outcome)
      modifies this
      ensures r == Done <==> Accepted(old(Contents()), Assign(a))
      ensures Contents() == Next(old(Contents()), Assign(a))
    {
      if a !in allocations {
        return NotFound;
      }
      if allocations[a].status != Reserved {
        return Conflict;
      }
      allocations := allocations[a := allocations[a].(status := Assigned)];
      return Done;
    }

    method ForgetReleased(a: AllocationId) returns (r: Outcome)
      modifies this
      ensures r == Done <==> Accepted(old(Contents()), Forget(a))
      ensures Contents() == Next(old(Contents()), Forget(a))
    {
      if a !in allocations || allocations[a].status != Released {
        return NotFound;
      }
      allocations := allocations - {a};
      return Done;
    }

    method ReleaseAddress(a: AllocationId) returns (r: Outcome)
      modifies this
      ensures r == Done <==> Accepted(old(Contents()), Release(a))
      ensures Contents() == Next(old(Contents()), Release(a))
    {
      if a !in allocations {
        return NotFound;
      }
      if allocations[a].status == Released {
        return Conflict;
      }
      allocations := allocations[a := allocations[a].(status := Released)];
      return Done;
    }
  }
}
