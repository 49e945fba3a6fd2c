/**
 Idempotency keys: one request served on its own (`idempotent` inside the transaction of `get_db`),
 and any number of requests interleaved, with the retention job deleting old records among them. A
 row inserted by an open transaction makes other inserts of the same key wait; a rollback removes it.
 */
module Idempotency {
  import opened Wrappers

  type Uuid = string
  type Value = string
  type Response = map<string, Value>

  datatype KeyHeader = Absent | Malformed | Key(uuid: Uuid)

  datatype Scope = Scope(tenant: string, project: string)

  const DEFAULT_SCOPE := Scope("00000000-0000-0000-0000-000000000001", "00000000-0000-0000-0000-000000000002")

  datatype Request = Request(user: int, path: string, key: KeyHeader, required: bool, scope: Option<Scope>, payload: string)

  datatype Slot = Slot(user: int, path: string, uuid: Uuid)

  /** Keyed hashing of the request, taken as injective. */
  datatype Fingerprint = Plain(payload: string) | Scoped(scope: Scope, payload: string)

  datatype Record = Record(fingerprint: Fingerprint, response: Option<Response>)

  /** What happened to the database: committed runs of the create callback, and records deleted by retention. */
  datatype Entry =
    | Effect(request: Request, result: Response)
    | Purged(key: Slot)

  datatype Db = Db(table: map<Slot, Record>, log: seq<Entry>)

  datatype Reply = Created(response: Response) | Replayed(response: Response) | Different | InProgress | Hidden | BadRequest | Error

  const SECRETS := {"token", "reset_token", "secret"}

  function Strip(r: Response): Response {
    map k | k in r && k !in SECRETS :: r[k]
  }

  function FingerprintOf(q: Request): Fingerprint {
    if q.scope.Some? && q.scope.value != DEFAULT_SCOPE then Scoped(q.scope.value, q.payload) else Plain(q.payload)
  }

  function SlotOf(q: Request): Option<Slot> {
    if q.key.Key? then Some(Slot(q.user, q.path, q.key.uuid)) else None
  }

  // ----- One request -----

  /** What an existing record answers; `visible` is the scope check of a replay. */
  function Answer(record: Record, q: Request, visible: bool): Reply {
    if record.fingerprint != FingerprintOf(q) then Different
    else if record.response.None? then InProgress
    else if q.scope.Some? && !visible then Hidden
    else Replayed(record.response.value)
  }

  function Committed(db: Db, q: Request, result: Response): Db {
    var effect := Effect(q, result);
    if SlotOf(q).None? then db.(log := db.log + [effect])
    else Db(db.table[SlotOf(q).value := Record(FingerprintOf(q), Some(Strip(result)))], db.log + [effect])
  }

  /** `created` is what the create callback and the commit come to, if they are reached. */
  function Serve(db: Db, q: Request, created: Option<Response>, visible: bool): (Db, Reply) {
    if q.key.Malformed? || (q.key.Absent? && q.required) then (db, BadRequest)
    else if SlotOf(q).Some? && SlotOf(q).value in db.table then (db, Answer(db.table[SlotOf(q).value], q, visible))
    else if created.None? then (db, Error)
    else (Committed(db, q, created.value), Reply.Created(created.value))
  }

  /** Retention deletes an old record. */
  function Purge(db: Db, slot: Slot): Db {
    Db(db.table - {slot}, db.log + [Purged(slot)])
  }

  class Session {
    var table: map<Slot, Record>
    var log: seq<Entry>

    function Contents(): Db
      reads this
    {
      Db(table, log)
    }

    /** The row is inserted before the callback runs and gets its response after it; an exception undoes it. */
    method Idempotent(q: Request, created: Option<Response>, visible: bool) returns (reply: Reply)
      modifies this
      ensures (Contents(), reply) == Serve(old(Contents()), q, created, visible)
    {
      if q.key.Absent? {
        if q.required {
          return BadRequest;
        }
        if created.None? {
          return Error;
        }
        log := log + [Effect(q, created.value)];
        return Reply.Created(created.value);
      }
      if q.key.Malformed? {
        return BadRequest;
      }
      var slot := Slot(q.user, q.path, q.key.uuid);
      var before := table;
      if slot in table {
        var row := table[slot];
        if row.fingerprint != FingerprintOf(q) {
          return Different;
        }
        if row.response.None? {
          return InProgress;
        }
        if q.scope.Some? && !visible {
          return Hidden;
        }
        return Replayed(row.response.value);
      }
      table := table[slot := Record(FingerprintOf(q), None)];
      if created.None? {
        table := before;
        return Error;
      }
      table := table[slot := table[slot].(response := Some(Strip(created.value)))];
      assert table == before[slot := Record(FingerprintOf(q), Some(Strip(created.value)))];
      log := log + [Effect(q, created.value)];
      return Reply.Created(created.value);
    }
  }

  // ----- What the committed tables say -----

  /** The request was made by this user, on this path, under this key. */
  predicate MadeUnder(q: Request, slot: Slot) {
    q.user == slot.user && q.path == slot.path && q.key == Key(slot.uuid)
  }

  /** The same payload in the same scope, where no scope means the default one. */
  predicate SameContent(q: Request, r: Request) {
    q.payload == r.payload && q.scope.GetOr(DEFAULT_SCOPE) == r.scope.GetOr(DEFAULT_SCOPE)
  }

  /** Fingerprints tell requests apart exactly by payload and scope. */
  lemma FingerprintsAgree(q: Request, r: Request)
    ensures FingerprintOf(q) == FingerprintOf(r) <==> SameContent(q, r)
  {
  }

  /** The callback runs, once, exactly for a request without a key that needs none or with a key not yet recorded. */
  lemma CallbackRuns(db: Db, q: Request, created: Option<Response>, visible: bool)
    ensures var (after, reply) := Serve(db, q, created, visible);
            var runs := if q.key.Key? then Slot(q.user, q.path, q.key.uuid) !in db.table else q.key.Absent? && !q.required;
            && (reply == BadRequest <==> q.key.Malformed? || (q.key.Absent? && q.required))
            && (reply.Created? || reply == Error <==> runs)
            && after.log == db.log + (if runs && created.Some? then [Effect(q, created.value)] else [])
            && (reply.Created? ==> created == Some(reply.response))
  {
  }

  ghost predicate IsEffect(db: Db, slot: Slot, i: int) {
    0 <= i < |db.log| && db.log[i].Effect? && MadeUnder(db.log[i].request, slot)
  }

  ghost predicate IsPurge(db: Db, slot: Slot, i: int) {
    0 <= i < |db.log| && db.log[i] == Purged(slot)
  }

  ghost predicate PurgedBetween(db: Db, slot: Slot, m: int, n: int) {
    exists k :: m < k < n && IsPurge(db, slot, k)
  }

  /** An effect of the key that has not been purged since. */
  ghost predicate Current(db: Db, slot: Slot, i: int) {
    IsEffect(db, slot, i) && !PurgedBetween(db, slot, i, |db.log|)
  }

  /** The record quotes the response of the effect. */
  ghost predicate Explained(db: Db, slot: Slot, i: int)
    requires slot in db.table
  {
    Current(db, slot, i) && db.table[slot] == Record(FingerprintOf(db.log[i].request), Some(Strip(db.log[i].result)))
  }

  /** Between two effects of a key its record was purged, and each purge had an effect of its own. */
  ghost predicate Alternating(db: Db) {
    && (forall slot, m, n :: IsEffect(db, slot, m) && IsEffect(db, slot, n) && m < n ==> PurgedBetween(db, slot, m, n))
    && (forall slot, k :: IsPurge(db, slot, k) ==> exists m :: m < k && IsEffect(db, slot, m) && !PurgedBetween(db, slot, m, k))
  }

  /** The records are exactly the current effects. */
  ghost predicate Exact(db: Db) {
    && Alternating(db)
    && (forall slot :: slot in db.table ==> exists i :: Explained(db, slot, i))
    && (forall slot, i :: Current(db, slot, i) ==> slot in db.table)
  }

  /** The log grew by one entry: what was said about earlier entries still stands. */
  ghost predicate Extends(db: Db, after: Db) {
    |after.log| == |db.log| + 1 && after.log[..|db.log|] == db.log
  }

  lemma EarlierEntries(db: Db, after: Db, slot: Slot)
    requires Extends(db, after)
    ensures forall i :: i < |db.log| ==> (IsEffect(after, slot, i) <==> IsEffect(db, slot, i))
    ensures forall i :: i < |db.log| ==> (IsPurge(after, slot, i) <==> IsPurge(db, slot, i))
  {
    forall i | 0 <= i < |db.log| ensures after.log[i] == db.log[i] {
      assert after.log[..|db.log|][i] == after.log[i];
    }
  }

  lemma EarlierPurges(db: Db, after: Db, slot: Slot, m: int, n: int)
    requires Extends(db, after) && n <= |db.log|
    ensures PurgedBetween(after, slot, m, n) <==> PurgedBetween(db, slot, m, n)
  {
    EarlierEntries(db, after, slot);
    if k :| m < k < n && IsPurge(after, slot, k) {
      assert IsPurge(db, slot, k);
    }
    if k :| m < k < n && IsPurge(db, slot, k) {
      assert IsPurge(after, slot, k);
    }
  }

  /** An entry that does not purge the key leaves current what was current. */
  lemma CurrentExtends(db: Db, after: Db, slot: Slot, i: int)
    requires Extends(db, after) && after.log[|db.log|] != Purged(slot) && i < |db.log|
    ensures Current(after, slot, i) <==> Current(db, slot, i)
  {
    EarlierEntries(db, after, slot);
    EarlierPurges(db, after, slot, i, |db.log|);
    if k :| i < k < |after.log| && IsPurge(after, slot, k) {
      assert k < |db.log|;
    }
    if PurgedBetween(db, slot, i, |db.log|) {
      var k :| i < k < |db.log| && IsPurge(db, slot, k);
      assert IsPurge(after, slot, k);
    }
  }

  lemma EffectsAlternate(db: Db, after: Db, slot: Slot, m: int, n: int)
    requires Alternating(db) && Extends(db, after) && IsEffect(after, slot, m) && IsEffect(after, slot, n) && m < n
    requires n == |db.log| && IsEffect(db, slot, m) ==> !Current(db, slot, m)
    ensures PurgedBetween(after, slot, m, n)
  {
    EarlierEntries(db, after, slot);
    EarlierPurges(db, after, slot, m, n);
    assert IsEffect(db, slot, m);
  }

  lemma PurgesAlternate(db: Db, after: Db, slot: Slot, k: int)
    requires Alternating(db) && Extends(db, after) && IsPurge(after, slot, k)
    requires k == |db.log| ==> exists m :: Current(db, slot, m)
    ensures exists m :: m < k && IsEffect(after, slot, m) && !PurgedBetween(after, slot, m, k)
  {
    EarlierEntries(db, after, slot);
    var m :| m < k && IsEffect(db, slot, m) && !PurgedBetween(db, slot, m, k);
    EarlierPurges(db, after, slot, m, k);
    assert IsEffect(after, slot, m);
  }

  lemma ExtensionAlternates(db: Db, after: Db)
    requires Alternating(db) && Extends(db, after)
    requires forall slot, m :: IsEffect(after, slot, |db.log|) && IsEffect(db, slot, m) ==> !Current(db, slot, m)
    requires forall slot :: IsPurge(after, slot, |db.log|) ==> exists m :: Current(db, slot, m)
    ensures Alternating(after)
  {
    forall slot, m, n | IsEffect(after, slot, m) && IsEffect(after, slot, n) && m < n ensures PurgedBetween(after, slot, m, n) {
      EffectsAlternate(db, after, slot, m, n);
    }
    forall slot, k | IsPurge(after, slot, k)
      ensures exists m :: m < k && IsEffect(after, slot, m) && !PurgedBetween(after, slot, m, k)
    {
      PurgesAlternate(db, after, slot, k);
    }
  }

  lemma CommitKeepsExact(db: Db, q: Request, result: Response)
    requires Exact(db) && (SlotOf(q).Some? ==> SlotOf(q).value !in db.table)
    ensures Exact(Committed(db, q, result))
  {
    var after := Committed(db, q, result);
    assert after.log[..|db.log|] == db.log;
    ExtensionAlternates(db, after);
    forall slot, i | Current(after, slot, i) ensures slot in after.table {
      if i < |db.log| {
        CurrentExtends(db, after, slot, i);
      }
    }
    forall slot | slot in after.table ensures exists i :: Explained(after, slot, i) {
      if SlotOf(q) == Some(slot) {
        assert Explained(after, slot, |db.log|);
      } else {
        var i :| Explained(db, slot, i);
        CurrentExtends(db, after, slot, i);
        EarlierEntries(db, after, slot);
        assert after.log[i] == after.log[..|db.log|][i];
        assert Explained(after, slot, i);
      }
    }
  }

  lemma ServeKeepsExact(db: Db, q: Request, created: Option<Response>, visible: bool)
    requires Exact(db)
    ensures Exact(Serve(db, q, created, visible).0)
  {
    if Serve(db, q, created, visible).0 != db {
      CommitKeepsExact(db, q, created.value);
    }
  }

  lemma PurgeKeepsExact(db: Db, slot: Slot)
    requires Exact(db) && slot in db.table
    ensures Exact(Purge(db, slot))
  {
    var after := Purge(db, slot);
    assert after.log[..|db.log|] == db.log;
    var own :| Explained(db, slot, own);
    ExtensionAlternates(db, after);
    assert IsPurge(after, slot, |db.log|);
    forall x, i | Current(after, x, i) ensures x in after.table {
      assert x != slot ==> i < |db.log|;
      if x != slot {
        CurrentExtends(db, after, x, i);
      }
    }
    forall x | x in after.table ensures exists i :: Explained(after, x, i) {
      var i :| Explained(db, x, i);
      CurrentExtends(db, after, x, i);
      assert after.log[i] == after.log[..|db.log|][i];
      assert Explained(after, x, i);
    }
  }

  // ----- Any number of requests -----

  type Rid = nat

  datatype Phase =
    | Arrived
    | Conflicted                     // the insert hit a committed record, which is read next
    | Working                        // the key row is inserted, the callback runs
    | Ready(result: Response)        // the response is set, the commit is to come
    | Answered(reply: Reply)

  /** `held` maps the keys inserted by open transactions to their request. */
  datatype State = State(db: Db, held: map<Slot, Rid>, requests: map<Rid, Request>, phases: map<Rid, Phase>)

  datatype Action =
    | Arrive(q: Request)
    | Begin
    | Look(visible: bool)
    | Finish(result: Response)
    | Commit
    | Abort                          // the callback or the commit fails, or the process dies
    | Expire(slot: Slot)             // the retention job deletes a record

  predicate Valid(s: State) {
    s.phases.Keys == s.requests.Keys
  }

  predicate Enabled(s: State, r: Rid, a: Action)
    requires Valid(s)
  {
    match a
    case Arrive(_) => r !in s.requests
    case Begin =>
      r in s.requests && s.phases[r].Arrived? && (SlotOf(s.requests[r]).Some? ==> SlotOf(s.requests[r]).value !in s.held)
    case Look(_) => r in s.requests && s.phases[r].Conflicted?
    case Finish(_) => r in s.requests && s.phases[r].Working?
    case Commit => r in s.requests && s.phases[r].Ready?
    case Abort => r in s.requests && (s.phases[r].Working? || s.phases[r].Ready?)
    case Expire(slot) => slot in s.db.table
  }

  function Release(held: map<Slot, Rid>, q: Request): map<Slot, Rid> {
    if SlotOf(q).None? then held else held - {SlotOf(q).value}
  }

  function Begun(s: State, r: Rid): State
    requires Valid(s) && r in s.requests
  {
    var q := s.requests[r];
    if q.key.Malformed? || (q.key.Absent? && q.required) then s.(phases := s.phases[r := Answered(BadRequest)])
    else if SlotOf(q).None? then s.(phases := s.phases[r := Working])
    else if SlotOf(q).value in s.db.table then s.(phases := s.phases[r := Conflicted])
    else s.(held := s.held[SlotOf(q).value := r], phases := s.phases[r := Working])
  }

  /** A record that was deleted meanwhile makes the request fail. */
  function Looked(s: State, r: Rid, visible: bool): Reply
    requires Valid(s) && r in s.requests
  {
    var q := s.requests[r];
    if SlotOf(q).Some? && SlotOf(q).value in s.db.table then Answer(s.db.table[SlotOf(q).value], q, visible) else Error
  }

  function Step(s: State, r: Rid, a: Action): State
    requires Valid(s) && Enabled(s, r, a)
  {
    match a
    case Arrive(q) => s.(requests := s.requests[r := q], phases := s.phases[r := Arrived])
    case Begin => Begun(s, r)
    case Look(visible) => s.(phases := s.phases[r := Answered(Looked(s, r, visible))])
    case Finish(result) => s.(phases := s.phases[r := Ready(result)])
    case Commit =>
      var q, result := s.requests[r], s.phases[r].result;
      s.(db := Committed(s.db, q, result), held := Release(s.held, q), phases := s.phases[r := Answered(Reply.Created(result))])
    case Abort => s.(held := Release(s.held, s.requests[r]), phases := s.phases[r := Answered(Error)])
    case Expire(slot) => s.(db := Purge(s.db, slot))
  }

  /** A request between its insert and its end. */
  ghost predicate Open(s: State, r: Rid)
    requires Valid(s)
  {
    r in s.requests && (s.phases[r].Working? || s.phases[r].Ready?)
  }

  /** An open request passed the header checks and holds its key. */
  ghost predicate OpenHolds(s: State, r: Rid)
    requires Valid(s) && r in s.requests
  {
    var q := s.requests[r];
    && !q.key.Malformed?
    && !(q.key.Absent? && q.required)
    && (SlotOf(q).Some? ==> SlotOf(q).value in s.held && s.held[SlotOf(q).value] == r)
  }

  /** A held key belongs to an open request and has no committed record. */
  ghost predicate HeldIsOpen(s: State, slot: Slot)
    requires Valid(s) && slot in s.held
  {
    slot !in s.db.table && Open(s, s.held[slot]) && SlotOf(s.requests[s.held[slot]]) == Some(slot)
  }

  ghost predicate Guarded(s: State) {
    && Valid(s)
    && (forall r :: Open(s, r) ==> OpenHolds(s, r))
    && (forall r :: r in s.requests && s.phases[r].Conflicted? ==> s.requests[r].key.Key?)
    && (forall slot :: slot in s.held ==> HeldIsOpen(s, slot))
  }

  ghost predicate Inv(s: State) {
    Guarded(s) && Exact(s.db)
  }

  /** The request is answered by this action. */
  predicate Answers(s: State, r: Rid, a: Action)
    requires Valid(s) && Enabled(s, r, a)
  {
    !a.Expire? && Step(s, r, a).phases[r].Answered?
  }

  /** What the callback and the commit came to for this action. */
  function Yield(s: State, r: Rid, a: Action): Option<Response>
    requires Valid(s) && Enabled(s, r, a)
  {
    if a.Commit? then Some(s.phases[r].result) else None
  }

  lemma OpenKeyIsFree(s: State, r: Rid)
    requires Guarded(s) && Open(s, r)
    ensures OpenHolds(s, r) && (SlotOf(s.requests[r]).Some? ==> SlotOf(s.requests[r]).value !in s.db.table)
  {
  }

  /**
   Interleaved requests take effect one at a time: an action that answers a request is the whole
   request served alone at that moment, and otherwise only the retention job changes the database.
   */
  lemma StepLinearises(s: State, r: Rid, a: Action, visible: bool)
    requires Inv(s) && Enabled(s, r, a) && (a.Look? ==> a.visible == visible)
    ensures Answers(s, r, a) ==>
              Serve(s.db, s.requests[r], Yield(s, r, a), visible) == (Step(s, r, a).db, Step(s, r, a).phases[r].reply)
    ensures !Answers(s, r, a) ==> Step(s, r, a).db == if a.Expire? then Purge(s.db, a.slot) else s.db
  {
    if r in s.requests && Open(s, r) {
      OpenKeyIsFree(s, r);
    }
  }

  lemma ArriveKeepsGuard(s: State, r: Rid, q: Request)
    requires Guarded(s) && r !in s.requests
    ensures Guarded(Step(s, r, Arrive(q)))
  {
    var t := Step(s, r, Arrive(q));
    forall p | Open(t, p) ensures OpenHolds(t, p) {
      assert Open(s, p);
    }
    forall slot | slot in t.held ensures HeldIsOpen(t, slot) {
      assert HeldIsOpen(s, slot);
    }
  }

  lemma BeginKeepsGuard(s: State, r: Rid)
    requires Guarded(s) && Enabled(s, r, Begin)
    ensures Guarded(Begun(s, r))
  {
    var t := Begun(s, r);
    forall p | Open(t, p) ensures OpenHolds(t, p) {
      if p != r {
        assert Open(s, p);
      }
    }
    forall slot | slot in t.held ensures HeldIsOpen(t, slot) {
      if SlotOf(s.requests[r]) != Some(slot) {
        assert HeldIsOpen(s, slot);
      }
    }
  }

  lemma FinishKeepsGuard(s: State, r: Rid, result: Response)
    requires Guarded(s) && Enabled(s, r, Finish(result))
    ensures Guarded(Step(s, r, Finish(result)))
  {
    var t := Step(s, r, Finish(result));
    forall p | Open(t, p) ensures OpenHolds(t, p) {
      assert Open(s, p);
    }
    forall slot | slot in t.held ensures HeldIsOpen(t, slot) {
      assert HeldIsOpen(s, slot);
    }
  }

  lemma LookKeepsGuard(s: State, r: Rid, visible: bool)
    requires Guarded(s) && Enabled(s, r, Look(visible))
    ensures Guarded(Step(s, r, Look(visible)))
  {
    var t := Step(s, r, Look(visible));
    forall p | Open(t, p) ensures OpenHolds(t, p) {
      assert Open(s, p);
    }
    forall slot | slot in t.held ensures HeldIsOpen(t, slot) {
      assert HeldIsOpen(s, slot);
    }
  }

  lemma ExpireKeepsGuard(s: State, r: Rid, expired: Slot)
    requires Guarded(s) && Enabled(s, r, Expire(expired))
    ensures Guarded(Step(s, r, Expire(expired)))
  {
    var t := Step(s, r, Expire(expired));
    forall p | Open(t, p) ensures OpenHolds(t, p) {
      assert Open(s, p);
    }
    forall slot | slot in t.held ensures HeldIsOpen(t, slot) {
      assert HeldIsOpen(s, slot);
    }
  }

  lemma EndKeepsGuard(s: State, r: Rid, t: State)
    requires Guarded(s) && Open(s, r)
    requires t.requests == s.requests && t.held == Release(s.held, s.requests[r])
    requires exists reply :: t.phases == s.phases[r := Answered(reply)]
    requires forall slot :: slot in t.db.table ==> slot in s.db.table || SlotOf(s.requests[r]) == Some(slot)
    ensures Guarded(t)
  {
    assert OpenHolds(s, r);
    forall p | Open(t, p) ensures OpenHolds(t, p) {
      assert Open(s, p) && OpenHolds(s, p);
    }
    forall slot | slot in t.held ensures HeldIsOpen(t, slot) {
      assert HeldIsOpen(s, slot);
    }
  }

  lemma StepKeepsGuard(s: State, r: Rid, a: Action)
    requires Guarded(s) && Enabled(s, r, a)
    ensures Guarded(Step(s, r, a))
  {
    match a
    case Arrive(q) => ArriveKeepsGuard(s, r, q);
    case Begin => BeginKeepsGuard(s, r);
    case Look(visible) => LookKeepsGuard(s, r, visible);
    case Expire(slot) => ExpireKeepsGuard(s, r, slot);
    case Finish(result) => FinishKeepsGuard(s, r, result);
    case Commit =>
      assert Step(s, r, a).phases == s.phases[r := Answered(Reply.Created(s.phases[r].result))];
      EndKeepsGuard(s, r, Step(s, r, a));
    case Abort =>
      assert Step(s, r, a).phases == s.phases[r := Answered(Error)];
      EndKeepsGuard(s, r, Step(s, r, a));
  }

  lemma StepKeepsInv(s: State, r: Rid, a: Action)
    requires Inv(s) && Enabled(s, r, a)
    ensures Inv(Step(s, r, a))
  {
    var visible := a.Look? && a.visible;
    StepLinearises(s, r, a, visible);
    if Answers(s, r, a) {
      ServeKeepsExact(s.db, s.requests[r], Yield(s, r, a), visible);
    } else if a.Expire? {
      PurgeKeepsExact(s.db, a.slot);
    }
    StepKeepsGuard(s, r, a);
  }

  const START := State(Db(map[], []), map[], map[], map[])

  ghost predicate IsRun(states: seq<State>, who: seq<Rid>, acts: seq<Action>) {
    && |states| == |acts| + 1 == |who| + 1
    && states[0] == START
    && forall i :: 0 <= i < |acts| ==> RunStep(states, who, acts, i)
  }

  ghost predicate RunStep(states: seq<State>, who: seq<Rid>, acts: seq<Action>, i: nat)
    requires i < |acts| && |states| == |acts| + 1 == |who| + 1
  {
    Valid(states[i]) && Enabled(states[i], who[i], acts[i]) && states[i + 1] == Step(states[i], who[i], acts[i])
  }

  lemma {:induction false} RunKeepsInv(states: seq<State>, who: seq<Rid>, acts: seq<Action>, i: nat)
    requires IsRun(states, who, acts) && i < |states|
    ensures Inv(states[i])
  {
    if i > 0 {
      RunKeepsInv(states, who, acts, i - 1);
      assert RunStep(states, who, acts, i - 1);
      StepKeepsInv(states[i - 1], who[i - 1], acts[i - 1]);
    }
  }

  /**
   In every interleaving two committed effects of one user, path and key are the same effect exactly
   when no record of the key was deleted between them.
   */
  lemma AtMostOnce(states: seq<State>, who: seq<Rid>, acts: seq<Action>, i: nat, slot: Slot, m: nat, n: nat)
    requires IsRun(states, who, acts) && i < |states| && m <= n
    requires IsEffect(states[i].db, slot, m) && IsEffect(states[i].db, slot, n)
    ensures m == n <==> !PurgedBetween(states[i].db, slot, m, n)
  {
    RunKeepsInv(states, who, acts, i);
  }

  /** Each deletion ended one effect: the key had been used since the deletion before. */
  lemma DeletionHadEffect(states: seq<State>, who: seq<Rid>, acts: seq<Action>, i: nat, slot: Slot, k: nat)
    requires IsRun(states, who, acts) && i < |states| && IsPurge(states[i].db, slot, k)
    ensures exists m :: m < k && IsEffect(states[i].db, slot, m) && !PurgedBetween(states[i].db, slot, m, k)
  {
    RunKeepsInv(states, who, acts, i);
  }

  lemma CurrentIsUnique(db: Db, slot: Slot, i: int, m: int)
    requires Alternating(db) && Current(db, slot, i) && Current(db, slot, m)
    ensures i == m
  {
    assert PurgedBetween(db, slot, i, m) ==> PurgedBetween(db, slot, i, |db.log|);
    assert PurgedBetween(db, slot, m, i) ==> PurgedBetween(db, slot, m, |db.log|);
  }

  lemma CurrentIsRecorded(db: Db, slot: Slot, m: nat)
    requires Exact(db) && Current(db, slot, m)
    ensures slot in db.table && Explained(db, slot, m)
  {
    var i :| Explained(db, slot, i);
    CurrentIsUnique(db, slot, i, m);
  }

  /** While the record is there, the key starts nothing: the insert conflicts and nothing changes. */
  lemma RecordedKeyConflicts(states: seq<State>, who: seq<Rid>, acts: seq<Action>, i: nat, m: nat)
    requires IsRun(states, who, acts) && i < |acts| && acts[i] == Begin && RunStep(states, who, acts, i)
    requires var q := states[i].requests[who[i]]; q.key.Key? && Current(states[i].db, Slot(q.user, q.path, q.key.uuid), m)
    ensures states[i + 1] == states[i].(phases := states[i].phases[who[i] := Conflicted])
  {
    RunKeepsInv(states, who, acts, i);
    CurrentIsRecorded(states[i].db, SlotOf(states[i].requests[who[i]]).value, m);
  }

  /** A response with the one-time secrets left out. */
  predicate WithoutSecrets(kept: Response, full: Response) {
    && (forall k :: k in kept ==> k in full && kept[k] == full[k])
    && (forall k :: k in full ==> (k in kept <==> k != "token" && k != "reset_token" && k != "secret"))
  }

  /**
   A request with the key, payload and scope of a committed one gets the response of that one without its
   secrets, or is told that it may not see it, and changes nothing.
   */
  lemma RepeatIsReplayed(states: seq<State>, who: seq<Rid>, acts: seq<Action>, i: nat, m: nat)
    requires IsRun(states, who, acts) && i < |acts| && acts[i].Look? && RunStep(states, who, acts, i)
    requires var q := states[i].requests[who[i]]; q.key.Key? && Current(states[i].db, Slot(q.user, q.path, q.key.uuid), m)
    requires SameContent(states[i].requests[who[i]], states[i].db.log[m].request)
    ensures states[i + 1].db == states[i].db && states[i + 1].phases[who[i]].Answered?
    ensures var q, reply := states[i].requests[who[i]], states[i + 1].phases[who[i]].reply;
            if q.scope.Some? && !acts[i].visible then reply == Hidden
            else reply.Replayed? && WithoutSecrets(reply.response, states[i].db.log[m].result)
  {
    var q := states[i].requests[who[i]];
    RunKeepsInv(states, who, acts, i);
    CurrentIsRecorded(states[i].db, Slot(q.user, q.path, q.key.uuid), m);
    FingerprintsAgree(q, states[i].db.log[m].request);
  }

  /** Another payload or scope under the key is refused and changes nothing. */
  lemma OtherPayloadIsRefused(states: seq<State>, who: seq<Rid>, acts: seq<Action>, i: nat, m: nat)
    requires IsRun(states, who, acts) && i < |acts| && acts[i].Look? && RunStep(states, who, acts, i)
    requires var q := states[i].requests[who[i]]; q.key.Key? && Current(states[i].db, Slot(q.user, q.path, q.key.uuid), m)
    requires !SameContent(states[i].requests[who[i]], states[i].db.log[m].request)
    ensures states[i + 1].phases[who[i]] == Answered(Different) && states[i + 1].db == states[i].db
  {
    var q := states[i].requests[who[i]];
    RunKeepsInv(states, who, acts, i);
    CurrentIsRecorded(states[i].db, Slot(q.user, q.path, q.key.uuid), m);
    FingerprintsAgree(q, states[i].db.log[m].request);
  }

  /** Conversely, an answer that replays quotes a current effect of an equal request; "in progress" is never answered. */
  lemma RepliesAreFirst(states: seq<State>, who: seq<Rid>, acts: seq<Action>, i: nat)
    requires IsRun(states, who, acts) && i < |acts| && RunStep(states, who, acts, i) && Answers(states[i], who[i], acts[i])
    ensures states[i + 1].phases[who[i]].reply != InProgress
    ensures states[i + 1].phases[who[i]].reply.Replayed? ==>
              && acts[i].Look?
              && var q := states[i].requests[who[i]];
              && q.key.Key?
              && exists m :: Current(states[i].db, Slot(q.user, q.path, q.key.uuid), m)
                   && SameContent(q, states[i].db.log[m].request)
                   && WithoutSecrets(states[i + 1].phases[who[i]].reply.response, states[i].db.log[m].result)
  {
    RunKeepsInv(states, who, acts, i);
    var s, r, a := states[i], who[i], acts[i];
    if a.Look? && SlotOf(s.requests[r]).Some? && SlotOf(s.requests[r]).value in s.db.table {
      var m :| Explained(s.db, SlotOf(s.requests[r]).value, m);
      FingerprintsAgree(s.requests[r], s.db.log[m].request);
      assert Current(s.db, SlotOf(s.requests[r]).value, m);
    }
  }

  /** A failed request frees its key: the same request can begin again at once. */
  lemma FailureFreesKey(s: State, r: Rid, again: Rid)
    requires Inv(s) && Enabled(s, r, Abort) && again != r && again in s.requests && s.phases[again].Arrived?
    requires s.requests[again] == s.requests[r]
    ensures Enabled(Step(s, r, Abort), again, Begin)
    ensures Step(Step(s, r, Abort), again, Begin).phases[again] == Working
  {
    OpenKeyIsFree(s, r);
  }

  /** Whoever holds a key can end, and however it ends the waiting request can begin. */
  lemma WaitingEnds(s: State, r: Rid)
    requires Inv(s) && r in s.requests && s.phases[r].Arrived? && !Enabled(s, r, Begin)
    ensures SlotOf(s.requests[r]).Some? && SlotOf(s.requests[r]).value in s.held
    ensures var holder := s.held[SlotOf(s.requests[r]).value];
            && holder != r
            && Enabled(s, holder, Abort)
            && (s.phases[holder].Ready? ==> Enabled(s, holder, Commit))
            && (forall result :: s.phases[holder].Working? ==> Enabled(s, holder, Finish(result)))
            && forall a :: a in {Commit, Abort} && Enabled(s, holder, a) ==> Enabled(Step(s, holder, a), r, Begin)
  {
    assert HeldIsOpen(s, SlotOf(s.requests[r]).value);
  }

  // ----- A key used twice -----

  const REQUEST := Request(1, "/jobs", Key("k"), true, None, "payload")

  const KEY := Slot(1, "/jobs", "k")

  /** One request on its way through a database without the key. */
  function OnItsWay(s: State, r: Rid, phase: Phase): State {
    State(s.db, if phase.Arrived? then map[] else map[KEY := r], s.requests[r := REQUEST], s.phases[r := phase])
  }

  function Through(s: State, r: Rid): State {
    State(Committed(s.db, REQUEST, map[]), map[], s.requests[r := REQUEST], s.phases[r := Answered(Reply.Created(map[]))])
  }

  ghost predicate Leads(s: State, r: Rid, a: Action, t: State) {
    Valid(s) && Enabled(s, r, a) && t == Step(s, r, a)
  }

  lemma RequestRuns(s: State, r: Rid)
    requires Valid(s) && r !in s.requests && KEY !in s.db.table && s.held == map[]
    ensures Leads(s, r, Arrive(REQUEST), OnItsWay(s, r, Arrived))
    ensures Leads(OnItsWay(s, r, Arrived), r, Begin, OnItsWay(s, r, Working))
    ensures Leads(OnItsWay(s, r, Working), r, Finish(map[]), OnItsWay(s, r, Ready(map[])))
    ensures Leads(OnItsWay(s, r, Ready(map[])), r, Commit, Through(s, r))
  {
  }

  function Expired(): State {
    Through(START, 1).(db := Purge(Through(START, 1).db, KEY))
  }

  lemma ExpiryLeads()
    ensures Leads(Through(START, 1), 1, Expire(KEY), Expired())
    ensures Valid(Expired()) && 2 !in Expired().requests && KEY !in Expired().db.table && Expired().held == map[]
    ensures IsEffect(Through(Expired(), 2).db, KEY, 0) && IsEffect(Through(Expired(), 2).db, KEY, 2)
  {
  }

  /** Every action of the run leads on. */
  lemma LeadingIsRun(states: seq<State>, who: seq<Rid>, acts: seq<Action>)
    requires |states| == |acts| + 1 == |who| + 1 && states[0] == START
    requires forall i :: 0 <= i < |acts| ==> Leads(states[i], who[i], acts[i], states[i + 1])
    ensures IsRun(states, who, acts)
  {
    forall i | 0 <= i < |acts| ensures RunStep(states, who, acts, i) {
      assert Leads(states[i], who[i], acts[i], states[i + 1]);
    }
  }

  /** The same request, sent again after its record was deleted, is carried out again. */
  lemma DeletedKeyRunsAgain() returns (states: seq<State>, who: seq<Rid>, acts: seq<Action>)
    ensures IsRun(states, who, acts) && |acts| == 9 && acts[4] == Expire(KEY)
    ensures states[9] == Through(Expired(), 2) && IsEffect(states[9].db, KEY, 0) && IsEffect(states[9].db, KEY, 2)
  {
    RequestRuns(START, 1);
    ExpiryLeads();
    RequestRuns(Expired(), 2);
    states := [START, OnItsWay(START, 1, Arrived), OnItsWay(START, 1, Working), OnItsWay(START, 1, Ready(map[])),
               Through(START, 1), Expired(), OnItsWay(Expired(), 2, Arrived), OnItsWay(Expired(), 2, Working),
               OnItsWay(Expired(), 2, Ready(map[])), Through(Expired(), 2)];
    who := [1, 1, 1, 1, 1, 2, 2, 2, 2];
    acts := [Arrive(REQUEST), Begin, Finish(map[]), Commit, Expire(KEY), Arrive(REQUEST), Begin, Finish(map[]), Commit];
    LeadingIsRun(states, who, acts);
  }
}
