/**
 The stored avatars: default entries are seeded once, entries are saved and deleted in place, and
 a deleted default stays deleted.
 */
module AvatarStore {
  import opened Wrappers
  import opened KeyValueFile
  import opened AvatarIcon

  type AvatarId = string

  const MAX_AVATARS := 100

  datatype Picture = Builtin | Custom(uri: string)

  datatype Item = Item(id: AvatarId, name: string, picture: Picture)

  const DEFAULTS := [
    Item("ubuntu", "Ubuntu", Builtin),
    Item("sles", "SUSE Linux Enterprise Server (SLES)", Builtin),
    Item("rhel", "Red Hat Enterprise Linux (RHEL)", Builtin)]

  /** `seeded` says that the current seed version is recorded. */
  datatype Store = Store(items: seq<Item>, seeded: bool)

  datatype Outcome = BadId | Exists | Missing | IdChanged | Full | BadIcon | NoName | InUse | Done

  datatype Request =
    | List
    | Create(item: Item)
    | Update(target: AvatarId, item: Item)
    | Delete(target: AvatarId, referenced: bool)

  predicate HasId(items: seq<Item>, id: AvatarId) {
    exists i :: 0 <= i < |items| && items[i].id == id
  }

  function IndexOfId(items: seq<Item>, id: AvatarId): (i: nat)
    ensures i <= |items| && (i < |items| ==> items[i].id == id)
    ensures i < |items| <==> HasId(items, id)
  {
    if items == [] then 0
    else if items[0].id == id then 0
    else
      var i := IndexOfId(items[1..], id);
      assert HasId(items[1..], id) <==> HasId(items, id) by {
        assert forall k :: 1 <= k < |items| ==> items[k] == items[1..][k - 1];
      }
      i + 1
  }

  // ----- Seeding -----

  function Seeded(items: seq<Item>, defaults: seq<Item>): seq<Item> {
    if defaults == [] then items
    else
      var before := Seeded(items, defaults[..|defaults| - 1]);
      var item := defaults[|defaults| - 1];
      if HasId(before, item.id) then before else before + [item]
  }

  method SeedDefaults(items: seq<Item>) returns (seeded: seq<Item>)
    ensures seeded == Seeded(items, DEFAULTS)
  {
    seeded := items;
    for k := 0 to |DEFAULTS|
      invariant seeded == Seeded(items, DEFAULTS[..k])
    {
      assert DEFAULTS[..k + 1][..k] == DEFAULTS[..k];
      if HasId(seeded, DEFAULTS[k].id) {
        continue;
      }
      seeded := seeded + [DEFAULTS[k]];
    }
    assert DEFAULTS[..|DEFAULTS|] == DEFAULTS;
  }

  function Locked(s: Store): Store {
    if s.seeded then s else Store(Seeded(s.items, DEFAULTS), true)
  }

  // ----- Requests -----

  predicate IdCharacter(c: char) {
    'a' <= c <= 'z' || 'A' <= c <= 'Z' || '0' <= c <= '9' || c in {'_', '.', '-'}
  }

  predicate IsSlug(id: AvatarId) {
    && 1 <= |id| <= 63
    && (forall i :: 0 <= i < |id| ==> IdCharacter(id[i]))
    && id[0] !in {'_', '.', '-'}
  }

  function Record(item: Item): Option<Item> {
    if item.picture.Builtin? then None
    else
      match Normalised(item.picture.uri)
      case Err(_) => None
      case Ok(uri) => Some(Item(item.id, Strip(item.name), Custom(uri)))
  }

  function Verdict(s: Store, q: Request): Outcome {
    var items := Locked(s).items;
    match q
    case List => Done
    case Create(item) =>
      if !IsSlug(item.id) then BadId
      else if HasId(items, item.id) then Exists
      else if |items| >= MAX_AVATARS then Full
      else if Record(item).None? then BadIcon
      else if Strip(item.name) == "" then NoName
      else Done
    case Update(id, item) =>
      if !IsSlug(id) then BadId
      else if !HasId(items, id) then Missing
      else if item.id != id then IdChanged
      else if Record(item).None? then BadIcon
      else if Strip(item.name) == "" then NoName
      else Done
    case Delete(id, referenced) => if !HasId(items, id) then Missing else if referenced then InUse else Done
  }

  function Without(items: seq<Item>, i: nat): seq<Item>
    requires i < |items|
  {
    items[..i] + items[i + 1..]
  }

  /** A refused request is rolled back, the seeding included. */
  function Next(s: Store, q: Request): Store {
    if Verdict(s, q) != Done then s
    else
      var items := Locked(s).items;
      match q
      case List => Locked(s)
      case Create(item) => Store(items + [Record(item).value], true)
      case Update(id, item) => Store(items[IndexOfId(items, id) := Record(item).value], true)
      case Delete(id, _) => Store(Without(items, IndexOfId(items, id)), true)
  }

  class Setting {
    var items: seq<Item>
    var seeded: bool

    function Contents(): Store
      reads this
    {
      Store(items, seeded)
    }

    method Lock() returns (current: seq<Item>)
      modifies this
      ensures Contents() == Locked(old(Contents())) && current == items
    {
      if !seeded {
        items := SeedDefaults(items);
        seeded := true;
      }
      current := items;
    }

    method Save(target: Option<AvatarId>, item: Item) returns (r: Outcome)
      requires item.picture.Custom?
      modifies this
      ensures var q := if target.Some? then Update(target.value, item) else Create(item);
              r == Verdict(old(Contents()), q) && Contents() == Next(old(Contents()), q)
    {
      var itemsBefore, seededBefore := items, seeded;
      var current := Lock();
      r := Check(current, target, item);
      if r == Done {
        var icon := Normalise(item.picture.uri);
        if icon.Err? {
          r := BadIcon;
        } else if Strip(item.name) == "" {
          r := NoName;
        } else {
          var record := Item(item.id, Strip(item.name), Custom(icon.uri));
          if target.None? {
            items := current + [record];
          } else {
            items := current[IndexOfId(current, target.value) := record];
          }
        }
      }
      if r != Done {
        items, seeded := itemsBefore, seededBefore;
      }
    }

    method Check(current: seq<Item>, target: Option<AvatarId>, item: Item) returns (r: Outcome)
      ensures r == if !IsSlug(target.GetOr(item.id)) then BadId
                   else if target.None? && HasId(current, item.id) then Exists
                   else if target.Some? && !HasId(current, target.value) then Missing
                   else if item.id != target.GetOr(item.id) then IdChanged
                   else if target.None? && |current| >= MAX_AVATARS then Full
                   else Done
    {
      var id := target.GetOr(item.id);
      if !IsSlug(id) {
        return BadId;
      }
      var index := IndexOfId(current, id);
      if target.None? && index < |current| {
        return Exists;
      }
      if target.Some? && index == |current| {
        return Missing;
      }
      if item.id != id {
        return IdChanged;
      }
      if target.None? && |current| >= MAX_AVATARS {
        return Full;
      }
      return Done;
    }

    method DeleteAvatar(id: AvatarId, referenced: bool) returns (r: Outcome)
      modifies this
      ensures r == Verdict(old(Contents()), Delete(id, referenced)) && Contents() == Next(old(Contents()), Delete(id, referenced))
    {
      var itemsBefore, seededBefore := items, seeded;
      var current := Lock();
      var index := IndexOfId(current, id);
      r := if index == |current| then Missing else if referenced then InUse else Done;
      if r == Done {
        items := Without(current, index);
      } else {
        items, seeded := itemsBefore, seededBefore;
      }
    }
  }

  // ----- What every sequence of requests keeps -----

  ghost predicate UniqueIds(items: seq<Item>) {
    forall i, j :: 0 <= i < |items| && 0 <= j < |items| && items[i].id == items[j].id ==> i == j
  }

  /** Saved pictures are in normal form. */
  predicate Presentable(item: Item) {
    item.picture.Builtin? || Normalised(item.picture.uri) == Ok(item.picture.uri)
  }

  ghost predicate Sound(s: Store) {
    && UniqueIds(s.items)
    && (forall i :: 0 <= i < |s.items| ==> Presentable(s.items[i]))
    && (if s.seeded then |s.items| <= MAX_AVATARS else s.items == [])
  }

  lemma {:induction false} SeedingKeepsUnique(items: seq<Item>, defaults: seq<Item>)
    requires UniqueIds(items) && (forall i :: 0 <= i < |items| ==> Presentable(items[i]))
    requires forall i :: 0 <= i < |defaults| ==> Presentable(defaults[i])
    ensures UniqueIds(Seeded(items, defaults)) && |Seeded(items, defaults)| <= |items| + |defaults|
    ensures forall i :: 0 <= i < |Seeded(items, defaults)| ==> Presentable(Seeded(items, defaults)[i])
    decreases |defaults|
  {
    if defaults != [] {
      SeedingKeepsUnique(items, defaults[..|defaults| - 1]);
    }
  }

  lemma LockedIsSound(s: Store)
    requires Sound(s)
    ensures Sound(Locked(s)) && Locked(s).seeded
  {
    if !s.seeded {
      SeedingKeepsUnique(s.items, DEFAULTS);
    }
  }

  lemma RecordIsPresentable(item: Item)
    requires Record(item).Some?
    ensures Presentable(Record(item).value) && Record(item).value.id == item.id
  {
    NormalisingIsIdempotent(item.picture.uri);
  }

  lemma WithoutKeeps(items: seq<Item>, i: nat)
    requires i < |items| && UniqueIds(items)
    ensures UniqueIds(Without(items, i)) && |Without(items, i)| == |items| - 1
    ensures forall id :: HasId(Without(items, i), id) <==> HasId(items, id) && id != items[i].id
    ensures forall k :: 0 <= k < |Without(items, i)| ==> Without(items, i)[k] in items
  {
    var rest := Without(items, i);
    forall k | 0 <= k < |rest| ensures rest[k] == items[if k < i then k else k + 1] {}
    forall id ensures HasId(rest, id) <==> HasId(items, id) && id != items[i].id {
      if HasId(items, id) && id != items[i].id {
        var j :| 0 <= j < |items| && items[j].id == id;
        assert rest[if j < i then j else j - 1].id == id;
      }
    }
  }

  lemma RequestKeepsSound(s: Store, q: Request)
    requires Sound(s)
    ensures Sound(Next(s, q))
  {
    LockedIsSound(s);
    if Verdict(s, q) == Done {
      var items := Locked(s).items;
      match q
      case List =>
      case Create(item) => RecordIsPresentable(item);
      case Update(id, item) => RecordIsPresentable(item);
      case Delete(id, _) => WithoutKeeps(items, IndexOfId(items, id));
    }
  }

  function AfterAll(s: Store, requests: seq<Request>): Store {
    if requests == [] then s else Next(AfterAll(s, requests[..|requests| - 1]), requests[|requests| - 1])
  }

  const EMPTY := Store([], false)

  /** From an empty store: unique ids, at most a hundred entries, every saved picture in normal form. */
  lemma {:induction false} SequenceIsSound(requests: seq<Request>)
    ensures Sound(AfterAll(EMPTY, requests))
    decreases |requests|
  {
    if requests != [] {
      SequenceIsSound(requests[..|requests| - 1]);
      RequestKeepsSound(AfterAll(EMPTY, requests[..|requests| - 1]), requests[|requests| - 1]);
    }
  }

  // ----- What a request does -----

  /** The first request that goes through leaves the three defaults in the store, behind no other entry. */
  lemma FirstRequestSeeds()
    ensures Locked(EMPTY) == Store([Item("ubuntu", "Ubuntu", Builtin),
                                    Item("sles", "SUSE Linux Enterprise Server (SLES)", Builtin),
                                    Item("rhel", "Red Hat Enterprise Linux (RHEL)", Builtin)], true)
  {
    var one, two := [DEFAULTS[0]], [DEFAULTS[0], DEFAULTS[1]];
    assert DEFAULTS[..2][..1] == one && DEFAULTS[..2] == two && one[..0] == [];
    assert Seeded([], one) == one;
    assert Seeded([], two) == two;
    assert !HasId(two, "rhel");
  }

  /** The entry that is stored for an item: its id, its name without blanks around it, its picture in normal form. */
  ghost predicate StoredAs(entry: Item, item: Item) {
    && entry.id == item.id
    && entry.name == Strip(item.name)
    && entry.name != ""
    && entry.picture.Custom?
    && item.picture.Custom?
    && Normalised(item.picture.uri) == Ok(entry.picture.uri)
  }

  /** A create goes through exactly for a proper new id, a free place, a name and an icon; it adds one entry at the end. */
  lemma CreateAdds(s: Store, item: Item)
    ensures var items := Locked(s).items;
            Verdict(s, Create(item)) == Done <==>
              && 1 <= |item.id| <= 63
              && (forall i :: 0 <= i < |item.id| ==> 'a' <= item.id[i] <= 'z' || 'A' <= item.id[i] <= 'Z' || '0' <= item.id[i] <= '9'
                                                     || (i > 0 && (item.id[i] == '_' || item.id[i] == '.' || item.id[i] == '-')))
              && (forall i :: 0 <= i < |items| ==> items[i].id != item.id)
              && |items| < 100
              && item.picture.Custom? && Normalised(item.picture.uri).Ok?
              && Strip(item.name) != ""
    ensures Verdict(s, Create(item)) == Done ==>
              && Next(s, Create(item)).seeded
              && |Next(s, Create(item)).items| == |Locked(s).items| + 1
              && Next(s, Create(item)).items[..|Locked(s).items|] == Locked(s).items
              && StoredAs(Next(s, Create(item)).items[|Locked(s).items|], item)
  {
  }

  /** An update replaces the entry with its id and leaves all others in place. */
  lemma UpdateReplaces(s: Store, id: AvatarId, item: Item)
    requires Sound(s) && Verdict(s, Update(id, item)) == Done
    ensures item.id == id
    ensures var items, after := Locked(s).items, Next(s, Update(id, item)).items;
            && |after| == |items|
            && (exists i :: 0 <= i < |items| && items[i].id == id)
            && forall i :: 0 <= i < |items| ==> if items[i].id == id then StoredAs(after[i], item) else after[i] == items[i]
  {
    LockedIsSound(s);
  }

  /** A delete goes through exactly for a stored entry that nothing refers to; the others keep their order. */
  lemma DeleteRemovesOne(s: Store, id: AvatarId, referenced: bool)
    ensures Verdict(s, Delete(id, referenced)) == Done <==>
              !referenced && exists i :: 0 <= i < |Locked(s).items| && Locked(s).items[i].id == id
    ensures Verdict(s, Delete(id, referenced)) == Done ==>
              exists i :: 0 <= i < |Locked(s).items| && Locked(s).items[i].id == id
                && Next(s, Delete(id, referenced)).items == Locked(s).items[..i] + Locked(s).items[i + 1..]
  {
    if Verdict(s, Delete(id, referenced)) == Done {
      var i := IndexOfId(Locked(s).items, id);
      assert Next(s, Delete(id, referenced)).items == Locked(s).items[..i] + Locked(s).items[i + 1..];
    }
  }

  // ----- Deleted entries -----

  ghost predicate Gone(s: Store, id: AvatarId) {
    s.seeded && !HasId(s.items, id)
  }

  /** An id that is gone comes back exactly by an accepted create of it. */
  lemma GoneStep(s: Store, q: Request, id: AvatarId)
    requires Sound(s) && Gone(s, id)
    ensures Gone(Next(s, q), id) <==> !(q.Create? && q.item.id == id && Verdict(s, q) == Done)
  {
    if Verdict(s, q) == Done {
      match q
      case List =>
      case Create(item) =>
        RecordIsPresentable(item);
        var t := Next(s, q);
        assert t.items[|s.items|].id == item.id;
        assert forall k :: 0 <= k < |s.items| ==> t.items[k] == s.items[k];
      case Update(target, item) =>
        RecordIsPresentable(item);
        var t := Next(s, q);
        assert forall k :: 0 <= k < |s.items| ==> t.items[k].id == s.items[k].id;
      case Delete(target, _) => WithoutKeeps(s.items, IndexOfId(s.items, target));
    }
  }

  lemma DeletionRemoves(s: Store, id: AvatarId)
    requires Sound(s) && Verdict(s, Delete(id, false)) == Done
    ensures Gone(Next(s, Delete(id, false)), id)
  {
    LockedIsSound(s);
    WithoutKeeps(Locked(s).items, IndexOfId(Locked(s).items, id));
  }

  lemma {:induction false} GoneStaysGone(s: Store, requests: seq<Request>, id: AvatarId)
    requires Sound(s) && Gone(s, id)
    requires forall i :: 0 <= i < |requests| ==> !(requests[i].Create? && requests[i].item.id == id)
    ensures Sound(AfterAll(s, requests)) && Gone(AfterAll(s, requests), id)
    decreases |requests|
  {
    if requests != [] {
      var init, last := requests[..|requests| - 1], requests[|requests| - 1];
      GoneStaysGone(s, init, id);
      RequestKeepsSound(AfterAll(s, init), last);
      GoneStep(AfterAll(s, init), last, id);
    }
  }

  /** In particular a default that was deleted is never seeded again. */
  lemma DeletedDefaultStaysDeleted(before: seq<Request>, id: AvatarId, after: seq<Request>)
    requires Verdict(AfterAll(EMPTY, before), Delete(id, false)) == Done
    requires forall i :: 0 <= i < |after| ==> !(after[i].Create? && after[i].item.id == id)
    ensures !HasId(AfterAll(Next(AfterAll(EMPTY, before), Delete(id, false)), after).items, id)
  {
    SequenceIsSound(before);
    var s := AfterAll(EMPTY, before);
    DeletionRemoves(s, id);
    RequestKeepsSound(s, Delete(id, false));
    GoneStaysGone(Next(s, Delete(id, false)), after, id);
  }
}
