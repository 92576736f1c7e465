/**
 * PackRepository.kt: the list of card packs, newest first. A pack is an object
 * whose status is assigned in place; the list holds each pack once. The JSON
 * file the list is saved to is not modelled beyond the load at start-up.
 */
module PackStore {
  import opened Wrappers
  import CardCache
  import Search

  datatype PackStatus = Processing | Ready | Opened

  datatype PackItem = PackItem(uri: string, md5: string)

  /** A pack's value at one moment: what `Pack` holds, as a datatype. */
  datatype PackRecord = PackRecord(id: string, createdAt: int, status: PackStatus, items: seq<PackItem>)

  class Pack {
    const id: string
    const createdAt: int
    var status: PackStatus
    const items: seq<PackItem>

    /** `Pack(items = items)`: a new pack is PROCESSING; id and time are supplied by the caller. */
    constructor (id: string, createdAt: int, items: seq<PackItem>)
      ensures Record() == PackRecord(id, createdAt, Processing, items)
    {
      this.id := id;
      this.createdAt := createdAt;
      this.status := Processing;
      this.items := items;
    }

    function Record(): PackRecord
      reads this
    {
      PackRecord(id, createdAt, status, items)
    }
  }

  /** The values of a list of packs. */
  ghost function RecordsOf(ps: seq<Pack>): (rs: seq<PackRecord>)
    reads set p | p in ps
    ensures |rs| == |ps|
    ensures forall i :: 0 <= i < |ps| ==> rs[i] == ps[i].Record()
  {
    if ps == [] then [] else [ps[0].Record()] + RecordsOf(ps[1..])
  }

  /** The test `find { it.id == id }` applies to each pack. */
  function HasId(id: string): PackRecord -> bool {
    (r: PackRecord) => r.id == id
  }

  /** The position `find { it.id == id }` stops at: the first pack with that id. */
  function FirstWithId(rs: seq<PackRecord>, id: string): Option<nat> {
    Search.FirstWhere(rs, HasId(id))
  }

  /** Lists with the same ids in the same places find the same pack. */
  lemma SameIdsSameFirst(rs: seq<PackRecord>, ts: seq<PackRecord>, id: string)
    requires |rs| == |ts| && forall j :: 0 <= j < |rs| ==> rs[j].id == ts[j].id
    ensures FirstWithId(rs, id) == FirstWithId(ts, id)
  {
  }

  /** Two lists hold the same packs in the same places, statuses aside. */
  predicate SameButStatus(rs: seq<PackRecord>, ts: seq<PackRecord>) {
    && |rs| == |ts|
    && forall j :: 0 <= j < |rs| ==> ts[j].id == rs[j].id && ts[j].createdAt == rs[j].createdAt && ts[j].items == rs[j].items
  }

  /** `ts` is `rs` with some packs given `status`, and nothing else changed. */
  predicate StatusSetOnly(rs: seq<PackRecord>, ts: seq<PackRecord>, status: PackStatus) {
    SameButStatus(rs, ts) && forall j :: 0 <= j < |rs| ==> ts[j] == rs[j] || ts[j].status == status
  }

  /**
   * `updatePackStatus`: the first pack with the id gets the status, with no
   * transition guard. Only statuses change, and every pack either keeps its
   * value or now has the new status.
   */
  function WithStatus(rs: seq<PackRecord>, id: string, status: PackStatus): (r: seq<PackRecord>)
    ensures StatusSetOnly(rs, r, status)
  {
    match FirstWithId(rs, id)
    case None => rs
    case Some(k) => rs[k := rs[k].(status := status)]
  }

  predicate AllCached(items: seq<PackItem>, cached: set<string>) {
    forall i :: 0 <= i < |items| ==> items[i].md5 in cached
  }

  /**
   * `checkPackReadiness`: an unopened pack whose every item is cached becomes
   * READY. Only a PROCESSING pack whose items are all cached can change, and
   * it changes to READY.
   */
  function Readied(rs: seq<PackRecord>, id: string, cached: set<string>): (r: seq<PackRecord>)
    ensures SameButStatus(rs, r)
    ensures forall j :: 0 <= j < |rs| ==>
      || r[j] == rs[j]
      || (rs[j].status == Processing && AllCached(rs[j].items, cached) && r[j].status == Ready)
  {
    match FirstWithId(rs, id)
    case None => rs
    case Some(k) =>
      if rs[k].status == Opened then rs
      else if AllCached(rs[k].items, cached) && rs[k].status != Ready then
        var r := rs[k := rs[k].(status := Ready)];
        assert forall j :: 0 <= j < |rs| && j != k ==> r[j] == rs[j];
        assert rs[k].status == Processing && r[k].status == Ready;
        r
      else rs
  }

  /** An unknown id changes nothing. */
  lemma WithStatusUnknownId(rs: seq<PackRecord>, id: string, status: PackStatus)
    requires forall j :: 0 <= j < |rs| ==> rs[j].id != id
    ensures WithStatus(rs, id, status) == rs
  {
  }

  /** A known id: that pack alone gets the status; ids, items and the other packs are kept. */
  lemma WithStatusKnownId(rs: seq<PackRecord>, id: string, status: PackStatus, k: nat)
    requires k < |rs| && rs[k].id == id && forall j :: 0 <= j < k ==> rs[j].id != id
    ensures var r := WithStatus(rs, id, status);
      && |r| == |rs| && r[k] == rs[k].(status := status)
      && forall j :: 0 <= j < |rs| && j != k ==> r[j] == rs[j]
  {
  }

  /** An OPENED pack is never touched by a readiness check. */
  lemma ReadiedKeepsOpened(rs: seq<PackRecord>, id: string, cached: set<string>, k: nat)
    requires k < |rs| && rs[k].id == id && forall j :: 0 <= j < k ==> rs[j].id != id
    requires rs[k].status == Opened
    ensures Readied(rs, id, cached) == rs
  {
    WithStatusKnownId(rs, id, Opened, k);
  }

  /**
   * An unopened pack becomes READY exactly when every item's md5 is cached;
   * otherwise the list is unchanged.
   */
  lemma ReadiedIffAllCached(rs: seq<PackRecord>, id: string, cached: set<string>, k: nat)
    requires k < |rs| && rs[k].id == id && forall j :: 0 <= j < k ==> rs[j].id != id
    requires rs[k].status != Opened
    ensures AllCached(rs[k].items, cached) ==> Readied(rs, id, cached) == rs[k := rs[k].(status := Ready)]
    ensures !AllCached(rs[k].items, cached) ==> Readied(rs, id, cached) == rs
  {
    WithStatusKnownId(rs, id, Ready, k);
  }

  /** A pack with no items is ready at its first check, since `all` of nothing holds. */
  lemma EmptyPackReady(rs: seq<PackRecord>, id: string, cached: set<string>, k: nat)
    requires k < |rs| && rs[k].id == id && forall j :: 0 <= j < k ==> rs[j].id != id
    requires rs[k].status == Processing && rs[k].items == []
    ensures Readied(rs, id, cached)[k].status == Ready
  {
    ReadiedIffAllCached(rs, id, cached, k);
  }

  /** A second readiness check with the same cache changes nothing. */
  lemma ReadiedIdempotent(rs: seq<PackRecord>, id: string, cached: set<string>)
    ensures Readied(Readied(rs, id, cached), id, cached) == Readied(rs, id, cached)
  {
    var once := Readied(rs, id, cached);
    SameIdsSameFirst(rs, once, id);
  }

  /** The file the list is loaded from at start-up (see `CardCache.CacheFile`). */
  datatype PacksFile = Missing | Unreadable | Parsed(loaded: Option<seq<PackRecord>>)

  /** The singleton repository. */
  class PackRepository {
    var packs: seq<Pack>
    var isLoaded: bool

    /** Each pack object appears once in the list. */
    ghost predicate Valid()
      reads this
    {
      forall i, j :: 0 <= i < j < |packs| ==> packs[i] != packs[j]
    }

    ghost function Records(): seq<PackRecord>
      reads this`packs, set p | p in packs
    {
      RecordsOf(packs)
    }

    constructor ()
      ensures Valid() && packs == [] && !isLoaded
    {
      packs := [];
      isLoaded := false;
    }

    /** `init`: loads once; a missing, unreadable or null file leaves the list as it was. */
    method Init(file: PacksFile)
      requires Valid()
      modifies this
      ensures Valid()
      ensures !old(isLoaded) && file.Parsed? && file.loaded.Some? ==> Records() == file.loaded.value
      ensures old(isLoaded) || !(file.Parsed? && file.loaded.Some?) ==> packs == old(packs)
      ensures isLoaded
    {
      if !isLoaded {
        match file {
          case Parsed(Some(loaded)) => packs := Deserialize(loaded);
          case _ =>
        }
        isLoaded := true;
      }
    }

    /** `createPack`: the new PROCESSING pack goes to the front; the others shift by one. */
    method CreatePack(id: string, now: int, items: seq<PackItem>) returns (pack: Pack)
      requires Valid()
      modifies this`packs
      ensures Valid() && fresh(pack)
      ensures packs == [pack] + old(packs)
      ensures Records() == [PackRecord(id, now, Processing, items)] + old(Records())
    {
      ghost var before := Records();
      var older := packs;
      pack := new Pack(id, now, items);
      assert RecordsOf(older) == before;
      packs := [pack] + older;
      assert packs[1..] == older;
      assert RecordsOf(packs) == [pack.Record()] + RecordsOf(older);
    }

    /** The position of the first pack with the id, as `find` scans. */
    method IndexOf(id: string) returns (k: Option<nat>)
      ensures k == FirstWithId(Records(), id)
    {
      var i := 0;
      while i < |packs|
        invariant 0 <= i <= |packs|
        invariant forall j :: 0 <= j < i ==> packs[j].id != id
      {
        if packs[i].id == id {
          k := Some(i);
          Search.FirstWhereAt(Records(), HasId(id), i);
          return;
        }
        i := i + 1;
      }
      k := None;
    }

    /** `getPack`: the first pack with the id, or none. */
    method GetPack(id: string) returns (pack: Option<Pack>)
      ensures match FirstWithId(Records(), id)
        case None => pack.None?
        case Some(k) => pack == Some(packs[k])
    {
      var k := IndexOf(id);
      pack := if k.Some? then Some(packs[k.value]) else None;
    }

    /** `updatePackStatus`: assigns the status of the first pack with the id. */
    method UpdatePackStatus(id: string, status: PackStatus)
      requires Valid()
      modifies set p | p in packs
      ensures Valid()
      ensures Records() == WithStatus(old(Records()), id, status)
    {
      var k := IndexOf(id);
      if k.Some? {
        SetStatusAt(k.value, status);
      }
    }

    /** `checkPackReadiness`: promotes the pack to READY when the card cache holds all its items. */
    method CheckPackReadiness(id: string, cards: CardCache.CardRepository)
      requires Valid()
      modifies set p | p in packs
      ensures Valid()
      ensures Records() == Readied(old(Records()), id, cards.cache.Keys)
    {
      var k := IndexOf(id);
      if k.None? {
        return;
      }
      var pack := packs[k.value];
      if pack.status == Opened {
        return;
      }
      var allReady := forall i | 0 <= i < |pack.items| :: cards.HasCard(pack.items[i].md5);
      assert allReady == AllCached(pack.items, cards.cache.Keys);
      if allReady && pack.status != Ready {
        SetStatusAt(k.value, Ready);
      }
    }

    /** Assigns one pack's status; every other pack keeps its value. */
    method SetStatusAt(k: nat, status: PackStatus)
      requires Valid() && k < |packs|
      modifies packs[k]
      ensures Valid()
      ensures Records() == old(Records())[k := old(Records())[k].(status := status)]
    {
      packs[k].status := status;
      assert forall j :: 0 <= j < |packs| && j != k ==> packs[j] != packs[k];
    }
  }


  /** Gson's reading of the file: one new object per stored pack. */
  method Deserialize(loaded: seq<PackRecord>) returns (ps: seq<Pack>)
    ensures fresh(set p | p in ps)
    ensures RecordsOf(ps) == loaded
    ensures forall i, j :: 0 <= i < j < |ps| ==> ps[i] != ps[j]
  {
    ps := [];
    var i := 0;
    while i < |loaded|
      invariant 0 <= i <= |loaded|
      invariant |ps| == i
      invariant forall p :: p in ps ==> fresh(p)
      invariant forall j :: 0 <= j < i ==> ps[j].Record() == loaded[j]
      invariant forall a, b :: 0 <= a < b < |ps| ==> ps[a] != ps[b]
    {
      var r := loaded[i];
      var p := new Pack(r.id, r.createdAt, r.items);
      p.status := r.status;
      ps := ps + [p];
      i := i + 1;
    }
  }
}
