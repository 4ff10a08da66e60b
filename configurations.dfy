// The in-memory configuration snapshot: six lookup maps built from the
// configuration tables, rebuilt on every load or refresh.
module Configurations {
  import opened Wrappers
  import opened Entities
  import Seqs

  /** What the six configuration repositories return, in repository order. */
  datatype ConfigRows = ConfigRows(
    types: seq<DiscType>,
    confs: seq<DiscConf>,
    priceGroups: seq<PriceGroup>,
    offers: seq<Offer>,
    specialMonths: seq<SpecialMonth>,
    freeMonths: seq<FreeMonth>)

  /** The six maps the evaluation reads. */
  datatype Snapshot = Snapshot(
    types: map<int, DiscType>,
    confs: map<int, DiscConf>,
    offers: map<int, seq<Offer>>,
    priceGroups: map<PriceGroupId, PriceGroup>,
    specialMonths: map<MonthKey, SpecialMonth>,
    freeMonths: map<MonthKey, FreeMonth>)

  /** IllegalStateException("Duplicate key ...") from Collectors.toMap. */
  datatype DuplicateKey = DuplicateKey

  predicate KeysDistinct<T, K(==)>(entities: seq<T>, key: T -> K)
  {
    forall i, j :: 0 <= i < j < |entities| ==> key(entities[i]) != key(entities[j])
  }

  /**
   * mapEntities: every entity stored under its key; refused as soon as two
   * entities share a key.
   */
  function MapEntities<T, K(==,!new)>(entities: seq<T>, key: T -> K): (r: Result<map<K, T>, DuplicateKey>)
    ensures r.Ok? <==> KeysDistinct(entities, key)
    ensures r.Ok? ==> forall k :: k in r.value <==> exists i :: 0 <= i < |entities| && key(entities[i]) == k
    ensures r.Ok? ==> forall i :: 0 <= i < |entities| ==> r.value[key(entities[i])] == entities[i]
  {
    if entities == [] then Ok(map[])
    else
      match MapEntities(entities[1..], key)
      case Err(e) => Err(e)
      case Ok(m) =>
        var k := key(entities[0]);
        if k in m then Err(DuplicateKey) else Ok(m[k := entities[0]])
  }

  function ConfKey(c: DiscConf): int { c.discId }
  function TypeKey(t: DiscType): int { t.typeId }
  function PriceGroupKey(g: PriceGroup): PriceGroupId { g.id }
  function SpecialMonthKey(s: SpecialMonth): MonthKey { s.id }
  function FreeMonthKey(f: FreeMonth): MonthKey { f.id }

  predicate HasDiscId(k: int, o: Offer)
  {
    o.discId == Some(k)
  }

  /** The offers of discount k, in repository order. */
  function OffersOf(offers: seq<Offer>, k: int): seq<Offer>
  {
    Seqs.Filter(offers, o => HasDiscId(k, o))
  }

  /** buildDiscIdToOffersMap: offers without a discount id are dropped, the rest grouped by it. */
  function OffersByDiscId(offers: seq<Offer>): (m: map<int, seq<Offer>>)
    ensures forall k :: k in m <==> exists i :: 0 <= i < |offers| && offers[i].discId == Some(k)
    ensures forall k :: k in m ==> m[k] == OffersOf(offers, k)
  {
    if offers == [] then map[]
    else
      var rest := offers[..|offers| - 1];
      var o := offers[|offers| - 1];
      var m := OffersByDiscId(rest);
      assert forall k :: OffersOf(offers, k) == OffersOf(rest, k) + (if HasDiscId(k, o) then [o] else []) by {
        forall k ensures OffersOf(offers, k) == OffersOf(rest, k) + (if HasDiscId(k, o) then [o] else []) {
          assert offers == rest + [o];
          Seqs.FilterSnoc(rest, o, o' => HasDiscId(k, o'));
        }
      }
      if o.discId.None? then m
      else
        var k := o.discId.value;
        assert k !in m ==> OffersOf(rest, k) == [] by {
          Seqs.FilterEmpty(rest, o' => HasDiscId(k, o'));
        }
        m[k := (if k in m then m[k] else []) + [o]]
  }

  /** A discount id with no offer has no entry at all (so the validator's getOrDefault gives []). */
  lemma OffersOfAbsentKey(offers: seq<Offer>, k: int)
    requires k !in OffersByDiscId(offers)
    ensures OffersOf(offers, k) == []
  {
    Seqs.FilterEmpty(offers, o => HasDiscId(k, o));
  }

  /**
   * loadConfigurations: the six maps are assigned one after another; a
   * duplicate key stops the sequence, so the maps assigned before it already
   * hold the new data and those after it keep the old.
   */
  function Reload(prev: Snapshot, rows: ConfigRows): (Snapshot, Option<DuplicateKey>)
  {
    var s1 := prev.(offers := OffersByDiscId(rows.offers));
    match MapEntities(rows.confs, ConfKey)
    case Err(e) => (s1, Some(e))
    case Ok(confs) =>
      var s2 := s1.(confs := confs);
      match MapEntities(rows.types, TypeKey)
      case Err(e) => (s2, Some(e))
      case Ok(types) =>
        var s3 := s2.(types := types);
        match MapEntities(rows.priceGroups, PriceGroupKey)
        case Err(e) => (s3, Some(e))
        case Ok(groups) =>
          var s4 := s3.(priceGroups := groups);
          match MapEntities(rows.specialMonths, SpecialMonthKey)
          case Err(e) => (s4, Some(e))
          case Ok(specials) =>
            var s5 := s4.(specialMonths := specials);
            match MapEntities(rows.freeMonths, FreeMonthKey)
            case Err(e) => (s5, Some(e))
            case Ok(frees) => (s5.(freeMonths := frees), None)
  }

  /** Every table's keys are distinct. */
  predicate WellKeyed(rows: ConfigRows)
  {
    && KeysDistinct(rows.confs, ConfKey)
    && KeysDistinct(rows.types, TypeKey)
    && KeysDistinct(rows.priceGroups, PriceGroupKey)
    && KeysDistinct(rows.specialMonths, SpecialMonthKey)
    && KeysDistinct(rows.freeMonths, FreeMonthKey)
  }

  /**
   * A load succeeds exactly when every table is keyed uniquely; it then
   * replaces all six maps, so the result no longer depends on the previous
   * snapshot, and each map holds exactly its table's rows under their keys.
   */
  lemma ReloadReplacesAll(prev: Snapshot, rows: ConfigRows)
    ensures Reload(prev, rows).1.None? <==> WellKeyed(rows)
    ensures WellKeyed(rows) ==> Reload(prev, rows).0 == Loaded(rows)
  {
    if WellKeyed(rows) {
      ReloadWellKeyed(prev, rows);
    } else {
      ReloadRefused(prev, rows);
    }
  }

  /**
   * The loaded snapshot holds the offers grouped by discount id and the
   * configurations under their discount ids, exactly those of the table.
   */
  lemma LoadedConfs(rows: ConfigRows)
    requires WellKeyed(rows)
    ensures Loaded(rows).offers == OffersByDiscId(rows.offers)
    ensures forall k :: k in Loaded(rows).confs <==> exists i :: 0 <= i < |rows.confs| && rows.confs[i].discId == k
    ensures forall i :: 0 <= i < |rows.confs| ==> Loaded(rows).confs[rows.confs[i].discId] == rows.confs[i]
  {
    var confs := MapEntities(rows.confs, ConfKey).value;
    assert Loaded(rows).confs == confs;
  }

  /** Each other map of the loaded snapshot holds its table's rows under their keys. */
  lemma LoadedMaps(rows: ConfigRows)
    requires WellKeyed(rows)
    ensures forall i :: 0 <= i < |rows.types| ==> Loaded(rows).types[rows.types[i].typeId] == rows.types[i]
    ensures forall i :: 0 <= i < |rows.priceGroups| ==>
      Loaded(rows).priceGroups[rows.priceGroups[i].id] == rows.priceGroups[i]
    ensures forall i :: 0 <= i < |rows.specialMonths| ==>
      Loaded(rows).specialMonths[rows.specialMonths[i].id] == rows.specialMonths[i]
    ensures forall i :: 0 <= i < |rows.freeMonths| ==>
      Loaded(rows).freeMonths[rows.freeMonths[i].id] == rows.freeMonths[i]
  {
    assert Loaded(rows).types == MapEntities(rows.types, TypeKey).value;
    assert Loaded(rows).priceGroups == MapEntities(rows.priceGroups, PriceGroupKey).value;
    assert Loaded(rows).specialMonths == MapEntities(rows.specialMonths, SpecialMonthKey).value;
    assert Loaded(rows).freeMonths == MapEntities(rows.freeMonths, FreeMonthKey).value;
  }

  /** The snapshot a load of well-keyed tables builds. */
  function Loaded(rows: ConfigRows): Snapshot
    requires WellKeyed(rows)
  {
    Snapshot(MapEntities(rows.types, TypeKey).value, MapEntities(rows.confs, ConfKey).value,
             OffersByDiscId(rows.offers), MapEntities(rows.priceGroups, PriceGroupKey).value,
             MapEntities(rows.specialMonths, SpecialMonthKey).value, MapEntities(rows.freeMonths, FreeMonthKey).value)
  }

  lemma ReloadWellKeyed(prev: Snapshot, rows: ConfigRows)
    requires WellKeyed(rows)
    ensures Reload(prev, rows) == (Loaded(rows), None)
  {
    assert MapEntities(rows.confs, ConfKey).Ok?;
    assert MapEntities(rows.types, TypeKey).Ok?;
    assert MapEntities(rows.priceGroups, PriceGroupKey).Ok?;
    assert MapEntities(rows.specialMonths, SpecialMonthKey).Ok?;
    assert MapEntities(rows.freeMonths, FreeMonthKey).Ok?;
  }

  lemma ReloadRefused(prev: Snapshot, rows: ConfigRows)
    requires !WellKeyed(rows)
    ensures Reload(prev, rows).1 == Some(DuplicateKey)
  {
    var confs := MapEntities(rows.confs, ConfKey);
    var types := MapEntities(rows.types, TypeKey);
    var groups := MapEntities(rows.priceGroups, PriceGroupKey);
    var specials := MapEntities(rows.specialMonths, SpecialMonthKey);
    var frees := MapEntities(rows.freeMonths, FreeMonthKey);
    if confs.Err? {
      assert Reload(prev, rows).1 == Some(confs.error);
      assert confs.error.DuplicateKey?;
    } else if types.Err? {
      assert Reload(prev, rows).1 == Some(types.error);
      assert types.error.DuplicateKey?;
    } else if groups.Err? {
      assert Reload(prev, rows).1 == Some(groups.error);
      assert groups.error.DuplicateKey?;
    } else if specials.Err? {
      assert Reload(prev, rows).1 == Some(specials.error);
      assert specials.error.DuplicateKey?;
    } else {
      assert frees.Err?;
      assert Reload(prev, rows).1 == Some(frees.error);
      assert frees.error.DuplicateKey?;
    }
  }

  /**
   * A duplicate discount id in the conf table fails the load after the offer
   * map was replaced; the other five maps keep their previous contents.
   */
  lemma DuplicateConfLeavesRestStale(prev: Snapshot, rows: ConfigRows)
    requires !KeysDistinct(rows.confs, ConfKey)
    ensures Reload(prev, rows).1 == Some(DuplicateKey)
    ensures Reload(prev, rows).0 == prev.(offers := OffersByDiscId(rows.offers))
  {
    var r := MapEntities(rows.confs, ConfKey);
    assert r.Err?;
    assert r.error == DuplicateKey;
  }

  /** DynDiscConfigurations: the six maps, reassigned by each load. */
  class DynDiscConfigurations {
    var typeMap: map<int, DiscType>
    var confMap: map<int, DiscConf>
    var offerMap: map<int, seq<Offer>>
    var priceGroupMap: map<PriceGroupId, PriceGroup>
    var specialMonthMap: map<MonthKey, SpecialMonth>
    var freeMonthMap: map<MonthKey, FreeMonth>

    /**
     * Construction together with the post-construct load: the maps are never
     * observed before it, so a new service holds the loaded snapshot.
     */
    constructor (rows: ConfigRows)
      requires WellKeyed(rows)
      ensures Current() == Loaded(rows)
    {
      var s := Loaded(rows);
      typeMap, confMap, offerMap := s.types, s.confs, s.offers;
      priceGroupMap, specialMonthMap, freeMonthMap := s.priceGroups, s.specialMonths, s.freeMonths;
    }

    /**
     * Bean creation: a duplicate key in the post-construct load fails the
     * creation, so no service exists; otherwise the new service holds the
     * loaded snapshot.
     */
    static method Create(rows: ConfigRows) returns (r: Result<DynDiscConfigurations, DuplicateKey>)
      ensures r.Err? <==> !WellKeyed(rows)
      ensures r.Ok? ==> fresh(r.value) && r.value.Current() == Loaded(rows)
    {
      if WellKeyed(rows) {
        var c := new DynDiscConfigurations(rows);
        r := Ok(c);
      } else {
        r := Err(DuplicateKey);
      }
    }

    /** The maps as one value. */
    function Current(): Snapshot
      reads this
    {
      Snapshot(typeMap, confMap, offerMap, priceGroupMap, specialMonthMap, freeMonthMap)
    }

    method LoadConfigurations(rows: ConfigRows) returns (thrown: Option<DuplicateKey>)
      modifies this
      ensures (Current(), thrown) == Reload(old(Current()), rows)
    {
      offerMap := OffersByDiscId(rows.offers);
      var confs := MapEntities(rows.confs, ConfKey);
      if confs.Err? { return Some(confs.error); }
      confMap := confs.value;
      var types := MapEntities(rows.types, TypeKey);
      if types.Err? { return Some(types.error); }
      typeMap := types.value;
      var groups := MapEntities(rows.priceGroups, PriceGroupKey);
      if groups.Err? { return Some(groups.error); }
      priceGroupMap := groups.value;
      var specials := MapEntities(rows.specialMonths, SpecialMonthKey);
      if specials.Err? { return Some(specials.error); }
      specialMonthMap := specials.value;
      var frees := MapEntities(rows.freeMonths, FreeMonthKey);
      if frees.Err? { return Some(frees.error); }
      freeMonthMap := frees.value;
      return None;
    }

    /** refreshConfigurations: a plain reload. */
    method RefreshConfigurations(rows: ConfigRows) returns (thrown: Option<DuplicateKey>)
      modifies this
      ensures (Current(), thrown) == Reload(old(Current()), rows)
    {
      thrown := LoadConfigurations(rows);
    }
  }
}
