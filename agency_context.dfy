/**
 * The record store shared by every view: the list of agency records, its
 * update/add/delete/lookup operations and the load-time merge of the stored
 * list with the seed list.
 */
module AgencyContext {
  import opened Wrappers
  import opened JsStrings
  import opened AgencyModel
  import InitialAgencies

  // ---------------------------------------------------------------------------
  // Lookup
  // ---------------------------------------------------------------------------

  /** `agencies.find(a => a.name === name)` */
  function FindByName(agencies: seq<AgencyData>, name: string): (r: Option<AgencyData>)
    ensures r.None? <==> forall i :: 0 <= i < |agencies| ==> agencies[i].name != name
    ensures r.Some? ==> r.value in agencies && r.value.name == name
  {
    if agencies == [] then None
    else if agencies[0].name == name then Some(agencies[0])
    else FindByName(agencies[1..], name)
  }

  /** The match returned is the first record with that exact name. */
  lemma {:induction false} FindByNameIsFirst(agencies: seq<AgencyData>, name: string, k: nat)
    requires k < |agencies| && agencies[k].name == name
    requires forall j :: 0 <= j < k ==> agencies[j].name != name
    ensures FindByName(agencies, name) == Some(agencies[k])
  {
    if k > 0 {
      FindByNameIsFirst(agencies[1..], name, k - 1);
    }
  }

  /** `records.find(a => a.id === id)` */
  function FindById(records: seq<AgencyData>, id: string): (r: Option<AgencyData>)
    ensures r.None? <==> forall i :: 0 <= i < |records| ==> records[i].id != id
    ensures r.Some? ==> r.value in records && r.value.id == id
  {
    if records == [] then None
    else if records[0].id == id then Some(records[0])
    else FindById(records[1..], id)
  }

  /** The match returned is the first record with that id. */
  lemma {:induction false} FindByIdIsFirst(records: seq<AgencyData>, id: string, k: nat)
    requires k < |records| && records[k].id == id
    requires forall j :: 0 <= j < k ==> records[j].id != id
    ensures FindById(records, id) == Some(records[k])
  {
    if k > 0 {
      FindByIdIsFirst(records[1..], id, k - 1);
    }
  }

  // ---------------------------------------------------------------------------
  // Update, add, delete
  // ---------------------------------------------------------------------------

  /** `agencies.map(a => a.id === id ? { ...a, ...updates } : a)` */
  function UpdateById(agencies: seq<AgencyData>, id: string, updates: AgencyUpdate): (r: seq<AgencyData>)
    ensures |r| == |agencies|
    ensures forall i :: 0 <= i < |agencies| && agencies[i].id != id ==> r[i] == agencies[i]
    ensures forall i :: 0 <= i < |agencies| && agencies[i].id == id ==> r[i] == ApplyUpdate(agencies[i], updates)
  {
    if agencies == [] then []
    else
      var head := if agencies[0].id == id then ApplyUpdate(agencies[0], updates) else agencies[0];
      [head] + UpdateById(agencies[1..], id, updates)
  }

  /** Updating an id no record has changes nothing. */
  lemma UpdateUnknownIdIsNoOp(agencies: seq<AgencyData>, id: string, updates: AgencyUpdate)
    requires forall i :: 0 <= i < |agencies| ==> agencies[i].id != id
    ensures UpdateById(agencies, id, updates) == agencies
  {
  }

  /** `agencies.filter(a => a.id !== id)` */
  function RemoveById(agencies: seq<AgencyData>, id: string): (r: seq<AgencyData>)
    ensures |r| <= |agencies|
    ensures forall a :: a in r <==> a in agencies && a.id != id
  {
    if agencies == [] then []
    else if agencies[0].id == id then RemoveById(agencies[1..], id)
    else [agencies[0]] + RemoveById(agencies[1..], id)
  }

  /** Removal works piece by piece, so the records kept stay in their order. */
  lemma {:induction false} RemoveByIdAppend(xs: seq<AgencyData>, ys: seq<AgencyData>, id: string)
    ensures RemoveById(xs + ys, id) == RemoveById(xs, id) + RemoveById(ys, id)
  {
    if xs == [] {
      assert xs + ys == ys;
    } else {
      assert (xs + ys)[0] == xs[0];
      assert (xs + ys)[1..] == xs[1..] + ys;
      RemoveByIdAppend(xs[1..], ys, id);
    }
  }

  /** Removing an id no record has changes nothing. */
  lemma {:induction false} RemoveUnknownIdIsNoOp(agencies: seq<AgencyData>, id: string)
    requires forall i :: 0 <= i < |agencies| ==> agencies[i].id != id
    ensures RemoveById(agencies, id) == agencies
  {
    if agencies != [] {
      RemoveUnknownIdIsNoOp(agencies[1..], id);
      assert [agencies[0]] + agencies[1..] == agencies;
    }
  }

  /** `agencies.map(a => parseInt(a.id))`; None stands for NaN. */
  function ParsedIds(agencies: seq<AgencyData>): (ns: seq<Option<int>>)
    ensures |ns| == |agencies| && forall i :: 0 <= i < |agencies| ==> ns[i] == ParseInt(agencies[i].id)
  {
    seq(|agencies|, i requires 0 <= i < |agencies| => ParseInt(agencies[i].id))
  }

  /** `Math.max(...ns, 0)`: NaN as soon as one number is NaN; otherwise the largest of the
      numbers and 0. */
  function MaxWithZero(ns: seq<Option<int>>): (m: Option<int>)
    ensures m.Some? <==> forall i :: 0 <= i < |ns| ==> ns[i].Some?
    ensures m.Some? ==> m.value >= 0 && forall i :: 0 <= i < |ns| ==> ns[i].value <= m.value
    ensures m.Some? && m.value != 0 ==> exists i :: 0 <= i < |ns| && ns[i] == m
  {
    if ns == [] then Some(0)
    else
      var rest := MaxWithZero(ns[1..]);
      if ns[0].None? || rest.None? then None
      else
        assert forall i :: 1 <= i < |ns| ==> ns[i] == ns[1..][i - 1];
        if ns[0].value > rest.value then ns[0] else rest
  }

  /** The id `addAgency` assigns: `String(max + 1)`, which is "NaN" when an id does not parse. */
  function NextId(agencies: seq<AgencyData>): string {
    match MaxWithZero(ParsedIds(agencies))
    case None => "NaN"
    case Some(m) => IntToString(m + 1)
  }

  /** With numeric ids, the id an add assigns parses to a number above every existing id
      and at least 1, so it is new; on an empty store it is "1". */
  lemma NextIdIsAboveAll(agencies: seq<AgencyData>)
    requires forall i :: 0 <= i < |agencies| ==> ParseInt(agencies[i].id).Some?
    ensures ParseInt(NextId(agencies)).Some?
    ensures ParseInt(NextId(agencies)).value >= 1
    ensures forall i :: 0 <= i < |agencies| ==> ParseInt(agencies[i].id).value < ParseInt(NextId(agencies)).value
    ensures forall i :: 0 <= i < |agencies| ==> agencies[i].id != NextId(agencies)
    ensures agencies == [] ==> NextId(agencies) == "1"
  {
    ParseIntToString(MaxWithZero(ParsedIds(agencies)).value + 1);
  }

  /** The record `addAgency` appends: the fields given, with the next id. */
  function WithNextId(agencies: seq<AgencyData>, fields: AgencyData): AgencyData {
    fields.(id := NextId(agencies))
  }

  // ---------------------------------------------------------------------------
  // Loading
  // ---------------------------------------------------------------------------

  /** What the storage slot of the collection holds when the store starts: nothing (or
      an empty string), text that does not parse as a list, or a parsed list. */
  datatype StoredSlot = Missing | Unparseable | Parsed(records: seq<AgencyData>)

  /**
   * The keys a record keeps through `JSON.stringify` and `JSON.parse`: every required
   * field, and every optional field that is defined (a key whose value is undefined is
   * not written).
   */
  function StoredKeys(stored: AgencyData): AgencyUpdate {
    AgencyUpdate(
      Some(stored.id), Some(stored.name), Some(stored.initials), Some(stored.status),
      Some(stored.description), Some(stored.tags),
      KeyIfDefined(stored.website), KeyIfDefined(stored.samples), KeyIfDefined(stored.synthetic),
      KeyIfDefined(stored.ots), KeyIfDefined(stored.poc), KeyIfDefined(stored.industry),
      KeyIfDefined(stored.useCase), KeyIfDefined(stored.service), KeyIfDefined(stored.modality),
      KeyIfDefined(stored.location), KeyIfDefined(stored.otsDataList))
  }

  function KeyIfDefined<T>(field: Option<T>): Option<Option<T>> {
    if field.Some? then Some(field) else None
  }

  /** `{ ...initial, ...storedAgency }`: stored values win wherever the stored record has
      the key; an optional field it lacks keeps the seed's value. */
  function Overlay(seed: AgencyData, stored: AgencyData): (r: AgencyData)
    ensures r.id == stored.id && r.name == stored.name && r.initials == stored.initials
    ensures r.status == stored.status && r.description == stored.description && r.tags == stored.tags
    ensures r.website == (if stored.website.Some? then stored.website else seed.website)
    ensures r.samples == (if stored.samples.Some? then stored.samples else seed.samples)
    ensures r.synthetic == (if stored.synthetic.Some? then stored.synthetic else seed.synthetic)
    ensures r.ots == (if stored.ots.Some? then stored.ots else seed.ots)
    ensures r.poc == (if stored.poc.Some? then stored.poc else seed.poc)
    ensures r.industry == (if stored.industry.Some? then stored.industry else seed.industry)
    ensures r.useCase == (if stored.useCase.Some? then stored.useCase else seed.useCase)
    ensures r.service == (if stored.service.Some? then stored.service else seed.service)
    ensures r.modality == (if stored.modality.Some? then stored.modality else seed.modality)
    ensures r.location == (if stored.location.Some? then stored.location else seed.location)
    ensures r.otsDataList == (if stored.otsDataList.Some? then stored.otsDataList else seed.otsDataList)
  {
    ApplyUpdate(seed, StoredKeys(stored))
  }

  /** A stored record that defines every field replaces the seed record entirely. */
  lemma OverlayOfCompleteRecord(seed: AgencyData, stored: AgencyData)
    requires stored.website.Some? && stored.samples.Some? && stored.synthetic.Some? && stored.ots.Some?
    requires stored.poc.Some? && stored.industry.Some? && stored.useCase.Some? && stored.service.Some?
    requires stored.modality.Some? && stored.location.Some? && stored.otsDataList.Some?
    ensures Overlay(seed, stored) == stored
  {
  }

  /** One seed after loading: overlaid by the first stored record with its id, if any. */
  function MergedSeed(seed: AgencyData, stored: seq<AgencyData>): (r: AgencyData)
    ensures r.id == seed.id
    ensures (forall j :: 0 <= j < |stored| ==> stored[j].id != seed.id) ==> r == seed
    ensures forall k :: (0 <= k < |stored| && stored[k].id == seed.id
      && forall j :: 0 <= j < k ==> stored[j].id != seed.id) ==> r == Overlay(seed, stored[k])
  {
    forall k | 0 <= k < |stored| && stored[k].id == seed.id
      && (forall j :: 0 <= j < k ==> stored[j].id != seed.id)
      ensures FindById(stored, seed.id) == Some(stored[k])
    {
      FindByIdIsFirst(stored, seed.id, k);
    }
    match FindById(stored, seed.id)
    case Some(s) => Overlay(seed, s)
    case None => seed
  }

  /** `initialAgencies.map(...)`: every seed, in seed order, merged with the stored list. */
  function MergeSeeds(seeds: seq<AgencyData>, stored: seq<AgencyData>): (r: seq<AgencyData>)
    ensures |r| == |seeds|
    ensures forall i :: 0 <= i < |seeds| ==> r[i] == MergedSeed(seeds[i], stored)
  {
    seq(|seeds|, i requires 0 <= i < |seeds| => MergedSeed(seeds[i], stored))
  }

  /** `new Set(records.map(a => a.id))` */
  function Ids(records: seq<AgencyData>): (ids: set<string>)
    ensures forall i :: 0 <= i < |records| ==> records[i].id in ids
    ensures forall id :: id in ids ==> exists i :: 0 <= i < |records| && records[i].id == id
  {
    set i | 0 <= i < |records| :: records[i].id
  }

  /** `records.filter(a => !ids.has(a.id))` */
  function WithoutIds(records: seq<AgencyData>, ids: set<string>): (r: seq<AgencyData>)
    ensures |r| <= |records|
    ensures forall a :: a in r <==> a in records && a.id !in ids
  {
    if records == [] then []
    else if records[0].id in ids then WithoutIds(records[1..], ids)
    else [records[0]] + WithoutIds(records[1..], ids)
  }

  /** Filtering out ids keeps the stored order: it distributes over concatenation. */
  lemma {:induction false} WithoutIdsAppend(xs: seq<AgencyData>, ys: seq<AgencyData>, ids: set<string>)
    ensures WithoutIds(xs + ys, ids) == WithoutIds(xs, ids) + WithoutIds(ys, ids)
  {
    if xs == [] {
      assert xs + ys == ys;
    } else {
      assert (xs + ys)[0] == xs[0] && (xs + ys)[1..] == xs[1..] + ys;
      WithoutIdsAppend(xs[1..], ys, ids);
    }
  }

  /** Merging keeps the seed ids. */
  lemma MergeKeepsIds(seeds: seq<AgencyData>, stored: seq<AgencyData>)
    ensures Ids(MergeSeeds(seeds, stored)) == Ids(seeds)
  {
    var merged := MergeSeeds(seeds, stored);
    forall id | id in Ids(merged) ensures id in Ids(seeds) {
      var i :| 0 <= i < |merged| && merged[i].id == id;
      assert seeds[i].id == id;
    }
  }

  /** `loadAgencies`: the seeds in seed order, each overlaid by its stored record, then the
      stored records whose ids are not seed ids, in stored order. Without a usable stored
      list the result is the seed list. */
  function LoadAgencies(seeds: seq<AgencyData>, slot: StoredSlot): (r: seq<AgencyData>)
    ensures !slot.Parsed? ==> r == seeds
    ensures |r| >= |seeds| && forall i :: 0 <= i < |seeds| ==> r[i].id == seeds[i].id
    ensures slot.Parsed? ==> forall i :: 0 <= i < |seeds| ==> r[i] == MergedSeed(seeds[i], slot.records)
    ensures slot.Parsed? ==> r[|seeds|..] == WithoutIds(slot.records, Ids(seeds))
  {
    match slot
    case Missing => seeds
    case Unparseable => seeds
    case Parsed(stored) =>
      var merged := MergeSeeds(seeds, stored);
      MergeKeepsIds(seeds, stored);
      var r := merged + WithoutIds(stored, Ids(merged));
      assert r[|seeds|..] == WithoutIds(stored, Ids(merged));
      r
  }

  /** Every seed id is present after loading, so a deleted seed agency comes back. */
  lemma SeedIdsSurviveLoad(seeds: seq<AgencyData>, slot: StoredSlot, id: string)
    requires id in Ids(seeds)
    ensures id in Ids(LoadAgencies(seeds, slot))
  {
    var r := LoadAgencies(seeds, slot);
    var i :| 0 <= i < |seeds| && seeds[i].id == id;
    assert r[i].id == id;
  }

  /** The first stored record with a seed's id decides that seed's stored fields. */
  lemma StoredRecordOverlaysSeed(seeds: seq<AgencyData>, stored: seq<AgencyData>, i: nat, k: nat)
    requires i < |seeds| && k < |stored| && stored[k].id == seeds[i].id
    requires forall j :: 0 <= j < k ==> stored[j].id != seeds[i].id
    ensures LoadAgencies(seeds, Parsed(stored))[i] == Overlay(seeds[i], stored[k])
  {
    FindByIdIsFirst(stored, seeds[i].id, k);
  }

  /** A seed no stored record has the id of loads exactly as written. */
  lemma UnstoredSeedLoadsUnchanged(seeds: seq<AgencyData>, stored: seq<AgencyData>, i: nat)
    requires i < |seeds|
    requires forall j :: 0 <= j < |stored| ==> stored[j].id != seeds[i].id
    ensures LoadAgencies(seeds, Parsed(stored))[i] == seeds[i]
  {
  }

  /** A stored record with a non-seed id is loaded as it was stored. */
  lemma NewStoredRecordSurvivesLoad(seeds: seq<AgencyData>, stored: seq<AgencyData>, a: AgencyData)
    requires a in stored && a.id !in Ids(seeds)
    ensures a in LoadAgencies(seeds, Parsed(stored))
  {
    var r := LoadAgencies(seeds, Parsed(stored));
    assert a in r[|seeds|..];
  }

  /** A cleared optional field of a seed agency is not stored, so reloading shows the
      seed's value again. */
  lemma ClearedSeedWebsiteReturnsOnLoad(seeds: seq<AgencyData>, i: nat)
    requires i < |seeds| && seeds[i].website.Some?
    requires forall j :: 0 <= j < i ==> seeds[j].id != seeds[i].id
    ensures LoadAgencies(seeds, Parsed(UpdateById(seeds, seeds[i].id, NoChanges.(website := Some(None)))))[i].website
            == seeds[i].website
  {
    var cleared := UpdateById(seeds, seeds[i].id, NoChanges.(website := Some(None)));
    assert cleared[i].website == None;
    StoredRecordOverlaysSeed(seeds, cleared, i, i);
  }

  // ---------------------------------------------------------------------------
  // The store
  // ---------------------------------------------------------------------------

  /** The agency provider: the list of records every view reads and changes. */
  class AgencyStore {
    var agencies: seq<AgencyData>

    /** `useState(() => loadAgencies())` */
    constructor (slot: StoredSlot)
      ensures agencies == LoadAgencies(InitialAgencies.Seeds(), slot)
    {
      agencies := LoadAgencies(InitialAgencies.Seeds(), slot);
    }

    /** `updateAgency`: shallow merge of `updates` into every record with that id. */
    method UpdateAgency(id: string, updates: AgencyUpdate)
      modifies this
      ensures agencies == UpdateById(old(agencies), id, updates)
    {
      agencies := UpdateById(agencies, id, updates);
    }

    /** `addAgency`: appends the record with the next id; the id of `fields` is ignored. */
    method AddAgency(fields: AgencyData)
      modifies this
      ensures agencies == old(agencies) + [WithNextId(old(agencies), fields)]
    {
      var newAgency := WithNextId(agencies, fields);
      agencies := agencies + [newAgency];
    }

    /** `deleteAgency`: drops every record with that id. */
    method DeleteAgency(id: string)
      modifies this
      ensures agencies == RemoveById(old(agencies), id)
    {
      agencies := RemoveById(agencies, id);
    }

    /** `getAgencyByName`: the first record with exactly that name. */
    method GetAgencyByName(name: string) returns (r: Option<AgencyData>)
      ensures r == FindByName(agencies, name)
      ensures r.Some? ==> r.value in agencies && r.value.name == name
    {
      r := FindByName(agencies, name);
    }
  }
}
