/**
 * The persistence adapter: save, load and clear over the browser's key-value
 * store, and the typed save/load pairs for the three keys the console uses.
 * Serialisation is abstracted away: an entry holds the value it was saved
 * with, or is unreadable (text that does not parse back).
 */
module LocalStorage {
  import opened Domain

  const FiltersKey: string := "leads-console-filters"
  const SortKey: string := "leads-console-sort"
  const OpportunitiesKey: string := "leads-console-opportunities"

  const DefaultFilters := Filters("", "all")
  const DefaultSort := SortConfig(Score, Desc)

  /** The values the console stores. */
  datatype Value =
    | FiltersValue(filters: Filters)
    | SortValue(sort: SortConfig)
    | OpportunitiesValue(opportunities: seq<Opportunity>)

  /** A stored item: the encoding of a value, or text that `JSON.parse` rejects (or the empty string). */
  datatype Entry = Json(value: Value) | Unreadable

  lemma KeysAreDistinct()
    ensures FiltersKey != SortKey && SortKey != OpportunitiesKey && FiltersKey != OpportunitiesKey
  {
    assert FiltersKey[14] != SortKey[14];
    assert SortKey[14] != OpportunitiesKey[14];
    assert FiltersKey[14] != OpportunitiesKey[14];
  }

  /**
   * The browser's local storage. `writable` is false where every write throws
   * (storage over quota); the adapter then swallows the error. Removal never
   * fails for quota, so it works on every store.
   */
  class Store {
    var entries: map<string, Entry>
    const writable: bool

    constructor (initial: map<string, Entry>, writable: bool)
      ensures entries == initial && this.writable == writable
    {
      entries := initial;
      this.writable := writable;
    }

    /** `loadFromStorage(key, defaultValue)`. */
    function Load(key: string, default: Value): (v: Value)
      reads this
      ensures key !in entries ==> v == default
      ensures key in entries && entries[key].Unreadable? ==> v == default
      ensures key in entries && entries[key].Json? ==> v == entries[key].value
    {
      if key in entries && entries[key].Json? then entries[key].value else default
    }

    /** `saveToStorage(key, data)`: never throws; a failed write leaves the store as it was. */
    method Save(key: string, value: Value)
      modifies this
      ensures entries == if writable then old(entries)[key := Json(value)] else old(entries)
      ensures writable ==> forall d :: Load(key, d) == value
      ensures forall k, d | k != key :: Load(k, d) == old(Load(k, d))
    {
      if writable {
        entries := entries[key := Json(value)];
      }
    }

    /** `clearStorage(key)`: the key is removed, even from a store over quota; removing an absent key is harmless. */
    method Clear(key: string)
      modifies this
      ensures entries == old(entries) - {key}
      ensures key !in old(entries) ==> entries == old(entries)
      ensures forall d :: Load(key, d) == d
      ensures forall k, d | k != key :: Load(k, d) == old(Load(k, d))
    {
      entries := entries - {key};
    }

    method SaveFilters(filters: Filters)
      modifies this
      ensures entries == if writable then old(entries)[FiltersKey := Json(FiltersValue(filters))] else old(entries)
      ensures writable ==> LoadFilters() == filters
    {
      Save(FiltersKey, FiltersValue(filters));
    }

    /** `loadFilters()`: empty search and "all" status unless a filter configuration is stored. */
    function LoadFilters(): (f: Filters)
      reads this
      ensures (FiltersKey in entries && entries[FiltersKey] == Json(FiltersValue(f))) || f == DefaultFilters
      ensures FiltersKey !in entries || entries[FiltersKey].Unreadable? ==> f == DefaultFilters
      ensures forall g :: FiltersKey in entries && entries[FiltersKey] == Json(FiltersValue(g)) ==> f == g
    {
      match Load(FiltersKey, FiltersValue(DefaultFilters))
      case FiltersValue(g) => g
      case _ => DefaultFilters
    }

    method SaveSort(sort: SortConfig)
      modifies this
      ensures entries == if writable then old(entries)[SortKey := Json(SortValue(sort))] else old(entries)
      ensures writable ==> LoadSort() == sort
    {
      Save(SortKey, SortValue(sort));
    }

    /** `loadSort()`: score, descending, unless a sort configuration is stored. */
    function LoadSort(): (s: SortConfig)
      reads this
      ensures (SortKey in entries && entries[SortKey] == Json(SortValue(s))) || s == DefaultSort
      ensures SortKey !in entries || entries[SortKey].Unreadable? ==> s == DefaultSort
      ensures forall t :: SortKey in entries && entries[SortKey] == Json(SortValue(t)) ==> s == t
    {
      match Load(SortKey, SortValue(DefaultSort))
      case SortValue(t) => t
      case _ => DefaultSort
    }

    method SaveOpportunities(opportunities: seq<Opportunity>)
      modifies this
      ensures entries == if writable then old(entries)[OpportunitiesKey := Json(OpportunitiesValue(opportunities))]
                         else old(entries)
      ensures writable ==> LoadOpportunities() == opportunities
    {
      Save(OpportunitiesKey, OpportunitiesValue(opportunities));
    }

    /** `loadOpportunities()`: the empty list unless an opportunity list is stored. */
    function LoadOpportunities(): (os: seq<Opportunity>)
      reads this
      ensures (OpportunitiesKey in entries && entries[OpportunitiesKey] == Json(OpportunitiesValue(os))) || os == []
      ensures OpportunitiesKey !in entries || entries[OpportunitiesKey].Unreadable? ==> os == []
      ensures forall ps :: OpportunitiesKey in entries && entries[OpportunitiesKey] == Json(OpportunitiesValue(ps)) ==> os == ps
    {
      match Load(OpportunitiesKey, OpportunitiesValue([]))
      case OpportunitiesValue(ps) => ps
      case _ => []
    }
  }
}
