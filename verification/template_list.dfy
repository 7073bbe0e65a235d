/**
 * The older saved-template list of the app: every template, state included,
 * in one JSON array under a single key, appended to without deduplication.
 * Each operation catches its own failure, which leaves the store as it was.
 */
module TemplateList {
  import opened Seqs
  import opened Storage

  const StorageKey: string := "SAVED_TEMPLATES"

  /** What `loadList` hands back: the stored list, or a value that is not a list. */
  datatype Loaded = List(items: seq<Template>) | NotAList

  /**
   * `loadList`: a missing or empty key and text that does not parse give `[]`;
   * parsed JSON is returned as it is, so a record or a scalar comes back as
   * something that is not a list.
   */
  function LoadedIn(data: map<string, Raw>): (r: Loaded)
    ensures StorageKey !in data || data[StorageKey].Empty? || data[StorageKey].Unparsable? ==> r == List([])
    ensures StorageKey in data && data[StorageKey].Parsed? ==>
              (r.List? <==> data[StorageKey].json.Array?)
    ensures StorageKey in data && data[StorageKey].Parsed? && r.List? ==> r.items == data[StorageKey].json.elems
  {
    if StorageKey !in data then List([])
    else match data[StorageKey]
      case Empty => List([])
      case Unparsable => List([])
      case Parsed(Array(elems)) => List(elems)
      case Parsed(_) => NotAList
  }

  /** The store after `saveTemplate(t)`: appended at the end, or untouched when the list step throws. */
  function SavedIn(data: map<string, Raw>, t: Template): map<string, Raw> {
    match LoadedIn(data)
    case List(items) => data[StorageKey := Parsed(Array(items + [t]))]
    case NotAList => data
  }

  /** Each entry with the given id, renamed and stamped. */
  function RenameWhere(items: seq<Template>, id: string, newName: string, now: string): (r: seq<Template>)
    ensures |r| == |items|
    ensures forall i :: 0 <= i < |items| ==>
              r[i] == if items[i].id == id then items[i].(name := newName, updatedAt := now) else items[i]
  {
    Map(items, (t: Template) => if t.id == id then t.(name := newName, updatedAt := now) else t)
  }

  /** The store after `renameTemplate(id, newName)` at time `now`. */
  function RenamedIn(data: map<string, Raw>, id: string, newName: string, now: string): map<string, Raw> {
    match LoadedIn(data)
    case List(items) => data[StorageKey := Parsed(Array(RenameWhere(items, id, newName, now)))]
    case NotAList => data
  }

  /** The store after `deleteTemplate(id)`. */
  function DeletedIn(data: map<string, Raw>, id: string): map<string, Raw> {
    match LoadedIn(data)
    case List(items) => data[StorageKey := Parsed(Array(Filter(items, (t: Template) => t.id != id)))]
    case NotAList => data
  }

  /** `loadList`. */
  method LoadList(store: Store) returns (r: Loaded)
    ensures r == LoadedIn(store.data)
  {
    var raw := store.GetItem(StorageKey);
    if raw.None? {
      return List([]);
    }
    match raw.value {
      case Empty => r := List([]);
      case Unparsable => r := List([]);
      case Parsed(json) => r := if json.Array? then List(json.elems) else NotAList;
    }
  }

  /** `saveTemplate(t)`. */
  method SaveTemplate(store: Store, t: Template)
    modifies store
    ensures store.data == SavedIn(old(store.data), t)
  {
    var loaded := LoadList(store);
    if loaded.NotAList? {
      return;
    }
    store.SetItem(StorageKey, Array(loaded.items + [t]));
  }

  /** `renameTemplate(id, newName)`; `now` is the `updatedAt` stamp. */
  method RenameTemplate(store: Store, id: string, newName: string, now: string)
    modifies store
    ensures store.data == RenamedIn(old(store.data), id, newName, now)
  {
    var loaded := LoadList(store);
    if loaded.NotAList? {
      return;
    }
    store.SetItem(StorageKey, Array(RenameWhere(loaded.items, id, newName, now)));
  }

  /** `deleteTemplate(id)`. */
  method DeleteTemplate(store: Store, id: string)
    modifies store
    ensures store.data == DeletedIn(old(store.data), id)
  {
    var loaded := LoadList(store);
    if loaded.NotAList? {
      return;
    }
    store.SetItem(StorageKey, Array(Filter(loaded.items, (t: Template) => t.id != id)));
  }

  /** Saving appends at the end without looking for an entry with the same id, so a second save of one id makes a duplicate. */
  lemma SaveAppends(data: map<string, Raw>, t: Template)
    requires LoadedIn(data).List?
    ensures LoadedIn(SavedIn(data, t)) == List(LoadedIn(data).items + [t])
    ensures |LoadedIn(SavedIn(data, t)).items| == |LoadedIn(data).items| + 1
    ensures Count(LoadedIn(SavedIn(data, t)).items, t) == Count(LoadedIn(data).items, t) + 1
  {
    CountAppend(LoadedIn(data).items, t);
  }

  /** Renaming keeps the length, the order and the ids, and touches only the name and stamp of matching entries. */
  lemma RenameKeepsShape(data: map<string, Raw>, id: string, newName: string, now: string)
    requires LoadedIn(data).List?
    ensures var before := LoadedIn(data).items;
            var after := LoadedIn(RenamedIn(data, id, newName, now)).items;
            |after| == |before| &&
            forall i :: 0 <= i < |before| ==>
              after[i].id == before[i].id && after[i].createdAt == before[i].createdAt &&
              after[i].screen == before[i].screen && after[i].state == before[i].state &&
              (before[i].id == id ==> after[i].name == newName && after[i].updatedAt == now) &&
              (before[i].id != id ==> after[i] == before[i])
  {
  }

  /** Deleting leaves exactly the entries with other ids. */
  lemma DeleteRemovesId(data: map<string, Raw>, id: string)
    requires LoadedIn(data).List?
    ensures forall t :: t in LoadedIn(DeletedIn(data, id)).items <==> t in LoadedIn(data).items && t.id != id
  {
  }

  /** When the stored value is not a list every operation fails, and the failure leaves the store as it was. */
  lemma FailureLeavesStore(data: map<string, Raw>, t: Template, id: string, newName: string, now: string)
    requires LoadedIn(data).NotAList?
    ensures SavedIn(data, t) == data && RenamedIn(data, id, newName, now) == data && DeletedIn(data, id) == data
  {
  }
}
