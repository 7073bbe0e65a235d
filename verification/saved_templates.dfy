/**
 * The saved-template store of the two-slot dashboard: a metadata list under one
 * key, newest first, and each full snapshot under a key of its own.
 */
module SavedTemplates {
  import opened Options
  import opened Seqs
  import opened Storage

  const ListKey: string := "factorypulse/saves/list/v1"
  const ItemPrefix: string := "factorypulse/saves/item/"

  /** `ITEM_KEY(id)`. */
  function ItemKey(id: string): (k: string)
    ensures |k| == |ItemPrefix| + |id| + 3 && k[..|ItemPrefix|] == ItemPrefix
    ensures k[|ItemPrefix|..|ItemPrefix| + |id|] == id
  {
    ItemPrefix + id + "/v1"
  }

  /** No snapshot key can overwrite the list, and different ids use different keys. */
  lemma ItemKeyDistinct(id: string, other: string)
    ensures ItemKey(id) != ListKey
    ensures id != other ==> ItemKey(id) != ItemKey(other)
  {
    assert ItemKey(id)[19] == 'i' && ListKey[19] == 'l';
    if ItemKey(id) == ItemKey(other) {
      assert |id| == |other|;
      assert id == ItemKey(id)[|ItemPrefix|..|ItemPrefix| + |id|];
    }
  }

  /** The metadata of a snapshot: everything but its state. */
  function MetaOf(snap: Template): (m: Template)
    ensures m.id == snap.id && m.name == snap.name && m.createdAt == snap.createdAt
    ensures m.updatedAt == snap.updatedAt && m.screen == snap.screen && m.state.None?
  {
    snap.(state := None)
  }

  /** The ids of a list, in order. */
  function Ids(list: seq<Template>): (ids: seq<string>)
    ensures |ids| == |list| && forall i :: 0 <= i < |list| ==> ids[i] == list[i].id
  {
    Map(list, (m: Template) => m.id)
  }

  /** What `loadList` reads: the stored array, or `[]` when the key is missing, empty, not JSON or not an array. */
  function ListIn(data: map<string, Raw>): (list: seq<Template>)
    ensures ListKey in data && data[ListKey].Parsed? && data[ListKey].json.Array? ==> list == data[ListKey].json.elems
    ensures !(ListKey in data && data[ListKey].Parsed? && data[ListKey].json.Array?) ==> list == []
  {
    if ListKey in data && data[ListKey].Parsed? && data[ListKey].json.Array? then data[ListKey].json.elems else []
  }

  /** What `getTemplate(id)` reads: the stored record, or nothing for a missing, empty or unparsable key. */
  function TemplateIn(data: map<string, Raw>, id: string): (t: Option<Template>)
    ensures t.Some? <==> ItemKey(id) in data && data[ItemKey(id)].Parsed? && data[ItemKey(id)].json.Object?
    ensures t.Some? ==> t.value == data[ItemKey(id)].json.obj
  {
    var k := ItemKey(id);
    if k in data && data[k].Parsed? && data[k].json.Object? then Some(data[k].json.obj) else None
  }

  /** Every entry but those with the given id, in order. */
  function Without(list: seq<Template>, id: string): (r: seq<Template>)
    ensures forall m :: m in r <==> m in list && m.id != id
  {
    Filter(list, (m: Template) => m.id != id)
  }

  /** The store after `saveNewTemplate(snap)`. */
  function SavedNew(data: map<string, Raw>, snap: Template): map<string, Raw> {
    data[ListKey := Parsed(Array([MetaOf(snap)] + Without(ListIn(data), snap.id)))]
        [ItemKey(snap.id) := Parsed(Object(snap))]
  }

  /** Each entry with the given id replaced by `updater` of it. */
  function UpdateWhere(list: seq<Template>, id: string, updater: Template -> Template): (r: seq<Template>)
    ensures |r| == |list|
    ensures forall i :: 0 <= i < |list| ==> r[i] == if list[i].id == id then updater(list[i]) else list[i]
  {
    Map(list, (m: Template) => if m.id == id then updater(m) else m)
  }

  /** The store after `updateTemplateMeta(id, updater)`. */
  function MetaUpdated(data: map<string, Raw>, id: string, updater: Template -> Template): map<string, Raw> {
    data[ListKey := Parsed(Array(UpdateWhere(ListIn(data), id, updater)))]
  }

  /** The renaming applied to an entry. */
  function Renamed(newName: string, now: string): (f: Template -> Template)
    ensures forall m :: f(m) == m.(name := newName, updatedAt := now)
  {
    (m: Template) => m.(name := newName, updatedAt := now)
  }

  /** The store after `renameTemplate(id, newName)` at time `now`. */
  function RenamedIn(data: map<string, Raw>, id: string, newName: string, now: string): map<string, Raw> {
    match TemplateIn(data, id)
    case None => data
    case Some(item) =>
      MetaUpdated(data[ItemKey(id) := Parsed(Object(item.(name := newName, updatedAt := now)))], id, Renamed(newName, now))
  }

  /** The store after `deleteTemplate(id)`. */
  function DeletedIn(data: map<string, Raw>, id: string): map<string, Raw> {
    data[ListKey := Parsed(Array(Without(ListIn(data), id)))] - {ItemKey(id)}
  }

  /** `loadList`. */
  method LoadList(store: Store) returns (list: seq<Template>)
    ensures list == ListIn(store.data)
  {
    var raw := store.GetItem(ListKey);
    if raw.None? || raw.value.Empty? || raw.value.Unparsable? {
      return [];
    }
    list := if raw.value.json.Array? then raw.value.json.elems else [];
  }

  /** `saveNewTemplate(snap)`: the metadata goes to the front of the list, the snapshot under its own key. */
  method SaveNewTemplate(store: Store, snap: Template)
    modifies store
    ensures store.data == SavedNew(old(store.data), snap)
  {
    var list := LoadList(store);
    var meta := MetaOf(snap);
    var newList := [meta] + Without(list, snap.id);
    store.SetItem(ListKey, Array(newList));
    store.SetItem(ItemKey(snap.id), Object(snap));
  }

  /** `updateTemplateMeta(id, updater)`. */
  method UpdateTemplateMeta(store: Store, id: string, updater: Template -> Template)
    modifies store
    ensures store.data == MetaUpdated(old(store.data), id, updater)
  {
    var list := LoadList(store);
    store.SetItem(ListKey, Array(UpdateWhere(list, id, updater)));
  }

  /** `getTemplate(id)`. */
  method GetTemplate(store: Store, id: string) returns (t: Option<Template>)
    ensures t == TemplateIn(store.data, id)
  {
    var raw := store.GetItem(ItemKey(id));
    if raw.None? || raw.value.Empty? || raw.value.Unparsable? || !raw.value.json.Object? {
      return None;
    }
    t := Some(raw.value.json.obj);
  }

  /** `renameTemplate(id, newName)`; `now` is the `updatedAt` stamp. */
  method RenameTemplate(store: Store, id: string, newName: string, now: string)
    modifies store
    ensures store.data == RenamedIn(old(store.data), id, newName, now)
  {
    var item := GetTemplate(store, id);
    if item.None? {
      return;
    }
    var updated := item.value.(name := newName, updatedAt := now);
    store.SetItem(ItemKey(id), Object(updated));
    UpdateTemplateMeta(store, id, Renamed(newName, updated.updatedAt));
  }

  /** `deleteTemplate(id)`. */
  method DeleteTemplate(store: Store, id: string)
    modifies store
    ensures store.data == DeletedIn(old(store.data), id)
  {
    var list := LoadList(store);
    store.SetItem(ListKey, Array(Without(list, id)));
    store.RemoveItem(ItemKey(id));
  }

  /** After saving, the snapshot's metadata leads the list, its id occurs once, and the others keep their order. */
  lemma SaveNewLeadsList(data: map<string, Raw>, snap: Template)
    ensures ListIn(SavedNew(data, snap)) == [MetaOf(snap)] + Without(ListIn(data), snap.id)
    ensures Count(Ids(ListIn(SavedNew(data, snap))), snap.id) == 1
  {
    ItemKeyDistinct(snap.id, snap.id);
    var rest := Without(ListIn(data), snap.id);
    var ids := Ids([MetaOf(snap)] + rest);
    assert snap.id !in Ids(rest);
    CountAbsent(Ids(rest), snap.id);
    assert ids[1..] == Ids(rest);
  }

  /** Reading a saved snapshot back gives it unchanged. */
  lemma SaveNewThenGet(data: map<string, Raw>, snap: Template)
    ensures TemplateIn(SavedNew(data, snap), snap.id) == Some(snap)
  {
  }

  /** Saving under one id leaves every other snapshot where it was. */
  lemma SaveNewKeepsOthers(data: map<string, Raw>, snap: Template, other: string)
    requires other != snap.id
    ensures TemplateIn(SavedNew(data, snap), other) == TemplateIn(data, other)
  {
    ItemKeyDistinct(other, snap.id);
    ItemKeyDistinct(other, other);
  }

  /** Updating the metadata rewrites the list entry by entry and leaves every snapshot alone. */
  lemma UpdateMetaKeepsSnapshots(data: map<string, Raw>, id: string, updater: Template -> Template, other: string)
    ensures ListIn(MetaUpdated(data, id, updater)) == UpdateWhere(ListIn(data), id, updater)
    ensures TemplateIn(MetaUpdated(data, id, updater), other) == TemplateIn(data, other)
  {
    ItemKeyDistinct(other, other);
  }

  /** Renaming a missing template changes nothing; otherwise the snapshot and every list entry for it get the new name and stamp. */
  lemma RenameAgrees(data: map<string, Raw>, id: string, newName: string, now: string)
    ensures TemplateIn(data, id).None? ==> RenamedIn(data, id, newName, now) == data
    ensures TemplateIn(data, id).Some? ==>
              TemplateIn(RenamedIn(data, id, newName, now), id) == Some(TemplateIn(data, id).value.(name := newName, updatedAt := now))
    ensures TemplateIn(data, id).Some? ==>
              var after := ListIn(RenamedIn(data, id, newName, now));
              |after| == |ListIn(data)| &&
              forall i :: 0 <= i < |after| ==>
                after[i] == if ListIn(data)[i].id == id then ListIn(data)[i].(name := newName, updatedAt := now) else ListIn(data)[i]
  {
    ItemKeyDistinct(id, id);
  }

  /** After deleting, no list entry and no snapshot is left for the id. */
  lemma DeleteRemovesAll(data: map<string, Raw>, id: string)
    ensures id !in Ids(ListIn(DeletedIn(data, id)))
    ensures TemplateIn(DeletedIn(data, id), id).None?
    ensures forall m :: m in ListIn(DeletedIn(data, id)) <==> m in ListIn(data) && m.id != id
  {
    ItemKeyDistinct(id, id);
  }
}
