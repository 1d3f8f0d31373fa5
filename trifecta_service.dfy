/** The in-memory store of trifecta sections: a module-level list of records
    keyed by an integer `Id`, read with find/findIndex and changed in place
    by update, create and delete. Record values other than `Id` are of an
    arbitrary type `V`. */
module TrifectaService {

  datatype Option<T> = None | Some(value: T)

  datatype StoreError = SectionNotFound

  datatype Result<T> = Ok(value: T) | Err(error: StoreError)

  /** A stored record: its `Id` and every other property by name. The
      `Id` property is always the field `Id`; the model does not use the
      key "Id" in `fields`, and nothing here keeps it out. */
  datatype Section<V> = Section(Id: int, fields: map<string, V>)

  /** The properties a caller passes to create or update: an `Id` only if the
      caller supplies one, and any other properties. */
  datatype Patch<V> = Patch(Id: Option<int>, fields: map<string, V>)

  /** Array.prototype.findIndex on `Id`: the first index holding `id`. */
  function IndexOf<V>(s: seq<Section<V>>, id: int): (r: Option<nat>)
    ensures r.Some? ==>
      r.value < |s| && s[r.value].Id == id && forall j :: 0 <= j < r.value ==> s[j].Id != id
    ensures r.None? <==> forall j :: 0 <= j < |s| ==> s[j].Id != id
    decreases |s|
  {
    if s == [] then None
    else if s[0].Id == id then Some(0)
    else match IndexOf(s[1..], id)
      case None => None
      case Some(k) => Some(k + 1)
  }

  /** Object spread `{ ...s, ...u }`: every property of `s`, with those that
      `u` carries overriding. */
  function Merge<V>(s: Section<V>, u: Patch<V>): (r: Section<V>)
    ensures r.Id == if u.Id.Some? then u.Id.value else s.Id
    ensures r.fields.Keys == s.fields.Keys + u.fields.Keys
    ensures forall k :: k in u.fields ==> r.fields[k] == u.fields[k]
    ensures forall k :: k in s.fields && k !in u.fields ==> r.fields[k] == s.fields[k]
  {
    Section(match u.Id case Some(n) => n case None => s.Id, s.fields + u.fields)
  }

  /** `Math.max(...ids, 0)`: the largest `Id`, or 0 if none is larger. */
  function MaxId<V>(s: seq<Section<V>>): (m: int)
    ensures m >= 0
    ensures forall k :: 0 <= k < |s| ==> s[k].Id <= m
    ensures m == 0 || exists k :: 0 <= k < |s| && s[k].Id == m
    decreases |s|
  {
    if s == [] then 0
    else
      var rest := MaxId(s[1..]);
      if s[0].Id > rest then s[0].Id else rest
  }

  /** The record create appends: `{ Id: maxId + 1, ...sectionData }`. */
  function NewSection<V>(s: seq<Section<V>>, data: Patch<V>): (r: Section<V>)
    ensures data.Id.None? ==> forall k :: 0 <= k < |s| ==> s[k].Id < r.Id
    ensures data.Id.None? ==> r.Id == MaxId(s) + 1 && r.Id >= 1
    ensures data.Id.Some? ==> r.Id == data.Id.value
    ensures r.fields == data.fields
  {
    Merge(Section(MaxId(s) + 1, map[]), data)
  }

  predicate DistinctIds<V>(s: seq<Section<V>>)
  {
    forall i, j :: 0 <= i < j < |s| ==> s[i].Id != s[j].Id
  }

  // ---------------------------------------------------------------------
  // The store

  class SectionStore<V> {
    var sections: seq<Section<V>>

    /** The store as loaded from the mock data. */
    constructor (initial: seq<Section<V>>)
      ensures sections == initial
    {
      sections := initial;
    }

    /** findIndex over the stored sections. */
    method FindIndex(id: int) returns (r: Option<nat>)
      ensures r == IndexOf(sections, id)
    {
      var i := 0;
      while i < |sections|
        invariant 0 <= i <= |sections|
        invariant forall j :: 0 <= j < i ==> sections[j].Id != id
      {
        if sections[i].Id == id {
          return Some(i);
        }
        i := i + 1;
      }
      return None;
    }

    /** getTrifectaSections: a copy of the whole list. */
    method GetSections() returns (r: seq<Section<V>>)
      ensures r == sections
    {
      r := sections;
    }

    /** getTrifectaSectionById: the first record with the id, or "Section
        not found". */
    method GetSectionById(id: int) returns (r: Result<Section<V>>)
      ensures r.Err? <==> forall j :: 0 <= j < |sections| ==> sections[j].Id != id
      ensures r.Ok? ==> r.value.Id == id && r.value == sections[IndexOf(sections, id).value]
    {
      var index := FindIndex(id);
      match index
      case None => r := Err(SectionNotFound);
      case Some(i) => r := Ok(sections[i]);
    }

    /** updateTrifectaSection: replaces the first record with the id by that
        record with `updates` spread over it. */
    method UpdateSection(id: int, updates: Patch<V>) returns (r: Result<Section<V>>)
      modifies this
      ensures IndexOf(old(sections), id).None? ==> r == Err(SectionNotFound) && sections == old(sections)
      ensures IndexOf(old(sections), id).Some? ==>
        var i := IndexOf(old(sections), id).value;
        r == Ok(Merge(old(sections)[i], updates)) && sections == old(sections)[i := r.value]
    {
      var index := FindIndex(id);
      match index
      case None =>
        r := Err(SectionNotFound);
      case Some(i) =>
        var updatedSection := Merge(sections[i], updates);
        sections := sections[i := updatedSection];
        r := Ok(updatedSection);
    }

    /** createTrifectaSection: appends a record whose `Id` is one more than
        the largest `Id`, unless `sectionData` brings its own. */
    method CreateSection(sectionData: Patch<V>) returns (r: Section<V>)
      modifies this
      ensures r == NewSection(old(sections), sectionData)
      ensures sections == old(sections) + [r]
    {
      var maxId := MaxId(sections);
      var newSection := Merge(Section(maxId + 1, map[]), sectionData);
      sections := sections + [newSection];
      r := newSection;
    }

    /** deleteTrifectaSection: removes the first record with the id and
        returns it. */
    method DeleteSection(id: int) returns (r: Result<Section<V>>)
      modifies this
      ensures IndexOf(old(sections), id).None? ==> r == Err(SectionNotFound) && sections == old(sections)
      ensures IndexOf(old(sections), id).Some? ==>
        var i := IndexOf(old(sections), id).value;
        r == Ok(old(sections)[i]) && sections == old(sections)[..i] + old(sections)[i + 1..]
    {
      var index := FindIndex(id);
      match index
      case None =>
        r := Err(SectionNotFound);
      case Some(i) =>
        var deletedSection := sections[i];
        sections := sections[..i] + sections[i + 1..];
        r := Ok(deletedSection);
    }
  }

  // ---------------------------------------------------------------------
  // What the operations keep and how they fit together

  /** An update that brings no `Id` keeps the `Id`s distinct. */
  lemma UpdateKeepsIdsDistinct<V>(s: seq<Section<V>>, i: nat, updates: Patch<V>)
    requires DistinctIds(s) && i < |s| && updates.Id.None?
    ensures DistinctIds(s[i := Merge(s[i], updates)])
    ensures |s[i := Merge(s[i], updates)]| == |s|
  {
  }

  /** A create whose data brings no `Id` keeps the `Id`s distinct. */
  lemma CreateKeepsIdsDistinct<V>(s: seq<Section<V>>, data: Patch<V>)
    requires DistinctIds(s) && data.Id.None?
    ensures DistinctIds(s + [NewSection(s, data)])
  {
  }

  /** Deleting keeps the `Id`s distinct, the other records in their order. */
  lemma DeleteKeepsIdsDistinct<V>(s: seq<Section<V>>, i: nat)
    requires DistinctIds(s) && i < |s|
    ensures DistinctIds(s[..i] + s[i + 1..])
    ensures |s[..i] + s[i + 1..]| == |s| - 1
  {
  }

  /** A section created without its own `Id` is found under the new `Id`,
      at the end of the list. */
  lemma FindAfterCreate<V>(s: seq<Section<V>>, data: Patch<V>)
    requires data.Id.None?
    ensures IndexOf(s + [NewSection(s, data)], NewSection(s, data).Id) == Some(|s|)
  {
    var created := NewSection(s, data);
    var t := s + [created];
    assert t[|s|].Id == created.Id;
    forall j | 0 <= j < |s| ensures t[j].Id != created.Id {
      assert t[j] == s[j];
    }
  }

  /** Once deleted, an `Id` that was unique is not found any more. */
  lemma FindAfterDelete<V>(s: seq<Section<V>>, i: nat)
    requires DistinctIds(s) && i < |s|
    ensures IndexOf(s[..i] + s[i + 1..], s[i].Id).None?
  {
  }

  /** An update that brings no `Id` leaves the record where it was found. */
  lemma FindAfterUpdate<V>(s: seq<Section<V>>, id: int, updates: Patch<V>)
    requires IndexOf(s, id).Some? && updates.Id.None?
    ensures var i := IndexOf(s, id).value;
      IndexOf(s[i := Merge(s[i], updates)], id) == Some(i)
  {
    var i := IndexOf(s, id).value;
    var t := s[i := Merge(s[i], updates)];
    assert t[i].Id == id;
    assert forall j :: 0 <= j < i ==> t[j] == s[j];
  }
}
