/** The evidence reducer of `src/shared/state.py`: `reduce_docs` merges a
    candidate list (strings, loosely typed dicts or Documents) into the
    existing evidence, skipping candidates whose identity is already known.

    `_generate_uuid` (an md5 digest printed as a UUID) is the parameter `H`:
    any function from strings to 36-character strings. */
module SharedState {
  import opened Common
  import opened Text

  /** The text of a UUID, `str(uuid.UUID(...))`: always 36 characters. */
  type UuidText = s: string | |s| == 36 witness "00000000-0000-0000-0000-000000000000"

  /** One candidate of a list passed to `reduce_docs`. A dict candidate is
      modelled by its `page_content` and its `metadata` (absent = empty). */
  datatype Item =
    | StrItem(text: string)
    | DictItem(pageContent: string, metadata: Metadata)
    | DocItem(doc: Document)

  /** The `new` argument: a single string (of which `"delete"` is the
      sentinel) or a list of candidates. */
  datatype NewDocs = Single(s: string) | Items(items: seq<Item>)

  /** `list(existing) if existing else []`. */
  function ExistingList(existing: Option<seq<Document>>): seq<Document>
  {
    if existing.Some? then existing.value else []
  }

  /** The parts of a Document's composite identity: each of the fields id,
      paragraf_nr, kapittel_nr and chunk_id that is truthy, in that order,
      then `h:` and 8 characters of the hash of the first 50 characters. */
  function FingerprintParts(H: string -> UuidText, d: Document): (r: seq<string>)
    ensures 1 <= |r| <= 5
    ensures r[|r| - 1] == "h:" + H(PyPrefix(d.pageContent, 50))[..8]
    ensures forall i :: 0 <= i < |r| ==> |r[i]| >= 2
  {
    var md := d.metadata;
    Part(md, "id", "id:") + Part(md, "paragraf_nr", "p:") + Part(md, "kapittel_nr", "k:") + Part(md, "chunk_id", "c:")
    + ["h:" + H(PyPrefix(d.pageContent, 50))[..8]]
  }

  /** The part a field contributes: `tag` and the field's text when the
      field is truthy, nothing otherwise. */
  function Part(md: Metadata, key: string, tag: string): (r: seq<string>)
    requires |tag| >= 2
    ensures |r| <= 1 && forall i :: 0 <= i < |r| ==> |r[i]| >= 2
  {
    if Truthy(GetValue(md, key)) then [tag + Show(GetValue(md, key))] else []
  }

  /** The identity under which a Document candidate is deduplicated. */
  function Fingerprint(H: string -> UuidText, d: Document): Value
  {
    VStr(H(Join("_", FingerprintParts(H, d))))
  }

  /** Two Documents that agree on the four identifier fields and on their
      first 50 characters share a fingerprint. */
  lemma FingerprintDeterministic(H: string -> UuidText, d1: Document, d2: Document)
    requires GetValue(d1.metadata, "id") == GetValue(d2.metadata, "id")
    requires GetValue(d1.metadata, "paragraf_nr") == GetValue(d2.metadata, "paragraf_nr")
    requires GetValue(d1.metadata, "kapittel_nr") == GetValue(d2.metadata, "kapittel_nr")
    requires GetValue(d1.metadata, "chunk_id") == GetValue(d2.metadata, "chunk_id")
    requires PyPrefix(d1.pageContent, 50) == PyPrefix(d2.pageContent, 50)
    ensures Fingerprint(H, d1) == Fingerprint(H, d2)
  {
    var m1, m2 := d1.metadata, d2.metadata;
    assert Part(m1, "id", "id:") == Part(m2, "id", "id:");
    assert Part(m1, "paragraf_nr", "p:") == Part(m2, "paragraf_nr", "p:");
    assert Part(m1, "kapittel_nr", "k:") == Part(m2, "kapittel_nr", "k:");
    assert Part(m1, "chunk_id", "c:") == Part(m2, "chunk_id", "c:");
    assert FingerprintParts(H, d1) == FingerprintParts(H, d2);
  }

  /** The id a candidate is registered under; it is never falsy, so the
      branch of the source that rewrites an empty Document id never runs. */
  function ItemId(H: string -> UuidText, item: Item): (r: Value)
    ensures Truthy(r)
  {
    match item
    case StrItem(s) => VStr(H(s))
    case DictItem(c, md) =>
      if Truthy(GetValue(md, "uuid")) then GetValue(md, "uuid") else VStr(H(c))
    case DocItem(d) => Fingerprint(H, d)
  }

  /** The Document that an accepted candidate contributes. */
  function Emit(H: string -> UuidText, item: Item): (r: Document)
    ensures item.DocItem? ==> r == item.doc
    ensures item.StrItem? ==> r == Document(item.text, [("uuid", ItemId(H, item))])
    ensures item.DictItem? ==>
              r.pageContent == item.pageContent
              && GetValue(r.metadata, "uuid") == ItemId(H, item)
              && forall k :: k != "uuid" ==> Get(r.metadata, k) == Get(item.metadata, k)
  {
    match item
    case StrItem(s) => Document(s, [("uuid", VStr(H(s)))])
    case DictItem(c, md) =>
      SetKeyOthers(md, "uuid", ItemId(H, item));
      Document(c, SetKey(md, "uuid", ItemId(H, item)))
    case DocItem(d) => d
  }

  function EmitAll(H: string -> UuidText, items: seq<Item>): (r: seq<Document>)
    ensures |r| == |items|
  {
    seq(|items|, i requires 0 <= i < |items| => Emit(H, items[i]))
  }

  function IdsOf(H: string -> UuidText, items: seq<Item>): set<Value>
  {
    set it | it in items :: ItemId(H, it)
  }

  /** A string candidate is always taken; a dict or Document candidate only
      when its id has not been seen. */
  predicate Keeps(H: string -> UuidText, seen: set<Value>, item: Item)
  {
    item.StrItem? || ItemId(H, item) !in seen
  }

  /** The candidates that `reduce_docs` appends, in order: a candidate is
      kept when `Keeps` holds against the seed and the ids of all candidates
      before it (first seen wins). */
  function Admitted(H: string -> UuidText, seen: set<Value>, items: seq<Item>): seq<Item>
  {
    if |items| == 0 then []
    else
      var init := items[..|items| - 1];
      var last := items[|items| - 1];
      Admitted(H, seen, init) + (if Keeps(H, seen + IdsOf(H, init), last) then [last] else [])
  }

  /** The ids the source seeds its `existing_ids` set with. */
  function UuidSeed(docs: seq<Document>): set<Value>
  {
    set d | d in docs :: GetValue(d.metadata, "uuid")
  }

  function FingerprintSeed(H: string -> UuidText, docs: seq<Document>): set<Value>
  {
    set d | d in docs :: Fingerprint(H, d)
  }

  /** `reduce_docs` as written: the seen set holds only the existing docs'
      `metadata["uuid"]`. */
  function ReduceAsWritten(H: string -> UuidText, existing: Option<seq<Document>>, incoming: NewDocs): seq<Document>
  {
    var e := ExistingList(existing);
    match incoming
    case Single(s) => if s == "delete" then [] else e + [Emit(H, StrItem(s))]
    case Items(items) => e + EmitAll(H, Admitted(H, UuidSeed(e), items))
  }

  /** `reduce_docs` with the seen set also holding the existing docs'
      fingerprints, so that a Document already merged is recognised. */
  function Reduce(H: string -> UuidText, existing: Option<seq<Document>>, incoming: NewDocs): seq<Document>
  {
    var e := ExistingList(existing);
    match incoming
    case Single(s) => if s == "delete" then [] else e + [Emit(H, StrItem(s))]
    case Items(items) => e + EmitAll(H, Admitted(H, UuidSeed(e) + FingerprintSeed(H, e), items))
  }

  /** With no existing evidence the two seeds are both empty. */
  lemma AgreeWithoutExisting(H: string -> UuidText, existing: Option<seq<Document>>, incoming: NewDocs)
    requires ExistingList(existing) == []
    ensures Reduce(H, existing, incoming) == ReduceAsWritten(H, existing, incoming)
  {
    var e := ExistingList(existing);
    assert UuidSeed(e) == {};
    assert FingerprintSeed(H, e) == {};
    match incoming {
      case Single(s) =>
      case Items(items) =>
        assert UuidSeed(e) + FingerprintSeed(H, e) == UuidSeed(e);
    }
  }

  /** As written, merging a Document list into the result of merging it
      appends it again: the result holds the Document twice. */
  lemma AsWrittenNotIdempotent(H: string -> UuidText)
    ensures var d := Document("x", []);
            var once := ReduceAsWritten(H, None, Items([DocItem(d)]));
            once == [d] && ReduceAsWritten(H, Some(once), Items([DocItem(d)])) == [d, d]
  {
    var d := Document("x", []);
    var items := [DocItem(d)];
    assert ItemId(H, DocItem(d)).VStr?;
    AdmitsOne(H, {}, DocItem(d));
    assert EmitAll(H, items) == [d];
    assert UuidSeed([]) == {};
    var once := ReduceAsWritten(H, None, Items(items));
    assert once == [] + EmitAll(H, Admitted(H, {}, items));
    assert UuidSeed([d]) == {VNone} by {
      assert GetValue(d.metadata, "uuid") == VNone;
    }
    AdmitsOne(H, {VNone}, DocItem(d));
  }

  /** A lone candidate whose id is unseen is admitted. */
  lemma AdmitsOne(H: string -> UuidText, seen: set<Value>, item: Item)
    requires Keeps(H, seen, item)
    ensures Admitted(H, seen, [item]) == [item]
  {
    var items := [item];
    assert items[..0] == [];
    assert IdsOf(H, []) == {};
    assert seen + {} == seen;
  }

  /** Lines 70-103 of the source: the composite identity of a Document
      candidate and the Document to append (the candidate itself, since the
      branch that rewrites a falsy id cannot run). */
  method DocumentId(H: string -> UuidText, doc: Document) returns (itemId: Value, newItem: Document)
    ensures itemId == ItemId(H, DocItem(doc)) && Truthy(itemId)
    ensures newItem == doc
  {
    var md := doc.metadata;
    var parts: seq<string> := [];
    if Truthy(GetValue(md, "id")) {
      parts := parts + ["id:" + Show(GetValue(md, "id"))];
    }
    assert parts == Part(md, "id", "id:");
    if Truthy(GetValue(md, "paragraf_nr")) {
      parts := parts + ["p:" + Show(GetValue(md, "paragraf_nr"))];
    }
    assert parts == Part(md, "id", "id:") + Part(md, "paragraf_nr", "p:");
    if Truthy(GetValue(md, "kapittel_nr")) {
      parts := parts + ["k:" + Show(GetValue(md, "kapittel_nr"))];
    }
    assert parts == Part(md, "id", "id:") + Part(md, "paragraf_nr", "p:") + Part(md, "kapittel_nr", "k:");
    if Truthy(GetValue(md, "chunk_id")) {
      parts := parts + ["c:" + Show(GetValue(md, "chunk_id"))];
    }
    assert parts == Part(md, "id", "id:") + Part(md, "paragraf_nr", "p:") + Part(md, "kapittel_nr", "k:")
                    + Part(md, "chunk_id", "c:");
    var contentHash := H(PyPrefix(doc.pageContent, 50))[..8];
    parts := parts + ["h:" + contentHash];
    assert parts == FingerprintParts(H, doc);
    var docSpecificId := if |parts| > 0 then Join("_", parts) else PyPrefix(doc.pageContent, 50);
    itemId := if |docSpecificId| > 0 then VStr(H(docSpecificId)) else GetValue(doc.metadata, "uuid");
    newItem := doc;
    if !Truthy(itemId) {
      newItem := Document(doc.pageContent, SetKey(doc.metadata, "uuid", VStr(H(doc.pageContent))));
    }
  }

  /** One turn of the loop over the candidates: the candidate's id joins
      the seen set, and its Document is appended when `Keeps` holds. */
  method MergeOne(H: string -> UuidText, item: Item, existingIds: set<Value>, newList: seq<Document>)
    returns (ids: set<Value>, list: seq<Document>)
    ensures ids == existingIds + {ItemId(H, item)}
    ensures list == newList + (if Keeps(H, existingIds, item) then [Emit(H, item)] else [])
  {
    ids, list := existingIds, newList;
    match item {
      case StrItem(s) =>
        var itemId := VStr(H(s));
        list := list + [Document(s, [("uuid", itemId)])];
        ids := ids + {itemId};
      case DictItem(content, metadata) =>
        var itemId := if Truthy(GetValue(metadata, "uuid")) then GetValue(metadata, "uuid") else VStr(H(content));
        if itemId !in ids {
          list := list + [Document(content, SetKey(metadata, "uuid", itemId))];
          ids := ids + {itemId};
        }
      case DocItem(doc) =>
        var itemId, newItem := DocumentId(H, doc);
        if itemId !in ids {
          list := list + [newItem];
          ids := ids + {itemId};
        }
    }
  }

  lemma AdmittedStep(H: string -> UuidText, seen: set<Value>, items: seq<Item>, i: nat)
    requires i < |items|
    ensures IdsOf(H, items[..i + 1]) == IdsOf(H, items[..i]) + {ItemId(H, items[i])}
    ensures Admitted(H, seen, items[..i + 1]) ==
            Admitted(H, seen, items[..i])
            + (if Keeps(H, seen + IdsOf(H, items[..i]), items[i]) then [items[i]] else [])
  {
    assert items[..i + 1][..i] == items[..i];
    assert items[..i + 1] == items[..i] + [items[i]];
  }

  lemma EmitAllAppend(H: string -> UuidText, a: seq<Item>, b: seq<Item>)
    ensures EmitAll(H, a + b) == EmitAll(H, a) + EmitAll(H, b)
  {
  }

  /** The loop of `reduce_docs` over a candidate list, from a given seed
      of seen ids. */
  method MergeAll(H: string -> UuidText, items: seq<Item>, seed: set<Value>)
    returns (newList: seq<Document>)
    ensures newList == EmitAll(H, Admitted(H, seed, items))
  {
    newList := [];
    var existingIds := seed;
    var i := 0;
    while i < |items|
      invariant 0 <= i <= |items|
      invariant existingIds == seed + IdsOf(H, items[..i])
      invariant newList == EmitAll(H, Admitted(H, seed, items[..i]))
    {
      AdmittedStep(H, seed, items, i);
      EmitAllAppend(H, Admitted(H, seed, items[..i]),
                    if Keeps(H, existingIds, items[i]) then [items[i]] else []);
      existingIds, newList := MergeOne(H, items[i], existingIds, newList);
      i := i + 1;
    }
    assert items[..|items|] == items;
  }

  /** `reduce_docs`, its seen set seeded with the existing docs' uuids and
      fingerprints. */
  method ReduceDocs(H: string -> UuidText, existing: Option<seq<Document>>, incoming: NewDocs)
    returns (r: seq<Document>)
    ensures r == Reduce(H, existing, incoming)
    ensures incoming == Single("delete") ==> r == []
    ensures incoming.Single? && incoming.s != "delete" ==>
              r == ExistingList(existing) + [Document(incoming.s, [("uuid", VStr(H(incoming.s)))])]
  {
    if incoming.Single? && incoming.s == "delete" {
      return [];
    }
    var existingList := if existing.Some? then existing.value else [];
    if incoming.Single? {
      return existingList + [Document(incoming.s, [("uuid", VStr(H(incoming.s)))])];
    }
    var newList := MergeAll(H, incoming.items, UuidSeed(existingList) + FingerprintSeed(H, existingList));
    r := existingList + newList;
  }

  /** `reduce_docs` exactly as written: the seen set holds only the
      existing docs' `metadata["uuid"]`. */
  method ReduceDocsAsWritten(H: string -> UuidText, existing: Option<seq<Document>>, incoming: NewDocs)
    returns (r: seq<Document>)
    ensures r == ReduceAsWritten(H, existing, incoming)
    ensures incoming == Single("delete") ==> r == []
    ensures incoming.Items? ==> |ExistingList(existing)| <= |r| <= |ExistingList(existing)| + |incoming.items|
    ensures incoming.Items? ==> r[..|ExistingList(existing)|] == ExistingList(existing)
  {
    if incoming.Single? && incoming.s == "delete" {
      return [];
    }
    var existingList := if existing.Some? then existing.value else [];
    if incoming.Single? {
      return existingList + [Document(incoming.s, [("uuid", VStr(H(incoming.s)))])];
    }
    var newList := MergeAll(H, incoming.items, UuidSeed(existingList));
    AdmittedLength(H, UuidSeed(existingList), incoming.items);
    r := existingList + newList;
  }

  // ---------------------------------------------------------------------
  // Properties of the merge

  lemma {:induction false} AdmittedLength(H: string -> UuidText, seen: set<Value>, items: seq<Item>)
    ensures |Admitted(H, seen, items)| <= |items|
    ensures forall it :: it in Admitted(H, seen, items) ==> it in items
  {
    if |items| > 0 {
      var init := items[..|items| - 1];
      AdmittedLength(H, seen, init);
      forall it | it in Admitted(H, seen, items) ensures it in items {
        if it in Admitted(H, seen, init) {
          assert it in init;
        }
      }
    }
  }

  /** The positions of the candidates that `Admitted` keeps. */
  function KeptIndices(H: string -> UuidText, seen: set<Value>, items: seq<Item>): seq<nat>
  {
    if |items| == 0 then []
    else
      var init := items[..|items| - 1];
      KeptIndices(H, seen, init)
      + (if Keeps(H, seen + IdsOf(H, init), items[|items| - 1]) then [|items| - 1] else [])
  }

  /** The kept candidates are a subsequence of the candidates: each is the
      candidate at its kept position, and the positions increase. */
  lemma {:induction false} AdmittedInOrder(H: string -> UuidText, seen: set<Value>, items: seq<Item>)
    ensures var a := Admitted(H, seen, items);
            var idx := KeptIndices(H, seen, items);
            && |idx| == |a|
            && (forall i :: 0 <= i < |idx| ==> idx[i] < |items| && a[i] == items[idx[i]])
            && (forall i, j :: 0 <= i < j < |idx| ==> idx[i] < idx[j])
  {
    if |items| > 0 {
      var init := items[..|items| - 1];
      AdmittedInOrder(H, seen, init);
      var idx0 := KeptIndices(H, seen, init);
      forall i | 0 <= i < |idx0| ensures items[idx0[i]] == init[idx0[i]] {
      }
    }
  }

  /** For a list, the existing evidence (or `[]`) is an unchanged prefix of
      the result, and at most one Document per candidate follows it. */
  lemma ReducePrefix(H: string -> UuidText, existing: Option<seq<Document>>, items: seq<Item>)
    ensures var r := Reduce(H, existing, Items(items));
            var e := ExistingList(existing);
            |e| <= |r| <= |e| + |items| && r[..|e|] == e
  {
    var e := ExistingList(existing);
    AdmittedLength(H, UuidSeed(e) + FingerprintSeed(H, e), items);
  }

  /** The keyed candidates (dicts and Documents) that are kept have ids
      outside the seed and pairwise different. */
  lemma {:induction false} AdmittedKeyedUnique(H: string -> UuidText, seen: set<Value>, items: seq<Item>)
    ensures var a := Admitted(H, seen, items);
            forall i :: 0 <= i < |a| && !a[i].StrItem? ==> ItemId(H, a[i]) !in seen
    ensures var a := Admitted(H, seen, items);
            forall i, j :: 0 <= i < j < |a| && !a[i].StrItem? && !a[j].StrItem? ==>
              ItemId(H, a[i]) != ItemId(H, a[j])
  {
    if |items| > 0 {
      var init := items[..|items| - 1];
      var last := items[|items| - 1];
      var a0 := Admitted(H, seen, init);
      AdmittedKeyedUnique(H, seen, init);
      AdmittedLength(H, seen, init);
      var a := Admitted(H, seen, items);
      if Keeps(H, seen + IdsOf(H, init), last) {
        assert a == a0 + [last];
        forall i | 0 <= i < |a0| ensures ItemId(H, a[i]) in IdsOf(H, init) {
          assert a[i] in init;
        }
      } else {
        assert a == a0;
      }
    }
  }

  /** The text of the string candidates, in order. */
  function StringTexts(items: seq<Item>): seq<string>
  {
    if |items| == 0 then []
    else StringTexts(items[..|items| - 1])
         + (if items[|items| - 1].StrItem? then [items[|items| - 1].text] else [])
  }

  /** Every string candidate is appended, duplicates included, in order. */
  lemma {:induction false} AdmittedKeepsStrings(H: string -> UuidText, seen: set<Value>, items: seq<Item>)
    ensures StringTexts(Admitted(H, seen, items)) == StringTexts(items)
  {
    if |items| > 0 {
      var init := items[..|items| - 1];
      var last := items[|items| - 1];
      AdmittedKeepsStrings(H, seen, init);
      var a0 := Admitted(H, seen, init);
      var tail := if Keeps(H, seen + IdsOf(H, init), last) then [last] else [];
      assert Admitted(H, seen, items) == a0 + tail;
      assert StringTexts(items) == StringTexts(init) + (if last.StrItem? then [last.text] else []);
      if tail == [] {
        assert !last.StrItem?;
        assert a0 + tail == a0;
      } else {
        assert (a0 + tail)[..|a0|] == a0;
      }
    }
  }

  /** Every id a list of Documents can be recognised by in a later call. */
  function Seed(H: string -> UuidText, docs: seq<Document>): set<Value>
  {
    UuidSeed(docs) + FingerprintSeed(H, docs)
  }

  lemma SeedAppend(H: string -> UuidText, a: seq<Document>, b: seq<Document>)
    ensures Seed(H, a + b) == Seed(H, a) + Seed(H, b)
  {
    assert UuidSeed(a + b) == UuidSeed(a) + UuidSeed(b);
    assert FingerprintSeed(H, a + b) == FingerprintSeed(H, a) + FingerprintSeed(H, b);
  }

  /** An emitted Document carries its candidate's id into the seed of any
      later call. */
  lemma EmitRecordsId(H: string -> UuidText, item: Item)
    ensures ItemId(H, item) in Seed(H, [Emit(H, item)])
  {
    var d := Emit(H, item);
    if item.DocItem? {
      assert Fingerprint(H, d) in FingerprintSeed(H, [d]);
    } else {
      assert GetValue(d.metadata, "uuid") in UuidSeed([d]);
    }
  }

  lemma {:induction false} EmittedIdsRecorded(H: string -> UuidText, seen: set<Value>, items: seq<Item>)
    ensures IdsOf(H, items) <= seen + Seed(H, EmitAll(H, Admitted(H, seen, items)))
  {
    if |items| > 0 {
      var n := |items| - 1;
      var init := items[..n];
      var last := items[n];
      assert items[..n + 1] == items;
      AdmittedStep(H, seen, items, n);
      EmittedIdsRecorded(H, seen, init);
      var a0 := Admitted(H, seen, init);
      var tail := if Keeps(H, seen + IdsOf(H, init), last) then [last] else [];
      EmitAllAppend(H, a0, tail);
      SeedAppend(H, EmitAll(H, a0), EmitAll(H, tail));
      if tail != [] {
        assert EmitAll(H, tail) == [Emit(H, last)];
        EmitRecordsId(H, last);
      }
    }
  }

  lemma {:induction false} NothingAdmitted(H: string -> UuidText, seen: set<Value>, items: seq<Item>)
    requires forall it :: it in items ==> !it.StrItem?
    requires IdsOf(H, items) <= seen
    ensures Admitted(H, seen, items) == []
  {
    if |items| > 0 {
      var init := items[..|items| - 1];
      var last := items[|items| - 1];
      assert IdsOf(H, init) <= IdsOf(H, items);
      NothingAdmitted(H, seen, init);
      assert ItemId(H, last) in IdsOf(H, items);
    }
  }

  /** Merging the same dict/Document list a second time appends nothing.
      (String candidates are appended on every call, by design.) */
  lemma ReduceIdempotent(H: string -> UuidText, existing: Option<seq<Document>>, items: seq<Item>)
    requires forall it :: it in items ==> !it.StrItem?
    ensures var once := Reduce(H, existing, Items(items));
            Reduce(H, Some(once), Items(items)) == once
  {
    var e := ExistingList(existing);
    var seen := Seed(H, e);
    var added := EmitAll(H, Admitted(H, seen, items));
    var once := Reduce(H, existing, Items(items));
    assert once == e + added;
    EmittedIdsRecorded(H, seen, items);
    SeedAppend(H, e, added);
    NothingAdmitted(H, Seed(H, once), items);
    assert EmitAll(H, []) == [];
    assert once + [] == once;
  }
}
