/** The rendering of evidence for the answering prompt and the model-name
    split (`src/shared/utils.py`). */
module SharedUtils {
  import opened Common
  import opened Text

  /** The metadata keys rendered as their own elements, in this order. */
  const StructuralKeys: seq<string> :=
    ["lov_id", "lov_navn", "lov_tittel", "kapittel_nr", "kapittel_tittel", "paragraf_nr", "paragraf_tittel"]

  /** How a metadata entry is rendered: as its own element, or generically. */
  datatype Tag = Structural | Generic

  /** The rendered line of one entry: `<key>value</key>` for a structural
      entry, `<meta key="key">value</meta>` otherwise. */
  function Line(tag: Tag, e: (string, Value)): string
  {
    match tag
    case Structural => "<" + e.0 + ">" + Show(e.1) + "</" + e.0 + ">\n"
    case Generic => "<meta key=\"" + e.0 + "\">" + Show(e.1) + "</meta>\n"
  }

  /** The rendered lines of a list of entries, in order. */
  function Lines(tag: Tag, es: seq<(string, Value)>): (r: seq<string>)
    ensures |r| == |es| && forall i :: 0 <= i < |es| ==> r[i] == Line(tag, es[i])
  {
    seq(|es|, i requires 0 <= i < |es| => Line(tag, es[i]))
  }

  /** The element a key contributes: its entry when it is present with a
      truthy value. */
  function StructEntry(m: Metadata, key: string): (r: seq<(string, Value)>)
    ensures |r| <= 1
  {
    if HasKey(m, key) && Truthy(GetValue(m, key)) then [(key, GetValue(m, key))] else []
  }

  /** The entries under `keys` that are present with a truthy value, in
      the order of `keys`. */
  function StructEntries(m: Metadata, keys: seq<string>): (r: seq<(string, Value)>)
    ensures |r| <= |keys|
  {
    if |keys| == 0 then []
    else StructEntries(m, keys[..|keys| - 1]) + StructEntry(m, keys[|keys| - 1])
  }

  /** The generic element an entry contributes: the entry itself when its
      key is not structural and its value is not `None`. */
  function OtherEntry(e: (string, Value)): (r: seq<(string, Value)>)
    ensures |r| <= 1
  {
    if e.0 !in StructuralKeys && e.1 != VNone then [e] else []
  }

  /** The entries of `m`, in insertion order, that are not structural and
      whose value is not `None`. */
  function OtherEntries(m: Metadata): (r: seq<(string, Value)>)
    ensures |r| <= |m|
  {
    if |m| == 0 then [] else OtherEntries(m[..|m| - 1]) + OtherEntry(m[|m| - 1])
  }

  lemma LinesAppend(tag: Tag, a: seq<(string, Value)>, b: seq<(string, Value)>)
    ensures Lines(tag, a + b) == Lines(tag, a) + Lines(tag, b)
  {
    var l, r := Lines(tag, a + b), Lines(tag, a) + Lines(tag, b);
    forall i | 0 <= i < |a + b| ensures l[i] == r[i] {
      if i < |a| {
        assert (a + b)[i] == a[i];
      } else {
        assert (a + b)[i] == b[i - |a|];
      }
    }
  }

  /** The document template around the content and the two metadata parts. */
  function Wrap(content: string, structural: string, generic: string): string
  {
    "<document>\n<content>\n" + content + "\n</content>\n<metadata>\n"
      + structural + "\n" + generic + "\n</metadata>\n</document>"
  }

  /** What `_format_doc` renders for a document. */
  function DocXml(doc: Document): string
  {
    Wrap(doc.pageContent,
         Concat(Lines(Structural, StructEntries(doc.metadata, StructuralKeys))),
         Concat(Lines(Generic, OtherEntries(doc.metadata))))
  }

  /** The first loop of `_format_doc`: one element per structural key that
      is present with a truthy value, in the fixed key order. */
  method RenderStructural(metadata: Metadata) returns (structural: string)
    ensures structural == Concat(Lines(Structural, StructEntries(metadata, StructuralKeys)))
  {
    structural := RenderKeys(metadata, StructuralKeys);
  }

  /** The loop over a key list: an element for each key that is present
      with a truthy value. */
  method RenderKeys(metadata: Metadata, keys: seq<string>) returns (structural: string)
    ensures structural == Concat(Lines(Structural, StructEntries(metadata, keys)))
  {
    structural := "";
    var i := 0;
    while i < |keys|
      invariant 0 <= i <= |keys|
      invariant structural == Concat(Lines(Structural, StructEntries(metadata, keys[..i])))
    {
      var key := keys[i];
      var before := StructEntries(metadata, keys[..i]);
      assert keys[..i + 1][..i] == keys[..i];
      assert StructEntries(metadata, keys[..i + 1]) == before + StructEntry(metadata, key);
      LinesAppend(Structural, before, StructEntry(metadata, key));
      if HasKey(metadata, key) && Truthy(GetValue(metadata, key)) {
        var e := (key, GetValue(metadata, key));
        assert Lines(Structural, StructEntry(metadata, key)) == [Line(Structural, e)];
        ConcatSnoc(Lines(Structural, before), Line(Structural, e));
        structural := structural + Line(Structural, e);
      } else {
        assert Lines(Structural, before) + Lines(Structural, []) == Lines(Structural, before);
      }
      i := i + 1;
    }
    assert keys[..i] == keys;
  }

  /** The second loop of `_format_doc`: a generic element for every other
      entry whose value is not `None`, in insertion order. */
  method RenderGeneric(metadata: Metadata) returns (generic: string)
    ensures generic == Concat(Lines(Generic, OtherEntries(metadata)))
  {
    generic := "";
    var j := 0;
    while j < |metadata|
      invariant 0 <= j <= |metadata|
      invariant generic == Concat(Lines(Generic, OtherEntries(metadata[..j])))
    {
      var e := metadata[j];
      var before := OtherEntries(metadata[..j]);
      assert metadata[..j + 1][..j] == metadata[..j];
      assert OtherEntries(metadata[..j + 1]) == before + OtherEntry(e);
      LinesAppend(Generic, before, OtherEntry(e));
      if e.0 !in StructuralKeys && e.1 != VNone {
        assert Lines(Generic, OtherEntry(e)) == [Line(Generic, e)];
        ConcatSnoc(Lines(Generic, before), Line(Generic, e));
        generic := generic + Line(Generic, e);
      } else {
        assert Lines(Generic, before) + Lines(Generic, []) == Lines(Generic, before);
      }
      j := j + 1;
    }
    assert metadata[..j] == metadata;
  }

  /** `_format_doc`: the content, then the structural elements, then the
      generic ones, in the document template. */
  method FormatDoc(doc: Document) returns (s: string)
    ensures s == DocXml(doc)
  {
    var structural := RenderStructural(doc.metadata);
    var generic := RenderGeneric(doc.metadata);
    s := Wrap(doc.pageContent, structural, generic);
  }

  /** A structural entry is rendered exactly when its key is one of `keys`
      and is present with a truthy value. */
  lemma {:induction false} StructEntriesMembers(m: Metadata, keys: seq<string>, e: (string, Value))
    ensures e in StructEntries(m, keys) <==> e.0 in keys && Get(m, e.0) == Some(e.1) && Truthy(e.1)
  {
    if |keys| > 0 {
      var init := keys[..|keys| - 1];
      StructEntriesMembers(m, init, e);
      assert keys == init + [keys[|keys| - 1]];
    }
  }

  /** The structural entries follow the order of the key list. */
  lemma {:induction false} StructEntriesAppend(m: Metadata, a: seq<string>, b: seq<string>)
    ensures StructEntries(m, a + b) == StructEntries(m, a) + StructEntries(m, b)
    decreases |b|
  {
    if |b| == 0 {
      assert a + b == a;
    } else {
      var binit, last := b[..|b| - 1], b[|b| - 1];
      assert (a + b)[..|a + b| - 1] == a + binit;
      assert (a + b)[|a + b| - 1] == last;
      StructEntriesAppend(m, a, binit);
      var x, y, z := StructEntries(m, a), StructEntries(m, binit), StructEntry(m, last);
      assert StructEntries(m, a + b) == (x + y) + z;
      assert StructEntries(m, b) == y + z;
      assert (x + y) + z == x + (y + z);
    }
  }

  /** A generic entry is rendered exactly when it is a non-structural pair
      of the metadata whose value is not `None`; no structural key is ever
      rendered generically. */
  lemma {:induction false} OtherEntriesMembers(m: Metadata, e: (string, Value))
    ensures e in OtherEntries(m) <==> e in m && e.0 !in StructuralKeys && e.1 != VNone
  {
    if |m| > 0 {
      var init := m[..|m| - 1];
      OtherEntriesMembers(init, e);
      assert m == init + [m[|m| - 1]];
    }
  }

  /** The generic entries keep the insertion order of the metadata. */
  lemma {:induction false} OtherEntriesAppend(a: Metadata, b: Metadata)
    ensures OtherEntries(a + b) == OtherEntries(a) + OtherEntries(b)
    decreases |b|
  {
    if |b| == 0 {
      assert a + b == a;
    } else {
      var binit, last := b[..|b| - 1], b[|b| - 1];
      assert (a + b)[..|a + b| - 1] == a + binit;
      assert (a + b)[|a + b| - 1] == last;
      OtherEntriesAppend(a, binit);
      var x, y, z := OtherEntries(a), OtherEntries(binit), OtherEntry(last);
      assert OtherEntries(a + b) == (x + y) + z;
      assert OtherEntries(b) == y + z;
      assert (x + y) + z == x + (y + z);
    }
  }

  /** Documents without metadata render with both metadata parts empty. */
  lemma EmptyMetadata(content: string)
    ensures DocXml(Document(content, [])) == Wrap(content, "", "")
  {
    NoStructEntries(StructuralKeys);
    assert Lines(Structural, []) == [];
    assert Lines(Generic, OtherEntries([])) == [];
  }

  /** An empty mapping has no structural entries, whatever the keys. */
  lemma {:induction false} NoStructEntries(keys: seq<string>)
    ensures StructEntries([], keys) == []
  {
    if |keys| > 0 {
      NoStructEntries(keys[..|keys| - 1]);
      assert !HasKey([], keys[|keys| - 1]);
    }
  }

  function Blocks(docs: seq<Document>): (r: seq<string>)
    ensures |r| == |docs| && forall i :: 0 <= i < |docs| ==> r[i] == DocXml(docs[i])
  {
    seq(|docs|, i requires 0 <= i < |docs| => DocXml(docs[i]))
  }

  /** `format_docs`: no documents (`None` or `[]`) give the empty element;
      otherwise one block per document, in order, joined by newlines. */
  function FormatDocs(docs: Option<seq<Document>>): (r: string)
    ensures docs.None? || |docs.value| == 0 ==> r == "<documents></documents>"
  {
    if docs.None? || |docs.value| == 0 then "<documents></documents>"
    else "<documents>\n" + Join("\n", Blocks(docs.value)) + "\n</documents>"
  }

  lemma BlocksAppend(a: seq<Document>, b: seq<Document>)
    ensures Blocks(a + b) == Blocks(a) + Blocks(b)
  {
    var l, r := Blocks(a + b), Blocks(a) + Blocks(b);
    forall i | 0 <= i < |a + b| ensures l[i] == r[i] {
      if i < |a| {
        assert (a + b)[i] == a[i];
      } else {
        assert (a + b)[i] == b[i - |a|];
      }
    }
  }

  /** Rendering two non-empty lists one after the other puts the second's
      blocks after the first's, separated by a newline. */
  lemma FormatDocsAppend(a: seq<Document>, b: seq<Document>)
    requires |a| > 0 && |b| > 0
    ensures FormatDocs(Some(a + b)) ==
              "<documents>\n" + (Join("\n", Blocks(a)) + "\n" + Join("\n", Blocks(b))) + "\n</documents>"
  {
    BlocksAppend(a, b);
    JoinAppend("\n", Blocks(a), Blocks(b));
  }

  /** One document renders as its block inside the list element. */
  lemma FormatOneDoc(d: Document)
    ensures FormatDocs(Some([d])) == "<documents>\n" + DocXml(d) + "\n</documents>"
  {
  }

  /** The position of the first `c` in `s`, when there is one. */
  function FirstIndex(s: string, c: char): (r: Option<nat>)
    ensures r.None? <==> c !in s
    ensures r.Some? ==> r.value < |s| && s[r.value] == c && c !in s[..r.value]
  {
    if |s| == 0 then None
    else if s[0] == c then Some(0)
    else match FirstIndex(s[1..], c)
      case None => None
      case Some(i) =>
        assert s[..i + 1] == [s[0]] + s[1..][..i];
        Some(i + 1)
  }

  /** `load_chat_model`'s split of `provider/model` at the first `/`. */
  function SplitModelName(name: string): (r: (string, string))
    ensures '/' !in name ==> r == ("", name)
    ensures '/' in name ==> r.0 + "/" + r.1 == name && '/' !in r.0
  {
    match FirstIndex(name, '/')
    case None => ("", name)
    case Some(i) =>
      assert name[..i] + "/" + name[i + 1..] == name;
      (name[..i], name[i + 1..])
  }

  /** The split is determined: any provider without `/` that prefixes the
      name before a `/` is the one found. */
  lemma SplitModelNameUnique(provider: string, model: string)
    requires '/' !in provider
    ensures SplitModelName(provider + "/" + model) == (provider, model)
  {
    var name := provider + "/" + model;
    assert name[|provider|] == '/';
    var r := SplitModelName(name);
    var i := FirstIndex(name, '/').value;
    assert name[..i] == provider;
    assert name[i + 1..] == model;
  }
}
