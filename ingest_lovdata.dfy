/** Ingestion of statute texts (`scripts/ingest_lovdata.py`): the greedy
    line packer used as a fallback, the split at paragraph (`§`) headings
    with the chapter lookup, the per-chunk metadata, and the post-processing
    of the statute id and dates. The regular-expression matches are inputs:
    each is given by its start and end position and its groups. */
module IngestLovdata {
  import opened Common
  import opened Text

  /** The chunk size the packer aims at, in characters without newlines. */
  const Target := 1000

  // ---------------------------------------------------------------------
  // Standard chunking

  /** The total length of a group of lines (newlines not counted). */
  function Size(g: seq<string>): nat
  {
    if |g| == 0 then 0 else Size(g[..|g| - 1]) + |g[|g| - 1]|
  }

  /** The lines of a list of groups, in order. */
  function Flatten(gs: seq<seq<string>>): seq<string>
  {
    if |gs| == 0 then [] else Flatten(gs[..|gs| - 1]) + gs[|gs| - 1]
  }

  /** The packer's state: the finished chunks, the chunk being filled and
      its size. */
  datatype Packing = Packing(closed: seq<seq<string>>, current: seq<string>, size: nat)

  /** One iteration of the packer: a line that would take a non-empty
      chunk over the target closes it and starts the next one. */
  function Step(p: Packing, line: string): Packing
  {
    if p.size + |line| > Target && |p.current| > 0 then Packing(p.closed + [p.current], [line], |line|)
    else Packing(p.closed, p.current + [line], p.size + |line|)
  }

  function Pack(lines: seq<string>): Packing
  {
    if |lines| == 0 then Packing([], [], 0) else Step(Pack(lines[..|lines| - 1]), lines[|lines| - 1])
  }

  /** The groups of lines `standard_chunking` makes. */
  function Chunks(lines: seq<string>): seq<seq<string>>
  {
    var p := Pack(lines);
    p.closed + (if |p.current| > 0 then [p.current] else [])
  }

  /** A chunk holds at least one line, and more than one only within the
      target. */
  predicate GroupOk(g: seq<string>)
  {
    |g| > 0 && (|g| == 1 || Size(g) <= Target)
  }

  /** Chunk `a` could not have taken the first line of the chunk `b` that
      follows it. */
  predicate Full(a: seq<string>, b: seq<string>)
  {
    |b| > 0 && Size(a) + |b[0]| > Target
  }

  /** No chunk could have taken the first line of the next one. */
  predicate Greedy(gs: seq<seq<string>>)
  {
    forall i, j :: 0 <= i < |gs| && 0 <= j < |gs| && j == i + 1 ==> Full(gs[i], gs[j])
  }

  predicate PackInv(p: Packing, lines: seq<string>)
  {
    && Flatten(p.closed) + p.current == lines
    && p.size == Size(p.current)
    && (|lines| > 0 <==> |p.current| > 0)
    && (forall i :: 0 <= i < |p.closed| ==> GroupOk(p.closed[i]))
    && (|p.current| > 0 ==> GroupOk(p.current) && Greedy(p.closed + [p.current]))
    && (|p.current| == 0 ==> p.closed == [])
  }

  lemma SizeSnoc(g: seq<string>, line: string)
    ensures Size(g + [line]) == Size(g) + |line|
  {
    assert (g + [line])[..|g|] == g;
  }

  lemma FlattenSnoc(gs: seq<seq<string>>, g: seq<string>)
    ensures Flatten(gs + [g]) == Flatten(gs) + g
  {
    assert (gs + [g])[..|gs|] == gs;
  }

  /** A closing step: the full chunk is finished and the line starts the
      next. */
  lemma CloseKeepsInv(p: Packing, lines: seq<string>, line: string)
    requires PackInv(p, lines)
    requires p.size + |line| > Target && |p.current| > 0
    ensures PackInv(Packing(p.closed + [p.current], [line], |line|), lines + [line])
  {
    FlattenSnoc(p.closed, p.current);
    assert Size([line]) == |line| by { SizeSnoc([], line); }
    var before := p.closed + [p.current];
    assert Full(before[|before| - 1], [line]);
    GreedySnoc(before, [line]);
    assert forall i :: 0 <= i < |before| ==> GroupOk(before[i]);
  }

  /** A chunk that the last one could not have taken keeps the chunks
      greedy. */
  lemma GreedySnoc(gs: seq<seq<string>>, g: seq<string>)
    requires Greedy(gs) && |gs| > 0 && Full(gs[|gs| - 1], g)
    ensures Greedy(gs + [g])
  {
    var r := gs + [g];
    forall i, j | 0 <= i < |r| && 0 <= j < |r| && j == i + 1 ensures Full(r[i], r[j]) {
      if j < |gs| {
        assert r[i] == gs[i] && r[j] == gs[j];
      }
    }
  }

  /** An extending step: the line joins the current chunk. */
  lemma ExtendKeepsInv(p: Packing, lines: seq<string>, line: string)
    requires PackInv(p, lines)
    requires !(p.size + |line| > Target && |p.current| > 0)
    ensures PackInv(Packing(p.closed, p.current + [line], p.size + |line|), lines + [line])
  {
    SizeSnoc(p.current, line);
    var cur := p.current + [line];
    if |p.current| > 0 {
      var before := p.closed + [p.current];
      var gs := p.closed + [cur];
      forall i, j | 0 <= i < |gs| && 0 <= j < |gs| && j == i + 1 ensures Full(gs[i], gs[j]) {
        assert gs[i] == before[i];
        if j < |p.closed| {
          assert gs[j] == before[j];
        } else {
          assert gs[j][0] == before[j][0];
        }
      }
    } else {
      assert cur == [line];
      assert Size([line]) == |line| by { SizeSnoc([], line); }
    }
  }

  lemma StepKeepsInv(p: Packing, lines: seq<string>, line: string)
    requires PackInv(p, lines)
    ensures PackInv(Step(p, line), lines + [line])
  {
    if p.size + |line| > Target && |p.current| > 0 {
      CloseKeepsInv(p, lines, line);
    } else {
      ExtendKeepsInv(p, lines, line);
    }
  }

  lemma {:induction false} PackKeepsInv(lines: seq<string>)
    ensures PackInv(Pack(lines), lines)
  {
    if |lines| > 0 {
      var init := lines[..|lines| - 1];
      PackKeepsInv(init);
      StepKeepsInv(Pack(init), init, lines[|lines| - 1]);
      assert init + [lines[|lines| - 1]] == lines;
    }
  }

  /** The chunks hold the lines in order, there is at least one for at least
      one line, each is one line or within the target, and none could have
      taken the next chunk's first line. */
  lemma ChunksProperties(lines: seq<string>)
    ensures Flatten(Chunks(lines)) == lines
    ensures |lines| > 0 ==> |Chunks(lines)| > 0
    ensures forall i :: 0 <= i < |Chunks(lines)| ==> GroupOk(Chunks(lines)[i])
    ensures Greedy(Chunks(lines))
  {
    var p := Pack(lines);
    PackKeepsInv(lines);
    if |p.current| > 0 {
      FlattenSnoc(p.closed, p.current);
    }
  }

  /** The text of each chunk. */
  function Texts(gs: seq<seq<string>>): (r: seq<string>)
    ensures |r| == |gs| && forall i :: 0 <= i < |gs| ==> r[i] == Join("\n", gs[i])
  {
    seq(|gs|, i requires 0 <= i < |gs| => Join("\n", gs[i]))
  }

  lemma {:induction false} JoinTexts(gs: seq<seq<string>>)
    requires |gs| > 0 && forall i :: 0 <= i < |gs| ==> |gs[i]| > 0
    ensures Join("\n", Texts(gs)) == Join("\n", Flatten(gs))
  {
    var init := gs[..|gs| - 1];
    var last := gs[|gs| - 1];
    assert Texts(gs) == Texts(init) + [Join("\n", last)];
    if |init| == 0 {
      assert Flatten(gs) == last;
    } else {
      JoinTexts(init);
      JoinAppend("\n", Texts(init), [Join("\n", last)]);
      assert |Flatten(init)| > 0 by {
        FlattenSnoc(init[..|init| - 1], init[|init| - 1]);
      }
      JoinAppend("\n", Flatten(init), last);
    }
  }

  /** The chunk texts `standard_chunking` makes of a text. */
  function ChunkTexts(text: string): seq<string>
  {
    Texts(Chunks(Split(text, '\n')))
  }

  /** Joining the chunks with newlines gives the text back, and there is
      always at least one chunk. */
  lemma ChunkTextsRoundTrip(text: string)
    ensures |ChunkTexts(text)| > 0
    ensures Join("\n", ChunkTexts(text)) == text
  {
    var lines := Split(text, '\n');
    ChunksProperties(lines);
    JoinTexts(Chunks(lines));
    JoinSplit(text, '\n');
  }

  /** The packing loop of `standard_chunking`. */
  method PackLines(lines: seq<string>) returns (chunks: seq<seq<string>>)
    ensures chunks == Chunks(lines)
  {
    chunks := [];
    var currentChunk: seq<string> := [];
    var currentSize: nat := 0;
    var i := 0;
    while i < |lines|
      invariant 0 <= i <= |lines|
      invariant Pack(lines[..i]) == Packing(chunks, currentChunk, currentSize)
    {
      var line := lines[i];
      assert lines[..i + 1][..i] == lines[..i];
      if currentSize + |line| > Target && |currentChunk| > 0 {
        chunks := chunks + [currentChunk];
        currentChunk := [line];
        currentSize := |line|;
      } else {
        currentChunk := currentChunk + [line];
        currentSize := currentSize + |line|;
      }
      i := i + 1;
    }
    assert lines[..i] == lines;
    if |currentChunk| > 0 {
      chunks := chunks + [currentChunk];
    }
  }

  // ---------------------------------------------------------------------
  // Chunk metadata

  /** `f(0), ..., f(n - 1)`, built one element at a time as the loops of
      the chunkers append. */
  function Built<T>(f: nat -> T, n: nat): (r: seq<T>)
    ensures |r| == n
  {
    if n == 0 then [] else Built(f, n - 1) + [f(n - 1)]
  }

  /** Element `j` of the list built is `f(j)`. */
  lemma {:induction false} BuiltAt<T>(f: nat -> T, n: nat, j: nat)
    requires j < n
    ensures Built(f, n)[j] == f(j)
  {
    if j < n - 1 {
      BuiltAt(f, n - 1, j);
    }
  }

  /** `metadata.get('lov_id', 'ukjent')` as an f-string renders it. */
  function LovIdText(metadata: Metadata): string
  {
    match Get(metadata, "lov_id")
    case Some(v) => Show(v)
    case None => "ukjent"
  }

  /** A chunk's metadata: a copy of the statute's without `source_text`
      (deleting a missing key raises `KeyError`), updated with `entries`. */
  function ChunkMetadata(metadata: Metadata, entries: Metadata): (r: Result<Metadata>)
    ensures r.Err? <==> !HasKey(metadata, "source_text")
  {
    if !HasKey(metadata, "source_text") then Err("KeyError")
    else Ok(Update(RemoveKey(metadata, "source_text"), entries))
  }

  /** The entries `standard_chunking` adds to chunk `i`. */
  function StandardEntries(metadata: Metadata, i: nat): Metadata
  {
    [("chunk_id", VInt(i)),
     ("id", VStr(LovIdText(metadata) + "-chunk-" + NatToString(i))),
     ("chunk_type", VStr("tekst")),
     ("chunk_index", VInt(i))]
  }

  /** Chunk `i` of `standard_chunking`, with text `chunkText`. */
  function StandardDoc(chunkText: string, metadata: Metadata, i: nat): Document
    requires HasKey(metadata, "source_text")
  {
    Document(chunkText, ChunkMetadata(metadata, StandardEntries(metadata, i)).value)
  }

  /** One document per chunk text, in order; the first chunk raises
      `KeyError` when the statute's metadata has no source text. */
  function ChunkDocs(texts: seq<string>, metadata: Metadata): Result<seq<Document>>
  {
    if |texts| == 0 then Ok([])
    else if !HasKey(metadata, "source_text") then Err("KeyError")
    else Ok(Built(StandardDocAt(texts, metadata), |texts|))
  }

  /** Chunk `i`'s document, for any index (those past the last chunk never
      occur). */
  function StandardDocAt(texts: seq<string>, metadata: Metadata): nat -> Document
  {
    (i: nat) => if i < |texts| && HasKey(metadata, "source_text")
                then StandardDoc(texts[i], metadata, i)
                else Document("", [])
  }

  /** The documents `standard_chunking` returns. */
  function StandardDocs(text: string, metadata: Metadata): Result<seq<Document>>
  {
    ChunkDocs(ChunkTexts(text), metadata)
  }

  /** A chunk's metadata is the statute's with the chunk's own entries set,
      and without `source_text`; all other keys are untouched. */
  lemma ChunkMetadataGet(metadata: Metadata, entries: Metadata, k: string)
    requires HasKey(metadata, "source_text") && UniqueKeys(metadata) && UniqueKeys(entries)
    requires !HasKey(entries, "source_text")
    ensures var r := ChunkMetadata(metadata, entries).value;
            Get(r, k) == if HasKey(entries, k) then Get(entries, k)
                         else if k == "source_text" then None
                         else Get(metadata, k)
  {
    var removed := RemoveKey(metadata, "source_text");
    UpdateGet(removed, entries, k);
    RemoveKeyGet(metadata, "source_text", k);
  }

  /** The entries of chunk `i` are distinct, hold no source text and
      carry the index, the id and the type. */
  lemma StandardEntriesGet(metadata: Metadata, i: nat)
    ensures var e := StandardEntries(metadata, i);
            && UniqueKeys(e) && !HasKey(e, "source_text")
            && Get(e, "chunk_id") == Some(VInt(i))
            && Get(e, "chunk_index") == Some(VInt(i))
            && Get(e, "id") == Some(VStr(LovIdText(metadata) + "-chunk-" + NatToString(i)))
            && Get(e, "chunk_type") == Some(VStr("tekst"))
  {
    var e := StandardEntries(metadata, i);
    assert FirstAt(e, 1, "id");
    GetAt(e, 1, "id");
    assert FirstAt(e, 2, "chunk_type");
    GetAt(e, 2, "chunk_type");
    assert FirstAt(e, 3, "chunk_index");
    GetAt(e, 3, "chunk_index");
  }

  /** `standard_chunking`: chunk `i` holds the `i`-th chunk text and
      records `i` as its index and id, `<lov_id>-chunk-<i>` as its id and
      `tekst` as its type, and no source text. */
  lemma StandardDocsMetadata(text: string, metadata: Metadata, i: nat)
    requires HasKey(metadata, "source_text") && UniqueKeys(metadata)
    ensures StandardDocs(text, metadata).Ok?
    ensures var docs := StandardDocs(text, metadata).value;
            i < |docs| ==>
              && docs[i].pageContent == ChunkTexts(text)[i]
              && Get(docs[i].metadata, "chunk_id") == Some(VInt(i))
              && Get(docs[i].metadata, "chunk_index") == Some(VInt(i))
              && Get(docs[i].metadata, "id") == Some(VStr(LovIdText(metadata) + "-chunk-" + NatToString(i)))
              && Get(docs[i].metadata, "chunk_type") == Some(VStr("tekst"))
              && !HasKey(docs[i].metadata, "source_text")
  {
    var texts := ChunkTexts(text);
    ChunkTextsRoundTrip(text);
    var docs := StandardDocs(text, metadata).value;
    if i < |docs| {
      var e := StandardEntries(metadata, i);
      StandardEntriesGet(metadata, i);
      BuiltAt(StandardDocAt(texts, metadata), |texts|, i);
      assert docs[i].metadata == ChunkMetadata(metadata, e).value;
      ChunkMetadataGet(metadata, e, "chunk_id");
      ChunkMetadataGet(metadata, e, "chunk_index");
      ChunkMetadataGet(metadata, e, "id");
      ChunkMetadataGet(metadata, e, "chunk_type");
      ChunkMetadataGet(metadata, e, "source_text");
    }
  }

  /** The body of `standard_chunking`'s loop for chunk `i`. */
  method StandardDocument(chunk: seq<string>, metadata: Metadata, i: nat) returns (r: Result<Document>)
    ensures r.Err? <==> !HasKey(metadata, "source_text")
    ensures r.Err? ==> r.error == "KeyError"
    ensures r.Ok? ==> r.value == StandardDoc(Join("\n", chunk), metadata, i)
  {
    var chunkMetadata := ChunkMetadata(metadata, StandardEntries(metadata, i));
    if chunkMetadata.Err? {
      return Err(chunkMetadata.error);
    }
    return Ok(Document(Join("\n", chunk), chunkMetadata.value));
  }

  /** The loop of `standard_chunking` over the packed chunks. */
  method DocumentsOfChunks(chunks: seq<seq<string>>, metadata: Metadata) returns (r: Result<seq<Document>>)
    ensures r == ChunkDocs(Texts(chunks), metadata)
  {
    var texts := Texts(chunks);
    var documents: seq<Document> := [];
    var i := 0;
    while i < |chunks|
      invariant 0 <= i <= |chunks|
      invariant i > 0 ==> HasKey(metadata, "source_text")
      invariant documents == Built(StandardDocAt(texts, metadata), i)
    {
      var doc := StandardDocument(chunks[i], metadata, i);
      if doc.Err? {
        return Err(doc.error);
      }
      documents := documents + [doc.value];
      i := i + 1;
    }
    return Ok(documents);
  }

  /** `standard_chunking`: packs the lines, then makes one document per
      chunk. */
  method StandardChunking(text: string, metadata: Metadata) returns (r: Result<seq<Document>>)
    ensures r == StandardDocs(text, metadata)
  {
    var lines := Split(text, '\n');
    var chunks := PackLines(lines);
    r := DocumentsOfChunks(chunks, metadata);
  }

  // ---------------------------------------------------------------------
  // Chunking at paragraph headings

  /** A regular-expression match: where it starts and ends in the text,
      and its two groups (a number and a title). */
  datatype Match = Match(start: nat, end: nat, number: string, title: string)

  /** The test `finn_kapittel` applies to chapter `i`: it starts before the
      position, and it is the last chapter or the next one starts after it. */
  predicate Encloses(kapitler: seq<Match>, i: nat, pos: nat)
    requires i < |kapitler|
  {
    kapitler[i].start < pos && (i + 1 == |kapitler| || kapitler[i + 1].start > pos)
  }

  /** The first chapter from `i` on that passes the test. */
  function ChapterFrom(kapitler: seq<Match>, pos: nat, i: nat): (r: Option<Match>)
    requires i <= |kapitler|
    ensures r.Some? ==> r.value in kapitler && r.value.start < pos
    decreases |kapitler| - i
  {
    if i == |kapitler| then None
    else if Encloses(kapitler, i, pos) then Some(kapitler[i])
    else ChapterFrom(kapitler, pos, i + 1)
  }

  /** `finn_kapittel`: the chapter a paragraph starting at `pos` belongs to. */
  method FinnKapittel(kapitler: seq<Match>, pos: nat) returns (r: Option<Match>)
    ensures r == ChapterFrom(kapitler, pos, 0)
  {
    var i := 0;
    while i < |kapitler|
      invariant 0 <= i <= |kapitler|
      invariant ChapterFrom(kapitler, pos, i) == ChapterFrom(kapitler, pos, 0)
    {
      if kapitler[i].start < pos {
        if i + 1 < |kapitler| && kapitler[i + 1].start > pos {
          return Some(kapitler[i]);
        } else if i + 1 == |kapitler| {
          return Some(kapitler[i]);
        }
      }
      i := i + 1;
    }
    return None;
  }

  predicate StrictlySorted(ms: seq<Match>)
  {
    forall i, j :: 0 <= i < j < |ms| ==> ms[i].start < ms[j].start
  }

  /** With chapters in text order and none starting exactly at `pos` (the
      two patterns cannot match at the same place), the chapter found is the
      last one starting before `pos`, and there is none only when no chapter
      starts before it. */
  lemma {:induction false} ChapterIsLastBefore(kapitler: seq<Match>, pos: nat, i: nat)
    requires StrictlySorted(kapitler)
    requires forall j :: 0 <= j < |kapitler| ==> kapitler[j].start != pos
    requires i == 0 || (i < |kapitler| && kapitler[i].start < pos)
    ensures var r := ChapterFrom(kapitler, pos, i);
            && (r.None? <==> i == 0 && forall j :: 0 <= j < |kapitler| ==> kapitler[j].start > pos)
            && (r.Some? ==> forall j :: 0 <= j < |kapitler| && kapitler[j].start < pos ==>
                              kapitler[j].start <= r.value.start)
    decreases |kapitler| - i
  {
    if i == |kapitler| {
    } else if Encloses(kapitler, i, pos) {
      assert forall j :: 0 <= j < |kapitler| && kapitler[j].start < pos ==>
               kapitler[j].start <= kapitler[i].start;
    } else if kapitler[i].start < pos {
      ChapterIsLastBefore(kapitler, pos, i + 1);
    } else {
      forall j | 0 <= j < |kapitler| ensures kapitler[j].start > pos {
        if j > 0 {
          assert kapitler[0].start < kapitler[j].start;
        }
      }
      assert ChapterFrom(kapitler, pos, i) == None by {
        NoneWhenAllAfter(kapitler, pos, i);
      }
    }
  }

  lemma {:induction false} NoneWhenAllAfter(kapitler: seq<Match>, pos: nat, i: nat)
    requires i <= |kapitler|
    requires forall j :: i <= j < |kapitler| ==> kapitler[j].start > pos
    ensures ChapterFrom(kapitler, pos, i) == None
    decreases |kapitler| - i
  {
    if i < |kapitler| {
      NoneWhenAllAfter(kapitler, pos, i + 1);
    }
  }

  /** The text of paragraph `i`: from the end of its heading to the start
      of the next heading (or the end of the text), stripped. */
  function Body(text: string, paragrafer: seq<Match>, i: nat): string
    requires i < |paragrafer|
  {
    var endPos := if i + 1 < |paragrafer| then paragrafer[i + 1].start else |text|;
    Strip(PySlice(text, paragrafer[i].end, endPos), Whitespace)
  }

  /** The chapter number of a lookup result (`""` when there is none). */
  function ChapterNumber(kapittel: Option<Match>): string
  {
    if kapittel.Some? then kapittel.value.number else ""
  }

  /** The keys of the entries `chunke_basert_pa_paragrafer` adds to a
      paragraph's metadata. */
  const ParagraphKeys: seq<string> :=
    ["kapittel_nr", "kapittel_tittel", "paragraf_nr", "paragraf_tittel", "chunk_type",
     "chunk_index", "chunk_id", "id", "parent_id"]

  /** The entries `chunke_basert_pa_paragrafer` adds to paragraph `i`'s
      metadata. */
  function ParagraphEntries(metadata: Metadata, kapittel: Option<Match>, p: Match, i: nat): Metadata
  {
    Pairs(ParagraphKeys, ParagraphValues(metadata, kapittel, p, i))
  }

  /** The values of those entries, in the order of the keys. */
  function ParagraphValues(metadata: Metadata, kapittel: Option<Match>, p: Match, i: nat): (r: seq<Value>)
    ensures |r| == |ParagraphKeys|
  {
    var kapittelNr := ChapterNumber(kapittel);
    var kapittelTittel := if kapittel.Some? then Strip(kapittel.value.title, Whitespace) else "";
    [VStr(kapittelNr),
     VStr(kapittelTittel),
     VStr(p.number),
     VStr(Strip(p.title, Whitespace)),
     VStr("paragraf"),
     VInt(i),
     VInt(i),
     VStr(LovIdText(metadata) + "-paragraf-" + p.number),
     if |kapittelNr| > 0 then VStr("kapittel-" + kapittelNr) else VNone]
  }

  /** Paragraph `i`'s text with its heading in front. */
  function ParagraphContent(text: string, paragrafer: seq<Match>, i: nat): string
    requires i < |paragrafer|
  {
    "§ " + paragrafer[i].number + ". " + Strip(paragrafer[i].title, Whitespace) + "\n\n" + Body(text, paragrafer, i)
  }

  function ParagraphDoc(text: string, metadata: Metadata, kapitler: seq<Match>, paragrafer: seq<Match>, i: nat): Document
    requires i < |paragrafer| && HasKey(metadata, "source_text")
  {
    Document(ParagraphContent(text, paragrafer, i), ParagraphMetadata(metadata, kapitler, paragrafer, i))
  }

  /** Paragraph `i`'s metadata, with the chapter it falls in. */
  function ParagraphMetadata(metadata: Metadata, kapitler: seq<Match>, paragrafer: seq<Match>, i: nat): Metadata
    requires i < |paragrafer| && HasKey(metadata, "source_text")
  {
    var kapittel := ChapterFrom(kapitler, paragrafer[i].start, 0);
    ChunkMetadata(metadata, ParagraphEntries(metadata, kapittel, paragrafer[i], i)).value
  }

  /** Paragraph `i`'s document, for any index (those past the last heading
      never occur). */
  function ParagraphDocAt(text: string, metadata: Metadata, kapitler: seq<Match>, paragrafer: seq<Match>): nat -> Document
  {
    (i: nat) => if i < |paragrafer| && HasKey(metadata, "source_text")
         then ParagraphDoc(text, metadata, kapitler, paragrafer, i)
         else Document("", [])
  }

  /** One document per paragraph heading, in order; the first raises
      `KeyError` when the statute's metadata has no source text. */
  function HeadingDocs(text: string, metadata: Metadata, kapitler: seq<Match>, paragrafer: seq<Match>)
    : Result<seq<Document>>
  {
    if |paragrafer| == 0 then Ok([])
    else if !HasKey(metadata, "source_text") then Err("KeyError")
    else Ok(Built(ParagraphDocAt(text, metadata, kapitler, paragrafer), |paragrafer|))
  }

  /** What `chunke_basert_pa_paragrafer` returns for the chapter and
      paragraph matches found in `text`. */
  function ParagraphDocs(text: string, metadata: Metadata, kapitler: seq<Match>, paragrafer: seq<Match>): Result<seq<Document>>
  {
    if |paragrafer| == 0 then StandardDocs(text, metadata)
    else HeadingDocs(text, metadata, kapitler, paragrafer)
  }

  /** The body of `chunke_basert_pa_paragrafer`'s loop for paragraph `i`. */
  method ParagraphDocument(text: string, metadata: Metadata, kapitler: seq<Match>, paragrafer: seq<Match>, i: nat)
    returns (r: Result<Document>)
    requires i < |paragrafer|
    ensures r.Err? <==> !HasKey(metadata, "source_text")
    ensures r.Err? ==> r.error == "KeyError"
    ensures r.Ok? ==> r.value == ParagraphDoc(text, metadata, kapitler, paragrafer, i)
  {
    var paragraf := paragrafer[i];
    var paragrafTittel := Strip(paragraf.title, Whitespace);
    var endPos := |text|;
    if i + 1 < |paragrafer| {
      endPos := paragrafer[i + 1].start;
    }
    var paragrafTekst := Strip(PySlice(text, paragraf.end, endPos), Whitespace);
    var kapittel := FinnKapittel(kapitler, paragraf.start);
    var chunkMetadata := ChunkMetadata(metadata, ParagraphEntries(metadata, kapittel, paragraf, i));
    if chunkMetadata.Err? {
      return Err(chunkMetadata.error);
    }
    var fullTekst := "§ " + paragraf.number + ". " + paragrafTittel + "\n\n" + paragrafTekst;
    return Ok(Document(fullTekst, chunkMetadata.value));
  }

  /** The loop of `chunke_basert_pa_paragrafer` over the headings. */
  method DocumentsOfHeadings(text: string, metadata: Metadata, kapitler: seq<Match>, paragrafer: seq<Match>)
    returns (r: Result<seq<Document>>)
    ensures r == HeadingDocs(text, metadata, kapitler, paragrafer)
  {
    var documents: seq<Document> := [];
    var i := 0;
    while i < |paragrafer|
      invariant 0 <= i <= |paragrafer|
      invariant i > 0 ==> HasKey(metadata, "source_text")
      invariant documents == Built(ParagraphDocAt(text, metadata, kapitler, paragrafer), i)
    {
      var doc := ParagraphDocument(text, metadata, kapitler, paragrafer, i);
      if doc.Err? {
        return Err(doc.error);
      }
      HeadingStep(text, metadata, kapitler, paragrafer, i);
      documents := documents + [doc.value];
      i := i + 1;
    }
    return Ok(documents);
  }

  /** One more heading adds its paragraph's document to the list. */
  lemma HeadingStep(text: string, metadata: Metadata, kapitler: seq<Match>, paragrafer: seq<Match>, i: nat)
    requires i < |paragrafer| && HasKey(metadata, "source_text")
    ensures Built(ParagraphDocAt(text, metadata, kapitler, paragrafer), i + 1)
            == Built(ParagraphDocAt(text, metadata, kapitler, paragrafer), i) + [ParagraphDoc(text, metadata, kapitler, paragrafer, i)]
  {
    var f := ParagraphDocAt(text, metadata, kapitler, paragrafer);
    assert f(i) == ParagraphDoc(text, metadata, kapitler, paragrafer, i);
  }

  /** `chunke_basert_pa_paragrafer`: with no paragraph heading it falls
      back to `standard_chunking`; otherwise one document per heading, in
      order. */
  method ChunkByParagraphs(text: string, metadata: Metadata, kapitler: seq<Match>, paragrafer: seq<Match>)
    returns (r: Result<seq<Document>>)
    ensures r == ParagraphDocs(text, metadata, kapitler, paragrafer)
  {
    if |paragrafer| == 0 {
      r := StandardChunking(text, metadata);
    } else {
      r := DocumentsOfHeadings(text, metadata, kapitler, paragrafer);
    }
  }

  /** With at least one heading there is one document per heading, in
      order, whose text is the heading's number and title, a blank line and
      the stripped text up to the next heading (or the end of the text). */
  lemma HeadingDocsShape(text: string, metadata: Metadata, kapitler: seq<Match>, paragrafer: seq<Match>, i: nat)
    requires |paragrafer| > 0 && HasKey(metadata, "source_text")
    ensures ParagraphDocs(text, metadata, kapitler, paragrafer).Ok?
    ensures var docs := ParagraphDocs(text, metadata, kapitler, paragrafer).value;
            |docs| == |paragrafer|
            && (i < |docs| ==>
                  var endPos := if i + 1 < |paragrafer| then paragrafer[i + 1].start else |text|;
                  docs[i].pageContent ==
                    "§ " + paragrafer[i].number + ". " + Strip(paragrafer[i].title, Whitespace) + "\n\n"
                    + Strip(PySlice(text, paragrafer[i].end, endPos), Whitespace))
  {
    if i < |paragrafer| {
      BuiltAt(ParagraphDocAt(text, metadata, kapitler, paragrafer), |paragrafer|, i);
    }
  }

  /** Entries with the keys of a paragraph's, whatever their values, are
      distinct and hold no source text. */
  lemma ParagraphKeysDistinct(e: Metadata)
    requires Keys(e) == ParagraphKeys
    ensures UniqueKeys(e) && !HasKey(e, "source_text")
    ensures forall i :: 0 <= i < |e| ==> FirstAt(e, i, ParagraphKeys[i])
  {
    assert Distinct(ParagraphKeys);
    KeysHasKey(e, "source_text");
    forall i | 0 <= i < |e| ensures FirstAt(e, i, ParagraphKeys[i]) {
      KeysDistinct(e, i);
    }
  }

  /** Paragraph document `i` records the paragraph's number, its index as
      chunk index and id, `<lov_id>-paragraf-<nr>` as its id, and a parent
      `kapittel-<nr>` exactly when a chapter with a number was found. */
  lemma ParagraphDocMetadata(text: string, metadata: Metadata, kapitler: seq<Match>, paragrafer: seq<Match>, i: nat)
    requires i < |paragrafer| && HasKey(metadata, "source_text") && UniqueKeys(metadata)
    ensures var d := ParagraphDoc(text, metadata, kapitler, paragrafer, i);
            var nr := ChapterNumber(ChapterFrom(kapitler, paragrafer[i].start, 0));
            && Get(d.metadata, "paragraf_nr") == Some(VStr(paragrafer[i].number))
            && Get(d.metadata, "chunk_index") == Some(VInt(i))
            && Get(d.metadata, "id") == Some(VStr(LovIdText(metadata) + "-paragraf-" + paragrafer[i].number))
            && Get(d.metadata, "parent_id") == Some(if |nr| > 0 then VStr("kapittel-" + nr) else VNone)
            && !HasKey(d.metadata, "source_text")
  {
    var kapittel := ChapterFrom(kapitler, paragrafer[i].start, 0);
    var e := ParagraphEntries(metadata, kapittel, paragrafer[i], i);
    var vs := ParagraphValues(metadata, kapittel, paragrafer[i], i);
    PairsKeys(ParagraphKeys, vs);
    PairsAt(ParagraphKeys, vs, 2);
    PairsAt(ParagraphKeys, vs, 5);
    PairsAt(ParagraphKeys, vs, 7);
    PairsAt(ParagraphKeys, vs, 8);
    ParagraphKeysDistinct(e);
    GetAt(e, 2, "paragraf_nr");
    GetAt(e, 5, "chunk_index");
    GetAt(e, 7, "id");
    GetAt(e, 8, "parent_id");
    assert ParagraphDoc(text, metadata, kapitler, paragrafer, i).metadata == ChunkMetadata(metadata, e).value;
    ChunkMetadataGet(metadata, e, "paragraf_nr");
    ChunkMetadataGet(metadata, e, "chunk_index");
    ChunkMetadataGet(metadata, e, "id");
    ChunkMetadataGet(metadata, e, "parent_id");
    ChunkMetadataGet(metadata, e, "source_text");
  }

  // ---------------------------------------------------------------------
  // Statute metadata

  /** The date post-processing inside `try`: a date with `.` that splits
      into three parts becomes `YYYY-MM-DD`; anything else leaves the field
      as it was. */
  function Reformat(dato: string, current: string): string
  {
    if '.' in dato then
      var parts := Split(dato, '.');
      if |parts| == 3 then parts[2] + "-" + parts[1] + "-" + parts[0] else current
    else current
  }

  /** The value of a date field after the two patterns are tried in turn
      (the first that matches ends the search): `numeric` is the match of
      the `DD.MM.YYYY` pattern, `textual` that of the written-out form. */
  function DateField(numeric: Option<string>, textual: Option<string>): string
  {
    if numeric.Some? then Reformat(Strip(numeric.value, Whitespace), "")
    else if textual.Some? then Reformat(Strip(textual.value, Whitespace), "")
    else ""
  }

  /** `DD.MM.YYYY` becomes `YYYY-MM-DD`. */
  lemma ReformatNumeric(dd: string, mm: string, yyyy: string, current: string)
    requires '.' !in dd && '.' !in mm && '.' !in yyyy
    ensures Reformat(dd + "." + mm + "." + yyyy, current) == yyyy + "-" + mm + "-" + dd
  {
    var parts := [dd, mm, yyyy];
    SplitJoin(parts, '.');
    assert Join(".", parts) == dd + "." + mm + "." + yyyy by {
      assert parts[1..][1..] == [yyyy];
      assert Join(".", parts[1..]) == mm + "." + yyyy;
    }
    assert '.' in dd + "." + mm + "." + yyyy by {
      assert (dd + "." + mm + "." + yyyy)[|dd|] == '.';
    }
  }

  /** The date fields: the numeric form wins, the written-out form leaves
      `""`. */
  lemma DateFieldCases(dd: string, mm: string, yyyy: string, textual: Option<string>)
    requires '.' !in dd && '.' !in mm && '.' !in yyyy
    requires forall k :: 0 <= k < |dd + "." + mm + "." + yyyy| ==> (dd + "." + mm + "." + yyyy)[k] !in Whitespace
    ensures DateField(Some(dd + "." + mm + "." + yyyy), textual) == yyyy + "-" + mm + "-" + dd
    ensures textual.Some? && '.' !in Strip(textual.value, Whitespace) ==> DateField(None, textual) == ""
  {
    var dato := dd + "." + mm + "." + yyyy;
    assert |dato| > 0 ==> dato[0] !in Whitespace;
    assert LStrip(dato, Whitespace) == dato;
    assert RStrip(dato, Whitespace) == dato;
    ReformatNumeric(dd, mm, yyyy, "");
  }

  const EnDash := '\U{2013}'

  /** `s.replace(c, '')`. */
  function Remove(s: string, c: char): (r: string)
    ensures c !in r
  {
    if |s| == 0 then ""
    else if s[0] == c then Remove(s[1..], c)
    else [s[0]] + Remove(s[1..], c)
  }

  /** The short name from the `Korttittel` match: stripped, en dashes
      removed, cut at the first en dash and stripped again. */
  function ShortName(group: string): string
  {
    Strip(Split(Remove(Strip(group, Whitespace), EnDash), EnDash)[0], Whitespace)
  }

  /** Once the dashes are gone the cut at the first dash keeps everything,
      so the short name is the stripped name without dashes. */
  lemma ShortNameNoDash(group: string)
    ensures ShortName(group) == Strip(Remove(Strip(group, Whitespace), EnDash), Whitespace)
    ensures EnDash !in ShortName(group)
  {
    var removed := Remove(Strip(group, Whitespace), EnDash);
    SplitFrontPiece(removed, EnDash, "");
    var r := ShortName(group);
    var left := LStrip(removed, Whitespace);
    assert r == RStrip(left, Whitespace);
    forall k | 0 <= k < |r| ensures r[k] != EnDash {
      assert r[k] == left[k];
      assert left[k] == removed[|removed| - |left| + k];
    }
  }

  /** A line the title fallback accepts: it mentions `lov om` in any case
      and is shorter than 150 characters. */
  predicate TitleLine(line: string)
  {
    Contains(Lower(line), "lov om") && |line| < 150
  }

  /** The first ten lines of the text, where the title fallback looks. */
  function HeadLines(text: string): seq<string>
  {
    PyPrefix(Split(text, '\n'), 10)
  }

  /** The stripped first accepted line, if any. */
  function FirstTitleLine(lines: seq<string>): (r: Option<string>)
    ensures r.None? <==> forall i :: 0 <= i < |lines| ==> !TitleLine(lines[i])
  {
    if |lines| == 0 then None
    else if TitleLine(lines[0]) then Some(Strip(lines[0], Whitespace))
    else
      var r := FirstTitleLine(lines[1..]);
      assert forall i :: 1 <= i < |lines| ==> lines[i] == lines[1..][i - 1];
      r
  }

  /** The fallback takes the first accepted line, and only that one. */
  lemma {:induction false} FirstTitleLineAt(lines: seq<string>, i: nat)
    requires i < |lines| && TitleLine(lines[i])
    requires forall j :: 0 <= j < i ==> !TitleLine(lines[j])
    ensures FirstTitleLine(lines) == Some(Strip(lines[i], Whitespace))
  {
    if i > 0 {
      assert lines[1..][i - 1] == lines[i];
      FirstTitleLineAt(lines[1..], i - 1);
    }
  }

  /** The fallback's loop over the first ten lines. */
  method FindTitleLine(text: string) returns (r: Option<string>)
    ensures r == FirstTitleLine(HeadLines(text))
  {
    var lines := HeadLines(text);
    r := None;
    var i := 0;
    while i < |lines|
      invariant 0 <= i <= |lines|
      invariant FirstTitleLine(lines) == FirstTitleLine(lines[i..])
    {
      assert lines[i..][1..] == lines[i + 1..];
      if Contains(Lower(lines[i]), "lov om") && |lines[i]| < 150 {
        return Some(Strip(lines[i], Whitespace));
      }
      i := i + 1;
    }
  }

  /** The title: `Lov om` and the group of the first title pattern that
      matched, else the fallback line, else the default. */
  function TitleField(titleGroup: Option<string>, text: string): (r: string)
    ensures titleGroup.Some? ==> r != "Ukjent lovdokument"
  {
    if titleGroup.Some? then
      var r := "Lov om " + Strip(titleGroup.value, Whitespace);
      assert r[0] == 'L';
      r
    else match FirstTitleLine(HeadLines(text))
      case Some(line) => line
      case None => "Ukjent lovdokument"
  }

  /** The language decided from the lowered text: `nob` when it mentions
      `bokmål` or `lov om`, else `nno` when it mentions `nynorsk` or
      `lov om rett til`, else the default `nob`. */
  function Language(text: string): string
  {
    var lowered := Lower(text);
    if Contains(lowered, "bokmål") || Contains(lowered, "lov om") then "nob"
    else if Contains(lowered, "nynorsk") || Contains(lowered, "lov om rett til") then "nno"
    else "nob"
  }

  /** `lov om rett til` holds `lov om`, so it never decides the language:
      a text is `nno` exactly when it mentions `nynorsk` and neither
      `bokmål` nor `lov om`. */
  lemma LanguageNynorsk(text: string)
    ensures Language(text) == "nno" <==>
              var lowered := Lower(text);
              Contains(lowered, "nynorsk") && !Contains(lowered, "bokmål") && !Contains(lowered, "lov om")
  {
    var lowered := Lower(text);
    if Contains(lowered, "lov om rett til") {
      assert OccursAt("lov om rett til", "lov om", 0);
      ContainsWithin(lowered, "lov om rett til", "lov om", 0);
    }
  }

  /** What the regular-expression searches of `parse_lov_metadata` found:
      the digits of `LOV-...`, the group after `Korttittel`, the group of
      the first title pattern that matched, and for each date the match of
      the `DD.MM.YYYY` pattern and of the written-out one. */
  datatype Searches = Searches(lovId: Option<string>, shortName: Option<string>, title: Option<string>,
                               ikraftNumeric: Option<string>, ikraftTextual: Option<string>,
                               endretNumeric: Option<string>, endretTextual: Option<string>)

  function LovIdField(lovId: Option<string>): string
  {
    if lovId.Some? then "lov-" + Lower(lovId.value) else "ukjent"
  }

  function ShortNameField(shortName: Option<string>): string
  {
    if shortName.Some? then ShortName(shortName.value) else "ukjent"
  }

  /** The dictionary `parse_lov_metadata` starts from. */
  function DefaultMetadata(text: string): Metadata
  {
    [("lov_id", VStr("ukjent")),
     ("lov_navn", VStr("ukjent")),
     ("lov_tittel", VStr("Ukjent lovdokument")),
     ("ikrafttredelse", VStr("")),
     ("sist_endret", VStr("")),
     ("språk", VStr("nob")),
     ("status", VStr("gjeldende")),
     ("source_text", VStr(text))]
  }

  /** The defaults with the id, short name and title the searches settled
      on put in place. */
  function NameFields(text: string, found: Searches): Metadata
  {
    DefaultMetadata(text)
      [0 := ("lov_id", VStr(LovIdField(found.lovId)))]
      [1 := ("lov_navn", VStr(ShortNameField(found.shortName)))]
      [2 := ("lov_tittel", VStr(TitleField(found.title, text)))]
  }

  /** The defaults with the id, short name, title, dates and language the
      searches settled on put in place. */
  function Fields(text: string, found: Searches): Metadata
  {
    DetailFields(NameFields(text, found), text, found)
  }

  /** `m` with the dates and the language the searches settled on put in
      place. */
  function DetailFields(m: Metadata, text: string, found: Searches): Metadata
    requires |m| == |FieldKeys|
  {
    m[3 := ("ikrafttredelse", VStr(DateField(found.ikraftNumeric, found.ikraftTextual)))]
     [4 := ("sist_endret", VStr(DateField(found.endretNumeric, found.endretTextual)))]
     [5 := ("språk", VStr(Language(text)))]
  }

  /** The dictionary `parse_lov_metadata` returns: the fields and the fresh
      uuid last. */
  function LovMetadata(text: string, found: Searches, uuid: string): Metadata
  {
    Fields(text, found) + [("uuid", VStr(uuid))]
  }

  /** The returned dictionary has the default keys in their order and the
      uuid last, each once; the statute id, the entry-into-force date and
      the language are what the searches settled on, and the full text is
      kept under `source_text`. */
  lemma LovMetadataShape(text: string, found: Searches, uuid: string)
    ensures var m := LovMetadata(text, found, uuid);
            && Keys(m) == FieldKeys + ["uuid"]
            && Get(m, "lov_id") == Some(VStr(LovIdField(found.lovId)))
            && Get(m, "ikrafttredelse") == Some(VStr(DateField(found.ikraftNumeric, found.ikraftTextual)))
            && Get(m, "språk") == Some(VStr(Language(text)))
            && Get(m, "source_text") == Some(VStr(text))
            && Get(m, "uuid") == Some(VStr(uuid))
  {
    FieldsKeys(text, found);
    WithUuid(Fields(text, found), uuid);
  }

  /** Appending the uuid to fields with the default keys: each field is
      found where the defaults put it, and the uuid last. */
  lemma WithUuid(f: Metadata, uuid: string)
    requires Keys(f) == FieldKeys
    ensures var m := f + [("uuid", VStr(uuid))];
            && Keys(m) == FieldKeys + ["uuid"]
            && Get(m, "lov_id") == Some(f[0].1)
            && Get(m, "ikrafttredelse") == Some(f[3].1)
            && Get(m, "språk") == Some(f[5].1)
            && Get(m, "source_text") == Some(f[7].1)
            && Get(m, "uuid") == Some(VStr(uuid))
  {
    var m := f + [("uuid", VStr(uuid))];
    FieldKeysAt(f, 0);
    FieldKeysAt(f, 3);
    FieldKeysAt(f, 5);
    FieldKeysAt(f, 7);
    GetAt(m, 0, "lov_id");
    GetAt(m, 3, "ikrafttredelse");
    GetAt(m, 5, "språk");
    GetAt(m, 7, "source_text");
    assert FirstAt(m, 8, "uuid") by {
      forall j | 0 <= j < 8 ensures m[j].0 != "uuid" {
        assert f[j].0 != "uuid";
      }
    }
    GetAt(m, 8, "uuid");
  }

  /** Filling in the fields keeps the keys of the defaults. */
  lemma FieldsKeys(text: string, found: Searches)
    ensures Keys(Fields(text, found)) == FieldKeys
    ensures Fields(text, found)[0].1 == VStr(LovIdField(found.lovId))
    ensures Fields(text, found)[3].1 == VStr(DateField(found.ikraftNumeric, found.ikraftTextual))
    ensures Fields(text, found)[5].1 == VStr(Language(text))
    ensures Fields(text, found)[7].1 == VStr(text)
  {
    DefaultKeys(text);
    var d := DefaultMetadata(text);
    assert d[7].1 == VStr(text);
    FillKeepsKeys(d, 0, VStr(LovIdField(found.lovId)));
    var n0 := d[0 := ("lov_id", VStr(LovIdField(found.lovId)))];
    FillKeepsKeys(n0, 1, VStr(ShortNameField(found.shortName)));
    var n1 := n0[1 := ("lov_navn", VStr(ShortNameField(found.shortName)))];
    FillKeepsKeys(n1, 2, VStr(TitleField(found.title, text)));
    var n := n1[2 := ("lov_tittel", VStr(TitleField(found.title, text)))];
    assert n == NameFields(text, found);
    FillKeepsKeys(n, 3, VStr(DateField(found.ikraftNumeric, found.ikraftTextual)));
    var f0 := n[3 := ("ikrafttredelse", VStr(DateField(found.ikraftNumeric, found.ikraftTextual)))];
    FillKeepsKeys(f0, 4, VStr(DateField(found.endretNumeric, found.endretTextual)));
    var f1 := f0[4 := ("sist_endret", VStr(DateField(found.endretNumeric, found.endretTextual)))];
    FillKeepsKeys(f1, 5, VStr(Language(text)));
    var f := f1[5 := ("språk", VStr(Language(text)))];
    assert f == Fields(text, found);
  }

  /** Putting a value under key `i` of fields with the default keys keeps
      the keys. */
  lemma FillKeepsKeys(m: Metadata, i: nat, v: Value)
    requires Keys(m) == FieldKeys && i < |FieldKeys|
    ensures Keys(m[i := (FieldKeys[i], v)]) == FieldKeys
  {
    assert m[i].0 == FieldKeys[i];
    ReplaceKeepsKeys(m, i, v);
  }

  /** The keys of the defaults, in the order the dictionary literal gives
      them. */
  const FieldKeys: seq<string> :=
    ["lov_id", "lov_navn", "lov_tittel", "ikrafttredelse", "sist_endret", "språk", "status", "source_text"]

  lemma DefaultKeys(text: string)
    ensures Keys(DefaultMetadata(text)) == FieldKeys
  {
  }

  /** With the keys of the defaults, position `i` is where key `i` first
      occurs, and there is no uuid yet. */
  lemma FieldKeysAt(m: Metadata, i: nat)
    requires Keys(m) == FieldKeys && i < |FieldKeys|
    ensures FirstAt(m, i, FieldKeys[i])
    ensures !HasKey(m, "uuid")
  {
    assert forall j :: 0 <= j < |m| ==> m[j].0 == FieldKeys[j];
  }

  /** The statute-id step: `lov-` and the lowered digits of `LOV-...`. */
  method SetLovId(metadata: Metadata, i: nat, lovId: Option<string>) returns (m: Metadata)
    requires Keys(metadata) == FieldKeys && i < |FieldKeys| && FieldKeys[i] == "lov_id"
    requires metadata[i].1 == VStr("ukjent")
    ensures m == metadata[i := ("lov_id", VStr(LovIdField(lovId)))]
    ensures Keys(m) == Keys(metadata)
  {
    m := metadata;
    FieldKeysAt(m, i);
    if lovId.Some? {
      SetKeyAt(m, i, "lov_id", VStr("lov-" + Lower(lovId.value)));
      m := SetKey(m, "lov_id", VStr("lov-" + Lower(lovId.value)));
    }
    ReplaceKeepsKeys(metadata, i, VStr(LovIdField(lovId)));
  }

  /** The short-name step. */
  method SetShortName(metadata: Metadata, i: nat, shortName: Option<string>) returns (m: Metadata)
    requires Keys(metadata) == FieldKeys && i < |FieldKeys| && FieldKeys[i] == "lov_navn"
    requires metadata[i].1 == VStr("ukjent")
    ensures m == metadata[i := ("lov_navn", VStr(ShortNameField(shortName)))]
    ensures Keys(m) == Keys(metadata)
  {
    m := metadata;
    FieldKeysAt(m, i);
    if shortName.Some? {
      SetKeyAt(m, i, "lov_navn", VStr(ShortName(shortName.value)));
      m := SetKey(m, "lov_navn", VStr(ShortName(shortName.value)));
    }
    ReplaceKeepsKeys(metadata, i, VStr(ShortNameField(shortName)));
  }

  /** The title step: the first title pattern that matched gives `Lov om`
      and its group; when the title is still the default, the first
      accepted line of the text replaces it. */
  method SetTitle(metadata: Metadata, i: nat, text: string, title: Option<string>) returns (m: Metadata)
    requires Keys(metadata) == FieldKeys && i < |FieldKeys| && FieldKeys[i] == "lov_tittel"
    requires metadata[i].1 == VStr("Ukjent lovdokument")
    ensures m == metadata[i := ("lov_tittel", VStr(TitleField(title, text)))]
    ensures Keys(m) == Keys(metadata)
  {
    m := metadata;
    FieldKeysAt(m, i);
    if title.Some? {
      SetKeyAt(m, i, "lov_tittel", VStr("Lov om " + Strip(title.value, Whitespace)));
      m := SetKey(m, "lov_tittel", VStr("Lov om " + Strip(title.value, Whitespace)));
    }
    ReplaceKeepsKeys(metadata, i, m[i].1);
    FieldKeysAt(m, i);
    GetAt(m, i, "lov_tittel");
    if Get(m, "lov_tittel") == Some(VStr("Ukjent lovdokument")) {
      var line := FindTitleLine(text);
      if line.Some? {
        SetKeyAt(m, i, "lov_tittel", VStr(line.value));
        m := SetKey(m, "lov_tittel", VStr(line.value));
      }
    }
    ReplaceKeepsKeys(metadata, i, VStr(TitleField(title, text)));
  }

  /** The search for one date field: the first pattern that matches is
      post-processed into the field, which starts out as `""`. */
  method ParseDate(metadata: Metadata, i: nat, key: string, numeric: Option<string>, textual: Option<string>)
    returns (m: Metadata)
    requires Keys(metadata) == FieldKeys && i < |FieldKeys| && FieldKeys[i] == key
    requires metadata[i].1 == VStr("")
    ensures m == metadata[i := (key, VStr(DateField(numeric, textual)))]
    ensures Keys(m) == Keys(metadata)
  {
    m := metadata;
    FieldKeysAt(m, i);
    if numeric.Some? || textual.Some? {
      var datoStr := Strip(if numeric.Some? then numeric.value else textual.value, Whitespace);
      if '.' in datoStr {
        var datoDeler := Split(datoStr, '.');
        if |datoDeler| == 3 {
          SetKeyAt(m, i, key, VStr(datoDeler[2] + "-" + datoDeler[1] + "-" + datoDeler[0]));
          m := SetKey(m, key, VStr(datoDeler[2] + "-" + datoDeler[1] + "-" + datoDeler[0]));
        }
      }
    }
    ReplaceKeepsKeys(metadata, i, VStr(DateField(numeric, textual)));
  }

  /** The language step on the lowered text. */
  method DecideLanguage(metadata: Metadata, i: nat, text: string) returns (m: Metadata)
    requires Keys(metadata) == FieldKeys && i < |FieldKeys| && FieldKeys[i] == "språk"
    requires metadata[i].1 == VStr("nob")
    ensures m == metadata[i := ("språk", VStr(Language(text)))]
    ensures Keys(m) == Keys(metadata)
  {
    m := metadata;
    FieldKeysAt(m, i);
    var lowered := Lower(text);
    if Contains(lowered, "bokmål") || Contains(lowered, "lov om") {
      SetKeyAt(m, i, "språk", VStr("nob"));
      m := SetKey(m, "språk", VStr("nob"));
    } else if Contains(lowered, "nynorsk") || Contains(lowered, "lov om rett til") {
      SetKeyAt(m, i, "språk", VStr("nno"));
      m := SetKey(m, "språk", VStr("nno"));
    }
    ReplaceKeepsKeys(metadata, i, VStr(Language(text)));
  }

  /** The first part of `parse_lov_metadata`: the defaults, then the
      statute id, the short name and the title. */
  method ParseNames(text: string, found: Searches) returns (metadata: Metadata)
    ensures metadata == NameFields(text, found)
    ensures Keys(metadata) == FieldKeys
  {
    metadata := DefaultMetadata(text);
    DefaultKeys(text);
    metadata := SetLovId(metadata, 0, found.lovId);
    metadata := SetShortName(metadata, 1, found.shortName);
    metadata := SetTitle(metadata, 2, text, found.title);
  }

  /** The second part of `parse_lov_metadata`: the two dates and the
      language, on fields still at their defaults. */
  method ParseDetails(metadata: Metadata, text: string, found: Searches) returns (m: Metadata)
    requires Keys(metadata) == FieldKeys
    requires metadata[3].1 == VStr("") && metadata[4].1 == VStr("") && metadata[5].1 == VStr("nob")
    ensures m == DetailFields(metadata, text, found)
    ensures Keys(m) == FieldKeys
  {
    m := ParseDate(metadata, 3, "ikrafttredelse", found.ikraftNumeric, found.ikraftTextual);
    m := ParseDate(m, 4, "sist_endret", found.endretNumeric, found.endretTextual);
    m := DecideLanguage(m, 5, text);
  }

  /** `parse_lov_metadata`: the defaults, then the statute id, short name
      and title, the two dates and the language as the searches found them,
      and a fresh uuid (an input here). */
  method ParseLovMetadata(text: string, found: Searches, uuid: string) returns (metadata: Metadata)
    ensures metadata == LovMetadata(text, found, uuid)
  {
    metadata := ParseNames(text, found);
    metadata := ParseDetails(metadata, text, found);
    FieldKeysAt(metadata, 0);
    SetKeyNew(metadata, "uuid", VStr(uuid));
    metadata := SetKey(metadata, "uuid", VStr(uuid));
  }
}
