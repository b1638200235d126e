/** The deterministic parts of the agent's tools (`src/tools.py`): parsing
    the language model's sub-queries, building the metadata filter for a
    direct statute lookup, turning vector-index matches into Documents, and
    numbering the documents in the answering prompt. The language model's
    text and the index's matches are inputs. */
module Tools {
  import opened Common
  import opened Text

  // ---------------------------------------------------------------------
  // Sub-query parsing (`generer_sokestrenger`)

  /** The characters `strip('- ')` removes. */
  const DashSpace: set<char> := {'-', ' '}

  /** A line that is empty once surrounding whitespace is stripped. */
  predicate Blank(line: string)
  {
    |Strip(line, Whitespace)| == 0
  }

  /** The query a line gives: dashes and spaces stripped from both ends,
      then whitespace. */
  function CleanQuery(line: string): string
  {
    Strip(Strip(line, DashSpace), Whitespace)
  }

  /** The query of one line: none for a blank line. */
  function QueryOf(line: string): Option<string>
  {
    if Blank(line) then None else Some(CleanQuery(line))
  }

  /** `[f(x) for x in xs if f(x) is not None]`, in order. */
  function FilterMap<T, U>(f: T -> Option<U>, xs: seq<T>): (r: seq<U>)
    ensures |r| <= |xs|
  {
    if |xs| == 0 then []
    else (if f(xs[0]).Some? then [f(xs[0]).value] else []) + FilterMap(f, xs[1..])
  }

  /** The queries of the non-blank lines, in order. */
  function QueryLines(lines: seq<string>): (r: seq<string>)
    ensures |r| <= |lines|
  {
    FilterMap(QueryOf, lines)
  }

  /** The parse of the model's answer: one query per non-blank line, at
      most `numQueries` of them (a negative count drops that many from the
      end, as Python's slice does). */
  function ParseQueries(content: string, numQueries: int): (r: seq<string>)
    ensures numQueries >= 0 ==> |r| == if numQueries <= |QueryLines(Split(content, '\n'))| then numQueries
                                       else |QueryLines(Split(content, '\n'))|
    ensures |r| <= |QueryLines(Split(content, '\n'))| && r == QueryLines(Split(content, '\n'))[..|r|]
  {
    PyPrefix(QueryLines(Split(content, '\n')), numQueries)
  }

  lemma {:induction false} FilterMapMembers<T, U>(f: T -> Option<U>, xs: seq<T>, y: U)
    ensures y in FilterMap(f, xs) <==> exists j :: 0 <= j < |xs| && f(xs[j]) == Some(y)
  {
    if |xs| > 0 {
      FilterMapMembers(f, xs[1..], y);
      if exists j :: 0 <= j < |xs| && f(xs[j]) == Some(y) {
        var j :| 0 <= j < |xs| && f(xs[j]) == Some(y);
        if j > 0 {
          assert xs[1..][j - 1] == xs[j];
        }
      }
      if exists j :: 0 <= j < |xs[1..]| && f(xs[1..][j]) == Some(y) {
        var j :| 0 <= j < |xs[1..]| && f(xs[1..][j]) == Some(y);
        assert xs[j + 1] == xs[1..][j];
      }
    }
  }

  lemma {:induction false} FilterMapAppend<T, U>(f: T -> Option<U>, a: seq<T>, b: seq<T>)
    ensures FilterMap(f, a + b) == FilterMap(f, a) + FilterMap(f, b)
  {
    if |a| > 0 {
      FilterMapAppend(f, a[1..], b);
      assert (a + b)[1..] == a[1..] + b;
    } else {
      assert a + b == b;
    }
  }

  /** A query is parsed exactly from a non-blank line. */
  lemma QueryLinesMembers(lines: seq<string>, q: string)
    ensures q in QueryLines(lines) <==> exists j :: 0 <= j < |lines| && !Blank(lines[j]) && CleanQuery(lines[j]) == q
  {
    FilterMapMembers(QueryOf, lines, q);
  }

  /** Parsing keeps the order of the lines: the queries of two runs of
      lines are those of the first followed by those of the second. */
  lemma QueryLinesAppend(a: seq<string>, b: seq<string>)
    ensures QueryLines(a + b) == QueryLines(a) + QueryLines(b)
  {
    FilterMapAppend(QueryOf, a, b);
  }

  /** A line of a lone dash is not blank, but it gives an empty query. */
  lemma DashLineGivesEmptyQuery()
    ensures ParseQueries("-", 3) == [""]
  {
    assert Split("-", '\n') == ["-"] by {
      assert "-"[1..] == "";
      var rest := Split("", '\n');
      assert rest == [""];
      assert "-"[0] != '\n';
      assert Split("-", '\n') == [["-"[0]] + rest[0]] + rest[1..];
      assert ["-"[0]] + rest[0] == "-";
      assert rest[1..] == [];
    }
    DashLineQuery();
    assert FilterMap(QueryOf, ["-"]) == [""] + FilterMap(QueryOf, ["-"][1..]);
    assert ["-"][1..] == [];
  }

  /** The one line of a lone dash. */
  lemma DashLineQuery()
    ensures QueryOf("-") == Some("")
  {
    assert '-' !in Whitespace;
    assert LStrip("-", Whitespace) == "-";
    assert RStrip("-", Whitespace) == "-";
    assert !Blank("-");
    assert "-"[1..] == "";
    assert LStrip("-", DashSpace) == "";
    assert Strip("-", DashSpace) == "";
  }

  // ---------------------------------------------------------------------
  // The metadata filter of `hent_lovtekst`

  /** A filter: each pair `(key, value)` is the condition
      `{key: {"$eq": value}}`, in insertion order. */
  type Filter = seq<(string, string)>

  /** An optional argument that Python treats as true. */
  predicate Given(v: Option<string>)
  {
    v.Some? && |v.value| > 0
  }

  /** The filter for a statute, narrowed to a section and a chapter when
      those are given. */
  function FilterFor(lovId: string, paragrafNr: Option<string>, kapittelNr: Option<string>): Filter
  {
    [("lov_id", lovId)]
    + (if Given(paragrafNr) then [("paragraf_nr", paragrafNr.value)] else [])
    + (if Given(kapittelNr) then [("kapittel_nr", kapittelNr.value)] else [])
  }

  /** The keys of a filter. */
  predicate HasCondition(f: Filter, key: string)
  {
    exists i :: 0 <= i < |f| && f[i].0 == key
  }

  /** The filter construction: the statute condition first, then a section
      and a chapter condition when those arguments are given. */
  method BuildFilter(lovId: string, paragrafNr: Option<string>, kapittelNr: Option<string>) returns (f: Filter)
    ensures f == FilterFor(lovId, paragrafNr, kapittelNr)
    ensures |f| > 0 && f[0] == ("lov_id", lovId)
    ensures HasCondition(f, "paragraf_nr") <==> Given(paragrafNr)
    ensures HasCondition(f, "kapittel_nr") <==> Given(kapittelNr)
  {
    f := [("lov_id", lovId)];
    if Given(paragrafNr) {
      f := f + [("paragraf_nr", paragrafNr.value)];
    }
    if Given(kapittelNr) {
      f := f + [("kapittel_nr", kapittelNr.value)];
    }
    if Given(paragrafNr) {
      assert f[1].0 == "paragraf_nr";
    }
    if Given(kapittelNr) {
      assert f[|f| - 1].0 == "kapittel_nr";
    }
  }

  /** What the index does with a filter: a record is selected when every
      condition holds of its metadata. */
  predicate Selects(f: Filter, m: Metadata)
  {
    forall i :: 0 <= i < |f| ==> GetValue(m, f[i].0) == VStr(f[i].1)
  }

  /** The filter selects exactly the records of the statute, and of the
      section and the chapter when those are given. */
  lemma FilterSelects(lovId: string, paragrafNr: Option<string>, kapittelNr: Option<string>, m: Metadata)
    ensures Selects(FilterFor(lovId, paragrafNr, kapittelNr), m) <==>
              && GetValue(m, "lov_id") == VStr(lovId)
              && (Given(paragrafNr) ==> GetValue(m, "paragraf_nr") == VStr(paragrafNr.value))
              && (Given(kapittelNr) ==> GetValue(m, "kapittel_nr") == VStr(kapittelNr.value))
  {
    var f := FilterFor(lovId, paragrafNr, kapittelNr);
    assert f[0] == ("lov_id", lovId);
    if Given(paragrafNr) {
      assert f[1] == ("paragraf_nr", paragrafNr.value);
    }
    if Given(kapittelNr) {
      assert f[|f| - 1] == ("kapittel_nr", kapittelNr.value);
    }
  }

  // ---------------------------------------------------------------------
  // Matches to Documents (`sok_lovdata`, `hent_lovtekst`)

  /** One match of a vector-index query: its metadata and its score. */
  datatype IndexMatch = IndexMatch(metadata: Metadata, score: Value)

  /** `match.metadata.get("content", "")` as the Document's text; a value
      that is not a string fails the Document's validation. */
  function MatchContent(m: IndexMatch): (r: Result<string>)
    ensures !HasKey(m.metadata, "content") ==> r == Ok("")
    ensures HasKey(m.metadata, "content") ==> (r.Ok? <==> GetValue(m.metadata, "content").VStr?)
    ensures r.Ok? && HasKey(m.metadata, "content") ==> GetValue(m.metadata, "content") == VStr(r.value)
  {
    match Get(m.metadata, "content")
    case None => Ok("")
    case Some(v) => if v.VStr? then Ok(v.s) else Err("ValidationError")
  }

  /** The metadata of a match's Document: the statute id, section and
      chapter, the statute title as `lov_navn`, and the score when the
      search tool builds it. */
  function MatchMetadata(m: IndexMatch, withScore: bool): Metadata
  {
    [("lov_id", GetValue(m.metadata, "lov_id")),
     ("paragraf_nr", GetValue(m.metadata, "paragraf_nr")),
     ("kapittel_nr", GetValue(m.metadata, "kapittel_nr")),
     ("lov_navn", GetValue(m.metadata, "lov_tittel"))]
    + (if withScore then [("score", m.score)] else [])
  }

  /** The keys of a match's Document metadata, in order, and where each
      value comes from. */
  lemma MatchMetadataFields(m: IndexMatch, withScore: bool)
    ensures var r := MatchMetadata(m, withScore);
            && Keys(r) == ["lov_id", "paragraf_nr", "kapittel_nr", "lov_navn"] + (if withScore then ["score"] else [])
            && r[0].1 == GetValue(m.metadata, "lov_id")
            && r[1].1 == GetValue(m.metadata, "paragraf_nr")
            && r[2].1 == GetValue(m.metadata, "kapittel_nr")
            && r[3].1 == GetValue(m.metadata, "lov_tittel")
            && (withScore ==> r[4].1 == m.score)
  {
  }

  /** The Document of one match. */
  function MatchDoc(m: IndexMatch, withScore: bool): Result<Document>
  {
    match MatchContent(m)
    case Err(e) => Err(e)
    case Ok(content) => Ok(Document(content, MatchMetadata(m, withScore)))
  }

  /** One Document per match, in match order; the first match whose
      content is not a string raises. */
  function MatchDocs(matches: seq<IndexMatch>, withScore: bool): Result<seq<Document>>
  {
    if forall i :: 0 <= i < |matches| ==> MatchDoc(matches[i], withScore).Ok?
    then Ok(seq(|matches|, i requires 0 <= i < |matches| => MatchDoc(matches[i], withScore).value))
    else Err("ValidationError")
  }

  /** The loop both tools run over the matches (`withScore` for the search
      tool, which records each match's score). */
  method DocumentsOfMatches(matches: seq<IndexMatch>, withScore: bool) returns (r: Result<seq<Document>>)
    ensures r == MatchDocs(matches, withScore)
  {
    var documents: seq<Document> := [];
    var i := 0;
    while i < |matches|
      invariant 0 <= i <= |matches| && |documents| == i
      invariant forall j :: 0 <= j < i ==> MatchDoc(matches[j], withScore).Ok?
      invariant forall j :: 0 <= j < i ==> documents[j] == MatchDoc(matches[j], withScore).value
    {
      var doc := MatchDoc(matches[i], withScore);
      if doc.Err? {
        assert doc.error == "ValidationError" && !MatchDoc(matches[i], withScore).Ok?;
        assert MatchDocs(matches, withScore) == Err("ValidationError");
        return Err(doc.error);
      }
      documents := documents + [doc.value];
      i := i + 1;
    }
    assert MatchDocs(matches, withScore)
           == Ok(seq(|matches|, j requires 0 <= j < |matches| => MatchDoc(matches[j], withScore).value));
    assert documents == seq(|matches|, j requires 0 <= j < |matches| => MatchDoc(matches[j], withScore).value);
    return Ok(documents);
  }

  /** Document `i` is made of match `i`: its text defaults to `""`, its
      `lov_navn` is the match's `lov_tittel`, and it carries a score exactly
      when the search tool made it. */
  lemma MatchDocsShape(matches: seq<IndexMatch>, withScore: bool, i: nat)
    requires MatchDocs(matches, withScore).Ok?
    ensures |MatchDocs(matches, withScore).value| == |matches|
    ensures var docs := MatchDocs(matches, withScore).value;
            i < |docs| ==>
              && (!HasKey(matches[i].metadata, "content") ==> docs[i].pageContent == "")
              && Get(docs[i].metadata, "lov_id") == Some(GetValue(matches[i].metadata, "lov_id"))
              && Get(docs[i].metadata, "lov_navn") == Some(GetValue(matches[i].metadata, "lov_tittel"))
              && (HasKey(docs[i].metadata, "score") <==> withScore)
  {
    var docs := MatchDocs(matches, withScore).value;
    if i < |docs| {
      var md := docs[i].metadata;
      assert MatchDoc(matches[i], withScore).Ok?;
      assert md == MatchMetadata(matches[i], withScore);
      MatchMetadataFields(matches[i], withScore);
      assert FirstAt(md, 0, "lov_id");
      GetAt(md, 0, "lov_id");
      assert FirstAt(md, 3, "lov_navn");
      GetAt(md, 3, "lov_navn");
      KeysHasKey(md, "score");
    }
  }

  /** Every match's content must be a string for the tool to succeed. */
  lemma MatchDocsFails(matches: seq<IndexMatch>, withScore: bool)
    ensures MatchDocs(matches, withScore).Err? <==>
              exists i :: 0 <= i < |matches| && HasKey(matches[i].metadata, "content")
                          && !GetValue(matches[i].metadata, "content").VStr?
  {
    if MatchDocs(matches, withScore).Err? {
      var i :| 0 <= i < |matches| && !MatchDoc(matches[i], withScore).Ok?;
      assert MatchContent(matches[i]).Err?;
    }
  }

  // ---------------------------------------------------------------------
  // The context of `sammenstill_svar`

  /** The metadata keys the answering prompt cites. */
  const CitationKeys: seq<string> := ["lov_id", "lov_navn", "paragraf_nr", "kapittel_nr"]

  /** The entries of `m`, in insertion order, under a cited key and with a
      truthy value. */
  function CitationEntries(m: Metadata): (r: Metadata)
    ensures |r| <= |m|
  {
    if |m| == 0 then []
    else
      var e := m[|m| - 1];
      CitationEntries(m[..|m| - 1]) + (if e.0 in CitationKeys && Truthy(e.1) then [e] else [])
  }

  /** `", ".join(f"{k}: {v}" ...)` over the cited entries. */
  function MetadataLine(m: Metadata): string
  {
    var es := CitationEntries(m);
    Join(", ", seq(|es|, i requires 0 <= i < |es| => es[i].0 + ": " + Show(es[i].1)))
  }

  /** The block of the `i`-th document (counted from 0), labelled from 1. */
  function Block(i: nat, d: Document): string
  {
    "\n\nDokument " + NatToString(i + 1) + ":\n" + d.pageContent + "\nMetadata: " + MetadataLine(d.metadata)
  }

  /** The blocks of a list of documents, in order. */
  function Blocks(docs: seq<Document>): (r: seq<string>)
    ensures |r| == |docs|
    ensures forall i :: 0 <= i < |docs| ==>
              r[i] == "\n\nDokument " + NatToString(i + 1) + ":\n" + docs[i].pageContent
                      + "\nMetadata: " + MetadataLine(docs[i].metadata)
  {
    seq(|docs|, i requires 0 <= i < |docs| => Block(i, docs[i]))
  }

  /** The loop that builds `docs_text`. */
  method DocsText(documents: seq<Document>) returns (docsText: string)
    ensures docsText == Concat(Blocks(documents))
  {
    docsText := "";
    var i := 0;
    while i < |documents|
      invariant 0 <= i <= |documents|
      invariant docsText == Concat(Blocks(documents[..i]))
    {
      BlocksSnoc(documents, i);
      ConcatSnoc(Blocks(documents[..i]), Block(i, documents[i]));
      docsText := docsText + Block(i, documents[i]);
      i := i + 1;
    }
    assert documents[..i] == documents;
  }

  lemma BlocksSnoc(docs: seq<Document>, i: nat)
    requires i < |docs|
    ensures Blocks(docs[..i + 1]) == Blocks(docs[..i]) + [Block(i, docs[i])]
  {
    var l, r := Blocks(docs[..i + 1]), Blocks(docs[..i]) + [Block(i, docs[i])];
    forall j | 0 <= j < i + 1 ensures l[j] == r[j] {
      assert docs[..i + 1][j] == docs[j];
      if j < i {
        assert docs[..i][j] == docs[j];
      }
    }
  }

  /** A cited entry is one of the metadata's, under a cited key and with a
      truthy value; every such entry is cited. */
  lemma {:induction false} CitationEntriesMembers(m: Metadata, e: (string, Value))
    ensures e in CitationEntries(m) <==> e in m && e.0 in CitationKeys && Truthy(e.1)
  {
    if |m| > 0 {
      var init := m[..|m| - 1];
      CitationEntriesMembers(init, e);
      assert m == init + [m[|m| - 1]];
    }
  }

  /** The cited entries keep the insertion order of the metadata. */
  lemma {:induction false} CitationEntriesAppend(a: Metadata, b: Metadata)
    ensures CitationEntries(a + b) == CitationEntries(a) + CitationEntries(b)
    decreases |b|
  {
    if |b| == 0 {
      assert a + b == a;
    } else {
      var binit := b[..|b| - 1];
      CitationEntriesAppend(a, binit);
      assert (a + b)[..|a + b| - 1] == a + binit;
    }
  }

  /** More documents only add blocks after the ones already there: the
      context of `a + b` is that of `a` followed by `b`'s blocks numbered
      from `|a| + 1`. */
  lemma ContextAppend(a: seq<Document>, b: seq<Document>)
    ensures Concat(Blocks(a + b)) ==
              Concat(Blocks(a)) + Concat(seq(|b|, i requires 0 <= i < |b| => Block(|a| + i, b[i])))
  {
    var tail := seq(|b|, i requires 0 <= i < |b| => Block(|a| + i, b[i]));
    assert Blocks(a + b) == Blocks(a) + tail;
    ConcatAppend(Blocks(a), tail);
  }

  lemma {:induction false} ConcatAppend(xs: seq<string>, ys: seq<string>)
    ensures Concat(xs + ys) == Concat(xs) + Concat(ys)
  {
    if |xs| > 0 {
      ConcatAppend(xs[1..], ys);
      assert (xs + ys)[1..] == xs[1..] + ys;
    } else {
      assert xs + ys == ys;
    }
  }
}
