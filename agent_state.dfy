/** The evidence reducer of the tool-loop agent (`src/state.py`): documents
    are keyed on their text. */
module AgentState {
  import opened Common

  /** The texts of a list of documents (the source's `seen_content`). */
  function Contents(docs: seq<Document>): set<string>
  {
    set d | d in docs :: d.pageContent
  }

  /** The documents of `right`, in order, whose text is not in `seen`. */
  function Unseen(right: seq<Document>, seen: set<string>): (r: seq<Document>)
    ensures |r| <= |right|
  {
    if |right| == 0 then []
    else (if right[0].pageContent in seen then [] else [right[0]]) + Unseen(right[1..], seen)
  }

  /** `reduce_docs(left, right)`: an empty side gives the other back as it
      is; otherwise the documents of `right` whose text does not occur in
      `left` follow `left`. */
  function MergeByContent(left: seq<Document>, right: seq<Document>): (r: seq<Document>)
    ensures |left| <= |r| <= |left| + |right| && r[..|left|] == left
    ensures |right| == 0 ==> r == left
    ensures |left| == 0 ==> r == right
    ensures |left| > 0 ==> r[|left|..] == Unseen(right, Contents(left))
  {
    if |right| == 0 then left
    else if |left| == 0 then right
    else left + Unseen(right, Contents(left))
  }

  /** Filtering distributes over concatenation, so it keeps the order. */
  lemma {:induction false} UnseenAppend(a: seq<Document>, b: seq<Document>, seen: set<string>)
    ensures Unseen(a + b, seen) == Unseen(a, seen) + Unseen(b, seen)
  {
    if |a| > 0 {
      UnseenAppend(a[1..], b, seen);
      assert (a + b)[1..] == a[1..] + b;
    } else {
      assert a + b == b;
    }
  }

  /** A document occurs in the filtered list exactly as often as in
      `right` when its text is unseen, and not at all otherwise. */
  lemma {:induction false} UnseenCount(right: seq<Document>, seen: set<string>, d: Document)
    ensures multiset(Unseen(right, seen))[d] ==
            if d.pageContent in seen then 0 else multiset(right)[d]
  {
    if |right| > 0 {
      UnseenCount(right[1..], seen, d);
      assert right == [right[0]] + right[1..];
    }
  }

  lemma {:induction false} UnseenNone(right: seq<Document>, seen: set<string>)
    requires Contents(right) <= seen
    ensures Unseen(right, seen) == []
  {
    if |right| > 0 {
      assert right[0] in right;
      assert Contents(right[1..]) <= Contents(right) by {
        forall c | c in Contents(right[1..]) ensures c in Contents(right) {
          var d :| d in right[1..] && d.pageContent == c;
          assert d in right;
        }
      }
      UnseenNone(right[1..], seen);
    }
  }

  /** Every text of `right` is in `seen` or carried by a kept document. */
  lemma {:induction false} UnseenCovers(right: seq<Document>, seen: set<string>)
    ensures Contents(right) <= seen + Contents(Unseen(right, seen))
  {
    if |right| > 0 {
      UnseenCovers(right[1..], seen);
      var head := if right[0].pageContent in seen then [] else [right[0]];
      assert Unseen(right, seen) == head + Unseen(right[1..], seen);
      forall c | c in Contents(right) ensures c in seen + Contents(Unseen(right, seen)) {
        var d :| d in right && d.pageContent == c;
        if d == right[0] {
          if c !in seen {
            assert d in Unseen(right, seen);
          }
        } else {
          assert d in right[1..];
          assert c in Contents(right[1..]);
          if c !in seen {
            var d' :| d' in Unseen(right[1..], seen) && d'.pageContent == c;
            assert d' in Unseen(right, seen);
          }
        }
      }
    }
  }

  /** Merging the same `right` into the result a second time appends
      nothing. */
  lemma MergeIdempotent(left: seq<Document>, right: seq<Document>)
    ensures MergeByContent(MergeByContent(left, right), right) == MergeByContent(left, right)
  {
    var once := MergeByContent(left, right);
    if |right| > 0 {
      if |left| == 0 {
        UnseenNone(right, Contents(right));
      } else {
        var added := Unseen(right, Contents(left));
        assert once == left + added;
        UnseenCovers(right, Contents(left));
        assert Contents(once) == Contents(left) + Contents(added);
        UnseenNone(right, Contents(once));
      }
    }
  }
}
