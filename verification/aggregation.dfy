/** The fold in `AssistantManager.analyze` (main.py) that drains the assistant's
    streamed reply into `{"analysis": ..., "citations": [...]}`. */
module Aggregation {
  import opened Wrappers

  /** One entry of a streamed chunk's `items`: a `StreamingAnnotationContent`
      (a reference to a source file and a quoted excerpt) or any other content. */
  datatype Item = Annotation(fileId: string, quote: string) | Other

  /** One streamed response: its `items` and its text `content`. */
  datatype Chunk = Chunk(items: seq<Item>, content: string)

  /** One `{"file": ..., "quote": ...}` record of the result. */
  datatype Citation = Citation(file: string, quote: string)

  datatype Analysis = Analysis(analysis: string, citations: seq<Citation>)

  /** Why draining the stream raised: `response.items[0]` on a chunk without items
      (its position in the stream), or the stream itself failed with a message. */
  datatype StreamError = EmptyItems(position: nat) | StreamFailed(message: string)

  /** The `IndexError` message Python gives for `items[0]` on an empty list. */
  const IndexErrorMessage := "list index out of range"

  function ErrorMessage(e: StreamError): string
  {
    match e
    case EmptyItems(_) => IndexErrorMessage
    case StreamFailed(m) => m
  }

  /** A chunk whose first item is an annotation: all its items go to the citation buffer. */
  predicate AnnotationLed(c: Chunk)
  {
    |c.items| > 0 && c.items[0].Annotation?
  }

  /** A chunk whose first item is not an annotation: its content goes to the text. */
  predicate TextLed(c: Chunk)
  {
    |c.items| > 0 && !c.items[0].Annotation?
  }

  /** No chunk makes `items[0]` raise. */
  predicate WellFormed(chunks: seq<Chunk>)
  {
    forall i :: 0 <= i < |chunks| ==> |chunks[i].items| > 0
  }

  /** Reference definition of the text: the contents of the text-led chunks, in order. */
  function Narrative(chunks: seq<Chunk>): string
  {
    if |chunks| == 0 then ""
    else (if TextLed(chunks[0]) then chunks[0].content else "") + Narrative(chunks[1..])
  }

  /** Reference definition of the citation buffer: every item of every annotation-led chunk, in order. */
  function Collected(chunks: seq<Chunk>): seq<Item>
  {
    if |chunks| == 0 then []
    else (if AnnotationLed(chunks[0]) then chunks[0].items else []) + Collected(chunks[1..])
  }

  /** The citation record of one buffered item: one record for an annotation, none otherwise. */
  function CiteOne(item: Item): seq<Citation>
  {
    match item
    case Annotation(f, q) => [Citation(f, q)]
    case Other => []
  }

  /** The projection of the buffer to citation records, keeping only annotations. */
  function Cite(items: seq<Item>): (r: seq<Citation>)
    ensures |r| <= |items|
  {
    if |items| == 0 then [] else CiteOne(items[0]) + Cite(items[1..])
  }

  /** i is the position of the first chunk without items. */
  predicate IsFirstEmpty(chunks: seq<Chunk>, i: nat)
  {
    && i < |chunks|
    && |chunks[i].items| == 0
    && WellFormed(chunks[..i])
  }

  /** The loop `for response in stream: ...` from the i-th chunk on, with the
      text and citation buffer accumulated so far. */
  function Fold(chunks: seq<Chunk>, i: nat, text: string, buffer: seq<Item>): (r: Result<(string, seq<Item>), nat>)
    requires i <= |chunks|
    requires WellFormed(chunks[..i])
    ensures r.Success? <==> WellFormed(chunks)
    ensures r.Success? ==> r.value.0 == text + Narrative(chunks[i..])
    ensures r.Success? ==> r.value.1 == buffer + Collected(chunks[i..])
    ensures r.Failure? ==> i <= r.error && IsFirstEmpty(chunks, r.error)
    decreases |chunks| - i
  {
    if i == |chunks| then
      assert chunks[..i] == chunks;
      Success((text, buffer))
    else
      var c := chunks[i];
      if |c.items| == 0 then Failure(i)
      else
        assert chunks[..i + 1] == chunks[..i] + [c];
        assert chunks[i..][1..] == chunks[i + 1..];
        if c.items[0].Annotation? then Fold(chunks, i + 1, text, buffer + c.items)
        else Fold(chunks, i + 1, text + c.content, buffer)
  }

  /** `AssistantManager.analyze` after the message is posted: drain a stream that delivered
      `chunks` and then closed (`failure` None) or raised (`failure` Some(message)),
      and project the buffer to citations. */
  function Aggregate(chunks: seq<Chunk>, failure: Option<string>): (r: Result<Analysis, StreamError>)
    ensures r.Success? <==> WellFormed(chunks) && failure.None?
    ensures r.Success? ==> r.value.analysis == Narrative(chunks)
    ensures r.Success? ==> r.value.citations == Cite(Collected(chunks))
    ensures r.Failure? && r.error.EmptyItems? ==> IsFirstEmpty(chunks, r.error.position)
    ensures r.Failure? && r.error.StreamFailed? ==> WellFormed(chunks) && failure == Some(r.error.message)
  {
    assert chunks[..0] == [] && chunks[0..] == chunks;
    assert [] + Collected(chunks) == Collected(chunks);
    match Fold(chunks, 0, "", [])
    case Failure(i) => Failure(EmptyItems(i))
    case Success((text, buffer)) =>
      if failure.Some? then Failure(StreamFailed(failure.value))
      else Success(Analysis(text, Cite(buffer)))
  }

  lemma {:induction false} NarrativeAppend(a: seq<Chunk>, b: seq<Chunk>)
    ensures Narrative(a + b) == Narrative(a) + Narrative(b)
    decreases |a|
  {
    if |a| == 0 {
      assert a + b == b;
    } else {
      assert (a + b)[1..] == a[1..] + b;
      NarrativeAppend(a[1..], b);
    }
  }

  lemma {:induction false} CollectedAppend(a: seq<Chunk>, b: seq<Chunk>)
    ensures Collected(a + b) == Collected(a) + Collected(b)
    decreases |a|
  {
    if |a| == 0 {
      assert a + b == b;
    } else {
      assert (a + b)[1..] == a[1..] + b;
      CollectedAppend(a[1..], b);
    }
  }

  lemma {:induction false} CiteAppend(a: seq<Item>, b: seq<Item>)
    ensures Cite(a + b) == Cite(a) + Cite(b)
    decreases |a|
  {
    if |a| == 0 {
      assert a + b == b;
    } else {
      assert (a + b)[1..] == a[1..] + b;
      CiteAppend(a[1..], b);
    }
  }

  /** The annotation items of a buffer, in order. */
  function Annotations(items: seq<Item>): seq<Item>
  {
    if |items| == 0 then []
    else (if items[0].Annotation? then [items[0]] else []) + Annotations(items[1..])
  }

  /** The chunks whose first item is an annotation, in order. */
  function AnnotationLedOnly(chunks: seq<Chunk>): seq<Chunk>
  {
    if |chunks| == 0 then []
    else (if AnnotationLed(chunks[0]) then [chunks[0]] else []) + AnnotationLedOnly(chunks[1..])
  }

  /** The chunks whose first item is not an annotation, in order. */
  function TextLedOnly(chunks: seq<Chunk>): seq<Chunk>
  {
    if |chunks| == 0 then []
    else (if TextLed(chunks[0]) then [chunks[0]] else []) + TextLedOnly(chunks[1..])
  }

  /** The citations are the annotations of the buffer, one record each, in the same
      order and with the same file and quote; every other item is dropped. */
  lemma {:induction false} CiteIsProjection(items: seq<Item>)
    ensures |Cite(items)| == |Annotations(items)|
    ensures forall k :: 0 <= k < |Annotations(items)| ==>
              Annotations(items)[k].Annotation? &&
              Cite(items)[k] == Citation(Annotations(items)[k].fileId, Annotations(items)[k].quote)
    decreases |items|
  {
    if |items| > 0 {
      CiteIsProjection(items[1..]);
    }
  }

  /** A record is cited exactly when an annotation with its file and quote is in the buffer. */
  lemma {:induction false} CiteMembership(items: seq<Item>, f: string, q: string)
    ensures Citation(f, q) in Cite(items) <==> Annotation(f, q) in items
    decreases |items|
  {
    if |items| > 0 {
      CiteMembership(items[1..], f, q);
      assert items == [items[0]] + items[1..];
    }
  }

  /** An item is buffered exactly when it belongs to some annotation-led chunk. */
  lemma {:induction false} CollectedMembership(chunks: seq<Chunk>, x: Item)
    ensures x in Collected(chunks) <==> exists i :: 0 <= i < |chunks| && AnnotationLed(chunks[i]) && x in chunks[i].items
    decreases |chunks|
  {
    if |chunks| > 0 {
      CollectedMembership(chunks[1..], x);
      if x in Collected(chunks[1..]) {
        var i :| 0 <= i < |chunks[1..]| && AnnotationLed(chunks[1..][i]) && x in chunks[1..][i].items;
        assert AnnotationLed(chunks[i + 1]) && x in chunks[i + 1].items;
      }
      if exists i :: 0 <= i < |chunks| && AnnotationLed(chunks[i]) && x in chunks[i].items {
        var i :| 0 <= i < |chunks| && AnnotationLed(chunks[i]) && x in chunks[i].items;
        if i > 0 {
          assert chunks[1..][i - 1] == chunks[i];
        }
      }
    }
  }

  /** A citation is reported exactly when some annotation-led chunk carries that
      annotation; annotations inside text-led chunks are never cited. */
  lemma CitationSource(chunks: seq<Chunk>, f: string, q: string)
    requires WellFormed(chunks)
    ensures Citation(f, q) in Aggregate(chunks, None).value.citations <==>
              exists i :: 0 <= i < |chunks| && AnnotationLed(chunks[i]) && Annotation(f, q) in chunks[i].items
  {
    CiteMembership(Collected(chunks), f, q);
    CollectedMembership(chunks, Annotation(f, q));
  }

  /** Draining two streams back to back gives the first result's text and citations
      followed by the second's: arrival order is kept and nothing is merged. */
  lemma AggregateAppend(a: seq<Chunk>, b: seq<Chunk>)
    requires WellFormed(a) && WellFormed(b)
    ensures WellFormed(a + b)
    ensures Aggregate(a + b, None) ==
              Success(Analysis(Aggregate(a, None).value.analysis + Aggregate(b, None).value.analysis,
                               Aggregate(a, None).value.citations + Aggregate(b, None).value.citations))
  {
    assert WellFormed(a + b) by {
      forall k | 0 <= k < |a + b|
        ensures |(a + b)[k].items| > 0
      {
        if k < |a| { assert (a + b)[k] == a[k]; } else { assert (a + b)[k] == b[k - |a|]; }
      }
    }
    NarrativeAppend(a, b);
    CollectedAppend(a, b);
    CiteAppend(Collected(a), Collected(b));
  }

  /** One more chunk: a text-led chunk appends its content and adds no citation, even for
      annotations it carries; an annotation-led chunk adds no text, even if it has content,
      and cites only its annotation items. */
  lemma DroppedItems(chunks: seq<Chunk>, c: Chunk)
    requires WellFormed(chunks) && |c.items| > 0
    ensures TextLed(c) ==>
              Aggregate(chunks + [c], None) ==
                Success(Analysis(Aggregate(chunks, None).value.analysis + c.content, Aggregate(chunks, None).value.citations))
    ensures AnnotationLed(c) ==>
              Aggregate(chunks + [c], None) ==
                Success(Analysis(Aggregate(chunks, None).value.analysis, Aggregate(chunks, None).value.citations + Cite(c.items)))
  {
    AggregateAppend(chunks, [c]);
    assert [c][1..] == [];
    var prior := Aggregate(chunks, None).value;
    var step := Aggregate([c], None).value;
    assert Narrative([c][1..]) == "" && Collected([c][1..]) == [];
    if TextLed(c) {
      assert step.analysis == c.content + "" == c.content;
      assert step.citations == Cite([]) == [];
      assert prior.citations + [] == prior.citations;
    } else {
      assert step.analysis == "";
      assert step.citations == Cite(c.items + []);
      assert c.items + [] == c.items;
      assert prior.analysis + "" == prior.analysis;
    }
  }

  lemma {:induction false} CitationsFromAnnotationLedOnly(chunks: seq<Chunk>)
    ensures Collected(chunks) == Collected(AnnotationLedOnly(chunks))
    decreases |chunks|
  {
    if |chunks| > 0 {
      CitationsFromAnnotationLedOnly(chunks[1..]);
      var head := if AnnotationLed(chunks[0]) then [chunks[0]] else [];
      CollectedAppend(head, AnnotationLedOnly(chunks[1..]));
      assert [chunks[0]][1..] == [];
    }
  }

  lemma {:induction false} TextFromTextLedOnly(chunks: seq<Chunk>)
    ensures Narrative(chunks) == Narrative(TextLedOnly(chunks))
    decreases |chunks|
  {
    if |chunks| > 0 {
      TextFromTextLedOnly(chunks[1..]);
      var head := if TextLed(chunks[0]) then [chunks[0]] else [];
      NarrativeAppend(head, TextLedOnly(chunks[1..]));
      assert [chunks[0]][1..] == [];
    }
  }

  /** The citations depend only on the annotation-led chunks and the text only on the
      text-led chunks: how the two kinds interleave in the stream changes neither. */
  lemma InterleavingIrrelevant(a: seq<Chunk>, b: seq<Chunk>)
    requires WellFormed(a) && WellFormed(b)
    ensures AnnotationLedOnly(a) == AnnotationLedOnly(b) ==>
              Aggregate(a, None).value.citations == Aggregate(b, None).value.citations
    ensures TextLedOnly(a) == TextLedOnly(b) ==>
              Aggregate(a, None).value.analysis == Aggregate(b, None).value.analysis
  {
    CitationsFromAnnotationLedOnly(a);
    CitationsFromAnnotationLedOnly(b);
    TextFromTextLedOnly(a);
    TextFromTextLedOnly(b);
  }

  /** A chunk without items fails the whole drain at its position, whatever came before
      or after it: no partial text or citations survive. */
  lemma EmptyChunkFailsWhole(before: seq<Chunk>, c: Chunk, after: seq<Chunk>, failure: Option<string>)
    requires WellFormed(before) && |c.items| == 0
    ensures Aggregate(before + [c] + after, failure) == Failure(EmptyItems(|before|))
  {
    var s := before + [c] + after;
    var r := Aggregate(s, failure);
    assert s[|before|] == c;
    assert !WellFormed(s);
  }
}
