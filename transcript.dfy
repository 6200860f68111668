/** The paragraphs of the transcript panel (`setTranscript`): the sentences
    of the cleaned speech grouped three to a paragraph, each paragraph the
    group's sentences joined by a space. The cleanup and the sentence split
    are regular expressions and stay outside the model: they arrive as the
    `cleaned` text and its `sentences`. */
module Transcript {
  import opened Text

  /** `maxPerPara` / `maxSentencesPerParagraph`. */
  const MaxPerParagraph := 3

  /** The sentences in groups of three in order, the last group holding what
      is left over. */
  function Groups(sentences: seq<string>): (r: seq<seq<string>>)
    ensures |r| == (|sentences| + MaxPerParagraph - 1) / MaxPerParagraph
    ensures forall k :: 0 <= k < |r| ==> 1 <= |r[k]| <= MaxPerParagraph
    ensures forall k :: 0 <= k < |r| - 1 ==> |r[k]| == MaxPerParagraph
    decreases |sentences|
  {
    if sentences == [] then []
    else if |sentences| <= MaxPerParagraph then [sentences]
    else [sentences[..MaxPerParagraph]] + Groups(sentences[MaxPerParagraph..])
  }

  function Flatten(groups: seq<seq<string>>): seq<string>
  {
    if groups == [] then [] else groups[0] + Flatten(groups[1..])
  }

  lemma {:induction false} FlattenAppend(a: seq<seq<string>>, b: seq<seq<string>>)
    ensures Flatten(a + b) == Flatten(a) + Flatten(b)
  {
    if a == [] {
      assert a + b == b;
    } else {
      assert (a + b)[0] == a[0];
      assert (a + b)[1..] == a[1..] + b;
      FlattenAppend(a[1..], b);
    }
  }

  /** Grouping loses, adds and reorders no sentence. */
  lemma {:induction false} GroupsKeepSentences(sentences: seq<string>)
    ensures Flatten(Groups(sentences)) == sentences
    decreases |sentences|
  {
    if |sentences| > MaxPerParagraph {
      var rest := sentences[MaxPerParagraph..];
      GroupsKeepSentences(rest);
      assert Groups(sentences)[1..] == Groups(rest);
      assert sentences == sentences[..MaxPerParagraph] + rest;
    }
  }

  /** Group `k` is the slice of the sentences from `3k` to `3k + 3`, cut at
      the end: `sentences.slice(3 * k, 3 * k + 3)`. */
  lemma {:induction false} GroupIsSlice(sentences: seq<string>, k: nat)
    requires k < |Groups(sentences)|
    ensures 3 * k < |sentences|
    ensures Groups(sentences)[k] == sentences[3 * k..if 3 * k + 3 <= |sentences| then 3 * k + 3 else |sentences|]
    decreases k
  {
    if k > 0 {
      var rest := sentences[MaxPerParagraph..];
      assert Groups(sentences)[1..] == Groups(rest);
      GroupIsSlice(rest, k - 1);
      assert rest[3 * (k - 1)..] == sentences[3 * k..];
    }
  }

  /** Grouping a text whose first part holds whole groups groups the two
      parts apart. */
  lemma {:induction false} GroupsAppend(t: seq<string>, u: seq<string>)
    requires |t| % MaxPerParagraph == 0
    ensures Groups(t + u) == Groups(t) + Groups(u)
    decreases |t|
  {
    if t == [] {
      assert t + u == u;
    } else {
      var head, tail := t[..MaxPerParagraph], t[MaxPerParagraph..];
      assert (t + u)[..MaxPerParagraph] == head;
      assert (t + u)[MaxPerParagraph..] == tail + u;
      GroupsAppend(tail, u);
      assert Groups(t) == [head] + Groups(tail) by {
        if |t| == MaxPerParagraph {
          assert tail == [] && head == t;
        }
      }
      if u == [] && |t| == MaxPerParagraph {
        assert t + u == t;
      } else {
        assert Groups(t + u) == [head] + Groups(tail + u);
      }
    }
  }

  /** Each group joined by a space. */
  function JoinEach(groups: seq<seq<string>>): (r: seq<string>)
    ensures |r| == |groups|
    ensures forall k :: 0 <= k < |r| ==> r[k] == Join(groups[k], " ")
  {
    seq(|groups|, k requires 0 <= k < |groups| => Join(groups[k], " "))
  }

  /** The paragraphs of the panel. */
  function Paragraphs(sentences: seq<string>): seq<string>
  {
    JoinEach(Groups(sentences))
  }

  /** The paragraphs of a whole number of groups followed by further
      sentences: those of the groups, then those of the rest. */
  lemma ParagraphsAppend(t: seq<string>, u: seq<string>)
    requires |t| % MaxPerParagraph == 0
    ensures Paragraphs(t + u) == Paragraphs(t) + Paragraphs(u)
  {
    GroupsAppend(t, u);
  }

  /** The paragraph of one group. */
  lemma ParagraphsOfGroup(g: seq<string>)
    requires 1 <= |g| <= MaxPerParagraph
    ensures Paragraphs(g) == [Join(g, " ")]
  {
  }

  /** Appending the paragraph of the next group of the sentences. */
  lemma NextParagraph(sentences: seq<string>, start: nat, end: nat)
    requires start % MaxPerParagraph == 0 && start < end <= |sentences| && end - start <= MaxPerParagraph
    ensures Paragraphs(sentences[..start]) + [Join(sentences[start..end], " ")] == Paragraphs(sentences[..end])
  {
    var group := sentences[start..end];
    ParagraphsAppend(sentences[..start], group);
    ParagraphsOfGroup(group);
    assert sentences[..start] + group == sentences[..end];
  }

  /** Paragraph `k` is the join of the slice `sentences.slice(3 * k, 3 * k + 3)`. */
  lemma ParagraphIsSlice(sentences: seq<string>, k: nat)
    requires k < |Paragraphs(sentences)|
    ensures Paragraphs(sentences)[k]
         == Join(sentences[3 * k..if 3 * k + 3 <= |sentences| then 3 * k + 3 else |sentences|], " ")
  {
    GroupIsSlice(sentences, k);
  }

  /** The loop of assets/js/app.js: `for (i = 0; i < n; i += 3)` pushing the
      joined slice `sentences.slice(i, i + 3)`. */
  method GroupByStride(sentences: seq<string>) returns (paragraphs: seq<string>)
    ensures paragraphs == Paragraphs(sentences)
  {
    paragraphs := [];
    var i := 0;
    while i < |sentences|
      invariant 0 <= i <= |sentences| && i % MaxPerParagraph == 0
      invariant paragraphs == Paragraphs(sentences[..i])
      decreases |sentences| - i
    {
      if i + MaxPerParagraph > |sentences| {
        NextParagraph(sentences, i, |sentences|);
        paragraphs := paragraphs + [Join(sentences[i..], " ")];
        assert sentences[..|sentences|] == sentences;
        return;
      }
      assert (i + MaxPerParagraph) % MaxPerParagraph == 0;
      NextParagraph(sentences, i, i + MaxPerParagraph);
      paragraphs := paragraphs + [Join(sentences[i..i + MaxPerParagraph], " ")];
      i := i + MaxPerParagraph;
    }
    assert sentences[..i] == sentences;
  }

  /** The loop of api/app.js: `forEach` pushing each sentence into
      `currentGroup`, which is joined and emptied once it holds three, and a
      last push of what is left in it. */
  method GroupByCollect(sentences: seq<string>) returns (paragraphs: seq<string>)
    ensures paragraphs == Paragraphs(sentences)
  {
    paragraphs := [];
    var currentGroup: seq<string> := [];
    var i := 0;
    ghost var start := 0;
    while i < |sentences|
      invariant 0 <= start <= i <= |sentences| && start % MaxPerParagraph == 0
      invariant i - start < MaxPerParagraph
      invariant currentGroup == sentences[start..i]
      invariant paragraphs == Paragraphs(sentences[..start])
      decreases |sentences| - i
    {
      assert sentences[start..i + 1] == currentGroup + [sentences[i]];
      currentGroup := currentGroup + [sentences[i]];
      i := i + 1;
      if |currentGroup| >= MaxPerParagraph {
        assert i == start + MaxPerParagraph && i % MaxPerParagraph == 0;
        NextParagraph(sentences, start, i);
        paragraphs := paragraphs + [Join(currentGroup, " ")];
        assert paragraphs == Paragraphs(sentences[..i]);
        currentGroup := [];
        start := i;
      }
    }
    if |currentGroup| > 0 {
      NextParagraph(sentences, start, i);
      assert sentences[..i] == sentences;
      paragraphs := paragraphs + [Join(currentGroup, " ")];
    } else {
      assert sentences[..start] == sentences;
    }
  }

  lemma ParagraphsAreSlices(sentences: seq<string>)
    ensures forall k :: 0 <= k < |Paragraphs(sentences)| ==>
      Paragraphs(sentences)[k]
        == Join(sentences[3 * k..if 3 * k + 3 <= |sentences| then 3 * k + 3 else |sentences|], " ")
  {
    forall k | 0 <= k < |Paragraphs(sentences)|
      ensures Paragraphs(sentences)[k]
           == Join(sentences[3 * k..if 3 * k + 3 <= |sentences| then 3 * k + 3 else |sentences|], " ")
    {
      ParagraphIsSlice(sentences, k);
    }
  }

  /** What the panel shows. */
  datatype View = Placeholder | Shown(paragraphs: seq<string>)

  /** `setTranscript(rawText)` given the cleaned text and its sentences: the
      placeholder for a blank text or one the cleanup empties; the whole
      cleaned text as one paragraph when the split yields no sentence;
      otherwise the paragraphs of three sentences. */
  function Render(rawText: string, cleaned: string, sentences: seq<string>): (r: View)
    ensures r == Placeholder <==> Trim(rawText) == "" || cleaned == ""
    ensures r.Shown? && sentences == [] ==> r.paragraphs == [cleaned]
    ensures r.Shown? && sentences != [] ==>
      |r.paragraphs| == (|sentences| + MaxPerParagraph - 1) / MaxPerParagraph
      && forall k :: 0 <= k < |r.paragraphs| ==>
           r.paragraphs[k] == Join(sentences[3 * k..if 3 * k + 3 <= |sentences| then 3 * k + 3 else |sentences|], " ")
  {
    if Trim(rawText) == "" || cleaned == "" then Placeholder
    else if sentences == [] then Shown([cleaned])
    else
      ParagraphsAreSlices(sentences);
      Shown(Paragraphs(sentences))
  }
}
