/** The speech-generation endpoint (api/generate.py, which is JavaScript despite
    its name): request validation, the `[cheering]` normaliser that leaves one
    interlude marker in the generated speech, the split of the speech into the
    segments the page plays, and the per-segment text-to-speech loop. */
module Generate {
  import opened Text

  /** The interlude marker, as the normaliser writes it. */
  const Marker := "[cheering]"

  /** ASCII lower-casing: the only case folding a non-unicode `/i` JavaScript
      regex applies to the letters of `cheering`. */
  function LowerAscii(c: char): char
  {
    if 'A' <= c <= 'Z' then (c as int + 32) as char else c
  }

  /** `/\[cheering\]/i` matches at the start of `s`. */
  predicate MarkerAt(s: string)
  {
    |s| >= 10 && LowerAscii(s[0]) == '[' && LowerAscii(s[1]) == 'c' && LowerAscii(s[2]) == 'h'
    && LowerAscii(s[3]) == 'e' && LowerAscii(s[4]) == 'e' && LowerAscii(s[5]) == 'r'
    && LowerAscii(s[6]) == 'i' && LowerAscii(s[7]) == 'n' && LowerAscii(s[8]) == 'g'
    && LowerAscii(s[9]) == ']'
  }

  /** The number of matches of `/\[cheering\]/gi` in `s` (`text.match(...)`):
      the scan goes left to right and resumes after each match. */
  function Markers(s: string): nat
    decreases |s|
  {
    if |s| < 10 then 0
    else if MarkerAt(s) then 1 + Markers(s[10..])
    else Markers(s[1..])
  }

  // ---------------------------------------------------------------------------
  // How the marker count behaves under concatenation

  /** A window that reaches a `[` at a position other than its first cannot be
      a match: the marker holds `[` only at its start. */
  lemma NoMatchIntoBracket(a: string, rest: string)
    requires 0 < |a| < 10 && rest != [] && LowerAscii(rest[0]) == '['
    ensures !MarkerAt(a + rest)
  {
    assert (a + rest)[|a|] == rest[0];
  }

  /** Whether a match starts here depends only on the first ten characters. */
  lemma SameStart(s: string, t: string)
    requires |s| >= 10 && |t| >= 10 && s[..10] == t[..10]
    ensures MarkerAt(s) == MarkerAt(t)
  {
    assert forall k | 0 <= k < 10 :: s[k] == s[..10][k] && t[k] == t[..10][k];
  }

  /** A text without matches starts with no match, and its tail has none. */
  lemma NoMatchTail(a: string)
    requires Markers(a) == 0 && a != []
    ensures !MarkerAt(a) && Markers(a[1..]) == 0
  {
  }

  /** A space cannot be part of a marker, so a space splits the count. */
  lemma {:induction false} MarkersAroundSpace(a: string, b: string)
    ensures Markers(a + " " + b) == Markers(a) + Markers(b)
    decreases |a|
  {
    var s := a + " " + b;
    if |s| < 10 {
    } else if |a| >= 10 && MarkerAt(a) {
      assert s[..10] == a[..10];
      assert s[10..] == a[10..] + " " + b;
      MarkersAroundSpace(a[10..], b);
    } else if a == [] {
      assert s[1..] == b;
    } else {
      assert !MarkerAt(s) by {
        if |a| < 10 {
          assert s[|a|] == ' ';
        } else {
          assert s[..10] == a[..10];
        }
      }
      assert s[1..] == a[1..] + " " + b;
      MarkersAroundSpace(a[1..], b);
    }
  }

  /** A match `w` spliced between `a` and `b` adds exactly one to the count: no
      match in `a` can run into `w`, whose first character is `[`. */
  lemma {:induction false} MarkersAroundMatch(a: string, w: string, b: string)
    requires |w| == 10 && MarkerAt(w)
    ensures Markers(a + w + b) == Markers(a) + 1 + Markers(b)
    decreases |a|
  {
    var s := a + w + b;
    if a == [] {
      assert s[..10] == w;
      assert s[10..] == b;
    } else if |a| >= 10 && MarkerAt(a) {
      assert s[..10] == a[..10];
      assert s[10..] == a[10..] + w + b;
      MarkersAroundMatch(a[10..], w, b);
    } else {
      assert !MarkerAt(s) by {
        if |a| < 10 {
          assert s[|a|] == w[0];
        } else {
          assert s[..10] == a[..10];
        }
      }
      assert s[1..] == a[1..] + w + b;
      MarkersAroundMatch(a[1..], w, b);
    }
  }

  /** A text without matches joined by spaces has no matches. */
  lemma {:induction false} JoinWithoutMarkers(parts: seq<string>)
    requires forall i :: 0 <= i < |parts| ==> Markers(parts[i]) == 0
    ensures Markers(Join(parts, " ")) == 0
  {
    if |parts| > 1 {
      JoinWithoutMarkers(parts[1..]);
      MarkersAroundSpace(parts[0], Join(parts[1..], " "));
    }
  }

  // ---------------------------------------------------------------------------
  // The first match

  /** A first match found in the tail of a text that does not start with one
      is the text's first match, one place further on. */
  lemma FirstMarkerStep(s: string, j: nat)
    requires |s| >= 10 && !MarkerAt(s) && j + 10 <= |s| - 1
    requires MarkerAt(s[1..][j..]) && Markers(s[1..][..j]) == 0
    requires Markers(s[1..]) == 1 + Markers(s[1..][j + 10..])
    ensures MarkerAt(s[1 + j..]) && Markers(s[..1 + j]) == 0
    ensures Markers(s) == 1 + Markers(s[1 + j + 10..])
  {
    assert s[1..][j..] == s[1 + j..];
    assert s[1..][j + 10..] == s[1 + j + 10..];
    var p := s[..1 + j];
    if |p| >= 10 {
      assert p[..10] == s[..10];
      SameStart(p, s);
      assert p[1..] == s[1..][..j];
    }
  }

  /** The position of the first match of the left-to-right scan. Nothing before
      it matches, and the matches after it are all the others. */
  function FirstMarker(s: string): (i: nat)
    requires Markers(s) > 0
    ensures i + 10 <= |s| && MarkerAt(s[i..])
    ensures Markers(s[..i]) == 0
    ensures Markers(s) == 1 + Markers(s[i + 10..])
    decreases |s|
  {
    if MarkerAt(s) then 0
    else
      var j := FirstMarker(s[1..]);
      FirstMarkerStep(s, j);
      1 + j
  }

  // ---------------------------------------------------------------------------
  // Replacing matches

  /** `s.replace(/\[cheering\]/gi, cb)` where `cb` returns `[cheering]` while its
      `first` flag is set (and clears it) and the empty string afterwards. With
      `first` false this is the plain deletion `s.replace(/.../gi, '')`. */
  function ReplaceMarkers(s: string, first: bool): string
    decreases |s|
  {
    if |s| < 10 then s
    else if MarkerAt(s) then (if first then Marker else "") + ReplaceMarkers(s[10..], false)
    else [s[0]] + ReplaceMarkers(s[1..], first)
  }

  /** Each deleted match takes its ten characters with it. */
  lemma {:induction false} ReplaceLength(s: string, first: bool)
    ensures |ReplaceMarkers(s, first)|
         == |s| - 10 * Markers(s) + (if first && Markers(s) > 0 then 10 else 0)
    decreases |s|
  {
    if |s| >= 10 {
      if MarkerAt(s) {
        ReplaceLength(s[10..], false);
      } else {
        ReplaceLength(s[1..], first);
      }
    }
  }

  /** Before the first match the scan finds no match, and moving one character
      on keeps that so. */
  lemma BeforeFirst(s: string, i: nat)
    requires 0 < i && i + 10 <= |s| && MarkerAt(s[i..]) && Markers(s[..i]) == 0
    ensures !MarkerAt(s)
    ensures Markers(s[1..][..i - 1]) == 0
  {
    if i < 10 {
      assert s[i..][0] == s[i];
    } else {
      SameStart(s, s[..i]);
    }
    NoMatchTail(s[..i]);
    assert s[..i][1..] == s[1..][..i - 1];
  }

  /** Where no match starts, the replacement copies the first character. */
  lemma ReplaceSkips(s: string, first: bool)
    requires s != [] && !(|s| >= 10 && MarkerAt(s))
    ensures ReplaceMarkers(s, first) == [s[0]] + ReplaceMarkers(s[1..], first)
  {
    if |s| < 10 {
      assert s == [s[0]] + s[1..];
    }
  }

  lemma PrefixCons(s: string, i: nat)
    requires 0 < i <= |s|
    ensures [s[0]] + s[1..][..i - 1] == s[..i]
  {
  }

  /** Replacing in `s`, whose first match starts at `i`, leaves the text before
      it alone, replaces that match, and goes on after it with the flag cleared. */
  lemma {:induction false} ReplaceAtFirst(s: string, i: nat, first: bool)
    requires i + 10 <= |s| && MarkerAt(s[i..]) && Markers(s[..i]) == 0
    ensures ReplaceMarkers(s, first) == s[..i] + (if first then Marker else "") + ReplaceMarkers(s[i + 10..], false)
    decreases i
  {
    if i == 0 {
      assert s[i..] == s;
    } else {
      BeforeFirst(s, i);
      var t := s[1..];
      assert t[i - 1..] == s[i..];
      assert t[i - 1 + 10..] == s[i + 10..];
      ReplaceAtFirst(t, i - 1, first);
      ReplaceSkips(s, first);
      PrefixCons(s, i);
    }
  }

  /** The same, for a text written as `a + w + b` with `a` free of matches and
      `w` a match. */
  lemma ReplaceAroundMatch(a: string, w: string, b: string, first: bool)
    requires |w| == 10 && MarkerAt(w) && Markers(a) == 0
    ensures ReplaceMarkers(a + w + b, first) == a + (if first then Marker else "") + ReplaceMarkers(b, false)
  {
    var s := a + w + b;
    assert s[..|a|] == a;
    assert s[|a|..][..10] == w;
    SameStart(s[|a|..], w);
    assert s[|a| + 10..] == b;
    ReplaceAtFirst(s, |a|, first);
  }

  /** With several matches, the callback keeps the first (written in lower case)
      and deletes every later one. */
  lemma KeepFirstDeletesLater(s: string)
    requires Markers(s) > 0
    ensures ReplaceMarkers(s, true)
         == s[..FirstMarker(s)] + Marker + ReplaceMarkers(s[FirstMarker(s) + 10..], false)
  {
    ReplaceAtFirst(s, FirstMarker(s), true);
  }

  /** A match at position `i` of the scan: the callback's value, then the
      scan goes on ten characters later with the flag cleared. */
  lemma ScanMatch(text: string, i: nat, first: bool, out: string)
    requires i + 10 <= |text| && MarkerAt(text[i..])
    requires out + ReplaceMarkers(text[i..], first) == ReplaceMarkers(text, true)
    ensures (out + (if first then Marker else "")) + ReplaceMarkers(text[i + 10..], false) == ReplaceMarkers(text, true)
  {
    assert text[i..][10..] == text[i + 10..];
  }

  /** No match at position `i`: the character is copied, and the scan goes on
      at the next one. */
  lemma ScanChar(text: string, i: nat, first: bool, out: string)
    requires i < |text| && !(i + 10 <= |text| && MarkerAt(text[i..]))
    requires out + ReplaceMarkers(text[i..], first) == ReplaceMarkers(text, true)
    ensures (out + [text[i]]) + ReplaceMarkers(text[i + 1..], first) == ReplaceMarkers(text, true)
  {
    var rest := text[i..];
    assert rest[1..] == text[i + 1..];
    ReplaceSkips(rest, first);
  }

  /** The `replace` scan with its callback, as the endpoint runs it: the scan
      walks the text, and at each match the callback returns `[cheering]`
      while its `first` flag is set, clearing the flag, and the empty string
      afterwards. The result is the replacement function's. */
  method KeepFirstMarker(text: string) returns (out: string)
    ensures out == ReplaceMarkers(text, true)
  {
    var first := true;
    var i := 0;
    out := "";
    assert text[0..] == text;
    while i < |text|
      invariant 0 <= i <= |text|
      invariant out + ReplaceMarkers(text[i..], first) == ReplaceMarkers(text, true)
      decreases |text| - i
    {
      if i + 10 <= |text| && MarkerAt(text[i..]) {
        ScanMatch(text, i, first, out);
        out := out + (if first then Marker else "");
        first := false;
        i := i + 10;
      } else {
        ScanChar(text, i, first, out);
        out := out + [text[i]];
        i := i + 1;
      }
    }
    assert text[i..] == [];
  }

  /** Deletes matches until none is left: a deletion can bring the two halves of
      a broken marker together into a new match, so one pass is not enough. */
  function Purge(s: string): (r: string)
    ensures Markers(r) == 0
    decreases |s|
  {
    if Markers(s) == 0 then s
    else
      ReplaceLength(s, false);
      Purge(ReplaceMarkers(s, false))
  }

  // ---------------------------------------------------------------------------
  // The normaliser

  /** What the sentence split yields for a text without markers: pieces without
      markers. */
  predicate SentencesWithoutMarkers(sentences: seq<string>)
  {
    forall i :: 0 <= i < |sentences| ==> Markers(sentences[i]) == 0
  }

  /** The marker inserted into a marker-free text: as a sentence of its own at
      index floor(n/2) when there are more than two sentences, otherwise
      appended as ` [cheering]`. `sentences` is `text.split(/(?<=[.!?])\s+/)`
      without its empty strings. */
  function InsertMarker(text: string, sentences: seq<string>): string
  {
    if |sentences| > 2 then
      var mid := |sentences| / 2;
      Join(sentences[..mid] + [Marker] + sentences[mid..], " ")
    else text + " [cheering]"
  }

  /** The normaliser as written: insert a marker when there is none, keep the
      first and delete the later ones when there are several, otherwise leave
      the text alone. */
  function Normalise(text: string, sentences: seq<string>): string
  {
    var n := Markers(text);
    if n == 0 then InsertMarker(text, sentences)
    else if n > 1 then ReplaceMarkers(text, true)
    else text
  }

  /** The normaliser as intended: the same, except that after the first marker
      every marker is removed, including those a deletion forms. */
  function NormaliseIntended(text: string, sentences: seq<string>): string
  {
    var n := Markers(text);
    if n == 0 then InsertMarker(text, sentences)
    else if n > 1 then
      var i := FirstMarker(text);
      text[..i] + Marker + Purge(text[i + 10..])
    else text
  }

  /** Inserting into a marker-free text leaves exactly one marker. */
  lemma InsertMarkerLeavesOne(text: string, sentences: seq<string>)
    requires Markers(text) == 0 && SentencesWithoutMarkers(sentences)
    ensures Markers(InsertMarker(text, sentences)) == 1
  {
    assert Markers(Marker) == 1 by {
      assert MarkerAt(Marker);
      assert Markers(Marker[10..]) == 0;
    }
    if |sentences| > 2 {
      var mid := |sentences| / 2;
      var left, right := sentences[..mid], sentences[mid..];
      assert sentences[..mid] + [Marker] + sentences[mid..] == left + ([Marker] + right);
      JoinAppend(left, [Marker] + right, " ");
      assert ([Marker] + right)[1..] == right;
      assert Join([Marker] + right, " ") == Marker + " " + Join(right, " ");
      assert forall i | 0 <= i < |left| :: left[i] == sentences[i];
      assert forall i | 0 <= i < |right| :: right[i] == sentences[mid + i];
      JoinWithoutMarkers(left);
      JoinWithoutMarkers(right);
      MarkersAroundSpace(Marker, Join(right, " "));
      MarkersAroundSpace(Join(left, " "), Marker + " " + Join(right, " "));
      assert Join(left, " ") + " " + (Marker + " " + Join(right, " "))
          == InsertMarker(text, sentences);
    } else {
      assert text + " [cheering]" == text + " " + Marker;
      MarkersAroundSpace(text, Marker);
    }
  }

  /** A text with exactly one marker is left unchanged. */
  lemma OneMarkerUnchanged(text: string, sentences: seq<string>)
    requires Markers(text) == 1
    ensures Normalise(text, sentences) == text
  {
  }

  /** The intended normaliser always leaves exactly one marker. */
  lemma IntendedLeavesOneMarker(text: string, sentences: seq<string>)
    requires Markers(text) == 0 ==> SentencesWithoutMarkers(sentences)
    ensures Markers(NormaliseIntended(text, sentences)) == 1
  {
    var n := Markers(text);
    if n == 0 {
      InsertMarkerLeavesOne(text, sentences);
    } else if n > 1 {
      var i := FirstMarker(text);
      assert MarkerAt(Marker);
      MarkersAroundMatch(text[..i], Marker, Purge(text[i + 10..]));
    }
  }

  // ---------------------------------------------------------------------------
  // Splitting into parts

  /** `s.split(/\[cheering\]/i)`: the pieces between the matches of the scan. */
  function SplitMarkers(s: string): (r: seq<string>)
    ensures |r| == Markers(s) + 1
    decreases |s|
  {
    if |s| < 10 then [s]
    else if MarkerAt(s) then [""] + SplitMarkers(s[10..])
    else
      var rest := SplitMarkers(s[1..]);
      [[s[0]] + rest[0]] + rest[1..]
  }

  /** Splitting `a + w + b`, where `a` holds no match and `w` is one, yields `a`
      and then the pieces of `b`. */
  lemma {:induction false} SplitAroundMatch(a: string, w: string, b: string)
    requires |w| == 10 && MarkerAt(w) && Markers(a) == 0
    ensures SplitMarkers(a + w + b) == [a] + SplitMarkers(b)
    decreases |a|
  {
    var s := a + w + b;
    if a == [] {
      assert s[..10] == w;
      assert s[10..] == b;
    } else {
      assert !MarkerAt(s) by {
        if |a| < 10 {
          assert s[|a|] == w[0];
        } else {
          assert s[..10] == a[..10];
        }
      }
      assert s[1..] == a[1..] + w + b;
      assert Markers(a[1..]) == 0;
      SplitAroundMatch(a[1..], w, b);
      assert [s[0]] + a[1..] == a;
    }
  }

  /** `.map(p => p.trim()).filter(Boolean)`: the trimmed pieces, in order,
      without the empty ones. */
  function TrimmedNonEmpty(pieces: seq<string>): (r: seq<string>)
    ensures |r| <= |pieces|
    ensures forall i :: 0 <= i < |r| ==> r[i] != [] && !IsJsSpace(r[i][0]) && !IsJsSpace(r[i][|r[i]| - 1])
  {
    if pieces == [] then []
    else
      var t := Trim(pieces[0]);
      var rest := TrimmedNonEmpty(pieces[1..]);
      if t == "" then rest else [t] + rest
  }

  /** The speech segments: the text split on the marker, trimmed, without the
      empty pieces. */
  function Parts(text: string): (r: seq<string>)
    ensures |r| <= Markers(text) + 1
  {
    TrimmedNonEmpty(SplitMarkers(text))
  }

  // ---------------------------------------------------------------------------
  // A deletion can form a new marker

  /** A text without matches is left alone by the replacement. */
  lemma {:induction false} ReplaceNone(s: string, first: bool)
    requires Markers(s) == 0
    ensures ReplaceMarkers(s, first) == s
    decreases |s|
  {
    if |s| >= 10 {
      ReplaceNone(s[1..], first);
      assert [s[0]] + s[1..] == s;
    }
  }

  /** A text without matches splits into itself. */
  lemma {:induction false} SplitNone(s: string)
    requires Markers(s) == 0
    ensures SplitMarkers(s) == [s]
    decreases |s|
  {
    if |s| >= 10 {
      SplitNone(s[1..]);
      assert [s[0]] + s[1..] == s;
    }
  }

  /** Pieces that are not all white space each give one segment. */
  lemma {:induction false} VisiblePiecesKept(pieces: seq<string>)
    requires forall i :: 0 <= i < |pieces| ==> !AllSpace(pieces[i])
    ensures |TrimmedNonEmpty(pieces)| == |pieces|
  {
    if pieces != [] {
      VisiblePiecesKept(pieces[1..]);
    }
  }

  /** Deleting the only match of `a + Marker + b` joins `a` and `b`. */
  lemma {:induction false} DeleteOneMatch(a: string, b: string)
    requires Markers(a) == 0 && Markers(b) == 0
    ensures ReplaceMarkers(a + Marker + b, false) == a + b
  {
    assert MarkerAt(Marker);
    ReplaceAroundMatch(a, Marker, b, false);
    ReplaceNone(b, false);
  }

  /** Two matches: one after `x`, one inside the broken marker `p + q`. */
  lemma {:induction false} NestedCount(x: string, y: string, z: string, p: string, q: string)
    requires Markers(x) == 0 && Markers(y + p) == 0 && Markers(q + z) == 0
    ensures Markers(x + Marker + y + p + Marker + q + z) == 2
  {
    assert MarkerAt(Marker);
    var inner := (y + p) + Marker + (q + z);
    assert x + Marker + y + p + Marker + q + z == x + Marker + inner;
    MarkersAroundMatch(y + p, Marker, q + z);
    MarkersAroundMatch(x, Marker, inner);
  }

  lemma RegroupNested(x: string, y: string, z: string, p: string, q: string)
    ensures x + Marker + y + p + Marker + q + z == x + Marker + ((y + p) + Marker + (q + z))
  {
  }

  lemma RegroupBroken(y: string, z: string, p: string, q: string)
    requires p + q == Marker
    ensures (y + p) + (q + z) == y + Marker + z
  {
  }

  /** The first match is kept; deleting the second brings `p` and `q` together. */
  lemma {:induction false} NestedReplace(x: string, y: string, z: string, p: string, q: string)
    requires p + q == Marker
    requires Markers(x) == 0 && Markers(y + p) == 0 && Markers(q + z) == 0
    ensures ReplaceMarkers(x + Marker + y + p + Marker + q + z, true) == x + Marker + (y + Marker + z)
  {
    RegroupNested(x, y, z, p, q);
    assert MarkerAt(Marker);
    ReplaceAroundMatch(x, Marker, (y + p) + Marker + (q + z), true);
    DeleteOneMatch(y + p, q + z);
    RegroupBroken(y, z, p, q);
  }

  /** Two whole markers split the text into the three pieces around them. */
  lemma {:induction false} TwoMarkersSplit(x: string, y: string, z: string)
    requires Markers(x) == 0 && Markers(y) == 0 && Markers(z) == 0
    ensures Markers(x + Marker + (y + Marker + z)) == 2
    ensures SplitMarkers(x + Marker + (y + Marker + z)) == [x, y, z]
  {
    assert MarkerAt(Marker);
    MarkersAroundMatch(y, Marker, z);
    MarkersAroundMatch(x, Marker, y + Marker + z);
    SplitAroundMatch(y, Marker, z);
    SplitAroundMatch(x, Marker, y + Marker + z);
    SplitNone(z);
  }

  /** As written, the normaliser leaves two markers in a text where a whole
      marker sits inside a broken one (`p + q` spells the marker): it keeps the
      first, deletes the inner one, and so joins `p` and `q` into a new one. */
  lemma DeletionFormsMarker(x: string, y: string, z: string, p: string, q: string, sentences: seq<string>)
    requires p + q == Marker
    requires Markers(x) == 0 && Markers(y) == 0 && Markers(z) == 0
    requires Markers(y + p) == 0 && Markers(q + z) == 0
    ensures Markers(x + Marker + y + p + Marker + q + z) == 2
    ensures Normalise(x + Marker + y + p + Marker + q + z, sentences) == x + Marker + (y + Marker + z)
    ensures Markers(Normalise(x + Marker + y + p + Marker + q + z, sentences)) == 2
    ensures SplitMarkers(Normalise(x + Marker + y + p + Marker + q + z, sentences)) == [x, y, z]
  {
    NestedCount(x, y, z, p, q);
    NestedReplace(x, y, z, p, q);
    TwoMarkersSplit(x, y, z);
  }

  /** Concrete replies that leave two markers and so three speech segments:
      with `a`, `b`, `c` = `A`, `B`, `C` the reply is
      `A [cheering] B [che[cheering]ering] C`. */
  lemma NestedExample(a: char, b: char, c: char)
    requires 'A' <= a <= 'Z' && 'A' <= b <= 'Z' && 'A' <= c <= 'Z'
    ensures Markers([a, ' '] + Marker + [' ', b, ' '] + "[che" + Marker + "ering]" + [' ', c]) == 2
    ensures Markers(Normalise([a, ' '] + Marker + [' ', b, ' '] + "[che" + Marker + "ering]" + [' ', c], [])) == 2
    ensures |Parts(Normalise([a, ' '] + Marker + [' ', b, ' '] + "[che" + Marker + "ering]" + [' ', c], []))| == 3
  {
    var x, y, z := [a, ' '], [' ', b, ' '], [' ', c];
    var p, q := "[che", "ering]";
    assert p + q == Marker;
    assert Markers(y + p) == 0 by { assert |y + p| == 7; }
    assert Markers(q + z) == 0 by { assert |q + z| == 8; }
    DeletionFormsMarker(x, y, z, p, q, []);
    assert !AllSpace(x) by { assert !IsJsSpace(x[0]); }
    assert !AllSpace(y) by { assert !IsJsSpace(y[1]); }
    assert !AllSpace(z) by { assert !IsJsSpace(z[1]); }
    VisiblePiecesKept([x, y, z]);
  }

  /** The intended normaliser leaves one marker, so at most two segments. */
  lemma IntendedAtMostTwoParts(text: string, sentences: seq<string>)
    requires Markers(text) == 0 ==> SentencesWithoutMarkers(sentences)
    ensures 1 <= |SplitMarkers(NormaliseIntended(text, sentences))| == 2
    ensures |Parts(NormaliseIntended(text, sentences))| <= 2
  {
    IntendedLeavesOneMarker(text, sentences);
  }

  // ---------------------------------------------------------------------------
  // The request handler

  /** The value of `prompt` in the parsed body: missing (or `null`), a string, or
      some other JSON value, which has no `trim` method. */
  datatype PromptField = Absent | Str(text: string) | NotAString

  /** What the handler reads of a request; `body` is `None` when `req.body` is
      `undefined` or `null`, which the destructuring `const { prompt }` rejects. */
  datatype Request = Request(verb: string, body: Option<PromptField>)

  /** The three settings read from `process.env`. */
  datatype Env = Env(groqKey: Option<string>, elevenKey: Option<string>, voiceId: Option<string>)

  /** The reply of the chat-completion service: a failed call, or the
      `choices[0].message.content` it returned (`None` when absent). */
  datatype Completion = CompletionFailed | Completed(content: Option<string>)

  /** Why a request failed. `Crashed` is an exception the handler's `catch`
      turns into a 500 (a TypeError on a missing body or a non-string prompt). */
  datatype Failure = NoPrompt | MissingConfig | Crashed | UpstreamFailed | NoSpeechText | EmptyAfterProcessing

  datatype Body = MethodNotAllowed | Error(failure: Failure) | Speech(audios: seq<string>, transcript: string)

  datatype Response = Response(status: nat, body: Body)

  /** JavaScript truthiness of an environment setting. */
  predicate Truthy(v: Option<string>)
  {
    v.Some? && v.value != ""
  }

  predicate PromptUsable(req: Request)
  {
    req.body.Some? && req.body.value.Str? && Trim(req.body.value.text) != ""
  }

  predicate Configured(env: Env)
  {
    Truthy(env.groqKey) && Truthy(env.elevenKey) && Truthy(env.voiceId)
  }

  /** The checks before any service is called: 405 for a method other than
      POST, 400 for a missing or blank prompt, 500 for missing configuration
      (or a body the destructuring throws on), nothing when the request may
      proceed. */
  function Validate(req: Request, env: Env): (r: Option<Response>)
    ensures r.Some? && r.value.status == 405 <==> req.verb != "POST"
    ensures r.Some? && r.value.status == 400
        <==> req.verb == "POST" && req.body.Some?
             && (req.body.value.Absent? || (req.body.value.Str? && Trim(req.body.value.text) == ""))
    ensures req.verb == "POST" && PromptUsable(req) && !Configured(env)
        ==> r == Some(Response(500, Error(MissingConfig)))
    ensures r.None? <==> req.verb == "POST" && PromptUsable(req) && Configured(env)
    ensures r.Some? ==> r.value.status in {400, 405, 500}
  {
    if req.verb != "POST" then Some(Response(405, MethodNotAllowed))
    else match req.body
      case None => Some(Response(500, Error(Crashed)))
      case Some(Absent) => Some(Response(400, Error(NoPrompt)))
      case Some(NotAString) => Some(Response(500, Error(Crashed)))
      case Some(Str(p)) =>
        if Trim(p) == "" then Some(Response(400, Error(NoPrompt)))
        else if !Configured(env) then Some(Response(500, Error(MissingConfig)))
        else None
  }

  /** The loop over the parts: one text-to-speech call per part, in order; the
      first failure aborts the request. `tts` stands for the call and the
      base64 encoding of its audio (`None` when the call fails). */
  method Synthesise(parts: seq<string>, tts: string -> Option<string>) returns (audios: Option<seq<string>>)
    ensures audios.Some? <==> forall i :: 0 <= i < |parts| ==> tts(parts[i]).Some?
    ensures audios.Some? ==> |audios.value| == |parts|
    ensures audios.Some? ==> forall i :: 0 <= i < |parts| ==> audios.value[i] == tts(parts[i]).value
  {
    var acc: seq<string> := [];
    var i := 0;
    while i < |parts|
      invariant 0 <= i <= |parts| && |acc| == i
      invariant forall k :: 0 <= k < i ==> tts(parts[k]).Some? && acc[k] == tts(parts[k]).value
    {
      var audio := tts(parts[i]);
      if audio.None? {
        return None;
      }
      acc := acc + [audio.value];
      i := i + 1;
    }
    return Some(acc);
  }

  /** Both pages send the input's value trimmed, so a prompt a page sends
      passes the endpoint's blank check, which trims once more. */
  lemma SentPromptAccepted(draft: string, env: Env)
    requires Trim(draft) != "" && Configured(env)
    ensures Validate(Request("POST", Some(Str(Trim(draft)))), env).None?
  {
    TrimIdempotent(draft);
  }

  /** The handler around a normaliser: every error path, and a 200 reply
      whose transcript is `text` with one audio per part of it, in order. */
  method Respond(req: Request, env: Env, completion: Completion, text: string,
                 tts: string -> Option<string>) returns (resp: Response)
    ensures Validate(req, env).Some? ==> resp == Validate(req, env).value
    ensures resp.status in {200, 400, 405, 500}
    ensures resp.status == 200 <==>
      Validate(req, env).None? && completion.Completed? && completion.content.Some?
      && Trim(completion.content.value) != ""
      && Parts(text) != [] && forall i :: 0 <= i < |Parts(text)| ==> tts(Parts(text)[i]).Some?
    ensures resp.status == 200 ==>
      resp.body.Speech? && resp.body.transcript == text
      && |resp.body.audios| == |Parts(text)|
      && forall i :: 0 <= i < |resp.body.audios| ==> resp.body.audios[i] == tts(Parts(text)[i]).value
  {
    var rejected := Validate(req, env);
    if rejected.Some? {
      return rejected.value;
    }
    if completion.CompletionFailed? {
      return Response(500, Error(UpstreamFailed));
    }
    if completion.content.None? || Trim(completion.content.value) == "" {
      return Response(500, Error(NoSpeechText));
    }
    var parts := Parts(text);
    if parts == [] {
      return Response(500, Error(EmptyAfterProcessing));
    }
    var audios := Synthesise(parts, tts);
    if audios.None? {
      return Response(500, Error(UpstreamFailed));
    }
    return Response(200, Speech(audios.value, text));
  }

  /** The whole handler as written. `completion` is the chat service's reply;
      `cleaned` is what the clean-up regexes make of its trimmed content and
      `sentences` is the sentence split of `cleaned` (both regex passes are
      outside this model). A 200 reply carries the one-pass normalisation as
      transcript and one audio per part of it: at least one, and no more than
      one more than the markers left in it, which is more than two when the
      pass forms a new marker. */
  method Handle(req: Request, env: Env, completion: Completion, cleaned: string,
                sentences: seq<string>, tts: string -> Option<string>) returns (resp: Response)
    ensures Validate(req, env).Some? ==> resp == Validate(req, env).value
    ensures resp.status in {200, 400, 405, 500}
    ensures resp.status == 200 <==>
      Validate(req, env).None? && completion.Completed? && completion.content.Some?
      && Trim(completion.content.value) != ""
      && Parts(Normalise(cleaned, sentences)) != []
      && forall i :: 0 <= i < |Parts(Normalise(cleaned, sentences))| ==>
           tts(Parts(Normalise(cleaned, sentences))[i]).Some?
    ensures resp.status == 200 ==>
      resp.body.Speech? && resp.body.transcript == Normalise(cleaned, sentences)
      && 1 <= |resp.body.audios| == |Parts(resp.body.transcript)| <= Markers(resp.body.transcript) + 1
      && forall i :: 0 <= i < |resp.body.audios| ==>
           resp.body.audios[i] == tts(Parts(resp.body.transcript)[i]).value
  {
    resp := Respond(req, env, completion, Normalise(cleaned, sentences), tts);
  }

  /** The handler with the normaliser the comment at api/generate.py:40
      intends: a 200 reply carries one or two audios. */
  method HandleIntended(req: Request, env: Env, completion: Completion, cleaned: string,
                        sentences: seq<string>, tts: string -> Option<string>) returns (resp: Response)
    requires Markers(cleaned) == 0 ==> SentencesWithoutMarkers(sentences)
    ensures Validate(req, env).Some? ==> resp == Validate(req, env).value
    ensures resp.status in {200, 400, 405, 500}
    ensures resp.status == 200 <==>
      Validate(req, env).None? && completion.Completed? && completion.content.Some?
      && Trim(completion.content.value) != ""
      && Parts(NormaliseIntended(cleaned, sentences)) != []
      && forall i :: 0 <= i < |Parts(NormaliseIntended(cleaned, sentences))| ==>
           tts(Parts(NormaliseIntended(cleaned, sentences))[i]).Some?
    ensures resp.status == 200 ==>
      resp.body.Speech? && resp.body.transcript == NormaliseIntended(cleaned, sentences)
      && 1 <= |resp.body.audios| == |Parts(resp.body.transcript)| <= 2
      && forall i :: 0 <= i < |resp.body.audios| ==>
           resp.body.audios[i] == tts(Parts(resp.body.transcript)[i]).value
  {
    IntendedAtMostTwoParts(cleaned, sentences);
    resp := Respond(req, env, completion, NormaliseIntended(cleaned, sentences), tts);
  }
}
