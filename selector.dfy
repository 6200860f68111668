/** The clip selector `getRandomVideo`: it draws a clip of a shape, avoids the
    clip it drew last for that shape whenever there is another, and records the
    draw in a history capped at 20 entries. The page keeps its memory in two
    module-level variables; here the memory is one value and the draw is a
    function of it (the page's class updates its fields to match). */
module Selector {
  import opened Text
  import opened Classifier
  import opened Clips

  const HistoryCap := 20

  /** `lastVideoByShape` and `videoHistory`. */
  datatype Memory = Memory(lastByShape: map<Shape, string>, history: seq<string>)

  /** The memory `loadIdleVideo` restores: `{}` and `[]`. */
  const Fresh := Memory(map[], [])

  /** A draw of `Math.random()`. */
  type Unit = u: real | 0.0 <= u < 1.0

  /** `Math.floor(u * n)` for a draw `u` of `Math.random()`: an index of a
      list of length `n`. */
  function PickIndex(u: real, n: nat): (i: nat)
    requires 0.0 <= u < 1.0 && n > 0
    ensures i < n
    ensures i as real <= u * n as real < i as real + 1.0
  {
    assert u * n as real < n as real;
    (u * n as real).Floor
  }

  /** `s.filter(v => v !== x)`. */
  function Without(s: seq<string>, x: string): (r: seq<string>)
    ensures forall c :: c in r <==> c in s && c != x
    ensures |r| <= |s|
  {
    if s == [] then []
    else (if s[0] == x then [] else [s[0]]) + Without(s[1..], x)
  }

  /** Filtering one value out of a list without repeats drops at most one entry. */
  lemma {:induction false} WithoutDistinct(s: seq<string>, x: string)
    requires Distinct(s)
    ensures |Without(s, x)| >= |s| - 1
    ensures x !in s ==> |Without(s, x)| == |s|
  {
    if s != [] {
      assert Distinct(s[1..]) by {
        forall i, j | 0 <= i < j < |s[1..]| ensures s[1..][i] != s[1..][j] {
          assert s[1..][i] == s[i + 1] && s[1..][j] == s[j + 1];
        }
      }
      assert s[0] !in s[1..] by {
        forall i | 0 <= i < |s[1..]| ensures s[1..][i] != s[0] {
          assert s[1..][i] == s[i + 1];
        }
      }
      WithoutDistinct(s[1..], x);
    }
  }

  /** The clip last drawn for `shape`, when one is recorded and truthy. */
  function LastUsed(m: Memory, shape: Shape): Option<string>
  {
    if shape in m.lastByShape && m.lastByShape[shape] != "" then Some(m.lastByShape[shape]) else None
  }

  /** The candidates: the whole list, less the last-used clip when there is
      one and the list has more than one clip. */
  function Pool(videos: seq<string>, m: Memory, shape: Shape): (r: seq<string>)
    requires Distinct(videos)
    ensures forall c :: c in r ==> c in videos
    ensures videos != [] ==> r != []
    ensures |videos| > 1 && LastUsed(m, shape).Some? ==> LastUsed(m, shape).value !in r
  {
    var last := LastUsed(m, shape);
    if last.Some? && |videos| > 1 then
      WithoutDistinct(videos, last.value);
      Without(videos, last.value)
    else videos
  }

  /** `videoHistory.push(c)` followed by one `shift()` when the length exceeds
      the cap: the new clip is the newest entry, and at the cap the oldest
      entry is dropped. */
  function PushCapped(h: seq<string>, c: string): (r: seq<string>)
    ensures r != [] && r[|r| - 1] == c
    ensures |h| < HistoryCap ==> r == h + [c]
    ensures |h| >= HistoryCap ==> |r| == |h| && r[..|r| - 1] == h[1..]
    ensures |h| <= HistoryCap ==> |r| <= HistoryCap
  {
    var pushed := h + [c];
    if |pushed| > HistoryCap then
      assert pushed[1..][..|h| - 1] == h[1..];
      pushed[1..]
    else pushed
  }

  /** One call of `getRandomVideo(shape)` over the clip list `videos` and the
      draw `u`: the new memory and the clip, or `None` (`null`) with the memory
      untouched when the list is empty. */
  function Draw(videos: seq<string>, m: Memory, shape: Shape, u: real): (res: (Memory, Option<string>))
    requires 0.0 <= u < 1.0 && Distinct(videos)
    ensures videos == [] <==> res.1.None?
    ensures videos == [] ==> res.0 == m
    ensures res.1.Some? ==>
      res.1.value in videos
      && res.0.lastByShape == m.lastByShape[shape := res.1.value]
      && res.0.history == PushCapped(m.history, res.1.value)
    ensures res.1.Some? && |videos| > 1 && LastUsed(m, shape).Some?
        ==> res.1.value != LastUsed(m, shape).value
  {
    if videos == [] then (m, None)
    else
      var pool := Pool(videos, m, shape);
      var c := pool[PickIndex(u, |pool|)];
      (Memory(m.lastByShape[shape := c], PushCapped(m.history, c)), Some(c))
  }

  /** The clips of successive draws for one shape, one draw per entry of `us`. */
  function Draws(videos: seq<string>, m: Memory, shape: Shape, us: seq<Unit>): (r: seq<string>)
    requires Distinct(videos) && videos != []
    ensures |r| == |us|
    ensures forall i :: 0 <= i < |r| ==> r[i] in videos
    decreases |us|
  {
    if us == [] then []
    else
      var (m', c) := Draw(videos, m, shape, us[0]);
      [c.value] + Draws(videos, m', shape, us[1..])
  }

  /** A series of draws: the first clip, then the series from the memory
      the first draw leaves. */
  lemma DrawsStep(videos: seq<string>, m: Memory, shape: Shape, us: seq<Unit>)
    requires Distinct(videos) && videos != [] && us != []
    ensures Draws(videos, m, shape, us)[1..] == Draws(videos, Draw(videos, m, shape, us[0]).0, shape, us[1..])
    ensures Draws(videos, m, shape, us)[0] == Draw(videos, m, shape, us[0]).1.value
  {
  }

  /** Two draws in a row for a shape with two or more clips never give the
      same clip. */
  lemma NextDrawDiffers(videos: seq<string>, m: Memory, shape: Shape, u: real, v: real)
    requires Distinct(videos) && |videos| > 1 && "" !in videos
    requires 0.0 <= u < 1.0 && 0.0 <= v < 1.0
    ensures Draw(videos, Draw(videos, m, shape, u).0, shape, v).1.value != Draw(videos, m, shape, u).1.value
  {
    var d := Draw(videos, m, shape, u);
    assert LastUsed(d.0, shape) == Some(d.1.value);
  }

  /** The first two draws of a series differ. */
  lemma NoRepeatHead(videos: seq<string>, m: Memory, shape: Shape, us: seq<Unit>)
    requires Distinct(videos) && |videos| > 1 && "" !in videos
    requires |us| >= 2
    ensures Draws(videos, m, shape, us)[0] != Draws(videos, m, shape, us)[1]
  {
    var m' := Draw(videos, m, shape, us[0]).0;
    DrawsStep(videos, m, shape, us);
    DrawsStep(videos, m', shape, us[1..]);
    assert us[1..][0] == us[1];
    NextDrawDiffers(videos, m, shape, us[0], us[1]);
  }

  /** No entry of `r` equals the one after it. */
  predicate NoRepeats(r: seq<string>)
  {
    forall i :: 0 <= i < |r| - 1 ==> r[i] != r[i + 1]
  }

  /** A list whose first two entries differ and whose tail has no repeat has
      no repeat. */
  lemma NoRepeatsCons(r: seq<string>, rest: seq<string>)
    requires |r| >= 2 && r[1..] == rest && r[0] != r[1] && NoRepeats(rest)
    ensures NoRepeats(r)
  {
    forall i | 0 <= i < |r| - 1 ensures r[i] != r[i + 1] {
      if i > 0 {
        assert r[i] == rest[i - 1] && r[i + 1] == rest[i];
      }
    }
  }

  /** A series of draws for a shape with two or more clips has no repeat. */
  lemma {:induction false} DrawsNoRepeats(videos: seq<string>, m: Memory, shape: Shape, us: seq<Unit>)
    requires Distinct(videos) && |videos| > 1 && "" !in videos
    ensures NoRepeats(Draws(videos, m, shape, us))
    decreases |us|
  {
    if |us| >= 2 {
      var m' := Draw(videos, m, shape, us[0]).0;
      DrawsNoRepeats(videos, m', shape, us[1..]);
      NoRepeatHead(videos, m, shape, us);
      DrawsStep(videos, m, shape, us);
      NoRepeatsCons(Draws(videos, m, shape, us), Draws(videos, m', shape, us[1..]));
    }
  }

  /** However the draws fall, a shape with two or more clips never shows the
      same clip twice in a row, and the first draw avoids the clip recorded
      before the series. */
  lemma NoBackToBack(videos: seq<string>, m: Memory, shape: Shape, us: seq<Unit>)
    requires Distinct(videos) && |videos| > 1 && "" !in videos
    ensures forall i :: 0 <= i < |us| - 1 ==> Draws(videos, m, shape, us)[i] != Draws(videos, m, shape, us)[i + 1]
    ensures |us| > 0 && LastUsed(m, shape).Some? ==> Draws(videos, m, shape, us)[0] != LastUsed(m, shape).value
  {
    DrawsNoRepeats(videos, m, shape, us);
    if |us| > 0 {
      DrawsStep(videos, m, shape, us);
    }
  }

  /** The memory after successive draws for one shape. */
  function MemoryAfter(videos: seq<string>, m: Memory, shape: Shape, us: seq<Unit>): Memory
    requires Distinct(videos)
    decreases |us|
  {
    if us == [] then m
    else MemoryAfter(videos, Draw(videos, m, shape, us[0]).0, shape, us[1..])
  }

  /** The history never grows beyond the cap, whatever is drawn. */
  lemma {:induction false} HistoryStaysCapped(videos: seq<string>, m: Memory, shape: Shape, us: seq<Unit>)
    requires Distinct(videos) && |m.history| <= HistoryCap
    ensures |MemoryAfter(videos, m, shape, us).history| <= HistoryCap
    decreases |us|
  {
    if us != [] {
      HistoryStaysCapped(videos, Draw(videos, m, shape, us[0]).0, shape, us[1..]);
    }
  }
}
