/**
 * The undo history as values: a sequence of snapshots and the index of the
 * current one. Recording a snapshot keeps everything up to and including the
 * current index, appends the snapshot, and evicts the oldest entry when more
 * than `MaxHistory` would remain.
 */
module History {

  /** The most snapshots the history keeps. */
  const MaxHistory: nat := 50

  /** The history after recording `c` while the current index is `i` (-1 for an empty history). */
  function Record<T>(h: seq<T>, i: int, c: T): (r: seq<T>)
    requires -1 <= i < |h|
    ensures |r| == if i + 2 <= MaxHistory then i + 2 else i + 1
    ensures r[|r| - 1] == c
    // everything before the new entry is the tail of h[..i + 1]: the redo branch h[i + 1..] is gone
    ensures r[..|r| - 1] == h[i + 2 - |r| .. i + 1]
    // the entry before the new one is the snapshot that was current
    ensures 0 <= i ==> r[|r| - 2] == h[i]
  {
    var kept := h[..i + 1] + [c];
    assert kept[..i + 1] == h[..i + 1];
    if |kept| > MaxHistory then
      assert kept[1..][..i] == h[1..i + 1];
      kept[1..]
    else
      kept
  }

  /** Recording never lets a history within the bound grow past it, and the new entry is the current one. */
  lemma RecordBounded<T>(h: seq<T>, i: int, c: T)
    requires -1 <= i < |h| <= MaxHistory
    ensures 1 <= |Record(h, i, c)| <= MaxHistory
    ensures |Record(h, i, c)| <= i + 2
  {
  }

  /** The entry just before a new recording is the snapshot that was current: undo goes back to it. */
  lemma RecordThenUndo<T>(h: seq<T>, i: int, c: T)
    requires 0 <= i < |h| <= MaxHistory
    ensures |Record(h, i, c)| >= 2
    ensures Record(h, i, c)[|Record(h, i, c)| - 2] == h[i]
  {
  }

  /** The last `MaxHistory` entries of `s` (all of them when there are no more). */
  function Window<T>(s: seq<T>): (w: seq<T>)
    ensures |w| <= MaxHistory
    ensures |s| <= MaxHistory ==> w == s
    ensures |s| > MaxHistory ==> |w| == MaxHistory && w == s[|s| - MaxHistory..]
  {
    if |s| <= MaxHistory then s else s[|s| - MaxHistory..]
  }

  /**
   * The history after starting from `[init]` at index 0 and recording each
   * snapshot of `cs` in turn, with the index always at the newest entry.
   */
  function Replay<T>(init: T, cs: seq<T>): seq<T>
    decreases |cs|
  {
    if cs == [] then [init]
    else
      var h := Replay(init, cs[..|cs| - 1]);
      Record(h, |h| - 1, cs[|cs| - 1])
  }

  /** Recording at the newest entry of a window is the window of the extended sequence. */
  lemma RecordWindow<T>(s: seq<T>, c: T)
    requires s != []
    ensures Record(Window(s), |Window(s)| - 1, c) == Window(s + [c])
  {
    if |s| < MaxHistory {
      RecordShort(s, c);
    } else {
      RecordFull(s, c);
    }
  }

  /** Below the bound, recording at the newest entry appends. */
  lemma RecordShort<T>(s: seq<T>, c: T)
    requires 0 < |s| < MaxHistory
    ensures Record(s, |s| - 1, c) == s + [c]
  {
    var r := Record(s, |s| - 1, c);
    assert r[..|s|] == s;
    assert r == r[..|s|] + [c];
  }

  /** At the bound, recording at the newest entry drops the oldest of the newest `MaxHistory`. */
  lemma RecordFull<T>(s: seq<T>, c: T)
    requires |s| >= MaxHistory
    ensures Record(s[|s| - MaxHistory..], MaxHistory - 1, c) == (s + [c])[|s| + 1 - MaxHistory..]
  {
    var h := s[|s| - MaxHistory..];
    var r := Record(h, MaxHistory - 1, c);
    var w := (s + [c])[|s| + 1 - MaxHistory..];
    assert |r| == MaxHistory == |w|;
    forall k | 0 <= k < MaxHistory
      ensures r[k] == w[k]
    {
      if k < MaxHistory - 1 {
        assert r[k] == r[..MaxHistory - 1][k] == h[1..][k];
      }
    }
  }

  /** A sequence of recordings from a fresh history keeps exactly the newest `MaxHistory` snapshots. */
  lemma {:induction false} ReplayKeepsNewest<T>(init: T, cs: seq<T>)
    ensures Replay(init, cs) == Window([init] + cs)
    decreases |cs|
  {
    if cs != [] {
      var prefix := cs[..|cs| - 1];
      assert [init] + cs == ([init] + prefix) + [cs[|cs| - 1]];
      ReplayKeepsNewest(init, prefix);
      RecordWindow([init] + prefix, cs[|cs| - 1]);
    }
  }

  /**
   * Sixty recordings after the initial snapshot leave fifty entries, the
   * oldest of which is the snapshot of the eleventh recording.
   */
  lemma SixtyRecordings<T>(init: T, cs: seq<T>)
    requires |cs| == 60
    ensures |Replay(init, cs)| == MaxHistory
    ensures Replay(init, cs)[0] == cs[10]
    ensures Replay(init, cs)[MaxHistory - 1] == cs[59]
  {
    ReplayKeepsNewest(init, cs);
    WindowOfSixtyOne([init] + cs);
  }

  /** Of sixty-one snapshots, the window keeps the twelfth to the last. */
  lemma WindowOfSixtyOne<T>(s: seq<T>)
    requires |s| == 61
    ensures |Window(s)| == MaxHistory
    ensures Window(s)[0] == s[11]
    ensures Window(s)[MaxHistory - 1] == s[60]
  {
  }
}
