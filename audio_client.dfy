/** The receive-side audio path of the browser audio client (lib/AudioClient.js):
    rate conversion between the capture rate and the network rate, the
    waveform-similarity splice search, and the adaptive playout buffer that a
    fixed-size playback callback drains. */
module AudioClient {
  import opened Js
  import AudioRouterClient

  /** Samples handed to the playback callback per pull (`FRAME_SIZE`). */
  const FRAME_SIZE: nat := 512
  /** Width of the splice comparison window, in samples (`MATCH_WIN_SIZE`). */
  const MATCH_WIN_SIZE: nat := 8
  /** A candidate splice point matches when its sum of absolute differences is below this. */
  const MATCH_THRESHOLD: real := 2.0
  /** Frames shorter than this are never corrected. */
  const MIN_CORRECTABLE: nat := 64
  /** Target one-way buffering delay in milliseconds (`HOLD_OFF_MS`). */
  const HOLD_OFF_MS: nat := 30

  /** `Math.min(Math.max(x, -32768), 32767)`. */
  function Clamp16(x: int): (r: int)
    ensures IsInt16(r)
    ensures IsInt16(x) ==> r == x
  {
    var lo := if x < INT16_MIN then INT16_MIN else x;
    if lo > INT16_MAX then INT16_MAX else lo
  }

  /** `parseInt` of a number: truncation toward zero. */
  function Trunc(r: real): int
  {
    if r >= 0.0 then r.Floor else -((-r).Floor)
  }

  function Abs(x: real): real
  {
    if x < 0.0 then -x else x
  }

  /** `pcmToFloat`: scale an int16 sample into the playback domain, clamped to [-1, 1]. */
  function PcmToFloat(pcm: real): (f: real)
    ensures -1.0 <= f <= 1.0
  {
    var flt := pcm / 32768.0;
    var lo := if flt < -1.0 then -1.0 else flt;
    if lo > 1.0 then 1.0 else lo
  }

  /** `floatToPcm`: scale a playback sample back to int16, truncating and clamping. */
  function FloatToPcm(f: real): (pcm: int)
    ensures IsInt16(pcm)
  {
    Clamp16(Trunc(f * 32767.0))
  }

  /** The two scalings are not inverse: a sample that goes into the buffer and is
      read back as the upsampling seed comes back one step closer to zero. */
  lemma SeedOfBufferedSample(p: int)
    requires IsInt16(p)
    ensures FloatToPcm(PcmToFloat(p as real)) == if p > 0 then p - 1 else if p < 0 then p + 1 else 0
  {
    var f := p as real / 32768.0;
    assert PcmToFloat(p as real) == f;
    var x := f * 32767.0;
    assert x == p as real - f;
    if p > 0 {
      assert (p - 1) as real <= x < p as real;
      assert x.Floor == p - 1;
    } else if p < 0 {
      assert (-p - 1) as real <= -x < (-p) as real;
      assert (-x).Floor == -p - 1;
    }
  }

  function AsReals(s: seq<int>): (r: seq<real>)
    ensures |r| == |s|
    ensures forall i :: 0 <= i < |s| ==> r[i] == s[i] as real
  {
    seq(|s|, i requires 0 <= i < |s| => s[i] as real)
  }

  /** A frame scaled sample by sample into the playback domain. */
  function ToFloats(frame: seq<real>): (r: seq<real>)
    ensures |r| == |frame|
    ensures forall i :: 0 <= i < |frame| ==> r[i] == PcmToFloat(frame[i])
  {
    seq(|frame|, i requires 0 <= i < |frame| => PcmToFloat(frame[i]))
  }

  function Silence(n: nat): (r: seq<real>)
    ensures |r| == n
    ensures forall i :: 0 <= i < n ==> r[i] == 0.0
  {
    seq(n, i => 0.0)
  }

  // ---------------------------------------------------------------------------
  // Send path: decimation by two
  // ---------------------------------------------------------------------------

  /** The downsampling loop of `_txAudioNode`: a typed array of `samples/2` entries
      receives every second input sample, clamped to int16. The input is taken
      already scaled to the int16 domain. For an odd count the last write falls
      past the end of the typed array and is dropped. */
  method Downsample(incoming: seq<int>) returns (pcmAudio: seq<int>)
    ensures |pcmAudio| == |incoming| / 2
    ensures forall k :: 0 <= k < |pcmAudio| ==> pcmAudio[k] == Clamp16(incoming[2 * k])
  {
    var samples := |incoming|;
    var buf := new int[samples / 2];
    var i := 0;
    while i < samples
      invariant 0 <= i <= samples + 1
      invariant i % 2 == 0
      invariant forall k :: 0 <= k < i / 2 && k < buf.Length ==> buf[k] == Clamp16(incoming[2 * k])
    {
      if i / 2 < buf.Length {
        buf[i / 2] := Clamp16(incoming[i]);
      }
      i := i + 2;
    }
    pcmAudio := buf[..];
  }

  // ---------------------------------------------------------------------------
  // Splice-point search
  // ---------------------------------------------------------------------------

  /** Sum of absolute differences of the first `n` samples at `a` and at `b`. */
  function Sad(swin: seq<real>, a: int, b: int, n: nat): real
    requires 0 <= a && a + n <= |swin| && 0 <= b && b + n <= |swin|
  {
    if n == 0 then 0.0 else Sad(swin, a, b, n - 1) + Abs(swin[a + n - 1] - swin[b + n - 1])
  }

  /** A longer comparison never has a smaller sum; this is why the search may stop
      comparing as soon as the running sum passes the threshold. */
  lemma {:induction false} SadMonotone(swin: seq<real>, a: int, b: int, m: nat, n: nat)
    requires m <= n
    requires 0 <= a && a + n <= |swin| && 0 <= b && b + n <= |swin|
    ensures Sad(swin, a, b, m) <= Sad(swin, a, b, n)
  {
    if m < n {
      SadMonotone(swin, a, b, m, n - 1);
    }
  }

  /** Candidate `i` matches the reference segment at `matchWin`. */
  predicate Matches(swin: seq<real>, matchWin: int, i: int)
    requires 0 <= matchWin && matchWin + MATCH_WIN_SIZE <= |swin|
    requires 0 <= i && i + MATCH_WIN_SIZE <= |swin|
  {
    Sad(swin, matchWin, i, MATCH_WIN_SIZE) < MATCH_THRESHOLD
  }

  /** The loop `for (i = start; i !== end; i += incr)` stays inside the window and ends. */
  predicate ValidScan(n: nat, start: int, end: int, incr: int, matchWin: int)
  {
    && 0 <= matchWin && matchWin + MATCH_WIN_SIZE <= n
    && (incr == 1 || incr == -1)
    && (incr == 1 ==> 0 <= start <= end && end + MATCH_WIN_SIZE <= n + 1)
    && (incr == -1 ==> -1 <= end <= start && start + MATCH_WIN_SIZE <= n)
  }

  /** `i` is one of the candidates the scan visits. */
  predicate Scanned(i: int, start: int, end: int, incr: int)
  {
    if incr == 1 then start <= i < end else end < i <= start
  }

  /** The scan visits `i` before `j`. */
  predicate Precedes(i: int, j: int, incr: int)
  {
    if incr == 1 then i < j else i > j
  }

  /** The candidate the first-match search settles on, or -1. */
  function FirstMatch(swin: seq<real>, start: int, end: int, incr: int, matchWin: int): (r: int)
    requires ValidScan(|swin|, start, end, incr, matchWin)
    ensures r == -1 || (Scanned(r, start, end, incr) && Matches(swin, matchWin, r))
    decreases if incr == 1 then end - start else start - end
  {
    if start == end then -1
    else if Matches(swin, matchWin, start) then start
    else FirstMatch(swin, start + incr, end, incr, matchWin)
  }

  /** The search is first-match, not best-match: -1 means no candidate matches, and
      a returned candidate is preceded in scan order only by candidates that fail. */
  lemma {:induction false} FirstMatchIsFirst(swin: seq<real>, start: int, end: int, incr: int, matchWin: int)
    requires ValidScan(|swin|, start, end, incr, matchWin)
    ensures FirstMatch(swin, start, end, incr, matchWin) == -1 ==>
      forall i :: Scanned(i, start, end, incr) ==> !Matches(swin, matchWin, i)
    ensures FirstMatch(swin, start, end, incr, matchWin) != -1 ==>
      forall i :: Scanned(i, start, end, incr) && Precedes(i, FirstMatch(swin, start, end, incr, matchWin), incr) ==>
        !Matches(swin, matchWin, i)
    decreases if incr == 1 then end - start else start - end
  {
    if start != end && !Matches(swin, matchWin, start) {
      FirstMatchIsFirst(swin, start + incr, end, incr, matchWin);
    }
  }

  /** `_search_for_match`: compare the reference segment with each candidate in scan
      order, giving up on a candidate once the running sum exceeds the threshold. */
  method SearchForMatch(swin: seq<real>, start: int, end: int, incr: int, matchWin: int) returns (searchIdx: int)
    requires ValidScan(|swin|, start, end, incr, matchWin)
    ensures searchIdx == FirstMatch(swin, start, end, incr, matchWin)
  {
    searchIdx := -1;
    var i := start;
    while i != end
      invariant ValidScan(|swin|, i, end, incr, matchWin)
      invariant FirstMatch(swin, start, end, incr, matchWin) == FirstMatch(swin, i, end, incr, matchWin)
      decreases if incr == 1 then end - i else i - end
    {
      var evl := 0.0;
      var j := 0;
      while j < MATCH_WIN_SIZE
        invariant 0 <= j <= MATCH_WIN_SIZE
        invariant evl == Sad(swin, matchWin, i, j)
      {
        evl := evl + Abs(swin[matchWin + j] - swin[i + j]);
        if evl > MATCH_THRESHOLD {
          SadMonotone(swin, matchWin, i, j + 1, MATCH_WIN_SIZE);
          break;
        }
        j := j + 1;
      }
      if evl < MATCH_THRESHOLD {
        searchIdx := i;
        return;
      }
      i := i + incr;
    }
  }

  // ---------------------------------------------------------------------------
  // Corrections, as functions of the incoming frame
  // ---------------------------------------------------------------------------

  /** Start of the trailing search window (`index`). */
  function WindowStart(len: nat, searchWinSize: nat): nat
  {
    if len > searchWinSize then len - searchWinSize else 0
  }

  /** Width of the trailing search window (`samples` after clamping). */
  function WindowSize(len: nat, searchWinSize: nat): nat
  {
    if len > searchWinSize then searchWinSize else len
  }

  /** The search loop of `_add_remove_samples` ends: the frame is too short to be
      searched, or the window holds at least two comparison windows. */
  predicate SearchEnds(len: nat, searchWinSize: nat)
  {
    len < MIN_CORRECTABLE || WindowSize(len, searchWinSize) >= 2 * MATCH_WIN_SIZE
  }

  /** The splice point `_add_remove_samples` finds in the trailing window of `frame`. */
  /** The trailing search window `swin` of a frame. */
  function Window(frame: seq<real>, searchWinSize: nat): (swin: seq<real>)
    ensures |swin| == WindowSize(|frame|, searchWinSize)
  {
    var index := WindowStart(|frame|, searchWinSize);
    frame[index..index + WindowSize(|frame|, searchWinSize)]
  }

  /** The loop bounds of the search: forward from the start of the window against
      its last MATCH_WIN_SIZE samples when adding, backward from the end against
      its first MATCH_WIN_SIZE samples when removing. */
  datatype Scan = Scan(start: int, end: int, incr: int, matchWin: int)

  function ScanFor(doAdd: bool, samples: nat): Scan
  {
    if doAdd then Scan(0, samples - 2 * MATCH_WIN_SIZE, 1, samples - MATCH_WIN_SIZE)
    else Scan(samples - MATCH_WIN_SIZE, MATCH_WIN_SIZE, -1, 0)
  }

  /** The splice point `_add_remove_samples` finds in the trailing window of `frame`. */
  function SearchIndex(frame: seq<real>, doAdd: bool, searchWinSize: nat): (r: int)
    requires |frame| >= MIN_CORRECTABLE && SearchEnds(|frame|, searchWinSize)
    ensures var samples := WindowSize(|frame|, searchWinSize);
      || r == -1
      || (doAdd && 0 <= r < samples - 2 * MATCH_WIN_SIZE)
      || (!doAdd && MATCH_WIN_SIZE < r <= samples - MATCH_WIN_SIZE)
  {
    var sc := ScanFor(doAdd, WindowSize(|frame|, searchWinSize));
    FirstMatch(Window(frame, searchWinSize), sc.start, sc.end, sc.incr, sc.matchWin)
  }


  /** `_remove_samples` blends the first MATCH_WIN_SIZE samples of the frame with the
      samples of the window at the splice point, as `0.5 * (old + new)`. */
  function SeamBlended(rxAudio: seq<real>, swin: seq<real>, searchIdx: nat): (r: seq<real>)
    requires MATCH_WIN_SIZE <= |rxAudio| && searchIdx + MATCH_WIN_SIZE <= |swin|
    ensures |r| == |rxAudio|
  {
    seq(|rxAudio|, i requires 0 <= i < |rxAudio| =>
      if i < MATCH_WIN_SIZE then 0.5 * (rxAudio[i] + swin[searchIdx + i]) else rxAudio[i])
  }

  /** The frame `_add_remove_samples` leaves to its caller, and the count it returns. */
  datatype Correction = Correction(frame: seq<real>, res: int)

  /** A search result `_add_remove_samples` can act on. */
  predicate Actionable(len: nat, doAdd: bool, samples: nat, searchIdx: int)
  {
    searchIdx == -1 || (0 <= searchIdx && (if doAdd then searchIdx + MATCH_WIN_SIZE <= samples else searchIdx <= len))
  }

  /** The correction once the search has returned `searchIdx` in a window of `samples`. */
  function CorrectedAt(rxAudio: seq<real>, doAdd: bool, samples: nat, searchIdx: int): Correction
    requires Actionable(|rxAudio|, doAdd, samples, searchIdx)
  {
    if searchIdx == -1 then Correction(rxAudio, 0)
    else if doAdd then Correction(rxAudio, samples - searchIdx - MATCH_WIN_SIZE)
    else Correction(rxAudio[searchIdx..], -searchIdx)
  }

  function Corrected(rxAudio: seq<real>, doAdd: bool, searchWinSize: nat): Correction
    requires SearchEnds(|rxAudio|, searchWinSize)
  {
    if |rxAudio| < MIN_CORRECTABLE then Correction(rxAudio, 0)
    else CorrectedAt(rxAudio, doAdd, WindowSize(|rxAudio|, searchWinSize), SearchIndex(rxAudio, doAdd, searchWinSize))
  }

  /** Removal shortens the frame by exactly the count it reports, keeps at least
      MATCH_WIN_SIZE samples, and keeps the original samples: the seam blend is
      shifted out with the removed head. Addition reports a positive count but the
      frame does not grow. Frames under 64 samples and failed searches are untouched. */
  lemma CorrectionEffect(rxAudio: seq<real>, doAdd: bool, searchWinSize: nat)
    requires SearchEnds(|rxAudio|, searchWinSize)
    ensures var c := Corrected(rxAudio, doAdd, searchWinSize);
      && (|rxAudio| < MIN_CORRECTABLE ==> c == Correction(rxAudio, 0))
      && (doAdd ==> c.frame == rxAudio && c.res >= 0)
      && (doAdd && c.res != 0 ==> MATCH_WIN_SIZE < c.res <= WindowSize(|rxAudio|, searchWinSize) - MATCH_WIN_SIZE)
      && (!doAdd ==> c.res <= 0 && |c.frame| == |rxAudio| + c.res && c.frame == rxAudio[-c.res..])
      && (!doAdd && c.res != 0 ==> |c.frame| >= MATCH_WIN_SIZE && c.res < -(MATCH_WIN_SIZE as int))
  {
  }

  /** Buffer statistics kept by `_add_remove_samples`, `_add_samples` and `_remove_samples`. */
  datatype BufStats = BufStats(
    added: nat, removed: nat, successes: nat, attempts: nat,
    successRate: real, attemptRemove: nat, attemptAdd: nat)

  /** The statistics after one `_add_remove_samples` call. */
  /** The attempt counter for the direction is bumped before the search. */
  function Tried(s: BufStats, doAdd: bool): BufStats
  {
    if doAdd then s.(attemptAdd := s.attemptAdd + 1) else s.(attemptRemove := s.attemptRemove + 1)
  }

  /** A match counts a success and the samples added or removed. */
  function Found(s: BufStats, doAdd: bool, samples: nat, searchIdx: int): BufStats
    requires searchIdx == -1 || (0 <= searchIdx && (doAdd ==> searchIdx + MATCH_WIN_SIZE <= samples))
  {
    if searchIdx == -1 then s
    else if doAdd then s.(successes := s.successes + 1, added := s.added + (samples - searchIdx - MATCH_WIN_SIZE))
    else s.(successes := s.successes + 1, removed := s.removed + searchIdx)
  }

  /** Every search counts an attempt and refreshes the success rate in percent. */
  function Counted(s: BufStats): BufStats
  {
    var t := s.(attempts := s.attempts + 1);
    t.(successRate := t.successes as real * 100.0 / t.attempts as real)
  }

  /** The statistics once the search has returned `searchIdx`. */
  function TallyAt(s: BufStats, doAdd: bool, samples: nat, searchIdx: int): BufStats
    requires searchIdx == -1 || (0 <= searchIdx && (doAdd ==> searchIdx + MATCH_WIN_SIZE <= samples))
  {
    Counted(Found(Tried(s, doAdd), doAdd, samples, searchIdx))
  }

  function Tally(s: BufStats, rxAudio: seq<real>, doAdd: bool, searchWinSize: nat): BufStats
    requires SearchEnds(|rxAudio|, searchWinSize)
  {
    if |rxAudio| < MIN_CORRECTABLE then s
    else TallyAt(s, doAdd, WindowSize(|rxAudio|, searchWinSize), SearchIndex(rxAudio, doAdd, searchWinSize))
  }

  /** Samples added or removed by correction are exactly what the statistics record,
      and there are never more successes than attempts. */
  lemma TallyAgrees(s: BufStats, rxAudio: seq<real>, doAdd: bool, searchWinSize: nat)
    requires SearchEnds(|rxAudio|, searchWinSize)
    requires s.successes <= s.attempts
    ensures var t := Tally(s, rxAudio, doAdd, searchWinSize);
            var c := Corrected(rxAudio, doAdd, searchWinSize);
      && t.successes <= t.attempts
      && t.attempts <= s.attempts + 1
      && (doAdd ==> t.added == s.added + c.res && t.removed == s.removed)
      && (!doAdd ==> t.removed == s.removed - c.res && t.added == s.added)
      && (|rxAudio| >= MIN_CORRECTABLE ==> 0.0 <= t.successRate <= 100.0)
  {
    if |rxAudio| >= MIN_CORRECTABLE {
      var f := Found(Tried(s, doAdd), doAdd, WindowSize(|rxAudio|, searchWinSize), SearchIndex(rxAudio, doAdd, searchWinSize));
      SuccessRateBounded(f);
    }
  }

  lemma SuccessRateBounded(f: BufStats)
    requires f.successes <= f.attempts + 1
    ensures Counted(f).successes <= Counted(f).attempts
    ensures 0.0 <= Counted(f).successRate <= 100.0
  {
    var a := (f.attempts + 1) as real;
    var k := f.successes as real;
    var q := k * 100.0 / a;
    assert Counted(f).successRate == q;
    assert 0.0 < a && 0.0 <= k <= a;
    assert q * a == k * 100.0;
    assert (100.0 - q) * a == (a - k) * 100.0;
    SignOfProduct(q, a);
    SignOfProduct(100.0 - q, a);
  }

  /** A product with a positive factor has the sign of the other factor. */
  lemma SignOfProduct(x: real, y: real)
    requires y > 0.0 && x * y >= 0.0
    ensures x >= 0.0
  {
  }


  /** Which correction `_manageRxBuffer` attempts. */
  datatype Steering = Shrink | Grow | Hold

  /** Result of one playback pull: what the callback gets and the new buffer state. */
  datatype Pulled = Pulled(out: seq<real>, rxBuffer: seq<real>, playing: bool)

  class AudioClient {
    const sampleRate: nat
    const MAX_BUF_SIZE: nat
    const MID_POINT: nat
    const SEARCH_WIN_SIZE: nat
    const SAMP_ERR: real

    /** Playback-domain samples waiting to be played. */
    var rxBuffer: seq<real>
    /** Set by a full-frame pull, cleared by a partial one. */
    var playing: bool
    var bufStats: BufStats

    ghost predicate Valid()
      reads this
    {
      && bufStats.successes <= bufStats.attempts
      && MID_POINT <= MAX_BUF_SIZE
      && SAMP_ERR == MID_POINT as real / 2.0
    }

    /** The buffer-management part of the constructor, for a capture sample rate. */
    constructor (sampleRate: nat)
      ensures Valid()
      ensures this.sampleRate == sampleRate
      ensures MAX_BUF_SIZE == 200 * sampleRate / 1000
      ensures MID_POINT == HOLD_OFF_MS * sampleRate / 1000
      ensures SEARCH_WIN_SIZE == 8 * sampleRate / 1000
      ensures SAMP_ERR == MID_POINT as real / 2.0
      ensures rxBuffer == [] && !playing
      ensures bufStats == BufStats(0, 0, 0, 0, 0.0, 0, 0)
    {
      this.sampleRate := sampleRate;
      MAX_BUF_SIZE := 200 * sampleRate / 1000;
      MID_POINT := HOLD_OFF_MS * sampleRate / 1000;
      SEARCH_WIN_SIZE := 8 * sampleRate / 1000;
      SAMP_ERR := (HOLD_OFF_MS * sampleRate / 1000) as real / 2.0;
      rxBuffer := [];
      playing := false;
      bufStats := BufStats(0, 0, 0, 0, 0.0, 0, 0);
    }

    /** The sample that precedes an incoming frame: 0 for an empty buffer, otherwise
        the last buffered sample scaled back to int16. */
    function Seed(): int
      reads this
    {
      if |rxBuffer| == 0 then 0 else FloatToPcm(rxBuffer[|rxBuffer| - 1])
    }

    /** `_upsample`: each input sample is preceded by the floor of the mean of it and
        the sample before it, the first one by the seed. */
    method Upsample(audio: seq<int>) returns (newAudio: seq<int>)
      ensures |newAudio| == 2 * |audio|
      ensures forall k :: 0 <= k < |audio| ==> newAudio[2 * k + 1] == audio[k]
      ensures forall k :: 0 <= k < |audio| ==>
        newAudio[2 * k] == ((if k == 0 then Seed() else audio[k - 1]) + audio[k]) / 2
    {
      var audioMsg := audio;
      newAudio := [];
      var v0 := Seed();
      var i := 0;
      while i < |audio|
        invariant 0 <= i <= |audio|
        invariant audioMsg == audio[i..]
        invariant |newAudio| == 2 * i
        invariant v0 == if i == 0 then Seed() else audio[i - 1]
        invariant forall k :: 0 <= k < i ==> newAudio[2 * k + 1] == audio[k]
        invariant forall k :: 0 <= k < i ==>
          newAudio[2 * k] == ((if k == 0 then Seed() else audio[k - 1]) + audio[k]) / 2
      {
        var v1 := audioMsg[0];
        audioMsg := audioMsg[1..];
        var interp := (v0 + v1) / 2;
        newAudio := newAudio + [interp, v1];
        v0 := v1;
        i := i + 1;
      }
    }

    /** `_getOffset`: occupancy minus the target. */
    function Offset(): int
      reads this
    {
      |rxBuffer| - MID_POINT
    }

    /** The branch `_manageRxBuffer` takes for an offset. */
    function SteeringFor(offset: int): Steering
    {
      if offset > 0 && offset as real > SAMP_ERR then Shrink
      else if offset < 0 && (offset as real) < -1.0 * SAMP_ERR then Grow
      else Hold
    }

    /** What one arrival does to the frame: the correction its steering selects. */
    function CorrectionFor(frame: seq<real>, offset: int): Correction
      requires SearchEnds(|frame|, SEARCH_WIN_SIZE)
    {
      match SteeringFor(offset)
      case Shrink => Corrected(frame, false, SEARCH_WIN_SIZE)
      case Grow => Corrected(frame, true, SEARCH_WIN_SIZE)
      case Hold => Correction(frame, 0)
    }

    function StatsFor(s: BufStats, frame: seq<real>, offset: int): BufStats
      requires SearchEnds(|frame|, SEARCH_WIN_SIZE)
    {
      match SteeringFor(offset)
      case Shrink => Tally(s, frame, false, SEARCH_WIN_SIZE)
      case Grow => Tally(s, frame, true, SEARCH_WIN_SIZE)
      case Hold => s
    }

    /** Removal is chosen exactly when the offset exceeds the dead zone, addition
        exactly when it is below it. */
    lemma SteeringDeadZone(offset: int)
      requires Valid()
      ensures SteeringFor(offset) == Shrink <==> 2 * offset > MID_POINT
      ensures SteeringFor(offset) == Grow <==> 2 * offset < -(MID_POINT as int)
    {
    }

    /** `_add_samples`: the frame grown by the duplicated samples and its seam blend
        are bound to a local of this method and dropped, so only the statistics and
        the returned count remain. */
    method AddSamples(rxAudio: seq<real>, samples: nat, swin: seq<real>, searchIdx: nat) returns (res: int)
      requires searchIdx + MATCH_WIN_SIZE <= samples
      modifies this`bufStats
      ensures res == samples - searchIdx - MATCH_WIN_SIZE
      ensures bufStats == old(bufStats).(added := old(bufStats).added + res)
    {
      var sampleCopyCount := samples - searchIdx - MATCH_WIN_SIZE;
      bufStats := bufStats.(added := bufStats.added + sampleCopyCount);
      res := sampleCopyCount;
    }

    /** `_remove_samples`: blend the head of the frame, then shift `searchIdx` samples
        off the front and report their count, negated. */
    method RemoveSamples(rxAudio: seq<real>, samples: nat, swin: seq<real>, searchIdx: nat)
      returns (frame: seq<real>, res: int)
      requires MATCH_WIN_SIZE <= |rxAudio| && searchIdx <= |rxAudio|
      requires searchIdx + MATCH_WIN_SIZE <= |swin|
      modifies this`bufStats
      ensures frame == SeamBlended(rxAudio, swin, searchIdx)[searchIdx..]
      ensures searchIdx >= MATCH_WIN_SIZE ==> frame == rxAudio[searchIdx..]
      ensures res == -(searchIdx as int)
      ensures bufStats == old(bufStats).(removed := old(bufStats).removed + searchIdx)
    {
      frame := rxAudio;
      var i := 0;
      while i < MATCH_WIN_SIZE
        invariant 0 <= i <= MATCH_WIN_SIZE
        invariant |frame| == |rxAudio|
        invariant forall k :: 0 <= k < i ==> frame[k] == 0.5 * (rxAudio[k] + swin[searchIdx + k])
        invariant forall k :: i <= k < |rxAudio| ==> frame[k] == rxAudio[k]
      {
        frame := frame[i := 0.5 * (frame[i] + swin[searchIdx + i])];
        i := i + 1;
      }
      ghost var blended := frame;
      assert blended == SeamBlended(rxAudio, swin, searchIdx);
      var sampleShiftCount := searchIdx;
      bufStats := bufStats.(removed := bufStats.removed + sampleShiftCount);
      i := 0;
      while i < sampleShiftCount
        invariant 0 <= i <= sampleShiftCount
        invariant frame == blended[i..]
      {
        frame := frame[1..];
        i := i + 1;
      }
      res := -(sampleShiftCount as int);
    }

    /** `_add_remove_samples`: search the trailing window of the frame for a splice
        point and, on a match, add or remove samples; the statistics count the try. */
    method AddRemoveSamples(rxAudio: seq<real>, doAdd: bool) returns (frame: seq<real>, res: int)
      requires Valid()
      requires SearchEnds(|rxAudio|, SEARCH_WIN_SIZE)
      modifies this`bufStats
      ensures Valid()
      ensures Correction(frame, res) == Corrected(rxAudio, doAdd, SEARCH_WIN_SIZE)
      ensures bufStats == Tally(old(bufStats), rxAudio, doAdd, SEARCH_WIN_SIZE)
    {
      if |rxAudio| < MIN_CORRECTABLE {
        return rxAudio, 0;
      }
      var index := WindowStart(|rxAudio|, SEARCH_WIN_SIZE);
      var samples := WindowSize(|rxAudio|, SEARCH_WIN_SIZE);
      var swin := rxAudio[index..samples + index];
      var start, end, matchWin, incr;
      if doAdd {
        bufStats := bufStats.(attemptAdd := bufStats.attemptAdd + 1);
        start := 0;
        end := samples - 2 * MATCH_WIN_SIZE;
        matchWin := samples - MATCH_WIN_SIZE;
        incr := 1;
      } else {
        bufStats := bufStats.(attemptRemove := bufStats.attemptRemove + 1);
        start := samples - MATCH_WIN_SIZE;
        end := MATCH_WIN_SIZE;
        matchWin := 0;
        incr := -1;
      }
      assert swin == Window(rxAudio, SEARCH_WIN_SIZE);
      assert Scan(start, end, incr, matchWin) == ScanFor(doAdd, samples);
      var searchIdx := SearchForMatch(swin, start, end, incr, matchWin);
      ghost var tried := bufStats;
      assert tried == Tried(old(bufStats), doAdd);
      frame, res := rxAudio, 0;
      if searchIdx != -1 {
        bufStats := bufStats.(successes := bufStats.successes + 1);
        if doAdd {
          res := AddSamples(rxAudio, samples, swin, searchIdx);
        } else {
          frame, res := RemoveSamples(rxAudio, samples, swin, searchIdx);
        }
      }
      ghost var found := bufStats;
      assert found == Found(tried, doAdd, samples, searchIdx);
      bufStats := bufStats.(attempts := bufStats.attempts + 1);
      bufStats := bufStats.(successRate := bufStats.successes as real * 100.0 / bufStats.attempts as real);
      assert bufStats == Counted(found);
    }

    /** `_manageRxBuffer`: steer the occupancy toward MID_POINT by correcting the
        arriving frame, then scale it and append it after the existing buffer. */
    method ManageRxBuffer(input: seq<int>) returns (res: int)
      requires Valid()
      requires SearchEnds(|input|, SEARCH_WIN_SIZE)
      modifies this`rxBuffer, this`bufStats
      ensures Valid()
      ensures var c := CorrectionFor(AsReals(input), old(Offset()));
        rxBuffer == old(rxBuffer) + ToFloats(c.frame) && res == c.res
      ensures bufStats == StatsFor(old(bufStats), AsReals(input), old(Offset()))
      ensures rxBuffer[..|old(rxBuffer)|] == old(rxBuffer)
    {
      var rxAudio := AsReals(input);
      ghost var frame := rxAudio;
      var offset := Offset();
      res := 0;
      if offset > 0 && offset as real > SAMP_ERR {
        rxAudio, res := AddRemoveSamples(rxAudio, false);
      } else if offset < 0 && (offset as real) < -1.0 * SAMP_ERR {
        rxAudio, res := AddRemoveSamples(rxAudio, true);
      }
      ghost var corrected := rxAudio;
      assert Correction(corrected, res) == CorrectionFor(frame, offset);
      var i := 0;
      while i < |rxAudio|
        invariant 0 <= i <= |rxAudio| == |corrected|
        invariant forall k :: 0 <= k < i ==> rxAudio[k] == PcmToFloat(corrected[k])
        invariant forall k :: i <= k < |rxAudio| ==> rxAudio[k] == corrected[k]
      {
        rxAudio := rxAudio[i := PcmToFloat(rxAudio[i])];
        i := i + 1;
      }
      assert rxAudio == ToFloats(corrected);
      rxBuffer := rxBuffer + rxAudio;
    }

    /** One playback pull of `_onRxAudio`, as a function of the buffer and the flag. */
    function Pull(buffer: seq<real>, playing: bool): Pulled
    {
      if |buffer| == 0 || (!playing && |buffer| < MID_POINT) then Pulled(Silence(FRAME_SIZE), buffer, playing)
      else if |buffer| > MAX_BUF_SIZE then Pulled(Silence(FRAME_SIZE), [], playing)
      else if |buffer| > FRAME_SIZE then Pulled(buffer[..FRAME_SIZE], buffer[FRAME_SIZE..], true)
      else Pulled(buffer + Silence(FRAME_SIZE - |buffer|), buffer, false)
    }

    /** `_onRxAudio`: fill one output frame from the buffer. */
    method OnRxAudio() returns (out: seq<real>)
      modifies this`rxBuffer, this`playing
      ensures Pulled(out, rxBuffer, playing) == Pull(old(rxBuffer), old(playing))
    {
      var rxBufLen := |rxBuffer|;
      var playingNow := playing;
      if rxBufLen == 0 || (!playingNow && rxBufLen < MID_POINT) {
        out := Silence(FRAME_SIZE);
      } else if rxBufLen > MAX_BUF_SIZE {
        rxBuffer := [];
        out := Silence(FRAME_SIZE);
      } else if rxBufLen > FRAME_SIZE {
        playing := true;
        out := rxBuffer[..FRAME_SIZE];
        rxBuffer := rxBuffer[FRAME_SIZE..];
      } else {
        out := rxBuffer[..rxBufLen];
        var remainderLength := FRAME_SIZE - |out|;
        var i := 0;
        while i < remainderLength
          invariant 0 <= i <= remainderLength
          invariant out == rxBuffer + Silence(i)
        {
          out := out + [0.0];
          i := i + 1;
        }
        playing := false;
      }
    }

    /** Every pull hands the callback a full frame; samples leave the buffer only from
        the front, a frame at a time, or all at once when it has grown past
        MAX_BUF_SIZE; a partial frame is played without being consumed. */
    lemma PullEffect(buffer: seq<real>, playing: bool)
      requires Valid()
      ensures var p := Pull(buffer, playing);
        && |p.out| == FRAME_SIZE
        && (p.rxBuffer == buffer || p.rxBuffer == [] || p.out + p.rxBuffer == buffer)
        && (|buffer| > MAX_BUF_SIZE ==> p.rxBuffer == [])
        && (p.rxBuffer != buffer ==> |p.rxBuffer| < |buffer|)
    {
    }

    /** A partial frame is left in the buffer and played again: once enough samples
        have arrived behind it, the next frame the callback gets starts with it. */
    lemma PartialFrameReplayed(buffer: seq<real>, playing: bool, arrived: seq<real>)
      requires Valid()
      requires 0 < |buffer| <= FRAME_SIZE && (playing || |buffer| >= MID_POINT)
      requires MID_POINT <= |buffer + arrived| <= MAX_BUF_SIZE
      ensures Pull(buffer, playing).rxBuffer == buffer && !Pull(buffer, playing).playing
      ensures Pull(buffer + arrived, false).out[..|buffer|] == buffer
    {
      var next := Pull(buffer + arrived, false);
      if |buffer + arrived| > FRAME_SIZE {
        assert next.out == (buffer + arrived)[..FRAME_SIZE];
      } else {
        assert next.out == (buffer + arrived) + Silence(FRAME_SIZE - |buffer + arrived|);
      }
    }

    /** An audio message from the router: `new Int16Array(audio)` (which throws on an
        odd byte count, dropping the message), upsample, then buffer management. */
    method OnAudioMessage(audio: seq<AudioRouterClient.byte>)
      requires Valid()
      requires SEARCH_WIN_SIZE >= 2 * MATCH_WIN_SIZE
      modifies this`rxBuffer, this`bufStats
      ensures Valid()
      ensures |audio| % 2 == 1 ==> rxBuffer == old(rxBuffer) && bufStats == old(bufStats)
      ensures |audio| % 2 == 0 ==> |rxBuffer| >= |old(rxBuffer)| && rxBuffer[..|old(rxBuffer)|] == old(rxBuffer)
    {
      var fbuf := AudioRouterClient.Int16Array(audio);
      if fbuf.Some? {
        var upsampled := Upsample(fbuf.value);
        var _ := ManageRxBuffer(upsampled);
      }
    }
  }
}
