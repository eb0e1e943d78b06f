/**
 * The range-finding loop of the calibration tool. Each cycle reads every
 * configured servo's present position once; a successful read lowers that
 * servo's running minimum and raises its running maximum, a failed read is
 * skipped. The minima start at `u16::MAX` and the maxima at `u16::MIN`. When
 * the operator stops the run, entry `i` of the result is
 * `{id: ids[i], min: mins[i], max: maxs[i]}`.
 *
 * The operator's Enter key, which the source observes through a flag set by a
 * second thread, becomes the number of cycles the loop runs.
 */
module Sampling {
  import opened Ints
  import opened Wrappers
  import opened Protocol
  import opened Calibration

  /** What one cycle saw: entry `i` is servo `i`'s position, or `None` when its read failed. */
  type Cycle = seq<Option<u16>>

  // ---------------------------------------------------------------------------
  // Specification
  // ---------------------------------------------------------------------------

  /** The successful reads of servo `i` over `cycles`, oldest first. */
  function Observed(cycles: seq<Cycle>, i: nat): seq<u16>
  {
    if cycles == [] then []
    else
      var last := cycles[|cycles| - 1];
      Observed(cycles[..|cycles| - 1], i) + if i < |last| && last[i].Some? then [last[i].value] else []
  }

  /** The smallest of `u16::MAX` and the readings `s`. */
  function Lowest(s: seq<u16>): (m: u16)
    ensures forall k :: 0 <= k < |s| ==> m <= s[k]
    ensures m == U16_MAX || m in s
  {
    if s == [] then U16_MAX
    else
      var m := Lowest(s[..|s| - 1]);
      if m <= s[|s| - 1] then m else s[|s| - 1]
  }

  /** The largest of `u16::MIN` and the readings `s`. */
  function Highest(s: seq<u16>): (m: u16)
    ensures forall k :: 0 <= k < |s| ==> s[k] <= m
    ensures m == U16_MIN || m in s
  {
    if s == [] then U16_MIN
    else
      var m := Highest(s[..|s| - 1]);
      if s[|s| - 1] <= m then m else s[|s| - 1]
  }

  /** `m.min(pos)` after a successful read of `pos`; `m` after a failed read. */
  function FoldMin(m: u16, read: Option<u16>): (r: u16)
    ensures r <= m && (read.Some? ==> r <= read.value)
    ensures r == m || (read.Some? && r == read.value)
  {
    if read.Some? && read.value < m then read.value else m
  }

  /** `m.max(pos)` after a successful read of `pos`; `m` after a failed read. */
  function FoldMax(m: u16, read: Option<u16>): (r: u16)
    ensures m <= r && (read.Some? ==> read.value <= r)
    ensures r == m || (read.Some? && r == read.value)
  {
    if read.Some? && m < read.value then read.value else m
  }

  /** The calibration a run over `cycles` produces for the servos `ids`. */
  function Calibrated(ids: seq<u8>, cycles: seq<Cycle>): CalibrationData
  {
    CalibrationData(seq(|ids|, i requires 0 <= i < |ids| =>
      ServoCalibration(ids[i], Lowest(Observed(cycles, i)), Highest(Observed(cycles, i)))))
  }

  /** A reading is among the observed ones exactly when some cycle saw it for that servo. */
  lemma {:induction false} ObservedReads(cycles: seq<Cycle>, i: nat, p: u16)
    ensures p in Observed(cycles, i) <==>
      exists c :: 0 <= c < |cycles| && i < |cycles[c]| && cycles[c][i] == Some(p)
  {
    if cycles != [] {
      var prefix := cycles[..|cycles| - 1];
      ObservedReads(prefix, i, p);
      assert forall c :: 0 <= c < |prefix| ==> prefix[c] == cycles[c];
    }
  }

  /**
   * After any sequence of cycles, each servo's `min` is the smallest of 65535
   * and its successful reads, and its `max` the largest of 0 and those reads.
   */
  lemma CalibratedExtremes(ids: seq<u8>, cycles: seq<Cycle>, i: nat)
    requires i < |ids|
    ensures Calibrated(ids, cycles).servos[i].id == ids[i]
    ensures forall c :: 0 <= c < |cycles| && i < |cycles[c]| && cycles[c][i].Some? ==>
      Calibrated(ids, cycles).servos[i].min <= cycles[c][i].value <= Calibrated(ids, cycles).servos[i].max
    ensures var min := Calibrated(ids, cycles).servos[i].min;
      min == U16_MAX || exists c :: 0 <= c < |cycles| && i < |cycles[c]| && cycles[c][i] == Some(min)
    ensures var max := Calibrated(ids, cycles).servos[i].max;
      max == U16_MIN || exists c :: 0 <= c < |cycles| && i < |cycles[c]| && cycles[c][i] == Some(max)
  {
    var s := Calibrated(ids, cycles).servos[i];
    forall c | 0 <= c < |cycles| && i < |cycles[c]| && cycles[c][i].Some?
      ensures s.min <= cycles[c][i].value <= s.max
    {
      ObservedReads(cycles, i, cycles[c][i].value);
    }
    ObservedReads(cycles, i, s.min);
    ObservedReads(cycles, i, s.max);
  }

  /** How one more cycle moves servo `i`'s running extremes. */
  lemma ExtremesStep(cycles: seq<Cycle>, cycle: Cycle, i: nat)
    requires i < |cycle|
    ensures var s, s' := Observed(cycles, i), Observed(cycles + [cycle], i);
      Lowest(s') == FoldMin(Lowest(s), cycle[i]) && Highest(s') == FoldMax(Highest(s), cycle[i])
  {
    var s := Observed(cycles, i);
    assert (cycles + [cycle])[..|cycles|] == cycles;
    if cycle[i].Some? {
      assert (s + [cycle[i].value])[..|s|] == s;
    } else {
      assert s + [] == s;
    }
  }

  /** `ExtremesStep` for every servo the cycle polled. */
  lemma ExtremesStepAll(cycles: seq<Cycle>, cycle: Cycle)
    ensures forall i :: 0 <= i < |cycle| ==>
      Lowest(Observed(cycles + [cycle], i)) == FoldMin(Lowest(Observed(cycles, i)), cycle[i]) &&
      Highest(Observed(cycles + [cycle], i)) == FoldMax(Highest(Observed(cycles, i)), cycle[i])
  {
    forall i | 0 <= i < |cycle|
      ensures Lowest(Observed(cycles + [cycle], i)) == FoldMin(Lowest(Observed(cycles, i)), cycle[i])
      ensures Highest(Observed(cycles + [cycle], i)) == FoldMax(Highest(Observed(cycles, i)), cycle[i])
    {
      ExtremesStep(cycles, cycle, i);
    }
  }

  /**
   * One more cycle never raises a `min` nor lowers a `max`; a successful read
   * ends up between the two, and a failed read leaves the entry as it was.
   */
  lemma OneMoreCycle(ids: seq<u8>, cycles: seq<Cycle>, cycle: Cycle, i: nat)
    requires i < |ids| && i < |cycle|
    ensures var before, after := Calibrated(ids, cycles).servos[i], Calibrated(ids, cycles + [cycle]).servos[i];
      after.id == before.id && after.min <= before.min && before.max <= after.max &&
      (cycle[i].None? ==> after == before) &&
      (cycle[i].Some? ==> after.min <= cycle[i].value <= after.max) &&
      (cycle[i].Some? ==> after.min == Min(before.min, cycle[i].value) && after.max == Max(before.max, cycle[i].value))
  {
    ExtremesStep(cycles, cycle, i);
  }

  /** A servo that no cycle read successfully keeps the sentinels, so its range is 0. */
  lemma {:induction false} UnreadServoKeepsSentinels(ids: seq<u8>, cycles: seq<Cycle>, i: nat)
    requires i < |ids|
    requires forall c :: 0 <= c < |cycles| ==> i < |cycles[c]| && cycles[c][i].None?
    ensures Calibrated(ids, cycles).servos[i] == ServoCalibration(ids[i], U16_MAX, U16_MIN)
    ensures Calibrated(ids, cycles).servos[i].Range() == 0
  {
    if Observed(cycles, i) != [] {
      ObservedReads(cycles, i, Observed(cycles, i)[0]);
    }
  }

  /** With distinct ids, looking servo `i`'s id up in the result finds servo `i`'s own entry. */
  lemma CalibratedLookup(ids: seq<u8>, cycles: seq<Cycle>, i: nat)
    requires i < |ids|
    requires forall j, k :: 0 <= j < k < |ids| ==> ids[j] != ids[k]
    ensures Calibrated(ids, cycles).CenterFor(ids[i]) == Some(Calibrated(ids, cycles).servos[i].Center())
  {
    var data := Calibrated(ids, cycles);
    assert forall k :: 0 <= k < |ids| ==> data.servos[k].id == ids[k];
    UniqueIdsLookup(data, i);
  }

  /** The five cycles of the scenario below observe servo 0 at 100, 150, 90, 200, 90. */
  lemma FiveCycleReadings(c: seq<Cycle>)
    requires c == [[Some(100)], [Some(150)], [Some(90)], [Some(200)], [Some(90)]]
    ensures Observed(c, 0) == [100, 150, 90, 200, 90]
  {
    assert Observed(c[..1], 0) == [100] by { assert c[..1][..0] == []; }
    assert Observed(c[..2], 0) == [100, 150] by { assert c[..2][..1] == c[..1]; }
    assert Observed(c[..3], 0) == [100, 150, 90] by { assert c[..3][..2] == c[..2]; }
    assert Observed(c[..4], 0) == [100, 150, 90, 200] by { assert c[..4][..3] == c[..3]; }
    assert c[..|c| - 1] == c[..4];
  }

  /** The extremes of the readings 100, 150, 90, 200, 90. */
  lemma FiveReadingExtremes(s: seq<u16>)
    requires s == [100, 150, 90, 200, 90]
    ensures Lowest(s) == 90 && Highest(s) == 200
  {
    assert Lowest(s[..1]) == 100 && Highest(s[..1]) == 100 by { assert s[..1][..0] == []; }
    assert Lowest(s[..2]) == 100 && Highest(s[..2]) == 150 by { assert s[..2][..1] == s[..1]; }
    assert Lowest(s[..3]) == 90 && Highest(s[..3]) == 150 by { assert s[..3][..2] == s[..2]; }
    assert Lowest(s[..4]) == 90 && Highest(s[..4]) == 200 by { assert s[..4][..3] == s[..3]; }
    assert s[..|s| - 1] == s[..4];
  }

  /** Positions 100, 150, 90, 200, 90 over five cycles leave servo 5 at min 90, max 200. */
  lemma FiveCycleScenario(c: seq<Cycle>)
    requires c == [[Some(100)], [Some(150)], [Some(90)], [Some(200)], [Some(90)]]
    ensures Calibrated([5], c).servos == [ServoCalibration(5, 90, 200)]
  {
    FiveCycleReadings(c);
    FiveReadingExtremes(Observed(c, 0));
  }

  /** Reads Ok(100), failure, Ok(300), failure observe servo 0 at 100 and 300 only. */
  lemma FailureToleranceReadings(c: seq<Cycle>)
    requires c == [[Some(100)], [None], [Some(300)], [None]]
    ensures Observed(c, 0) == [100, 300]
  {
    assert Observed(c[..1], 0) == [100] by { assert c[..1][..0] == []; }
    assert Observed(c[..2], 0) == [100] by { assert c[..2][..1] == c[..1]; }
    assert Observed(c[..3], 0) == [100, 300] by { assert c[..3][..2] == c[..2]; }
    assert c[..|c| - 1] == c[..3];
  }

  /** Reads Ok(100), failure, Ok(300), failure leave the servo at min 100, max 300. */
  lemma FailureToleranceScenario(c: seq<Cycle>)
    requires c == [[Some(100)], [None], [Some(300)], [None]]
    ensures Calibrated([1], c).servos == [ServoCalibration(1, 100, 300)]
  {
    FailureToleranceReadings(c);
    var s := Observed(c, 0);
    assert Lowest(s[..1]) == 100 && Highest(s[..1]) == 100 by { assert s[..1][..0] == []; }
    assert s[..|s| - 1] == s[..1];
  }

  // ---------------------------------------------------------------------------
  // Polling the bus
  // ---------------------------------------------------------------------------

  /** A successful `read_position` is a reading; any error is a skipped read. */
  function ReadOutcome(r: Result<u16, ReadError>): Option<u16>
  {
    if r.Success? then Some(r.value) else None
  }

  /**
   * One cycle's reads, one per id in order, each taking its reply off the
   * link that delivers `pending`; and what the link delivers after.
   */
  function Poll(pending: seq<Arrival>, ids: seq<u8>): (r: (Cycle, seq<Arrival>))
    ensures |r.0| == |ids|
  {
    if ids == [] then ([], pending)
    else
      var before := Poll(pending, ids[..|ids| - 1]);
      var d := DecodeStream(before.1);
      (before.0 + [ReadOutcome(PositionOf(d.result))], before.1[d.consumed..])
  }

  /** The requests one cycle sends: a present-position read for each id in order. */
  function Requests(ids: seq<u8>): seq<u8>
  {
    if ids == [] then [] else Requests(ids[..|ids| - 1]) + ReadRequest(ids[|ids| - 1])
  }

  /** `count` cycles polled off `pending`: what each cycle saw, and the bytes left unread. */
  function Polled(pending: seq<Arrival>, ids: seq<u8>, count: nat): (r: (seq<Cycle>, seq<Arrival>))
    ensures |r.0| == count
    ensures forall c :: 0 <= c < count ==> |r.0[c]| == |ids|
  {
    if count == 0 then ([], pending)
    else
      var before := Polled(pending, ids, count - 1);
      var cycle := Poll(before.1, ids);
      (before.0 + [cycle.0], cycle.1)
  }

  /** The requests `count` cycles send. */
  function RequestLog(ids: seq<u8>, count: nat): seq<u8>
  {
    if count == 0 then [] else RequestLog(ids, count - 1) + Requests(ids)
  }

  lemma AppendAssoc<T>(a: seq<T>, b: seq<T>, c: seq<T>)
    ensures (a + b) + c == a + (b + c)
  {
  }

  /** One cycle over two servos: the first read, then the second on what the first left. */
  lemma PollPair(pending: seq<Arrival>, a: u8, b: u8)
    ensures var d1 := DecodeStream(pending); var p1 := pending[d1.consumed..]; var d2 := DecodeStream(p1);
      Poll(pending, [a, b]) == ([ReadOutcome(PositionOf(d1.result)), ReadOutcome(PositionOf(d2.result))], p1[d2.consumed..])
  {
    var ids := [a, b];
    var d1 := DecodeStream(pending);
    var p1 := pending[d1.consumed..];
    assert ids[..1][..0] == [];
    assert Poll(pending, ids[..1][..0]) == ([], pending);
    assert [] + [ReadOutcome(PositionOf(d1.result))] == [ReadOutcome(PositionOf(d1.result))];
    assert Poll(pending, ids[..1]) == ([ReadOutcome(PositionOf(d1.result))], p1);
    assert ids[..|ids| - 1] == ids[..1];
    var d2 := DecodeStream(p1);
    assert [ReadOutcome(PositionOf(d1.result))] + [ReadOutcome(PositionOf(d2.result))]
        == [ReadOutcome(PositionOf(d1.result)), ReadOutcome(PositionOf(d2.result))];
    assert Poll(pending, ids) == ([ReadOutcome(PositionOf(d1.result)), ReadOutcome(PositionOf(d2.result))], p1[d2.consumed..]);
  }

  /**
   * A servo that does not answer costs only its own read: with servo `a`
   * silent and servo `b` answering `v`, the cycle sees `[None, Some(v)]` and
   * leaves unread exactly what follows `b`'s reply.
   */
  lemma SilentServoSkipped(a: u8, b: u8, error: u8, v: u16, rest: seq<Arrival>)
    ensures Poll([Silence] + Bytes(Frame(b, error, Le16(v))) + rest, [a, b]) == ([None, Some(v)], rest)
  {
    var reply := Bytes(Frame(b, error, Le16(v))) + rest;
    var stream := [Silence] + Bytes(Frame(b, error, Le16(v))) + rest;
    assert Bytes([]) == [];
    assert stream == Bytes([]) + [Silence] + reply;
    SilenceSkipsOneRead([], reply);
    var d1 := DecodeStream(stream);
    assert d1 == Decoded(Failure(Io), 1);
    assert stream[1..] == reply;
    PositionReplyRoundTrip(b, error, v, rest);
    var d2 := DecodeStream(reply);
    assert reply[8..] == rest;
    PollPair(stream, a, b);
  }

  /** A cycle in which both servos answer sees both positions and takes both replies. */
  lemma BothServosAnswer(a: u8, b: u8, ea: u8, eb: u8, v: u16, w: u16, rest: seq<Arrival>)
    ensures Poll(Bytes(Frame(a, ea, Le16(v))) + Bytes(Frame(b, eb, Le16(w))) + rest, [a, b]) == ([Some(v), Some(w)], rest)
  {
    var second := Bytes(Frame(b, eb, Le16(w))) + rest;
    var stream := Bytes(Frame(a, ea, Le16(v))) + Bytes(Frame(b, eb, Le16(w))) + rest;
    assert stream == Bytes(Frame(a, ea, Le16(v))) + second;
    PositionReplyRoundTrip(a, ea, v, second);
    var d1 := DecodeStream(stream);
    assert stream[8..] == second;
    PositionReplyRoundTrip(b, eb, w, rest);
    var d2 := DecodeStream(second);
    assert second[8..] == rest;
    PollPair(stream, a, b);
  }

  /** Two cycles: the second polls what the first left. */
  lemma TwoCycles(stream: seq<Arrival>, ids: seq<u8>)
    ensures var first := Poll(stream, ids); var second := Poll(first.1, ids);
      Polled(stream, ids, 2) == ([first.0, second.0], second.1)
  {
    var first := Poll(stream, ids);
    assert Polled(stream, ids, 0) == ([], stream);
    assert Polled(stream, ids, 1) == ([first.0], first.1) by { assert [] + [first.0] == [first.0]; }
    var second := Poll(first.1, ids);
    assert [first.0] + [second.0] == [first.0, second.0];
  }

  /**
   * A servo that misses one cycle is read again in the next: servo `a` silent
   * in the first cycle and answering `v2` in the second ends with `a` seen once.
   */
  lemma SilentServoRecovers(a: u8, b: u8, e: u8, v1: u16, v2: u16, w: u16, rest: seq<Arrival>)
    ensures var stream := [Silence] + Bytes(Frame(b, e, Le16(v1))) + (Bytes(Frame(a, e, Le16(v2))) + Bytes(Frame(b, e, Le16(w))) + rest);
      Polled(stream, [a, b], 2) == ([[None, Some(v1)], [Some(v2), Some(w)]], rest)
  {
    var next := Bytes(Frame(a, e, Le16(v2))) + Bytes(Frame(b, e, Le16(w))) + rest;
    var stream := [Silence] + Bytes(Frame(b, e, Le16(v1))) + next;
    TwoCycles(stream, [a, b]);
    SilentServoSkipped(a, b, e, v1, next);
    BothServosAnswer(a, b, e, e, v2, w, rest);
  }

  // ---------------------------------------------------------------------------
  // The loop
  // ---------------------------------------------------------------------------

  /** One pass of the inner loop: read servo `i` and fold a successful reading into its extremes. */
  method SampleServo(port: Port, id: u8, mins: array<u16>, maxs: array<u16>, i: nat) returns (ghost read: Option<u16>)
    requires i < mins.Length && i < maxs.Length && mins != maxs
    modifies port, mins, maxs
    ensures read == ReadOutcome(PositionOf(DecodeStream(old(port.pending)).result))
    ensures port.pending == old(port.pending)[DecodeStream(old(port.pending)).consumed..]
    ensures port.written == old(port.written) + ReadRequest(id)
    ensures mins[i] == FoldMin(old(mins[i]), read) && maxs[i] == FoldMax(old(maxs[i]), read)
    ensures forall k :: 0 <= k < mins.Length && k != i ==> mins[k] == old(mins[k])
    ensures forall k :: 0 <= k < maxs.Length && k != i ==> maxs[k] == old(maxs[k])
  {
    var pos := ReadPosition(port, id);
    if pos.Success? {
      mins[i] := if mins[i] <= pos.value then mins[i] else pos.value;
      maxs[i] := if maxs[i] >= pos.value then maxs[i] else pos.value;
    }
    read := ReadOutcome(pos);
  }

  /** The body of the sampling loop: one read per servo, each folded into its extremes. */
  method SampleCycle(port: Port, ids: seq<u8>, mins: array<u16>, maxs: array<u16>) returns (ghost cycle: Cycle)
    requires mins.Length == |ids| && maxs.Length == |ids| && mins != maxs
    modifies port, mins, maxs
    ensures (cycle, port.pending) == Poll(old(port.pending), ids)
    ensures port.written == old(port.written) + Requests(ids)
    ensures forall i :: 0 <= i < |ids| ==> mins[i] == FoldMin(old(mins[i]), cycle[i]) && maxs[i] == FoldMax(old(maxs[i]), cycle[i])
    ensures forall i :: 0 <= i < |ids| ==> mins[i] <= old(mins[i]) && old(maxs[i]) <= maxs[i]
    ensures forall i :: 0 <= i < |ids| && cycle[i].Some? ==> mins[i] <= cycle[i].value <= maxs[i]
  {
    ghost var pending0 := port.pending;
    ghost var written0 := port.written;
    cycle := [];
    for i := 0 to |ids|
      invariant (cycle, port.pending) == Poll(pending0, ids[..i])
      invariant port.written == written0 + Requests(ids[..i])
      invariant forall k :: 0 <= k < i ==> mins[k] == FoldMin(old(mins[k]), cycle[k]) && maxs[k] == FoldMax(old(maxs[k]), cycle[k])
      invariant forall k :: i <= k < |ids| ==> mins[k] == old(mins[k]) && maxs[k] == old(maxs[k])
    {
      assert ids[..i + 1][..i] == ids[..i];
      var read := SampleServo(port, ids[i], mins, maxs, i);
      AppendAssoc(written0, Requests(ids[..i]), ReadRequest(ids[i]));
      cycle := cycle + [read];
    }
    assert ids[..|ids|] == ids;
  }

  /**
   * The sampling loop of `main`: runs `cycleCount` cycles against the link,
   * starting from the sentinels, and leaves in `mins[i]`/`maxs[i]` the
   * extremes of servo `i`'s successful reads. `cycles` records what each
   * cycle saw.
   */
  method TrackExtremes(port: Port, ids: seq<u8>, mins: array<u16>, maxs: array<u16>, cycleCount: nat)
    returns (ghost cycles: seq<Cycle>)
    requires mins.Length == |ids| && maxs.Length == |ids| && mins != maxs
    requires forall i :: 0 <= i < |ids| ==> mins[i] == U16_MAX && maxs[i] == U16_MIN
    modifies port, mins, maxs
    ensures (cycles, port.pending) == Polled(old(port.pending), ids, cycleCount)
    ensures port.written == old(port.written) + RequestLog(ids, cycleCount)
    ensures forall i :: 0 <= i < |ids| ==> mins[i] == Lowest(Observed(cycles, i)) && maxs[i] == Highest(Observed(cycles, i))
  {
    cycles := [];
    var cyclesDone := 0;
    while cyclesDone < cycleCount
      invariant cyclesDone <= cycleCount
      invariant (cycles, port.pending) == Polled(old(port.pending), ids, cyclesDone)
      invariant port.written == old(port.written) + RequestLog(ids, cyclesDone)
      invariant forall i :: 0 <= i < |ids| ==> mins[i] == Lowest(Observed(cycles, i)) && maxs[i] == Highest(Observed(cycles, i))
    {
      ghost var before := cycles;
      var cycle := SampleCycle(port, ids, mins, maxs);
      AppendAssoc(old(port.written), RequestLog(ids, cyclesDone), Requests(ids));
      cycles := cycles + [cycle];
      ExtremesStepAll(before, cycle);
      cyclesDone := cyclesDone + 1;
    }
  }

  /**
   * The sampling phase of `main` followed by the assembly of the result: runs
   * `cycleCount` cycles against the link and returns the calibration they
   * produce. `cycles` records what each cycle saw.
   */
  method RangeFind(port: Port, ids: seq<u8>, cycleCount: nat) returns (data: CalibrationData, ghost cycles: seq<Cycle>)
    modifies port
    ensures (cycles, port.pending) == Polled(old(port.pending), ids, cycleCount)
    ensures port.written == old(port.written) + RequestLog(ids, cycleCount)
    ensures data == Calibrated(ids, cycles)
  {
    var n := |ids|;
    var mins := new u16[n](_ => U16_MAX);
    var maxs := new u16[n](_ => U16_MIN);
    cycles := TrackExtremes(port, ids, mins, maxs, cycleCount);
    data := CalibrationData(seq(n, i requires 0 <= i < n reads mins, maxs => ServoCalibration(ids[i], mins[i], maxs[i])));
    assert forall i :: 0 <= i < n ==> data.servos[i] == Calibrated(ids, cycles).servos[i];
  }
}
