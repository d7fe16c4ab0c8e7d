/**
  The download progress translator (`JsonProgressMeter`, dnfjson.py:25-49).
  The engine calls `start` once per download batch, `progress` for every
  chunk and `end` once per finished file; each `end` produces one
  "downloading" event. A callback is a pure step on an immutable state.
 */
module ProgressMeter {
  import opened Wrappers

  /** The batch totals stored by `start`. */
  datatype Totals = Totals(files: int, size: int)

  /**
    The meter's fields. `totals` is `None` until the first `start`: the
    constructor sets only the done counters.
   */
  datatype MeterState = MeterState(totals: Option<Totals>, doneFiles: int, doneSize: int)

  /** A finished download unit: its display string and its declared byte size. */
  datatype Payload = Payload(display: string, downloadSize: int)

  /** The "downloading" event. */
  datatype DownloadEvent = DownloadEvent(
    package: string,
    doneFiles: int,
    totalFiles: int,
    doneSize: int,
    totalSize: int)

  /** The state a freshly constructed meter starts in. */
  const Fresh: MeterState := MeterState(None, 0, 0)

  predicate Started(s: MeterState)
  {
    s.totals.Some?
  }

  /** `start`: begin a batch. The count of delta RPMs is accepted and ignored. */
  function Start(s: MeterState, totalFiles: int, totalSize: int, totalDrpms: int): (r: MeterState)
    ensures Started(r)
    ensures r.totals.value == Totals(totalFiles, totalSize)
    ensures r.doneFiles == 0 && r.doneSize == 0
  {
    MeterState(Some(Totals(totalFiles, totalSize)), 0, 0)
  }

  /** `progress`: a chunk arrived; the meter ignores it. */
  function Progress(s: MeterState, payload: Payload, done: int): (r: MeterState)
    ensures r == s
  {
    s
  }

  datatype EndStep = EndStep(state: MeterState, event: DownloadEvent)

  /**
    `end`: one unit finished, whatever its status or error message. The
    totals must have been stored by an earlier `start`.
   */
  function End(s: MeterState, payload: Payload, status: int, errMsg: Option<string>): (r: EndStep)
    requires Started(s)
    ensures r.state.totals == s.totals
    ensures r.state.doneFiles == s.doneFiles + 1
    ensures r.state.doneSize == s.doneSize + payload.downloadSize
    ensures r.event.package == payload.display
    ensures r.event.doneFiles == r.state.doneFiles && r.event.doneSize == r.state.doneSize
    ensures s.totals == Some(Totals(r.event.totalFiles, r.event.totalSize))
  {
    var next := s.(doneFiles := s.doneFiles + 1, doneSize := s.doneSize + payload.downloadSize);
    EndStep(next, DownloadEvent(payload.display, next.doneFiles, next.totals.value.files,
                                next.doneSize, next.totals.value.size))
  }

  /** Start and end ignore what they are not given: start forgets the previous state, end the status. */
  lemma StartAndEndIgnoreInputs(s: MeterState, t: MeterState, files: int, size: int, drpms: int, drpms': int,
                                payload: Payload, status: int, status': int, err: Option<string>, err': Option<string>)
    requires Started(s)
    ensures Start(s, files, size, drpms) == Start(t, files, size, drpms')
    ensures End(s, payload, status, err) == End(s, payload, status', err')
  {
  }

  /** One call the engine makes on the meter. */
  datatype MeterCall =
    | StartCall(totalFiles: int, totalSize: int, totalDrpms: int)
    | ProgressCall(chunk: Payload, done: int)
    | EndCall(payload: Payload, status: int, errMsg: Option<string>)

  /** The call sequence contains a `start`. */
  predicate HasStart(calls: seq<MeterCall>)
    decreases |calls|
  {
    |calls| > 0 && (calls[|calls| - 1].StartCall? || HasStart(calls[..|calls| - 1]))
  }

  /**
    The engine's obligation: no `end` reaches a meter whose totals were never
    set, that is, every `end` comes after a `start` unless the meter was
    already started.
   */
  predicate CanReplay(s: MeterState, calls: seq<MeterCall>)
    decreases |calls|
  {
    |calls| == 0
    || (&& CanReplay(s, calls[..|calls| - 1])
        && (calls[|calls| - 1].EndCall? ==> Started(s) || HasStart(calls[..|calls| - 1])))
  }

  datatype MeterTrace = MeterTrace(state: MeterState, events: seq<DownloadEvent>)

  /** The number of `end` calls in a call sequence. */
  function EndCount(calls: seq<MeterCall>): nat
  {
    if |calls| == 0 then 0
    else EndCount(calls[..|calls| - 1]) + (if calls[|calls| - 1].EndCall? then 1 else 0)
  }

  /** The payloads of the `end` calls, in call order. */
  function EndPayloads(calls: seq<MeterCall>): seq<Payload>
  {
    if |calls| == 0 then []
    else EndPayloads(calls[..|calls| - 1])
         + (if calls[|calls| - 1].EndCall? then [calls[|calls| - 1].payload] else [])
  }

  /** The sum of the declared sizes. */
  function SizeSum(ps: seq<Payload>): int
  {
    if |ps| == 0 then 0 else SizeSum(ps[..|ps| - 1]) + ps[|ps| - 1].downloadSize
  }

  /** One call applied to a trace: the new state, and the event if the call emits one. */
  function Apply(t: MeterTrace, c: MeterCall): MeterTrace
    requires c.EndCall? ==> Started(t.state)
  {
    match c
    case StartCall(files, size, drpms) => MeterTrace(Start(t.state, files, size, drpms), t.events)
    case ProgressCall(chunk, done) => MeterTrace(Progress(t.state, chunk, done), t.events)
    case EndCall(payload, status, err) =>
      var step := End(t.state, payload, status, err);
      MeterTrace(step.state, t.events + [step.event])
  }

  /** Drive the meter through a call sequence, collecting the events it emits. */
  function Replay(s: MeterState, calls: seq<MeterCall>): (r: MeterTrace)
    requires CanReplay(s, calls)
    ensures Started(r.state) <==> Started(s) || HasStart(calls)
    ensures |r.events| == EndCount(calls)
    decreases |calls|
  {
    if |calls| == 0 then MeterTrace(s, [])
    else Apply(Replay(s, calls[..|calls| - 1]), calls[|calls| - 1])
  }

  /** A sequence with a `start` at position `j` contains a `start`. */
  lemma {:induction false} HasStartAt(calls: seq<MeterCall>, j: nat)
    requires j < |calls| && calls[j].StartCall?
    ensures HasStart(calls)
    decreases |calls|
  {
    if j < |calls| - 1 {
      var init := calls[..|calls| - 1];
      assert init[j] == calls[j];
      HasStartAt(init, j);
    }
  }

  lemma SizeSumAppend(ps: seq<Payload>, p: Payload)
    ensures SizeSum(ps + [p]) == SizeSum(ps) + p.downloadSize
  {
    assert (ps + [p])[..|ps|] == ps;
  }

  /** A call other than `start` moves the counters by one file and its size if it is an `end`, and keeps the totals. */
  lemma ApplyCounts(t: MeterTrace, c: MeterCall)
    requires !c.StartCall? && (c.EndCall? ==> Started(t.state))
    ensures Apply(t, c).state.totals == t.state.totals
    ensures Apply(t, c).state.doneFiles == t.state.doneFiles + (if c.EndCall? then 1 else 0)
    ensures Apply(t, c).state.doneSize == t.state.doneSize + (if c.EndCall? then c.payload.downloadSize else 0)
  {
  }

  /** The size of the `end` calls, one call at a time. */
  lemma EndSumStep(xs: seq<MeterCall>)
    requires |xs| > 0
    ensures var last := xs[|xs| - 1];
            SizeSum(EndPayloads(xs))
            == SizeSum(EndPayloads(xs[..|xs| - 1])) + (if last.EndCall? then last.payload.downloadSize else 0)
  {
    var last := xs[|xs| - 1];
    var ps := EndPayloads(xs[..|xs| - 1]);
    if last.EndCall? {
      assert EndPayloads(xs) == ps + [last.payload];
      SizeSumAppend(ps, last.payload);
    } else {
      assert EndPayloads(xs) == ps + [];
      assert ps + [] == ps;
    }
  }

  /** Counting the ends after position `k` one call at a time. */
  lemma EndsAfterSplit(calls: seq<MeterCall>, k: nat)
    requires k + 1 < |calls|
    ensures var init := calls[..|calls| - 1];
            var last := calls[|calls| - 1];
            && EndCount(calls[k + 1..]) == EndCount(init[k + 1..]) + (if last.EndCall? then 1 else 0)
            && SizeSum(EndPayloads(calls[k + 1..]))
               == SizeSum(EndPayloads(init[k + 1..])) + (if last.EndCall? then last.payload.downloadSize else 0)
  {
    var init := calls[..|calls| - 1];
    var rest := calls[k + 1..];
    assert rest[..|rest| - 1] == init[k + 1..];
    assert rest[|rest| - 1] == calls[|calls| - 1];
    EndSumStep(rest);
  }

  /**
    Whatever happened before, the meter's state after a call sequence is
    fixed by its last `start`: the totals it stored, one file per later
    `end`, and the sum of those ends' sizes. `progress` calls and earlier
    batches leave no trace.
   */
  lemma {:induction false} AfterLastStart(s: MeterState, calls: seq<MeterCall>, k: nat)
    requires CanReplay(s, calls)
    requires k < |calls| && calls[k].StartCall?
    requires forall j :: k < j < |calls| ==> !calls[j].StartCall?
    ensures Replay(s, calls).state.totals == Some(Totals(calls[k].totalFiles, calls[k].totalSize))
    ensures Replay(s, calls).state.doneFiles == EndCount(calls[k + 1..])
    ensures Replay(s, calls).state.doneSize == SizeSum(EndPayloads(calls[k + 1..]))
    decreases |calls|
  {
    var n := |calls|;
    if k == n - 1 {
      assert calls[k + 1..] == [];
    } else {
      var init := calls[..n - 1];
      assert forall j :: k < j < |init| ==> !init[j].StartCall? by {
        forall j | k < j < |init| ensures !init[j].StartCall? {
          assert init[j] == calls[j];
        }
      }
      AfterLastStart(s, init, k);
      var t := Replay(s, init);
      assert Replay(s, calls) == Apply(t, calls[n - 1]);
      ApplyCounts(t, calls[n - 1]);
      EndsAfterSplit(calls, k);
    }
  }

  /**
    A freshly constructed meter accepts a call sequence exactly when every
    `end` in it comes after some `start`.
   */
  lemma {:induction false} FreshCanReplay(calls: seq<MeterCall>)
    ensures CanReplay(Fresh, calls)
            <==> forall i :: 0 <= i < |calls| && calls[i].EndCall? ==> HasStart(calls[..i])
    decreases |calls|
  {
    var n := |calls|;
    if n > 0 {
      var init := calls[..n - 1];
      FreshCanReplay(init);
      forall i | 0 <= i < n - 1
        ensures init[i] == calls[i] && init[..i] == calls[..i]
      {
      }
    }
  }

  /** One download batch: a `start`, then any `progress` and `end` calls, but no second `start`. */
  predicate IsBatch(calls: seq<MeterCall>)
  {
    |calls| > 0 && calls[0].StartCall? && forall i :: 0 < i < |calls| ==> !calls[i].StartCall?
  }

  /** Every non-empty prefix of a batch is a batch. */
  lemma BatchPrefix(calls: seq<MeterCall>, n: nat)
    requires IsBatch(calls) && 0 < n <= |calls|
    ensures IsBatch(calls[..n])
  {
    var pre := calls[..n];
    assert forall i :: 0 <= i < n ==> pre[i] == calls[i];
  }

  /** A batch can always be replayed: its first call stores the totals. */
  lemma {:induction false} BatchReplayable(s: MeterState, calls: seq<MeterCall>)
    requires IsBatch(calls)
    ensures CanReplay(s, calls)
    decreases |calls|
  {
    var n := |calls|;
    if n == 1 {
      assert calls[..0] == [];
    } else {
      var init := calls[..n - 1];
      BatchPrefix(calls, n - 1);
      BatchReplayable(s, init);
      HasStartAt(init, 0);
    }
  }

  /** After a batch the meter holds its totals and has counted every `end`'s file and size. */
  lemma {:induction false} BatchState(s: MeterState, calls: seq<MeterCall>)
    requires IsBatch(calls)
    ensures CanReplay(s, calls)
    ensures Replay(s, calls).state
            == MeterState(Some(Totals(calls[0].totalFiles, calls[0].totalSize)),
                          |EndPayloads(calls)|, SizeSum(EndPayloads(calls)))
    decreases |calls|
  {
    BatchReplayable(s, calls);
    var n := |calls|;
    if n == 1 {
      assert calls[..0] == [];
      assert EndPayloads(calls) == [];
    } else {
      var init := calls[..n - 1];
      BatchPrefix(calls, n - 1);
      BatchState(s, init);
      var t := Replay(s, init);
      assert init[0] == calls[0];
      assert Replay(s, calls) == Apply(t, calls[n - 1]);
      ApplyCounts(t, calls[n - 1]);
      EndSumStep(calls);
    }
  }

  /** One more call of a batch adds the event of its `end`, if it is one, and nothing else. */
  lemma BatchStep(s: MeterState, calls: seq<MeterCall>)
    requires IsBatch(calls) && |calls| > 1
    ensures CanReplay(s, calls) && CanReplay(s, calls[..|calls| - 1])
    ensures var init := calls[..|calls| - 1];
            var last := calls[|calls| - 1];
            var qs := EndPayloads(init);
            Replay(s, calls).events
            == Replay(s, init).events
               + (if last.EndCall?
                  then [DownloadEvent(last.payload.display, |qs| + 1, calls[0].totalFiles,
                                      SizeSum(qs) + last.payload.downloadSize, calls[0].totalSize)]
                  else [])
  {
    var n := |calls|;
    var init := calls[..n - 1];
    var last := calls[n - 1];
    BatchPrefix(calls, n - 1);
    BatchState(s, init);
    HasStartAt(init, 0);
    var t := Replay(s, init);
    assert init[0] == calls[0];
    assert Replay(s, calls) == Apply(t, last);
    if last.EndCall? {
      var step := End(t.state, last.payload, last.status, last.errMsg);
      assert Apply(t, last) == MeterTrace(step.state, t.events + [step.event]);
    } else {
      assert Apply(t, last).events == t.events;
    }
  }

  /**
    In a batch (one `start`, then `progress` and `end` calls), the i-th
    `end` emits an event with its payload's display string, i files done,
    the sum of the sizes of the first i ends, and the totals given to
    `start`. No other call emits anything.
   */
  lemma {:induction false} BatchEvents(s: MeterState, calls: seq<MeterCall>)
    requires IsBatch(calls)
    ensures CanReplay(s, calls)
    ensures var ps := EndPayloads(calls);
            var events := Replay(s, calls).events;
            && |events| == |ps|
            && forall i :: 0 <= i < |ps| ==>
                 events[i] == DownloadEvent(ps[i].display, i + 1, calls[0].totalFiles,
                                            SizeSum(ps[..i + 1]), calls[0].totalSize)
    decreases |calls|
  {
    BatchReplayable(s, calls);
    var n := |calls|;
    if n == 1 {
      assert calls[..0] == [];
      assert EndPayloads(calls) == [];
    } else {
      var init := calls[..n - 1];
      var last := calls[n - 1];
      BatchPrefix(calls, n - 1);
      BatchEvents(s, init);
      BatchStep(s, calls);
      assert init[0] == calls[0];
      var ps := EndPayloads(calls);
      var qs := EndPayloads(init);
      var before := Replay(s, init).events;
      var after := Replay(s, calls).events;
      if last.EndCall? {
        assert ps == qs + [last.payload];
        forall i | 0 <= i < |ps|
          ensures after[i] == DownloadEvent(ps[i].display, i + 1, calls[0].totalFiles,
                                            SizeSum(ps[..i + 1]), calls[0].totalSize)
        {
          if i < |qs| {
            assert ps[..i + 1] == qs[..i + 1];
            assert after[i] == before[i];
          } else {
            assert ps[..i + 1] == qs + [last.payload];
            SizeSumAppend(qs, last.payload);
          }
        }
      } else {
        assert ps == qs + [] == qs;
        assert after == before + [] == before;
      }
    }
  }
}
