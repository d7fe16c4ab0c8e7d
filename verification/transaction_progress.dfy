/**
  The transaction progress translator (`JsonTransactionProgress`,
  dnfjson.py:51-69). It keeps one counter, the last transaction-wide step
  it reported, and reports a `PKG_INSTALL` or `PKG_UPGRADED` callback only when the
  engine's step counter has moved past that value. Packages are not
  deduplicated by identity: two packages finishing at the same step are
  reported once, one package seen at two steps is reported twice.
 */
module TransactionProgress {
  import opened Wrappers
  import opened Actions
  import opened Packages

  /** What the engine passes as `package`: nothing, a bare string, or a package. */
  datatype PackageArg = NoPackage | Text(text: string) | Package(pkg: PackageRef)

  /** Projecting a bare string onto a package object fails: a string has no package attributes. */
  datatype TxError = NotAPackage(text: string)

  /** The translator's only field. */
  datatype TxState = TxState(doneSteps: int)

  /** The state the constructor sets up. */
  const Initial: TxState := TxState(0)

  /** The "installing" event; `package` is `None` where the JSON has `null`. */
  datatype InstallingEvent = InstallingEvent(
    package: Option<PackageObject>,
    action: string,
    doneSteps: int,
    totalSteps: int,
    doneSize: int,
    totalSize: int)

  /** One callback: package, action, the item's progress, and the transaction's step counters. */
  datatype TxCall = TxCall(
    package: PackageArg,
    action: Action,
    itemDone: int,
    itemTotal: int,
    stepsDone: int,
    stepsTotal: int)

  /** The argument is reported as `null` rather than projected. */
  predicate IsNull(arg: PackageArg)
  {
    arg == NoPackage || arg == Text("")
  }

  /** The `package` field of an event, or the failure of projecting a non-empty string. */
  function PackageField(arg: PackageArg): (r: Result<Option<PackageObject>, TxError>)
    ensures r == Success(None) <==> IsNull(arg)
    ensures r.Failure? <==> arg.Text? && arg.text != ""
    ensures arg.Package? ==> r.Success? && r.value.Some? && r.value.value == JsonPackage(arg.pkg)
  {
    match arg
    case NoPackage => Success(None)
    case Text(text) => if text == "" then Success(None) else Failure(NotAPackage(text))
    case Package(p) => Success(Some(JsonPackage(p)))
  }

  /** The argument can be put in an event: it is null-like or a package. */
  predicate Printable(arg: PackageArg)
  {
    !(arg.Text? && arg.text != "")
  }

  /** The event a call produces once it passes both guards and its package prints. */
  function EventOf(c: TxCall): InstallingEvent
    requires Printable(c.package)
  {
    InstallingEvent(PackageField(c.package).value, StatusString(c.action),
                    c.stepsDone, c.stepsTotal, c.itemDone, c.itemTotal)
  }

  datatype TxStep = TxStep(state: TxState, event: Option<InstallingEvent>)

  /** `progress`: one transaction callback. */
  function Progress(s: TxState, c: TxCall): (r: Result<TxStep, TxError>)
    ensures !Reported(c.action) ==> r == Success(TxStep(s, None))
    ensures c.stepsDone <= s.doneSteps ==> r == Success(TxStep(s, None))
    ensures r.Failure? <==> Reported(c.action) && c.stepsDone > s.doneSteps && !Printable(c.package)
    ensures r.Success? && r.value.event.None? ==> r.value.state == s
    ensures r.Success? && r.value.event.Some? ==>
              && Reported(c.action)
              && c.stepsDone > s.doneSteps
              && r.value.state.doneSteps == c.stepsDone
              && r.value.event.value.doneSteps == c.stepsDone
              && r.value.event.value.totalSteps == c.stepsTotal
              && r.value.event.value.doneSize == c.itemDone
              && r.value.event.value.totalSize == c.itemTotal
              && ActionNamed(r.value.event.value.action) == Some(c.action)
              && (r.value.event.value.package.None? <==> IsNull(c.package))
    ensures Reported(c.action) && c.stepsDone > s.doneSteps && Printable(c.package) ==>
              r.Success? && r.value.event.Some?
    ensures r.Success? && r.value.event.Some? && c.package.Package? ==>
              r.value.event.value.package == Some(JsonPackage(c.package.pkg))
    ensures r.Success? ==> r.value.state.doneSteps >= s.doneSteps
  {
    if !Reported(c.action) then Success(TxStep(s, None))
    else if c.stepsDone > s.doneSteps then
      match PackageField(c.package)
      case Failure(e) => Failure(e)
      case Success(pkg) =>
        Success(TxStep(TxState(c.stepsDone),
                       Some(InstallingEvent(pkg, StatusString(c.action), c.stepsDone, c.stepsTotal,
                                            c.itemDone, c.itemTotal))))
    else Success(TxStep(s, None))
  }

  datatype TxTrace = TxTrace(state: TxState, events: seq<InstallingEvent>)

  /** The events a single step contributes: none or one. */
  function StepEvents(step: TxStep): (es: seq<InstallingEvent>)
    ensures |es| <= 1
  {
    if step.event.Some? then [step.event.value] else []
  }

  /** Feed one more call to a run that has not failed yet. */
  function Extend(r: Result<TxTrace, TxError>, c: TxCall): Result<TxTrace, TxError>
  {
    match r
    case Failure(e) => Failure(e)
    case Success(t) =>
      match Progress(t.state, c)
      case Failure(e) => Failure(e)
      case Success(step) => Success(TxTrace(step.state, t.events + StepEvents(step)))
  }

  /**
    Drive the translator through a call sequence. The first failing call
    aborts the run: the error propagates out of the engine's transaction.
   */
  function Run(s: TxState, calls: seq<TxCall>): (r: Result<TxTrace, TxError>)
    ensures r.Success? ==> |r.value.events| <= |calls|
    ensures r.Success? ==> r.value.state.doneSteps >= s.doneSteps
    decreases |calls|
  {
    if |calls| == 0 then Success(TxTrace(s, []))
    else Extend(Run(s, calls[..|calls| - 1]), calls[|calls| - 1])
  }

  /**
    `h` is the largest step counter carried by any reported call, or the
    starting value `d` when none went beyond it.
   */
  predicate IsHighWater(h: int, d: int, calls: seq<TxCall>)
  {
    && h >= d
    && (forall i :: 0 <= i < |calls| && Reported(calls[i].action) ==> calls[i].stepsDone <= h)
    && (h == d || exists i :: 0 <= i < |calls| && Reported(calls[i].action) && calls[i].stepsDone == h)
  }

  /** Call `i` is reported and beats both the starting value and every earlier reported call. */
  predicate IsRecord(d: int, calls: seq<TxCall>, i: int)
    requires 0 <= i < |calls|
  {
    && Reported(calls[i].action)
    && calls[i].stepsDone > d
    && forall j :: 0 <= j < i && Reported(calls[j].action) ==> calls[j].stepsDone < calls[i].stepsDone
  }

  /** The record-breaking calls, in call order. */
  function RecordCalls(d: int, calls: seq<TxCall>): seq<TxCall>
  {
    if |calls| == 0 then []
    else RecordCalls(d, calls[..|calls| - 1])
         + (if IsRecord(d, calls, |calls| - 1) then [calls[|calls| - 1]] else [])
  }

  /** Whether a call is a record depends only on the calls before it. */
  lemma IsRecordPrefix(d: int, calls: seq<TxCall>, n: nat, i: nat)
    requires i < n <= |calls|
    ensures IsRecord(d, calls[..n], i) <==> IsRecord(d, calls, i)
  {
    var pre := calls[..n];
    assert pre[i] == calls[i];
    assert forall j :: 0 <= j < i ==> pre[j] == calls[j];
  }

  /** One more call: it passes the guard exactly when it is a record, and the high-water mark follows. */
  lemma HighWaterStep(h: int, d: int, calls: seq<TxCall>)
    requires |calls| > 0
    requires IsHighWater(h, d, calls[..|calls| - 1])
    ensures var c := calls[|calls| - 1];
            Reported(c.action) && c.stepsDone > h <==> IsRecord(d, calls, |calls| - 1)
    ensures var c := calls[|calls| - 1];
            IsHighWater(if IsRecord(d, calls, |calls| - 1) then c.stepsDone else h, d, calls)
  {
    var n := |calls|;
    var init := calls[..n - 1];
    var c := calls[n - 1];
    assert forall j :: 0 <= j < n - 1 ==> init[j] == calls[j];
    if IsRecord(d, calls, n - 1) && h != d {
      var i :| 0 <= i < |init| && Reported(init[i].action) && init[i].stepsDone == h;
      assert calls[i] == init[i];
    }
    if !IsRecord(d, calls, n - 1) && h != d {
      var i :| 0 <= i < |init| && Reported(init[i].action) && init[i].stepsDone == h;
      assert calls[i] == init[i];
    }
  }

  /** A run that does not fail ends with `done_steps` at the high-water mark of the reported step counters. */
  lemma {:induction false} RunHighWater(s: TxState, calls: seq<TxCall>)
    ensures Run(s, calls).Success? ==> IsHighWater(Run(s, calls).value.state.doneSteps, s.doneSteps, calls)
    decreases |calls|
  {
    if |calls| > 0 && Run(s, calls).Success? {
      var n := |calls|;
      var init := calls[..n - 1];
      var c := calls[n - 1];
      assert Run(s, calls) == Extend(Run(s, init), c);
      RunHighWater(s, init);
      var t := Run(s, init).value;
      HighWaterStep(t.state.doneSteps, s.doneSteps, calls);
      var step := Progress(t.state, c).value;
      assert Run(s, calls).value.state == step.state;
    }
  }

  /** Call `i` passes both guards but carries a non-empty string, so projecting it fails. */
  predicate FailsAt(d: int, calls: seq<TxCall>, i: int)
    requires 0 <= i < |calls|
  {
    IsRecord(d, calls, i) && !Printable(calls[i].package)
  }

  /** Some call of the sequence fails. */
  predicate SomeCallFails(d: int, calls: seq<TxCall>)
  {
    exists i :: 0 <= i < |calls| && FailsAt(d, calls, i)
  }

  /** A failing call is in the prefix or is the last call. */
  lemma SomeCallFailsSplit(d: int, calls: seq<TxCall>)
    requires |calls| > 0
    ensures SomeCallFails(d, calls)
            <==> SomeCallFails(d, calls[..|calls| - 1]) || FailsAt(d, calls, |calls| - 1)
  {
    var n := |calls|;
    var init := calls[..n - 1];
    if SomeCallFails(d, init) {
      var i :| 0 <= i < n - 1 && FailsAt(d, init, i);
      IsRecordPrefix(d, calls, n - 1, i);
      assert FailsAt(d, calls, i);
    }
    if SomeCallFails(d, calls) && !FailsAt(d, calls, n - 1) {
      var i :| 0 <= i < n && FailsAt(d, calls, i);
      IsRecordPrefix(d, calls, n - 1, i);
      assert FailsAt(d, init, i);
    }
  }

  /**
    A run fails exactly when some record-breaking call carries a non-empty
    string instead of a package.
   */
  lemma {:induction false} RunFailsIff(s: TxState, calls: seq<TxCall>)
    ensures Run(s, calls).Failure? <==> SomeCallFails(s.doneSteps, calls)
    decreases |calls|
  {
    if |calls| > 0 {
      var n := |calls|;
      var init := calls[..n - 1];
      assert Run(s, calls) == Extend(Run(s, init), calls[n - 1]);
      RunFailsIff(s, init);
      SomeCallFailsSplit(s.doneSteps, calls);
      if Run(s, init).Success? {
        RunHighWater(s, init);
        HighWaterStep(Run(s, init).value.state.doneSteps, s.doneSteps, calls);
      }
    }
  }

  /**
    A run that does not fail emits exactly one event per record-breaking
    call, in call order, each built from that call alone.
   */
  lemma {:induction false} RunReportsRecords(s: TxState, calls: seq<TxCall>)
    ensures Run(s, calls).Success? ==>
              var events := Run(s, calls).value.events;
              var records := RecordCalls(s.doneSteps, calls);
              && |events| == |records|
              && forall i :: 0 <= i < |events| ==> Printable(records[i].package) && events[i] == EventOf(records[i])
    decreases |calls|
  {
    var d := s.doneSteps;
    if |calls| > 0 && Run(s, calls).Success? {
      var n := |calls|;
      var init := calls[..n - 1];
      var c := calls[n - 1];
      assert Run(s, calls) == Extend(Run(s, init), c);
      RunReportsRecords(s, init);
      RunHighWater(s, init);
      var t := Run(s, init).value;
      HighWaterStep(t.state.doneSteps, d, calls);
      var step := Progress(t.state, c).value;
      var events := Run(s, calls).value.events;
      assert events == t.events + StepEvents(step);
      var records := RecordCalls(d, calls);
      var earlier := RecordCalls(d, init);
      if IsRecord(d, calls, n - 1) {
        assert records == earlier + [c];
        assert StepEvents(step) == [EventOf(c)];
      } else {
        assert records == earlier + [];
        assert StepEvents(step) == [];
      }
    }
  }

  /** A run fed only packages and null-like arguments never fails. */
  lemma PrintableRunSucceeds(s: TxState, calls: seq<TxCall>)
    requires forall i :: 0 <= i < |calls| ==> Printable(calls[i].package)
    ensures Run(s, calls).Success?
  {
    RunFailsIff(s, calls);
    assert !SomeCallFails(s.doneSteps, calls);
  }

  /**
    The events of a trace are ordered: their step counters strictly
    increase, lie above `d` and at or below the trace's `done_steps`, and
    each is of the `PKG_INSTALL` or `PKG_UPGRADED` kind.
   */
  predicate OrderedTrace(d: int, t: TxTrace)
  {
    && (forall i, j :: 0 <= i < j < |t.events| ==> t.events[i].doneSteps < t.events[j].doneSteps)
    && (forall i :: 0 <= i < |t.events| ==> d < t.events[i].doneSteps <= t.state.doneSteps)
    && (forall i :: 0 <= i < |t.events| ==>
          t.events[i].action == "PKG_INSTALL" || t.events[i].action == "PKG_UPGRADED")
  }

  /** One more call keeps a trace ordered. */
  lemma ExtendKeepsOrder(d: int, t: TxTrace, c: TxCall)
    requires OrderedTrace(d, t) && t.state.doneSteps >= d
    requires Extend(Success(t), c).Success?
    ensures OrderedTrace(d, Extend(Success(t), c).value)
  {
    var step := Progress(t.state, c).value;
    var after := Extend(Success(t), c).value;
    assert after == TxTrace(step.state, t.events + StepEvents(step));
    if step.event.Some? {
      var e := step.event.value;
      ActionNamedExact(e.action);
      var a := ActionNamed(e.action).value;
      assert a == PkgInstall || a == PkgUpgraded;
      assert e.action == StatusString(a);
      assert after.events == t.events + [e];
    } else {
      assert after.events == t.events + [];
    }
  }

  /**
    The emitted step counters strictly increase, all lie above the starting
    value and at or below the final `done_steps`, and every event is of
    the `PKG_INSTALL` or `PKG_UPGRADED` kind.
   */
  lemma {:induction false} RunEventsOrdered(s: TxState, calls: seq<TxCall>)
    ensures Run(s, calls).Success? ==> OrderedTrace(s.doneSteps, Run(s, calls).value)
    decreases |calls|
  {
    if |calls| > 0 && Run(s, calls).Success? {
      var init := calls[..|calls| - 1];
      assert Run(s, calls) == Extend(Run(s, init), calls[|calls| - 1]);
      RunEventsOrdered(s, init);
      ExtendKeepsOrder(s.doneSteps, Run(s, init).value, calls[|calls| - 1]);
    }
  }

  /** From the initial state, an install of a package at step 1 is reported. */
  lemma FirstCallReported(c: TxCall)
    requires c.package.Package? && c.action == PkgInstall && c.stepsDone == 1
    ensures Run(Initial, [c]) == Success(TxTrace(TxState(1), [EventOf(c)]))
  {
    assert [c][..0] == [];
    assert Run(Initial, [c]) == Extend(Success(TxTrace(Initial, [])), c);
    var step := TxStep(TxState(1), Some(EventOf(c)));
    assert Progress(Initial, c) == Success(step);
    assert StepEvents(step) == [EventOf(c)];
    assert [] + [EventOf(c)] == [EventOf(c)];
  }

  /** Two packages finishing at the same transaction step are reported once. */
  lemma SharedStepReportedOnce(p: PackageRef, q: PackageRef)
    ensures var first := TxCall(Package(p), PkgInstall, 10, 10, 1, 2);
            var second := TxCall(Package(q), PkgInstall, 20, 20, 1, 2);
            Run(Initial, [first, second]) == Success(TxTrace(TxState(1), [EventOf(first)]))
  {
    var first := TxCall(Package(p), PkgInstall, 10, 10, 1, 2);
    var second := TxCall(Package(q), PkgInstall, 20, 20, 1, 2);
    assert [first, second][..1] == [first];
    FirstCallReported(first);
    var t := TxTrace(TxState(1), [EventOf(first)]);
    assert Run(Initial, [first, second]) == Extend(Success(t), second);
    assert Progress(t.state, second) == Success(TxStep(t.state, None));
    assert t.events + [] == t.events;
  }

  /** One package seen again at a later step is reported again: identities are not remembered. */
  lemma RepeatedPackageReportedTwice(p: PackageRef)
    ensures var first := TxCall(Package(p), PkgInstall, 10, 10, 1, 2);
            var again := TxCall(Package(p), PkgInstall, 10, 10, 2, 2);
            Run(Initial, [first, again]) == Success(TxTrace(TxState(2), [EventOf(first), EventOf(again)]))
  {
    var first := TxCall(Package(p), PkgInstall, 10, 10, 1, 2);
    var again := TxCall(Package(p), PkgInstall, 10, 10, 2, 2);
    assert [first, again][..1] == [first];
    FirstCallReported(first);
    var t := TxTrace(TxState(1), [EventOf(first)]);
    assert Run(Initial, [first, again]) == Extend(Success(t), again);
    var step := TxStep(TxState(2), Some(EventOf(again)));
    assert Progress(t.state, again) == Success(step);
    assert t.events + StepEvents(step) == [EventOf(first), EventOf(again)];
  }
}
