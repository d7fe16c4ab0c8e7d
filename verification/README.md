# dnfjson progress translators in Dafny

dnfjson is a small command-line wrapper around the `dnf` package manager. It
drives installs and upgrades and reports the engine's progress callbacks as
one JSON object per line. Almost everything it does is a direct call into
`dnf`. The logic of its own is in two callback classes, and this project
models them:

- **`JsonProgressMeter`** is the download progress translator. `start`
  stores the batch totals and zeroes the done counters. `progress` does
  nothing. `end` counts one more file and adds the payload's declared size,
  then emits a "downloading" event. It does this whatever the download
  status or error message was.
- **`JsonTransactionProgress`** is the transaction progress translator. It
  keeps one counter, `done_steps`. It only looks at `PKG_INSTALL` and
  `PKG_UPGRADED` callbacks. It emits an "installing" event only when the
  engine's transaction-wide step counter has moved past `done_steps`, and
  then records that step counter.
- **Supporting pieces.** `status_strings` is the fixed table from action kind
  to label. `json_package` projects a package onto name, epoch, version,
  release and arch.

Each callback is a pure step function on an immutable state record, and
returns the new state and the event it emits, if any. `Replay` and `Run`
fold a step over a sequence of engine calls. They recurse on the last call,
so "after the first N calls" is a prefix of the sequence. Events are
datatypes, not JSON text.

Files:

- `wrappers.dfy`: the `Option` and `Result` datatypes.
- `actions.dfy`: the 15 action kinds, the `status_strings` table, its
  inverse, and the two reported kinds.
- `packages.dfy`: package references and the `json_package` projection.
- `progress_meter.dfy`: the download translator and the lemmas about call
  sequences.
- `transaction_progress.dfy`: the transaction translator and the lemmas
  about call sequences.

Some behaviour of the code that is easy to get wrong:

- **No deduplication by package.** Transaction progress keys on the step
  counter (dnfjson.py:59-69). It does not deduplicate by package identity.
  `SharedStepReportedOnce` shows two different packages finishing at the
  same step and producing one event. `RepeatedPackageReportedTwice` shows
  one package seen at two steps and producing two events.
- **Event fields.** The "installing" event carries `done_steps`,
  `total_steps`, `done_size` and `total_size` (dnfjson.py:60-67). It has no
  `done_pkgs`/`total_pkgs`.
- **No repository field.** The package object has five fields and no
  repository (dnfjson.py:77-84).
- **No `list` command and no global options.** The code has no `list`
  subcommand and no `--exclude`, `--repo`, `--repofrompath` or `--setopt`
  options.

The transaction callback's `package` argument is modelled as one of three
things: nothing, a bare string, or a package. The code turns `None` and `''`
into `null` (dnfjson.py:62). Any other string would reach `json_package`,
which reads `.name` from it and raises. The model returns this as a
`Failure`. The state is unchanged, because the exception comes before
`done_steps` is assigned. A run stops at the first failing call.

## Model

| member | source | states |
|---|---|---|
| Actions.StatusString | dnfjson.py:7-23 | Every one of the 15 action kinds has a `status_strings` entry, and reading its label back gives the same kind. |
| Actions.ActionNamedExact | dnfjson.py:7-23 | Reading the table backwards: a label maps to an action kind exactly when that kind's `status_strings` entry is the label. A label that maps to nothing is no entry's label. |
| Actions.StatusStringInjective | dnfjson.py:7-23 | Two action kinds have the same label exactly when they are the same kind. |
| Actions.ReportedByLabel | dnfjson.py:56 | The transaction filter `Reported` passes an action exactly when its label is `PKG_INSTALL` or `PKG_UPGRADED`. |
| Packages.JsonPackage | dnfjson.py:77-84 | `json_package` copies name, epoch, version, release and arch from the package into the object. |
| Packages.JsonPackageIdentity | dnfjson.py:77-84 | Two packages give the same JSON object exactly when they agree on name, epoch, version, release and arch. The repository plays no part. |
| ProgressMeter.Start | dnfjson.py:30-34 | `start` leaves the meter started, with the given totals and both done counters at zero. |
| ProgressMeter.Progress | dnfjson.py:36-37 | The download `progress` callback changes nothing. |
| ProgressMeter.End | dnfjson.py:39-49 | `end` raises `done_files` by exactly 1 and `done_size` by exactly the payload's size, and leaves the totals alone. Its event carries the payload's display string, the updated done counters, and the totals stored by `start`. |
| ProgressMeter.StartAndEndIgnoreInputs | dnfjson.py:30-49 | `start` gives the same state whatever the prior state and the delta-RPM count. `end` gives the same state and event whatever the status and error message. |
| ProgressMeter.Replay | dnfjson.py:26-49 | A call sequence emits exactly one event per `end` call, and no event for `start` or `progress`. The meter is started after the sequence exactly when it was started before or the sequence contains a `start`. |
| ProgressMeter.AfterLastStart | dnfjson.py:30-41 | After any call sequence, the state is fixed by the last `start`. The totals are that start's totals. `done_files` is the number of later `end` calls, and `done_size` is the sum of their sizes. Earlier batches and `progress` calls leave no trace. |
| ProgressMeter.FreshCanReplay | dnfjson.py:26-49 | A freshly constructed meter has no totals. It can take a call sequence exactly when every `end` in it comes after some `start`. |
| ProgressMeter.BatchState | dnfjson.py:30-41 | A batch (a `start`, then any `progress` and `end` calls but no second `start`) can always be replayed. Afterwards the meter holds the totals from `start`, one file per `end`, and the sum of all their sizes. |
| ProgressMeter.BatchEvents | dnfjson.py:30-49 | In a batch, there is one event per `end` and no other. The i-th `end` emits an event with its own payload's display string, i files done, the sum of the sizes of the first i ends, and the totals from `start`. |
| TransactionProgress.PackageField | dnfjson.py:62 | The event's package is `null` exactly for `None` or `''`. For a package it is that package's projection. A non-empty string fails. |
| TransactionProgress.Progress | dnfjson.py:55-69 | A kind other than install or upgraded emits nothing and changes nothing. So does a step counter at or below `done_steps`. An emitting call sets `done_steps` to the step counter and passes the step and item counters through unchanged. Its action label names the call's kind. Its package is null exactly for a null-like argument, and is the projection of a package argument. A call that passes both guards emits, unless it carries a non-empty string, in which case it fails. `done_steps` never decreases. |
| TransactionProgress.Run | dnfjson.py:51-69 | A run that does not fail emits at most one event per call, and its `done_steps` is never below the starting value. |
| TransactionProgress.RunHighWater | dnfjson.py:53-69 | After a run that does not fail, `done_steps` is the largest step counter carried by any install or upgraded call. It is the starting value if none went above it. |
| TransactionProgress.RunReportsRecords | dnfjson.py:55-69 | A run that does not fail emits events exactly for the record-breaking calls, in order, each built from its own call. A record-breaking call is an install or upgraded call whose step counter beats the starting value and every earlier such call. |
| TransactionProgress.RunFailsIff | dnfjson.py:59-62 | A run fails exactly when some record-breaking call carries a non-empty string instead of a package. |
| TransactionProgress.PrintableRunSucceeds | dnfjson.py:62 | A run whose calls carry only packages, `None` or `''` never fails. |
| TransactionProgress.RunEventsOrdered | dnfjson.py:56-69 | Emitted step counters strictly increase. Each lies above the starting value and at or below the final `done_steps`. Every event's action is `PKG_INSTALL` or `PKG_UPGRADED`. |
| TransactionProgress.FirstCallReported | dnfjson.py:53-69 | From the freshly constructed state, an install of a package at step 1 emits its event and sets `done_steps` to 1. |
| TransactionProgress.SharedStepReportedOnce | dnfjson.py:59-69 | Two packages installed at the same step produce one event, for the first of them. |
| TransactionProgress.RepeatedPackageReportedTwice | dnfjson.py:59-69 | One package reported at step 1 and again at step 2 produces two events, because package identities are not remembered. |

## Left out

- ProgressMeter.End: requires a prior `start`. Without one, the source raises `AttributeError` on the missing totals, after it has already incremented both done counters. The model treats a `start` before any `end` as the engine's obligation (`CanReplay`) and does not model that crash.
- ProgressMeter.End: takes the payload's size as an integer. It does not model `int()` on a non-integer `download_size`. The display string stands for `str(payload)`.
- `prepare_dnf`, `install`, `upgrade` (dnfjson.py:71-119): these call straight into the external `dnf.Base` for reading repositories, resolving, downloading and running the transaction. Pretend mode prints the projected install set, which is `json_package` applied to each package. Non-pretend `upgrade` never downloads or runs a transaction.
- `main` (dnfjson.py:121-148): argparse plumbing. It also uses `sys` without importing it.
- `json.dumps` and `print`: events are records, not JSON text or standard output.
- `dnf.callback` numeric constants: the foreign values are not reproduced. Each action kind is its own constructor, which assumes the 15 constants are distinct.
- Concurrency: callbacks are treated as sequential, as the code does no locking.
- What the engine does once a transaction callback raises: a run simply stops at the first failure.
- `setup.py`: packaging metadata only.
