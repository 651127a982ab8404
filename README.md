# qxcintilla core: the follow graph and the delay job runner

This project models and verifies the two pieces of logic in qxcintilla that are
not Qt plumbing.

- **`DelayJobRunner`** (module `Scheduler`, `scheduler.dfy`) is a debouncer.
  It stores one job with its positional and keyword arguments. Every
  `request_job` cancels the stored job, stores the new one and restarts a
  timer with the fixed delay. When the timer expires, the runner stops
  the timer and calls the stored job. The Qt timer would repeat; it fires
  once per request only because the runner stops it before the job runs.
  - The runner's fields form a `Runner` value.
  - The functions `Init`, `Cancel`, `Request` and `Fire` give the state after
    the constructor, `cancel_requests`, `request_job` and `_exec_requested_job`.
  - The class `DelayJobRunner` has the same fields. Its methods are proved to
    produce exactly those states. A ghost `executed` log records every job call.
  - `Step` and `Run` replay arbitrary sequences of method calls and timer
    expiries. The debouncing properties are lemmas about `Run`.
- **The follow graph of `QXcintilla`** (module `Editors`, `editor.dfy`).
  - Every `Editor` object has an ordered `followers` list, a document handle,
    a shared-reference slot, and a panels manager and a features manager.
  - `follow` and `unfollow` append to these lists and remove from them in place.
    Duplicates are kept, and removal takes only the first occurrence
    (`RemoveFirst`, Python's `list.remove`; `unfollow` checks membership
    first, so the ValueError that `list.remove` raises on an absent element
    never occurs).
  - `follow` appends before it reads the other editor's document. An editor
    without a document therefore makes `follow` raise AttributeError with the
    append already done.
  - Assigning `shared_reference` walks the other editor's `shareables`, panels
    first and then features. It points each manager of this editor at the
    matching manager of the other editor. A manager whose assignment raises
    AttributeError is skipped, and the remaining keys are still handled.
  - Deleting `shared_reference` only clears the slot.
  - The `panels` and `features` setters accept the manager class (a new manager
    is built for the editor) or a manager instance (stored as given). Any other
    value raises the matching value error and leaves the field unchanged.

Time, jobs, argument values and documents are opaque:
- the timer is an `armed` flag plus the interval it was last started with;
- a timer expiry is an explicit `Timeout` event that happens only while the
  timer is armed. `Step` treats a `Timeout` on an unarmed runner as no event
  at all.

Behaviours of the code as written that the model keeps:
- `__init__` writes `_shared_reference`, but the property reads and writes the
  name-mangled `__shared_reference`. So on a new editor, reading
  `shared_reference` raises AttributeError until the first assignment or
  deletion. `Slot.Unset` models this, and the `Editor` constructor states it.
- After a timer expiry, the stored job and its arguments stay in place. Only
  the timer is stopped.
- A fresh runner holds a placeholder job, `[]` arguments and `{}` keyword
  arguments. Its timer is not armed, so nothing runs before the first request.

## Model

| member | source | states |
|---|---|---|
| `Scheduler.Init` | qxcintilla/core/utils/helpers.py:17-27 | A new runner keeps the given (non-negative) delay, holds the placeholder job with empty arguments, satisfies the invariant, and has nothing pending. |
| `Scheduler.Cancel` | qxcintilla/core/utils/helpers.py:45-52 | After a cancellation the timer is off and nothing is pending. The job, arguments and keyword arguments are all `None`. The delay is unchanged. |
| `Scheduler.Request` | qxcintilla/core/utils/helpers.py:29-43 | Whatever was pending before, afterwards the timer is armed with the runner's delay, and the only pending execution is the new job with its own arguments. |
| `Scheduler.Fire` | qxcintilla/core/utils/helpers.py:54-59 | An expiry performs exactly the pending execution and leaves nothing pending. The stored job, arguments, keyword arguments, delay and interval are left in place. |
| `Scheduler.Step` | qxcintilla/core/utils/helpers.py:22-24 | One method call or timer expiry keeps the invariant and the delay, and runs at most one job. |
| `Scheduler.Run` | qxcintilla/core/utils/helpers.py:17-21 | Over any event sequence the delay never changes, and every arming of the timer uses that delay. |
| `Scheduler.BurstLeavesLastPending` | qxcintilla/core/utils/helpers.py:29-43 | A burst of requests runs nothing and leaves exactly the last request pending, with its own arguments. |
| `Scheduler.BurstRunsLastOnce` | qxcintilla/core/utils/helpers.py:8-11 | A burst of requests followed by one expiry runs exactly one job: the last one requested, with its own arguments. Afterwards nothing is pending. |
| `Scheduler.QuietRunsNothing` | qxcintilla/core/utils/helpers.py:45-59 | With nothing pending, expiries and cancellations never run a job and never make one pending. |
| `Scheduler.CancelledNeverRuns` | qxcintilla/core/utils/helpers.py:45-52 | After a cancellation no job runs until the next request, whatever expiries or cancellations follow. |
| `Scheduler.FreshRunnerIdle` | qxcintilla/core/utils/helpers.py:22-27 | A new runner runs nothing before its first request. |
| `Scheduler.CancelTwiceIsCancelOnce` | qxcintilla/core/utils/helpers.py:45-52 | Cancelling twice leaves the same state and runs the same jobs (none) as cancelling once. |
| `Scheduler.AtMostOneRunPerRequest` | qxcintilla/core/utils/helpers.py:54-59 | Executions so far plus the one still pending never exceed the number of requests plus the one pending at the start. So each request leads to at most one execution. |
| `Scheduler.DelayJobRunner.constructor` | qxcintilla/core/utils/helpers.py:17-27 | The object's fields are `Init(delay)`, the delay defaults to 500, and no job has run. |
| `Scheduler.DelayJobRunner.RequestJob` | qxcintilla/core/utils/helpers.py:29-43 | The new fields are `Request` of the old ones. The invariant is kept and nothing runs. |
| `Scheduler.DelayJobRunner.CancelRequests` | qxcintilla/core/utils/helpers.py:45-52 | The new fields are `Cancel` of the old ones. The invariant is kept and nothing runs. |
| `Scheduler.DelayJobRunner.ExecRequestedJob` | qxcintilla/core/utils/helpers.py:54-59 | The timer is stopped, and the pending execution is appended to the log of executed jobs. |
| `Editors.RemoveFirst` | qxcintilla/api/xcintilla.py:149-155 | Removing an absent element changes nothing. Removing a present element shortens the list by one and takes exactly one copy out of its multiset. |
| `Editors.RemoveFirstCutsFirstOccurrence` | qxcintilla/api/xcintilla.py:151 | Removal cuts out the first occurrence of the element and keeps the rest in order. |
| `Editors.RemoveFirstKeepsDuplicate` | qxcintilla/api/xcintilla.py:149-151 | After removal the element is still in the list exactly when it occurred at least twice. |
| `Editors.RemoveFirstAfterAppend` | qxcintilla/api/xcintilla.py:143-151 | Unfollowing right after following restores the list when the follower was absent. When it was already listed, the earlier copy is removed and the new copy stays at the end. |
| `Editors.FollowThenUnfollow` | qxcintilla/api/xcintilla.py:142-151 | For two different editors, when the follower is not yet listed, `follow` then `unfollow` leaves the followed editor's list as it was, and `following` no longer holds. This holds even when `follow` raised for a missing document. The follower keeps the document it took, if there was one. When the follower is already listed, the earlier copy is removed instead (see `Editors.RemoveFirstAfterAppend`). |
| `Editors.FollowedIffSomeoneFollows` | qxcintilla/api/xcintilla.py:40-42 | `followed` holds exactly when some editor is `following` this one. |
| `Editors.Editor.Following` | qxcintilla/api/xcintilla.py:157-158 | Holds exactly when this editor is listed at least once in the other's followers, whatever the number of copies. |
| `Editors.Editor.Followed` | qxcintilla/api/xcintilla.py:40-42 | The source's definition, `bool(followers)`: the followers list lists at least one editor. The link to `following` is `FollowedIffSomeoneFollows`. |
| `Editors.Editor.SharedReference` | qxcintilla/api/xcintilla.py:160-162 | Reading the attribute raises AttributeError exactly while it has never been assigned or deleted. Otherwise it gives the stored value. |
| `Editors.Editor.Attr` | qxcintilla/api/xcintilla.py:169-171 | For the two keys that `shareables` yields, `hasattr` holds, and on a valid editor `getattr` of `panels` gives a panels manager and of `features` a features manager. The editor has other attributes, but the setter never passes another name, so other names are modelled as absent. |
| `Editors.Editor.Shareables` | qxcintilla/api/xcintilla.py:44-46 | Two entries, panels then features. Each key is the name of an editor attribute that holds the manager listed with it, and no key repeats. |
| `Editors.Editor.constructor` | qxcintilla/api/xcintilla.py:49-58 | A new editor has no followers and two new managers built for it. Reading `shared_reference` raises AttributeError. The document is whatever was assigned outside the class, possibly nothing. |
| `Editors.Editor.Follow` | qxcintilla/api/xcintilla.py:142-147 | Appends this editor to the other's followers with no deduplication, and takes the other's document. With `follow_back`, also appends the other to this editor's list. No other followers list changes. When the other editor has no document, AttributeError is raised after the append: the append stays, and the document and the follow-back are left out. The self-follow case is covered too. |
| `Editors.Editor.Unfollow` | qxcintilla/api/xcintilla.py:149-155 | Removes the first occurrence of this editor from the other's list, if present. With `unfollow_back`, then also removes the first occurrence of the other from this list, if present. For two different editors, this editor still follows the other afterwards exactly when it was listed at least twice. |
| `Editors.Editor.SetSharedReference` | qxcintilla/api/xcintilla.py:164-174 | Stores the other editor. A panels or features manager that accepts the assignment now points at the other editor's manager of the same key. A rejecting one keeps its old reference, and the other key is still propagated. |
| `Editors.Editor.DeleteSharedReference` | qxcintilla/api/xcintilla.py:176-178 | Reading the slot gives `None`. The shared references of both managers are unchanged. |
| `Editors.Editor.SetPanels` | qxcintilla/api/xcintilla.py:74-83 | The panels class gives a new panels manager built for this editor. A panels manager instance is stored as it is. Anything else gives PanelValueError and leaves `panels` unchanged. |
| `Editors.Editor.SetFeatures` | qxcintilla/api/xcintilla.py:89-98 | The features class gives a new features manager built for this editor. A features manager instance is stored as it is. Anything else gives FeatureValueError and leaves `features` unchanged. |

## Left out

- Qt event forwarding and signals (paint, resize, key, wheel, mouse, `setText`, `update`, `showEvent`, the `Signal` declarations): they only re-emit events of the underlying editor widget.
- Real time and `QTimer`: the timer is an armed flag, and its expiry is an explicit event with no clock.
- Job bodies: jobs are opaque handles. A job that raises propagates out of the expiry after the timer has already been stopped, which leaves the same state as a normal return.
- `Scheduler.DelayJobRunner.ExecRequestedJob`: a direct call while the timer is not armed is not modelled. The method is private, and only the timer's expiry calls it.
- Internals of `PanelsManager`, `FeaturesManager` and the exception classes: the managers module is not part of this model. A manager is an opaque object with its owner, its class, its own shared reference and a flag saying whether assigning that reference raises AttributeError.
- A manager built from its class (in the editor constructor or by the `panels`/`features` setters) is modelled as accepting the assignment and as starting with no shared reference. Its real behaviour is decided in the managers module.
- The `print` of the caught AttributeError in the `shared_reference` setter.
- The content of the document (`chelly_document`): an opaque handle that `follow` copies. It is assigned outside this file, so the editor constructor takes it as a parameter, `None` when it has not been assigned.
- Scheduler.Init: the delay is an interval Qt accepts, from 0 to 2^31-1 milliseconds. Other delays are not modelled. Qt refuses a negative interval, and a value above the 32-bit range raises OverflowError (PyQt6, PySide6) or is truncated (PyQt5) when the timer starts, after the job is already stored. Such a runner would not run its job as the model does.
- The `followers` fallback to a fresh `[]` when the private list is missing: `__init__` always creates the list.
- `Editors.Editor.SetSharedReference`: assigning `None` is not modelled. The setter would store it and then fail on `None.shareables`. The parameter is typed as an editor.
- The `_shared_reference` attribute written by `__init__`: nothing reads it.
- `_last_mouse_pos` and the unused `weakref` import.
