# FrontendPy readiness-gated action dispatcher, in Dafny

This project models the bridge object that XwareDesktop exposes to the embedded Xware web page
(`FrontendPy`). The bridge keeps four tri-state readiness flags: page mask on, page online, page
logged in, and page script (xdjs) loaded. Each flag is None until the page first reports it. The
bridge also keeps a queue of user actions waiting to be handed to the page. Flags are set through
property setters. A setter may emit the status-changed signal, and it may call `consumeAction`.
`consumeAction` checks four gates in a fixed order and then dequeues and dispatches at most one
action. When the page script loads, the bridge also decides about auto-login and device activation.

Layout:

- `wrappers.dfy`: `Option`, used for the tri-state flags (None / Some(false) / Some(true)).
- `actions.dfy` (module `Actions`): tasks, actions, the queued-action type and `TaskUrls`.
- `decisions.dfy` (module `Decisions`): `TryLogin` and `TryActivate` as pure functions of what they
  read. This includes `ParseInt` for the `int()` conversion of the page's userid. `ParseInt` undoes
  decimal rendering: `ParseInt(Decimal(n)) == Some(n)`.
- `bridge.dfy` (module `Bridge`): the bridge as a state machine on values. `State` holds the flags,
  the queue, the page's override-file slot and the log of emitted signals. `Consume`, the four
  `Assign*` setters and `XdjsLoadedStep` are functions from the old state to the new one. `Apply`
  and `Run` replay the inbound notifications.
- `bridge_lemmas.dfy` (module `BridgeLemmas`): properties of runs. It proves FIFO order, that nothing
  is dispatched while a gate stays closed, and the readiness scenario.
- `frontendpy.dfy` (module `Frontend`): class `FrontendPy`. It has the four flag fields, a `seq`
  queue, the override-file field and a ghost signal log. Every method is proved to change `Model()`
  exactly as the corresponding `Bridge` function says.

Python truthiness is modelled by `Truthy`: only `Some(true)` is truthy. So a mask of None passes
the gate (`if self.isPageMaskOn`), while an online value of None blocks it
(`if not self.isPageOnline`).

Behaviour of the code that is easy to miss:

- The flags start as None. A None mask does not block the gate. So in the readiness scenario, when
  the mask report comes last, the action is dispatched by the third report
  (`BridgeLemmas.ReadinessScenario`).
- The mask setter never emits status-changed. Only the logined and xdjs-loaded setters emit on
  every set; the online setter emits only when the value changes.
- A change of the online flag triggers a consumption attempt only when the new value is truthy.

## Model

| member | source | states |
|---|---|---|
| `Actions.TaskUrls` | src/frontend/frontendpy.py:208 | the URL list has one entry per task, and entry i is task i's URL (task order is kept) |
| `Decisions.ParseInt` | src/frontend/frontendpy.py:126 | `int()` of the page's userid succeeds exactly on digits with an optional leading sign, and fails (ValueError) on everything else, the empty string included; a digits-only string gives a non-negative value |
| `Decisions.DigitsValueLeadingZero` | src/frontend/frontendpy.py:126 | a leading zero does not change the value of a digit string |
| `Decisions.ParseIntSignsAndZeros` | src/frontend/frontendpy.py:126 | `int()` ignores leading zeros and a leading '+', and a leading '-' negates the value |
| `Decisions.ParseIntOfDecimal` | src/frontend/frontendpy.py:126 | `ParseInt` inverts decimal rendering: for every integer n, `ParseInt(Decimal(n)) == Some(n)` |
| `Decisions.TryLogin` | src/frontend/frontendpy.py:91-98 | credentials are produced exactly when the page is the login page, auto-login is on, and both saved username and password are non-empty; they are the saved ones |
| `Decisions.TryActivate` | src/frontend/frontendpy.py:100-134 | nothing happens off the v3 page or with an empty userid. Activate(code) happens exactly when status is 0 with a non-empty code, whether bound or not. The ETM-disabled warning happens exactly on an unbound device with status -1. A peer id is never announced for an unbound device, and the one announced is the engine's. On an unbound device that is neither disabled nor holding a code, nothing happens and the userid is not parsed. On a bound device without a code, the result is a non-integer userid error, the wrong-account warning, or the peer-id notice, according to how the page's userid parses and compares |
| `Decisions.NotifyIgnoresPeerList` | src/frontend/frontendpy.py:131-134 | the outcome does not depend on the page's peer-id list: the peer id is announced even when the list lacks it |
| `Bridge.ReadyIffAllPass` | src/frontend/frontendpy.py:183-197 | the gate is open exactly when every flag passes on its own (mask not truthy; the other three truthy) |
| `Bridge.BlockingGate` | src/frontend/frontendpy.py:183-197 | the gates are checked in the order online, mask, xdjs loaded, logged in. The reported gate is the first one that fails, and none is reported exactly when the gate is open |
| `Bridge.Dispatch` | src/frontend/frontendpy.py:206-213 | if the first task is NORMAL, one create-tasks signal carries every URL and the override-file slot is untouched. Otherwise the slot gets the first URL and one torrent-file signal is emitted. An action of another class emits nothing. Flags and queue are untouched |
| `Bridge.Consume` | src/frontend/frontendpy.py:181-213 | a closed gate changes nothing (queue, slot, log) and names the first failing gate. An open gate on an empty queue changes nothing. Otherwise exactly the head is removed and dispatched. Flags never change, and no status-changed signal is emitted |
| `Bridge.AssignPageMaskOn` | src/frontend/frontendpy.py:49-53 | stores the value and never emits status-changed. It tries to consume exactly when the value is an explicit False; True and None only store |
| `Bridge.AssignPageOnline` | src/frontend/frontendpy.py:59-66 | an unchanged value changes nothing, emits nothing and attempts nothing. A new value is stored with exactly one status-changed signal, and consumption is attempted exactly when the value is truthy |
| `Bridge.AssignPageLogined` | src/frontend/frontendpy.py:72-77 | every set stores the value and emits exactly one status-changed signal, even when the value is unchanged. Consumption is attempted exactly when the value is truthy |
| `Bridge.AssignXdjsLoaded` | src/frontend/frontendpy.py:83-88 | every set stores the value and emits exactly one status-changed signal, even when the value is unchanged. Consumption is attempted exactly when the value is truthy |
| `Bridge.LoginSignals` | src/frontend/frontendpy.py:90-98 | tryLogin emits at most one signal, exactly when there are credentials, and never status-changed |
| `Bridge.ActivationSignals` | src/frontend/frontendpy.py:100-134 | tryActivate emits at most one signal, exactly for an activation or a peer-id notice, and never status-changed |
| `Bridge.XdjsLoadedStep` | src/frontend/frontendpy.py:136-141 | marks the script loaded, which always attempts consumption. Then it appends the login signal, if any, and then the activation signal, if any, in that order. The activation outcome is the `TryActivate` decision |
| `Bridge.Status` | src/frontend/frontendpy.py:224-225 | the status snapshot is (script loaded, logged in, online), in that order, and the mask is not part of it |
| `Bridge.Apply` | src/frontend/frontendpy.py:168-178 | every inbound notification never shrinks the log (the old log stays a prefix), moves only the flag it targets, and leaves a passing report's flag passing. Whatever it dispatches comes off the queue's head, and what is enqueued goes on the tail. It dispatches only with the gate open, and every change of the status snapshot emits status-changed |
| `BridgeLemmas.RunIsFifo` | src/frontend/frontendpy.py:199-213 | over any run of notifications, the actions dispatched, followed by those still queued, are the initially queued actions followed by the enqueued ones, in order |
| `BridgeLemmas.NoDispatchWhileBlocked` | src/frontend/frontendpy.py:181-197 | while a blocking flag is not reported again, no run of notifications dispatches anything, and that flag keeps its value |
| `BridgeLemmas.PassingRunFlags` | src/frontend/frontendpy.py:49-88 | after a run of passing reports, every flag it reported passes and every other flag keeps its value |
| `BridgeLemmas.DrainsOnceWhenReady` | src/frontend/frontendpy.py:59-88 | with one action queued and the page not online, a run of passing reports on distinct flags that ends with the gate open has dispatched that action exactly once and emptied the queue |
| `BridgeLemmas.ReadinessScenario` | src/frontend/frontendpy.py:49-88 | with one action queued and no flag truthy, the four passing reports in any order dispatch it exactly once. If the last report is not the mask one, that last report dispatches it. If it is the mask one, the third report already did |
| `Frontend.FrontendPy.constructor` | src/frontend/frontendpy.py:29-38 | a new bridge has every flag None, an empty queue and an empty signal log |
| `Frontend.FrontendPy.Enqueue` | src/frontend/frontendpy.py:43 | the user's create-task action joins the tail of the queue |
| `Frontend.FrontendPy.ConsumeAction` | src/frontend/frontendpy.py:180-213 | the new state and the result are those of `Bridge.Consume` on the old state |
| `Frontend.FrontendPy.SetPageMaskOn` | src/frontend/frontendpy.py:49-53 | the new state and the effect are those of `Bridge.AssignPageMaskOn` |
| `Frontend.FrontendPy.SetPageOnline` | src/frontend/frontendpy.py:59-66 | the new state and the effect are those of `Bridge.AssignPageOnline` |
| `Frontend.FrontendPy.SetPageLogined` | src/frontend/frontendpy.py:72-77 | the new state and the effect are those of `Bridge.AssignPageLogined` |
| `Frontend.FrontendPy.SetXdjsLoaded` | src/frontend/frontendpy.py:83-88 | the new state and the effect are those of `Bridge.AssignXdjsLoaded` |
| `Frontend.FrontendPy.TryLogin` | src/frontend/frontendpy.py:90-98 | emits the login signal exactly when `Decisions.TryLogin` yields credentials, and emits nothing else |
| `Frontend.FrontendPy.TryActivate` | src/frontend/frontendpy.py:100-134 | returns the `Decisions.TryActivate` outcome. It emits activate-device or notify-peer-id for those outcomes and nothing for the others |
| `Frontend.FrontendPy.XdjsLoaded` | src/frontend/frontendpy.py:136-141 | the new state, effect and activation outcome are those of `Bridge.XdjsLoadedStep` |
| `Frontend.FrontendPy.SlotMaskOnOffChanged` | src/frontend/frontendpy.py:168-170 | the page's mask report acts as `Bridge.Apply` says |
| `Frontend.FrontendPy.SlotSetOnline` | src/frontend/frontendpy.py:172-174 | the page's online report acts as `Bridge.Apply` says |
| `Frontend.FrontendPy.SlotSetLogined` | src/frontend/frontendpy.py:176-178 | the page's logged-in report acts as `Bridge.Apply` says |
| `Frontend.FrontendPy.SlotClickBtButton` | src/frontend/frontendpy.py:215-222 | emits the torrent-file-done signal and changes nothing else |
| `Frontend.FrontendPy.GetFrontendStatus` | src/frontend/frontendpy.py:224-225 | returns the `Bridge.Status` snapshot of the current flags |

## Left out

- Qt plumbing: signal/slot connections in `__init__` and `connectUI`, `pyqtSlot` decorators and
  `QObject` parenting. Emitted signals are appended to a ghost log instead.
- The warning dialogs (`QMessageBox.warning`) are outcome values (`WarnEtmDisabled`,
  `WarnWrongAccount`); no dialog is shown.
- The key-press injection in `slotClickBtButton` (`QKeyEvent`, `app.sendEvent`) is UI event
  injection. Only the signal the slot emits is modelled.
- `systemOpen`, `requestFocus`, `saveCredentials` and `log` are left out. They do OS, window and
  settings I/O, or console output. All `print` and `logging` calls are left out too, including the
  "no peerids" warning in `tryActivate`.
- `sigToggleFlashAvailability` is declared but never emitted in this file, so it is not modelled.
- Foreign reads become parameters: `app.mainWin.page.urlMatch` (login page, v3 page),
  `app.settings` (auto-login, username, password) and `app.etmpy.getActivationStatus()`. Exceptions
  these calls might raise are not modelled.
- `actions.py` (`FrontendActionsQueue` and the action classes) is not part of this model. The queue
  is a sequence: `Enqueue` appends at the tail, and dequeuing takes the head, with an empty queue in
  place of `IndexError`. Whether the queue's own enqueue also calls `consumeAction` is not visible,
  so `Enqueue` does not. Actions of other classes are one `OtherAction` value, which is dequeued
  and dropped.
- A create-tasks action with an empty task list would raise `IndexError` after it is dequeued. The
  `QueuedAction` type excludes such actions, on the assumption that the actions module never builds
  one.
- The override-file slot belongs to the main window's page object. Its initial value is not visible,
  so it is modelled as None.
- Decisions.ParseInt: accepts only an optional sign followed by ASCII digits. Python's `int()` also
  accepts surrounding whitespace, underscores between digits and non-ASCII digits. The page's
  userid is taken to be a string.
