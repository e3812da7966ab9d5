/** The bridge between the embedded web page and the native application, as a state machine on values:
    four tri-state readiness flags, the queue of pending actions, the page's override-file slot and the
    log of emitted signals. Each inbound notification is a function from the old state to the new one. */
module Bridge {
  import opened Wrappers
  import opened Actions
  import opened Decisions

  /** The signals the bridge emits towards the page and the main window. */
  datatype Signal =
    | SigFrontendStatusChanged
    | SigCreateTasks(urls: seq<string>)
    | SigCreateTaskFromTorrentFile
    | SigCreateTaskFromTorrentFileDone
    | SigLogin(username: string, password: string)
    | SigActivateDevice(code: string)
    | SigNotifyPeerId(peerid: string)

  /** Python truthiness of a flag: only True is truthy; None and False are not. */
  predicate Truthy(v: Option<bool>) { v == Some(true) }

  datatype State = State(
    maskOn: Option<bool>,
    online: Option<bool>,
    logined: Option<bool>,
    xdjsLoaded: Option<bool>,
    queue: seq<QueuedAction>,
    overrideFile: Option<string>,
    signals: seq<Signal>)

  /** A fresh bridge: every flag unknown, nothing queued, nothing emitted. */
  function Initial(): State { State(None, None, None, None, [], None, []) }

  // ---- readiness flags ----

  datatype Flag = Online | Mask | XdjsLoaded | Logined

  function FlagValue(s: State, f: Flag): Option<bool> {
    match f
    case Online => s.online
    case Mask => s.maskOn
    case XdjsLoaded => s.xdjsLoaded
    case Logined => s.logined
  }

  /** Whether flag f lets consumption through: the mask must not be truthy, the others must be. */
  predicate Passes(s: State, f: Flag) {
    if f == Mask then !Truthy(FlagValue(s, f)) else Truthy(FlagValue(s, f))
  }

  /** The readiness gate: online, mask not on, page script loaded, logged in. */
  predicate Ready(s: State) {
    Truthy(s.online) && !Truthy(s.maskOn) && Truthy(s.xdjsLoaded) && Truthy(s.logined)
  }

  lemma ReadyIffAllPass(s: State)
    ensures Ready(s) <==> forall f :: Passes(s, f)
  {
    if !Ready(s) {
      if !Passes(s, Online) {} else if !Passes(s, Mask) {} else if !Passes(s, XdjsLoaded) {} else {
        assert !Passes(s, Logined);
      }
    }
  }

  predicate SameFlags(a: State, b: State) {
    a.maskOn == b.maskOn && a.online == b.online && a.logined == b.logined && a.xdjsLoaded == b.xdjsLoaded
  }

  // ---- the signal log ----

  /** Number of status-changed signals in a log. */
  function StatusSignals(log: seq<Signal>): nat {
    if log == [] then 0
    else StatusSignals(log[..|log| - 1]) + (if log[|log| - 1] == SigFrontendStatusChanged then 1 else 0)
  }

  lemma StatusSignalsPush(log: seq<Signal>, x: Signal)
    ensures StatusSignals(log + [x]) == StatusSignals(log) + (if x == SigFrontendStatusChanged then 1 else 0)
  {
  }

  lemma {:induction false} StatusSignalsAppend(a: seq<Signal>, b: seq<Signal>)
    ensures StatusSignals(a + b) == StatusSignals(a) + StatusSignals(b)
    decreases |b|
  {
    if b != [] {
      var b' := b[..|b| - 1];
      assert a + b == (a + b') + [b[|b| - 1]];
      assert b == b' + [b[|b| - 1]];
      StatusSignalsPush(a + b', b[|b| - 1]);
      StatusSignalsPush(b', b[|b| - 1]);
      StatusSignalsAppend(a, b');
    } else {
      assert a + b == a;
    }
  }

  // ---- consumeAction ----

  /** The gates consumeAction checks, in the order it checks them. */
  datatype Gate = Offline | MaskIsOn | XdjsNotLoaded | NotLogined

  /** The first gate that blocks consumption, if any. */
  function BlockingGate(s: State): (g: Option<Gate>)
    ensures g == None <==> Ready(s)
    ensures g == Some(Offline) <==> !Truthy(s.online)
    ensures g == Some(MaskIsOn) <==> Truthy(s.online) && Truthy(s.maskOn)
    ensures g == Some(XdjsNotLoaded) <==> Truthy(s.online) && !Truthy(s.maskOn) && !Truthy(s.xdjsLoaded)
    ensures g == Some(NotLogined) <==> Truthy(s.online) && !Truthy(s.maskOn) && Truthy(s.xdjsLoaded) && !Truthy(s.logined)
  {
    if !Truthy(s.online) then Some(Offline)
    else if Truthy(s.maskOn) then Some(MaskIsOn)
    else if !Truthy(s.xdjsLoaded) then Some(XdjsNotLoaded)
    else if !Truthy(s.logined) then Some(NotLogined)
    else None
  }

  /** Hand one dequeued action to the page: a batch of URLs when its first task is a normal one,
      otherwise the first URL through the page's override-file slot. */
  function Dispatch(s: State, a: QueuedAction): (t: State)
    ensures SameFlags(t, s) && t.queue == s.queue
    ensures a.CreateTasksAction? && a.tasks[0].kind == Normal ==>
      t.overrideFile == s.overrideFile && t.signals == s.signals + [SigCreateTasks(TaskUrls(a.tasks))]
    ensures a.CreateTasksAction? && a.tasks[0].kind != Normal ==>
      t.overrideFile == Some(a.tasks[0].url) && t.signals == s.signals + [SigCreateTaskFromTorrentFile]
    ensures a == OtherAction ==> t == s
    ensures s.signals <= t.signals && StatusSignals(t.signals) == StatusSignals(s.signals)
  {
    match a
    case OtherAction => s
    case CreateTasksAction(tasks) =>
      var taskUrls := TaskUrls(tasks);
      if tasks[0].kind == Normal then
        StatusSignalsPush(s.signals, SigCreateTasks(taskUrls));
        s.(signals := s.signals + [SigCreateTasks(taskUrls)])
      else
        StatusSignalsPush(s.signals, SigCreateTaskFromTorrentFile);
        s.(overrideFile := Some(taskUrls[0]), signals := s.signals + [SigCreateTaskFromTorrentFile])
  }

  datatype ConsumeResult = Blocked(gate: Gate) | NothingToConsume | Consumed(action: QueuedAction)

  datatype Consumption = Consumption(after: State, result: ConsumeResult)

  /** consumeAction: check the four gates in order, then dequeue and dispatch at most one action. */
  function Consume(s: State): (r: Consumption)
    // a closed gate changes nothing, and the reported gate is the first one that fails
    ensures r.result.Blocked? <==> !Ready(s)
    ensures r.result.Blocked? ==> r.after == s && BlockingGate(s) == Some(r.result.gate)
    // an empty queue changes nothing
    ensures r.result == NothingToConsume <==> Ready(s) && s.queue == []
    ensures r.result == NothingToConsume ==> r.after == s
    // otherwise exactly the head is removed and dispatched
    ensures r.result.Consumed? ==>
      s.queue != [] && r.result.action == s.queue[0] && r.after.queue == s.queue[1..] &&
      r.after == Dispatch(s.(queue := s.queue[1..]), s.queue[0])
    ensures SameFlags(r.after, s)
    ensures s.signals <= r.after.signals && StatusSignals(r.after.signals) == StatusSignals(s.signals)
  {
    match BlockingGate(s)
    case Some(g) => Consumption(s, Blocked(g))
    case None =>
      if s.queue == [] then Consumption(s, NothingToConsume)
      else Consumption(Dispatch(s.(queue := s.queue[1..]), s.queue[0]), Consumed(s.queue[0]))
  }

  // ---- the property setters ----

  /** What a setter did: ignored an unchanged value, stored without trying to consume, or tried. */
  datatype SetterEffect = Unchanged | NoConsumeAttempt | ConsumeAttempted(result: ConsumeResult)

  datatype Step = Step(after: State, effect: SetterEffect)

  /** The actions a setter's consumption attempt dispatched. */
  function Dispatched(e: SetterEffect): seq<QueuedAction> {
    if e.ConsumeAttempted? && e.result.Consumed? then [e.result.action] else []
  }

  /** Try to consume from `mid` when `attempt` holds. */
  function AttemptConsume(mid: State, attempt: bool): (r: Step)
    ensures r.effect.ConsumeAttempted? <==> attempt
    ensures !attempt ==> r == Step(mid, NoConsumeAttempt)
    ensures attempt ==> Consume(mid) == Consumption(r.after, r.effect.result)
    ensures SameFlags(r.after, mid)
    ensures mid.signals <= r.after.signals && StatusSignals(r.after.signals) == StatusSignals(mid.signals)
    ensures Dispatched(r.effect) + r.after.queue == mid.queue
    ensures Dispatched(r.effect) != [] ==> Ready(r.after)
  {
    if attempt then
      var c := Consume(mid);
      Step(c.after, ConsumeAttempted(c.result))
    else Step(mid, NoConsumeAttempt)
  }

  /** isPageMaskOn = v: store; try to consume only for an explicit False; never signal a status change. */
  function AssignPageMaskOn(s: State, v: Option<bool>): (r: Step)
    ensures r.effect.ConsumeAttempted? <==> v == Some(false)
    ensures v != Some(false) ==> r == Step(s.(maskOn := v), NoConsumeAttempt)
    ensures v == Some(false) ==> Consume(s.(maskOn := v)) == Consumption(r.after, r.effect.result)
    ensures r.after.maskOn == v
    ensures StatusSignals(r.after.signals) == StatusSignals(s.signals)
  {
    AttemptConsume(s.(maskOn := v), v == Some(false))
  }

  /** isPageOnline = v: a repeated value (a heartbeat) is ignored; a new one is stored, signalled once,
      and triggers a consumption attempt when it is truthy. */
  function AssignPageOnline(s: State, v: Option<bool>): (r: Step)
    ensures s.online == v <==> r.effect == Unchanged
    ensures s.online == v ==> r.after == s
    ensures s.online != v ==> r.after.online == v && StatusSignals(r.after.signals) == StatusSignals(s.signals) + 1
    ensures s.online != v ==> (r.effect.ConsumeAttempted? <==> Truthy(v))
    ensures s.online != v && !Truthy(v) ==>
      r.after == s.(online := v, signals := s.signals + [SigFrontendStatusChanged])
    ensures r.effect.ConsumeAttempted? ==>
      Consume(s.(online := v, signals := s.signals + [SigFrontendStatusChanged])) == Consumption(r.after, r.effect.result)
  {
    if s.online == v then Step(s, Unchanged)
    else
      StatusSignalsPush(s.signals, SigFrontendStatusChanged);
      AttemptConsume(s.(online := v, signals := s.signals + [SigFrontendStatusChanged]), Truthy(v))
  }

  /** isPageLogined = v: always stored and signalled, even when unchanged; a truthy value triggers a
      consumption attempt. */
  function AssignPageLogined(s: State, v: Option<bool>): (r: Step)
    ensures r.after.logined == v && StatusSignals(r.after.signals) == StatusSignals(s.signals) + 1
    ensures r.effect.ConsumeAttempted? <==> Truthy(v)
    ensures !Truthy(v) ==> r == Step(s.(logined := v, signals := s.signals + [SigFrontendStatusChanged]), NoConsumeAttempt)
    ensures Truthy(v) ==>
      Consume(s.(logined := v, signals := s.signals + [SigFrontendStatusChanged])) == Consumption(r.after, r.effect.result)
  {
    StatusSignalsPush(s.signals, SigFrontendStatusChanged);
    AttemptConsume(s.(logined := v, signals := s.signals + [SigFrontendStatusChanged]), Truthy(v))
  }

  /** isXdjsLoaded = v: always stored and signalled, even when unchanged; a truthy value triggers a
      consumption attempt. */
  function AssignXdjsLoaded(s: State, v: Option<bool>): (r: Step)
    ensures r.after.xdjsLoaded == v && StatusSignals(r.after.signals) == StatusSignals(s.signals) + 1
    ensures r.effect.ConsumeAttempted? <==> Truthy(v)
    ensures !Truthy(v) ==> r == Step(s.(xdjsLoaded := v, signals := s.signals + [SigFrontendStatusChanged]), NoConsumeAttempt)
    ensures Truthy(v) ==>
      Consume(s.(xdjsLoaded := v, signals := s.signals + [SigFrontendStatusChanged])) == Consumption(r.after, r.effect.result)
  {
    StatusSignalsPush(s.signals, SigFrontendStatusChanged);
    AttemptConsume(s.(xdjsLoaded := v, signals := s.signals + [SigFrontendStatusChanged]), Truthy(v))
  }

  // ---- xdjsLoaded: the page script reports that it has loaded ----

  /** What the bridge reads from the settings store, the main window and the download engine. */
  datatype Environment = Environment(
    onLoginPage: bool, autologin: bool, username: string, password: string,
    onV3Page: bool, etm: ActivationStatus)

  /** tryLogin's emissions: at most one signal, emitted exactly when there are credentials, and
      never a status-changed one. */
  function LoginSignals(c: Option<Credentials>): (sigs: seq<Signal>)
    ensures |sigs| <= 1 && StatusSignals(sigs) == 0
    ensures sigs != [] <==> c.Some?
  {
    match c
    case None => []
    case Some(cred) => [SigLogin(cred.username, cred.password)]
  }

  /** tryActivate's emissions: at most one signal, emitted only for an activation or a peer-id
      notice (the warnings are dialogs), and never a status-changed one. */
  function ActivationSignals(o: ActivationOutcome): (sigs: seq<Signal>)
    ensures |sigs| <= 1 && StatusSignals(sigs) == 0
    ensures sigs != [] <==> o.Activate? || o.NotifyPeerId?
  {
    match o
    case Activate(code) => [SigActivateDevice(code)]
    case NotifyPeerId(peerid) => [SigNotifyPeerId(peerid)]
    case _ => []
  }

  datatype LoadStep = LoadStep(after: State, effect: SetterEffect, activation: ActivationOutcome)

  /** xdjsLoaded(payload): mark the script loaded (with its consumption attempt), then try to log in,
      then try to activate, in that order. */
  function XdjsLoadedStep(s: State, payload: Payload, env: Environment): (r: LoadStep)
    ensures r.effect.ConsumeAttempted?
    ensures var st := AssignXdjsLoaded(s, Some(true));
      r.effect == st.effect && r.after.(signals := st.after.signals) == st.after &&
      r.after.signals == st.after.signals
        + LoginSignals(TryLogin(env.onLoginPage, env.autologin, env.username, env.password))
        + ActivationSignals(r.activation)
    ensures r.activation == TryActivate(env.onV3Page, payload, env.etm)
  {
    var st := AssignXdjsLoaded(s, Some(true));
    var login := TryLogin(env.onLoginPage, env.autologin, env.username, env.password);
    var activation := TryActivate(env.onV3Page, payload, env.etm);
    LoadStep(st.after.(signals := st.after.signals + LoginSignals(login) + ActivationSignals(activation)),
      st.effect, activation)
  }

  // ---- runs of inbound notifications ----

  /** The notifications that drive the bridge: the user's create-task action (appended to the queue),
      and the page's slots. */
  datatype Event =
    | CreateTaskTriggered(action: QueuedAction)
    | MaskOnOffChanged(maskOn: bool)
    | OnlineSet(online: bool)
    | LoginedSet(logined: bool)
    | XdjsLoadedWith(payload: Payload, env: Environment)
    | BtButtonClicked

  /** The flag a notification assigns, if any. */
  function Target(e: Event): Option<Flag> {
    match e
    case MaskOnOffChanged(_) => Some(Mask)
    case OnlineSet(_) => Some(Online)
    case LoginedSet(_) => Some(Logined)
    case XdjsLoadedWith(_, _) => Some(XdjsLoaded)
    case _ => None
  }

  /** A notification that moves its flag to the value the gate wants. */
  predicate PassingEvent(e: Event) {
    match e
    case MaskOnOffChanged(m) => !m
    case OnlineSet(o) => o
    case LoginedSet(l) => l
    case XdjsLoadedWith(_, _) => true
    case _ => false
  }

  function EnqueuedBy(e: Event): seq<QueuedAction> {
    if e.CreateTaskTriggered? then [e.action] else []
  }

  /** The frontend status snapshot: script loaded, logged in, online (the mask is not part of it). */
  datatype FrontendStatus = FrontendStatus(xdjsLoaded: Option<bool>, logined: Option<bool>, online: Option<bool>)

  function Status(s: State): (st: FrontendStatus)
    ensures st.xdjsLoaded == s.xdjsLoaded && st.logined == s.logined && st.online == s.online
  {
    FrontendStatus(s.xdjsLoaded, s.logined, s.online)
  }

  /** What every notification guarantees, whatever it is. */
  predicate WellBehaved(s: State, e: Event, r: Step) {
    // the log never shrinks: the old log is a prefix of the new one
    && s.signals <= r.after.signals
    // only the targeted flag moves, and a passing notification leaves its flag passing
    && (forall f :: Target(e) != Some(f) ==> FlagValue(r.after, f) == FlagValue(s, f))
    && (PassingEvent(e) ==> Target(e).Some? && Passes(r.after, Target(e).value))
    // the queue is a FIFO: what is dispatched comes off its head, what is enqueued goes on its tail
    && Dispatched(r.effect) + r.after.queue == s.queue + EnqueuedBy(e)
    // nothing is dispatched unless the gate is open
    && (Dispatched(r.effect) != [] ==> Ready(r.after))
    // every change of the frontend status is signalled
    && (Status(r.after) != Status(s) ==> StatusSignals(r.after.signals) > StatusSignals(s.signals))
  }

  lemma CreateTaskWellBehaved(s: State, a: QueuedAction)
    ensures WellBehaved(s, CreateTaskTriggered(a), Step(s.(queue := s.queue + [a]), NoConsumeAttempt))
  {
  }

  /** A setter's step: the flag is stored (and possibly signalled) giving `mid`, then consumption is
      attempted or not. If storing already behaves, so does the whole step. */
  lemma AttemptWellBehaved(s: State, e: Event, mid: State, attempt: bool)
    requires EnqueuedBy(e) == [] && mid.queue == s.queue && s.signals <= mid.signals
    requires forall f :: Target(e) != Some(f) ==> FlagValue(mid, f) == FlagValue(s, f)
    requires PassingEvent(e) ==> Target(e).Some? && Passes(mid, Target(e).value)
    requires Status(mid) != Status(s) ==> StatusSignals(mid.signals) > StatusSignals(s.signals)
    ensures WellBehaved(s, e, AttemptConsume(mid, attempt))
  {
    var r := AttemptConsume(mid, attempt);
    assert SameFlags(r.after, mid);
    assert Status(r.after) == Status(mid);
    forall f | Target(e) != Some(f) ensures FlagValue(r.after, f) == FlagValue(s, f) {
      assert FlagValue(r.after, f) == FlagValue(mid, f);
    }
    if PassingEvent(e) {
      assert FlagValue(r.after, Target(e).value) == FlagValue(mid, Target(e).value);
    }
  }

  lemma MaskWellBehaved(s: State, m: bool)
    ensures WellBehaved(s, MaskOnOffChanged(m), AssignPageMaskOn(s, Some(m)))
  {
    var mid := s.(maskOn := Some(m));
    AttemptWellBehaved(s, MaskOnOffChanged(m), mid, !m);
    assert AssignPageMaskOn(s, Some(m)) == AttemptConsume(mid, !m);
  }

  lemma OnlineWellBehaved(s: State, o: bool)
    ensures WellBehaved(s, OnlineSet(o), AssignPageOnline(s, Some(o)))
  {
    if s.online != Some(o) {
      var mid := s.(online := Some(o), signals := s.signals + [SigFrontendStatusChanged]);
      StatusSignalsPush(s.signals, SigFrontendStatusChanged);
      AttemptWellBehaved(s, OnlineSet(o), mid, o);
      assert AssignPageOnline(s, Some(o)) == AttemptConsume(mid, o);
    }
  }

  lemma LoginedWellBehaved(s: State, l: bool)
    ensures WellBehaved(s, LoginedSet(l), AssignPageLogined(s, Some(l)))
  {
    var mid := s.(logined := Some(l), signals := s.signals + [SigFrontendStatusChanged]);
    StatusSignalsPush(s.signals, SigFrontendStatusChanged);
    AttemptWellBehaved(s, LoginedSet(l), mid, l);
    assert AssignPageLogined(s, Some(l)) == AttemptConsume(mid, l);
  }

  lemma XdjsAssignWellBehaved(s: State, p: Payload, env: Environment)
    ensures WellBehaved(s, XdjsLoadedWith(p, env), AssignXdjsLoaded(s, Some(true)))
  {
    var mid := s.(xdjsLoaded := Some(true), signals := s.signals + [SigFrontendStatusChanged]);
    StatusSignalsPush(s.signals, SigFrontendStatusChanged);
    AttemptWellBehaved(s, XdjsLoadedWith(p, env), mid, true);
    assert AssignXdjsLoaded(s, Some(true)) == AttemptConsume(mid, true);
  }

  lemma XdjsLoadedWellBehaved(s: State, p: Payload, env: Environment)
    ensures var r := XdjsLoadedStep(s, p, env); WellBehaved(s, XdjsLoadedWith(p, env), Step(r.after, r.effect))
  {
    var st := AssignXdjsLoaded(s, Some(true));
    XdjsAssignWellBehaved(s, p, env);
    var r := XdjsLoadedStep(s, p, env);
    var login := LoginSignals(TryLogin(env.onLoginPage, env.autologin, env.username, env.password));
    var activation := ActivationSignals(r.activation);
    assert st.after.signals + login + activation == st.after.signals + (login + activation);
    assert r.after == st.after.(signals := st.after.signals + (login + activation));
    AppendSignalsWellBehaved(s, XdjsLoadedWith(p, env), st, login + activation);
  }

  /** Signals emitted after a well-behaved step keep it well-behaved. */
  lemma AppendSignalsWellBehaved(s: State, e: Event, st: Step, extra: seq<Signal>)
    requires WellBehaved(s, e, st)
    ensures WellBehaved(s, e, Step(st.after.(signals := st.after.signals + extra), st.effect))
  {
    StatusSignalsAppend(st.after.signals, extra);
  }

  lemma BtButtonWellBehaved(s: State)
    ensures WellBehaved(s, BtButtonClicked, Step(s.(signals := s.signals + [SigCreateTaskFromTorrentFileDone]), NoConsumeAttempt))
  {
  }

  /** One notification. */
  function Apply(s: State, e: Event): (r: Step)
    ensures WellBehaved(s, e, r)
  {
    match e
    case CreateTaskTriggered(a) =>
      CreateTaskWellBehaved(s, a);
      Step(s.(queue := s.queue + [a]), NoConsumeAttempt)
    case MaskOnOffChanged(m) =>
      MaskWellBehaved(s, m);
      AssignPageMaskOn(s, Some(m))
    case OnlineSet(o) =>
      OnlineWellBehaved(s, o);
      AssignPageOnline(s, Some(o))
    case LoginedSet(l) =>
      LoginedWellBehaved(s, l);
      AssignPageLogined(s, Some(l))
    case XdjsLoadedWith(p, env) =>
      XdjsLoadedWellBehaved(s, p, env);
      var r := XdjsLoadedStep(s, p, env);
      Step(r.after, r.effect)
    case BtButtonClicked =>
      BtButtonWellBehaved(s);
      Step(s.(signals := s.signals + [SigCreateTaskFromTorrentFileDone]), NoConsumeAttempt)
  }

  datatype Trace = Trace(final: State, dispatched: seq<QueuedAction>)

  /** A run of notifications, oldest first, with the actions dispatched along the way. */
  function Run(s: State, evs: seq<Event>): Trace
    decreases |evs|
  {
    if evs == [] then Trace(s, [])
    else
      var t := Run(s, evs[..|evs| - 1]);
      var r := Apply(t.final, evs[|evs| - 1]);
      Trace(r.after, t.dispatched + Dispatched(r.effect))
  }

  function Enqueued(evs: seq<Event>): seq<QueuedAction>
    decreases |evs|
  {
    if evs == [] then [] else Enqueued(evs[..|evs| - 1]) + EnqueuedBy(evs[|evs| - 1])
  }

  /** The flags a run of notifications assigns. */
  function TargetSet(evs: seq<Event>): set<Flag>
    decreases |evs|
  {
    if evs == [] then {}
    else
      TargetSet(evs[..|evs| - 1]) +
        (match Target(evs[|evs| - 1]) case Some(f) => {f} case None => {})
  }
}
