/** The bridge object itself: four tri-state readiness flags behind setters with side effects, the
    queue of pending actions, and the signals it emits. Each method is proved to do what the
    corresponding function of module Bridge says to the abstract state Model(). */
module Frontend {
  import opened Wrappers
  import opened Actions
  import opened Decisions
  import opened Bridge

  class FrontendPy {
    var isPageMaskOn: Option<bool>
    var isPageOnline: Option<bool>
    var isPageLogined: Option<bool>
    var isXdjsLoaded: Option<bool>
    /** The pending actions, oldest first. */
    var queue: seq<QueuedAction>
    /** The page's override-file slot, through which a torrent file's path is handed over. */
    var overrideFile: Option<string>
    /** Every signal emitted so far, oldest first. */
    ghost var signals: seq<Signal>

    ghost function Model(): State
      reads this
    {
      State(isPageMaskOn, isPageOnline, isPageLogined, isXdjsLoaded, queue, overrideFile, signals)
    }

    constructor ()
      ensures Model() == Initial()
    {
      isPageMaskOn, isPageOnline, isPageLogined, isXdjsLoaded := None, None, None, None;
      queue := [];
      overrideFile := None;
      signals := [];
    }

    /** The user's create-task action: the new action joins the tail of the queue. */
    method Enqueue(action: QueuedAction)
      modifies this`queue
      ensures queue == old(queue) + [action]
    {
      queue := queue + [action];
    }

    /** consumeAction: check the gates, then dequeue and dispatch at most one action. */
    method ConsumeAction() returns (result: ConsumeResult)
      modifies this
      ensures Consumption(Model(), result) == Consume(old(Model()))
    {
      if !Truthy(isPageOnline) {
        return Blocked(Offline);
      }
      if Truthy(isPageMaskOn) {
        return Blocked(MaskIsOn);
      }
      if !Truthy(isXdjsLoaded) {
        return Blocked(XdjsNotLoaded);
      }
      if !Truthy(isPageLogined) {
        return Blocked(NotLogined);
      }
      if queue == [] {
        // dequeueAction raised IndexError: nothing to consume
        return NothingToConsume;
      }
      var action := queue[0];
      queue := queue[1..];
      match action {
        case CreateTasksAction(tasks) =>
          var taskUrls := TaskUrls(tasks);
          if tasks[0].kind == Normal {
            signals := signals + [SigCreateTasks(taskUrls)];
          } else {
            overrideFile := Some(taskUrls[0]);
            signals := signals + [SigCreateTaskFromTorrentFile];
          }
        case OtherAction =>
      }
      result := Consumed(action);
    }

    method SetPageMaskOn(value: Option<bool>) returns (effect: SetterEffect)
      modifies this
      ensures Step(Model(), effect) == AssignPageMaskOn(old(Model()), value)
    {
      isPageMaskOn := value;
      assert AssignPageMaskOn(old(Model()), value) == AttemptConsume(Model(), value == Some(false));
      if isPageMaskOn == Some(false) {
        var result := ConsumeAction();
        effect := ConsumeAttempted(result);
      } else {
        effect := NoConsumeAttempt;
      }
    }

    method SetPageOnline(value: Option<bool>) returns (effect: SetterEffect)
      modifies this
      ensures Step(Model(), effect) == AssignPageOnline(old(Model()), value)
    {
      if isPageOnline == value {
        // a heartbeat: the online status stays the same
        return Unchanged;
      }
      isPageOnline := value;
      signals := signals + [SigFrontendStatusChanged];
      ghost var mid := Model();
      if Truthy(isPageOnline) {
        var result := ConsumeAction();
        effect := ConsumeAttempted(result);
      } else {
        effect := NoConsumeAttempt;
      }
      assert Step(Model(), effect) == AttemptConsume(mid, Truthy(value));
      assert AssignPageOnline(old(Model()), value) == AttemptConsume(mid, Truthy(value));
    }

    method SetPageLogined(value: Option<bool>) returns (effect: SetterEffect)
      modifies this
      ensures Step(Model(), effect) == AssignPageLogined(old(Model()), value)
    {
      isPageLogined := value;
      signals := signals + [SigFrontendStatusChanged];
      ghost var mid := Model();
      if Truthy(isPageLogined) {
        var result := ConsumeAction();
        effect := ConsumeAttempted(result);
      } else {
        effect := NoConsumeAttempt;
      }
      assert Step(Model(), effect) == AttemptConsume(mid, Truthy(value));
      assert AssignPageLogined(old(Model()), value) == AttemptConsume(mid, Truthy(value));
    }

    method SetXdjsLoaded(value: Option<bool>) returns (effect: SetterEffect)
      modifies this
      ensures Step(Model(), effect) == AssignXdjsLoaded(old(Model()), value)
    {
      isXdjsLoaded := value;
      signals := signals + [SigFrontendStatusChanged];
      ghost var mid := Model();
      if Truthy(isXdjsLoaded) {
        var result := ConsumeAction();
        effect := ConsumeAttempted(result);
      } else {
        effect := NoConsumeAttempt;
      }
      assert Step(Model(), effect) == AttemptConsume(mid, Truthy(value));
      assert AssignXdjsLoaded(old(Model()), value) == AttemptConsume(mid, Truthy(value));
    }

    /** tryLogin: emit the saved credentials when auto-login applies. */
    method TryLogin(onLoginPage: bool, autologin: bool, username: string, password: string)
      modifies this`signals
      ensures signals == old(signals) + LoginSignals(Decisions.TryLogin(onLoginPage, autologin, username, password))
    {
      var credentials := Decisions.TryLogin(onLoginPage, autologin, username, password);
      if credentials.Some? {
        signals := signals + [SigLogin(credentials.value.username, credentials.value.password)];
      }
    }

    /** tryActivate: emit the activation or peer-id signal the decision calls for; the two warning
        dialogs are returned as the outcome. */
    method TryActivate(onV3Page: bool, payload: Payload, etm: ActivationStatus) returns (outcome: ActivationOutcome)
      modifies this`signals
      ensures outcome == Decisions.TryActivate(onV3Page, payload, etm)
      ensures signals == old(signals) + ActivationSignals(outcome)
    {
      outcome := Decisions.TryActivate(onV3Page, payload, etm);
      match outcome {
        case Activate(code) =>
          signals := signals + [SigActivateDevice(code)];
        case NotifyPeerId(peerid) =>
          signals := signals + [SigNotifyPeerId(peerid)];
        case _ =>
      }
    }

    /** xdjsLoaded: the page script has loaded. */
    method XdjsLoaded(payload: Payload, env: Environment) returns (effect: SetterEffect, activation: ActivationOutcome)
      modifies this
      ensures LoadStep(Model(), effect, activation) == XdjsLoadedStep(old(Model()), payload, env)
    {
      effect := SetXdjsLoaded(Some(true));
      TryLogin(env.onLoginPage, env.autologin, env.username, env.password);
      activation := TryActivate(env.onV3Page, payload, env.etm);
    }

    method SlotMaskOnOffChanged(maskOn: bool) returns (effect: SetterEffect)
      modifies this
      ensures Step(Model(), effect) == Apply(old(Model()), MaskOnOffChanged(maskOn))
    {
      assert Apply(Model(), MaskOnOffChanged(maskOn)) == AssignPageMaskOn(Model(), Some(maskOn));
      effect := SetPageMaskOn(Some(maskOn));
    }

    method SlotSetOnline(online: bool) returns (effect: SetterEffect)
      modifies this
      ensures Step(Model(), effect) == Apply(old(Model()), OnlineSet(online))
    {
      assert Apply(Model(), OnlineSet(online)) == AssignPageOnline(Model(), Some(online));
      effect := SetPageOnline(Some(online));
    }

    method SlotSetLogined(logined: bool) returns (effect: SetterEffect)
      modifies this
      ensures Step(Model(), effect) == Apply(old(Model()), LoginedSet(logined))
    {
      assert Apply(Model(), LoginedSet(logined)) == AssignPageLogined(Model(), Some(logined));
      effect := SetPageLogined(Some(logined));
    }

    /** The page's torrent dialog was confirmed; the key press it injects is not modelled. */
    method SlotClickBtButton()
      modifies this`signals
      ensures signals == old(signals) + [SigCreateTaskFromTorrentFileDone]
    {
      signals := signals + [SigCreateTaskFromTorrentFileDone];
    }

    /** getFrontendStatus: the snapshot of script loaded, logged in and online, in that order. */
    function GetFrontendStatus(): (status: FrontendStatus)
      reads this
      ensures status == Status(Model())
    {
      FrontendStatus(isXdjsLoaded, isPageLogined, isPageOnline)
    }
  }
}
