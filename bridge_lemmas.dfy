/** Properties of runs of notifications: the queue is first-in first-out, a closed gate that nobody
    opens dispatches nothing, and the readiness scenario dispatches a queued action exactly once. */
module BridgeLemmas {
  import opened Wrappers
  import opened Actions
  import opened Bridge

  /** Whatever the notifications, the actions dispatched so far followed by those still queued are
      exactly the actions queued at the start followed by those enqueued since, in order. */
  lemma {:induction false} RunIsFifo(s: State, evs: seq<Event>)
    ensures Run(s, evs).dispatched + Run(s, evs).final.queue == s.queue + Enqueued(evs)
    decreases |evs|
  {
    if evs != [] {
      var p, e := evs[..|evs| - 1], evs[|evs| - 1];
      var t := Run(s, p);
      var r := Apply(t.final, e);
      assert Run(s, evs) == Trace(r.after, t.dispatched + Dispatched(r.effect));
      assert Enqueued(evs) == Enqueued(p) + EnqueuedBy(e);
      RunIsFifo(s, p);
      assert WellBehaved(t.final, e, r);
      Regroup(t.dispatched, Dispatched(r.effect), r.after.queue, t.final.queue, EnqueuedBy(e));
    }
  }

  lemma Regroup<T>(d: seq<T>, x: seq<T>, q: seq<T>, q0: seq<T>, y: seq<T>)
    requires x + q == q0 + y
    ensures (d + x) + q == (d + q0) + y
  {
    assert (d + x) + q == d + (x + q);
  }

  /** If a flag blocks the gate and no notification in the run assigns it, nothing is dispatched
      and the flag keeps its value. */
  lemma {:induction false} NoDispatchWhileBlocked(s: State, evs: seq<Event>, f: Flag)
    requires !Passes(s, f)
    requires forall i :: 0 <= i < |evs| ==> Target(evs[i]) != Some(f)
    ensures Run(s, evs).dispatched == []
    ensures FlagValue(Run(s, evs).final, f) == FlagValue(s, f)
    decreases |evs|
  {
    if evs != [] {
      var p, e := evs[..|evs| - 1], evs[|evs| - 1];
      NoDispatchWhileBlocked(s, p, f);
      var t := Run(s, p);
      var r := Apply(t.final, e);
      assert Target(e) != Some(f);
      assert FlagValue(r.after, f) == FlagValue(s, f);
      ReadyIffAllPass(r.after);
      assert !Ready(r.after);
    }
  }

  /** In a run of passing notifications, every flag it assigns ends up passing, every other flag
      keeps its value, and nothing is enqueued. */
  lemma {:induction false} PassingRunFlags(s: State, evs: seq<Event>, f: Flag)
    requires forall i :: 0 <= i < |evs| ==> PassingEvent(evs[i])
    ensures f in TargetSet(evs) ==> Passes(Run(s, evs).final, f)
    ensures f !in TargetSet(evs) ==> FlagValue(Run(s, evs).final, f) == FlagValue(s, f)
    ensures Enqueued(evs) == []
    decreases |evs|
  {
    if evs != [] {
      var p, e := evs[..|evs| - 1], evs[|evs| - 1];
      PassingRunFlags(s, p, f);
      assert PassingEvent(e);
      var t := Run(s, p);
      var r := Apply(t.final, e);
      if Target(e) == Some(f) {
        assert Passes(r.after, f);
      } else {
        assert FlagValue(r.after, f) == FlagValue(t.final, f);
      }
    }
  }

  lemma {:induction false} TargetSetSize(evs: seq<Event>)
    ensures |TargetSet(evs)| <= |evs|
    decreases |evs|
  {
    if evs != [] {
      var p := evs[..|evs| - 1];
      TargetSetSize(p);
      match Target(evs[|evs| - 1])
      case None =>
      case Some(g) => assert |TargetSet(p) + {g}| <= |TargetSet(p)| + 1;
    }
  }

  lemma {:induction false} TargetInSet(evs: seq<Event>, i: nat)
    requires i < |evs| && Target(evs[i]).Some?
    ensures Target(evs[i]).value in TargetSet(evs)
    decreases |evs|
  {
    if i < |evs| - 1 {
      TargetInSet(evs[..|evs| - 1], i);
    }
  }

  /** When the notifications of a run assign distinct flags, the last one assigns a flag that no
      earlier one did. */
  lemma LastTargetIsNew(evs: seq<Event>)
    requires |evs| > 0 && |TargetSet(evs)| == |evs| && Target(evs[|evs| - 1]).Some?
    ensures Target(evs[|evs| - 1]).value !in TargetSet(evs[..|evs| - 1])
    ensures TargetSet(evs) == TargetSet(evs[..|evs| - 1]) + {Target(evs[|evs| - 1]).value}
  {
    var p := evs[..|evs| - 1];
    TargetSetSize(p);
  }

  /** A passing notification tries to consume, unless it is an online notification that repeats
      an online value that is already true. */
  lemma PassingEventAttempts(t: State, e: Event)
    requires PassingEvent(e)
    requires e.OnlineSet? ==> !Truthy(t.online)
    ensures Apply(t, e).effect.ConsumeAttempted?
    ensures Ready(Apply(t, e).after) ==> !Apply(t, e).effect.result.Blocked?
  {
  }

  /** A passing notification that tries to consume and leaves the gate open dispatches the head
      of the queue, if there is one. */
  lemma ReadyStepTakesHead(t: State, e: Event)
    requires PassingEvent(e)
    requires e.OnlineSet? ==> !Truthy(t.online)
    requires Ready(Apply(t, e).after)
    ensures t.queue == [] ==> Dispatched(Apply(t, e).effect) == [] && Apply(t, e).after.queue == []
    ensures t.queue != [] ==> Dispatched(Apply(t, e).effect) == [t.queue[0]] && Apply(t, e).after.queue == t.queue[1..]
  {
    PassingEventAttempts(t, e);
    var r := Apply(t, e);
    assert Dispatched(r.effect) + r.after.queue == t.queue;
    if t.queue != [] {
      assert r.effect.result.Consumed?;
    }
  }

  /** A run of passing notifications on distinct flags, starting offline with one action queued,
      that ends with the gate open has dispatched that action exactly once. */
  lemma DrainsOnceWhenReady(s: State, evs: seq<Event>, a: QueuedAction)
    requires s.queue == [a] && !Truthy(s.online)
    requires |evs| > 0 && |TargetSet(evs)| == |evs|
    requires forall i :: 0 <= i < |evs| ==> PassingEvent(evs[i])
    requires Ready(Run(s, evs).final)
    ensures Run(s, evs).dispatched == [a] && Run(s, evs).final.queue == []
  {
    var p, e := evs[..|evs| - 1], evs[|evs| - 1];
    assert PassingEvent(e);
    LastTargetIsNew(evs);
    PassingRunFlags(s, p, Online);
    var t := Run(s, p);
    RunIsFifo(s, p);
    assert t.dispatched + t.final.queue == [a];
    ReadyStepTakesHead(t.final, e);
    var r := Apply(t.final, e);
    assert Run(s, evs) == Trace(r.after, t.dispatched + Dispatched(r.effect));
    SingletonSplit(t.dispatched, t.final.queue, a);
  }

  lemma SingletonSplit<T>(d: seq<T>, q: seq<T>, a: T)
    requires d + q == [a]
    ensures (d == [a] && q == []) || (d == [] && q == [a])
  {
    if d != [] {
      assert |d| == 1 && (d + q)[0] == d[0];
    }
  }

  /** No flag is truthy: each is None (never reported) or False. */
  predicate NothingReported(s: State) {
    !Truthy(s.online) && !Truthy(s.maskOn) && !Truthy(s.xdjsLoaded) && !Truthy(s.logined)
  }

  /** After passing reports on every flag, the gate is open. */
  lemma AllReportedReady(s: State, evs: seq<Event>)
    requires forall i :: 0 <= i < |evs| ==> PassingEvent(evs[i])
    requires TargetSet(evs) == {Online, Mask, XdjsLoaded, Logined}
    ensures Ready(Run(s, evs).final)
  {
    PassingRunFlags(s, evs, Online);
    PassingRunFlags(s, evs, Mask);
    PassingRunFlags(s, evs, XdjsLoaded);
    PassingRunFlags(s, evs, Logined);
  }

  /** While one of online, script loaded and logged in is still unreported, nothing is dispatched. */
  lemma UnreportedFlagBlocks(s: State, p: seq<Event>, g: Flag)
    requires NothingReported(s) && g != Mask && g !in TargetSet(p)
    ensures Run(s, p).dispatched == []
  {
    forall i | 0 <= i < |p| ensures Target(p[i]) != Some(g) {
      if Target(p[i]) == Some(g) { TargetInSet(p, i); }
    }
    NoDispatchWhileBlocked(s, p, g);
  }

  /** Online, script loaded and logged in reported, the mask not: the gate is already open. */
  lemma MaskUnreportedReady(s: State, p: seq<Event>)
    requires NothingReported(s)
    requires forall i :: 0 <= i < |p| ==> PassingEvent(p[i])
    requires TargetSet(p) == {Online, XdjsLoaded, Logined}
    ensures Ready(Run(s, p).final)
  {
    PassingRunFlags(s, p, Online);
    PassingRunFlags(s, p, Mask);
    PassingRunFlags(s, p, XdjsLoaded);
    PassingRunFlags(s, p, Logined);
  }

  /** The readiness scenario: one action queued, no flag truthy, and the page then reports online,
      mask off, script loaded and logged in, in any order. The action is dispatched exactly once.
      When the last report is not the mask one, the last report dispatches it; when it is, the
      action already went out on the third report, because a mask that is None or False does not
      block the gate. */
  lemma ReadinessScenario(s: State, evs: seq<Event>, a: QueuedAction)
    requires s.queue == [a] && NothingReported(s)
    requires |evs| == 4 && forall i :: 0 <= i < 4 ==> PassingEvent(evs[i])
    requires TargetSet(evs) == {Online, Mask, XdjsLoaded, Logined}
    ensures Run(s, evs).dispatched == [a]
    ensures Target(evs[3]) != Some(Mask) ==> Run(s, evs[..3]).dispatched == []
    ensures Target(evs[3]) == Some(Mask) ==> Run(s, evs[..3]).dispatched == [a]
  {
    assert |TargetSet(evs)| == 4;
    AllReportedReady(s, evs);
    DrainsOnceWhenReady(s, evs, a);

    var p := evs[..3];
    assert evs[..|evs| - 1] == p;
    assert PassingEvent(evs[3]);
    LastTargetIsNew(evs);
    var g := Target(evs[3]).value;
    if g != Mask {
      UnreportedFlagBlocks(s, p, g);
    } else {
      assert TargetSet(p) == {Online, XdjsLoaded, Logined};
      assert |TargetSet(p)| == 3;
      MaskUnreportedReady(s, p);
      DrainsOnceWhenReady(s, p, a);
    }
  }
}
