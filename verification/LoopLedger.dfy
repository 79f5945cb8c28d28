/**
 The state of an EventLoop accounted for by the run alone (src/eventloop.cc): what the eventfd counts,
 who still owes it a write, and every callback handed over.
 */
module LoopLedger {
  import opened LoopProtocol

  /** What is counted, and what the count starts afresh from: eventfd writes since it was last read, and
      pushes the loop's thread made outside loop() since the queue was last taken. */
  datatype Kind = Written | PushedOutside

  ghost predicate Counts(kind: Kind, s: Loop, a: Action) {
    Enabled(s, a)
    && match kind
       case Written => a.WriteEventfd? || (a.OwnerTestFlag? && s.calling)
       case PushedOutside => a.OwnerAppend? && (s.pc.NotStarted? || s.pc.Stopped?)
  }

  ghost predicate Restarts(kind: Kind, s: Loop, a: Action) {
    Enabled(s, a) && if kind == Written then a.Awake? else a.Swap?
  }

  ghost function Since(kind: Kind, owner: Tid, t: seq<Action>): nat
    decreases |t|
  {
    if t == [] then 0
    else
      var u, a := t[..|t| - 1], t[|t| - 1];
      var s := Run(New(owner), u);
      if Restarts(kind, s, a) then 0 else Since(kind, owner, u) + if Counts(kind, s, a) then 1 else 0
  }

  ghost predicate Counted(s: Loop) {
    s.counter == if s.writes < COUNTER_MAX then s.writes else COUNTER_MAX
  }

  lemma CountStep(s: Loop, a: Action)
    requires Counted(s)
    ensures var r := Step(s, a);
            && Counted(r)
            && r.writes == (if Restarts(Written, s, a) then 0 else s.writes + if Counts(Written, s, a) then 1 else 0)
            && r.outside == if Restarts(PushedOutside, s, a) then 0
                            else s.outside + if Counts(PushedOutside, s, a) then 1 else 0
  {
  }

  /** In every run the eventfd holds the number of writes since it was last read, up to its maximum: each
      read takes all of them back. */
  lemma {:induction false} CounterIsTrace(owner: Tid, t: seq<Action>)
    ensures var s := Run(New(owner), t);
            Counted(s) && s.writes == Since(Written, owner, t) && s.outside == Since(PushedOutside, owner, t)
    decreases |t|
  {
    if t != [] {
      var u, a := t[..|t| - 1], t[|t| - 1];
      assert t == u + [a];
      RunSnoc(New(owner), u, a);
      CounterIsTrace(owner, u);
      CountStep(Run(New(owner), u), a);
    }
  }

  /** The last step thread x took, if any. */
  ghost function LastOf(owner: Tid, t: seq<Action>, x: Tid): seq<Action>
    ensures |LastOf(owner, t, x)| <= 1
    decreases |t|
  {
    if t == [] then []
    else
      var u, a := t[..|t| - 1], t[|t| - 1];
      if Enabled(Run(New(owner), u), a) && Actor(owner, a) == x then [a] else LastOf(owner, u, x)
  }

  /** Another thread owes the eventfd a write exactly between its push or its quit and that write. */
  lemma {:induction false} OwedIsTrace(owner: Tid, t: seq<Action>, x: Tid)
    requires x != owner
    ensures var s, last := Run(New(owner), t), LastOf(owner, t, x);
            && (x in s.appended <==> last != [] && (last[0].Append? || last[0].RunLoopCallback?))
            && (x in s.quitting <==> last != [] && last[0].StoreQuit?)
    decreases |t|
  {
    if t != [] {
      var u, a := t[..|t| - 1], t[|t| - 1];
      assert t == u + [a];
      RunSnoc(New(owner), u, a);
      OwnerIsFixed(New(owner), u);
      OwedIsTrace(owner, u, x);
    }
  }

  ghost function Queues(s: Loop, a: Action): seq<Task> {
    if !Enabled(s, a) then []
    else match a
      case OwnerAppend(task) => [task]
      case Append(_, task) => [task]
      case RunLoopCallback(t, task) => if t == s.owner then [] else [task]
      case _ => []
  }

  ghost function RunsOnTheSpot(s: Loop, a: Action): seq<Execution> {
    if Enabled(s, a) && a.RunLoopCallback? && a.t == s.owner then [Execution(a.task, s.owner)] else []
  }

  ghost function QueuedIn(owner: Tid, t: seq<Action>): seq<Task>
    decreases |t|
  {
    if t == [] then []
    else QueuedIn(owner, t[..|t| - 1]) + Queues(Run(New(owner), t[..|t| - 1]), t[|t| - 1])
  }

  ghost function RunOnTheSpotIn(owner: Tid, t: seq<Action>): seq<Execution>
    decreases |t|
  {
    if t == [] then []
    else RunOnTheSpotIn(owner, t[..|t| - 1]) + RunsOnTheSpot(Run(New(owner), t[..|t| - 1]), t[|t| - 1])
  }

  lemma CallbackStep(s: Loop, a: Action)
    ensures Step(s, a).pushed == s.pushed + Queues(s, a) && Step(s, a).inlined == s.inlined + RunsOnTheSpot(s, a)
  {
  }

  /** No callback handed over is forgotten: the pushes that ExactlyOnceInOrder accounts for are those that
      were made, and runLoopCallback on the loop's own thread runs its callback on the spot. */
  lemma {:induction false} CallbacksAreTrace(owner: Tid, t: seq<Action>)
    ensures Run(New(owner), t).pushed == QueuedIn(owner, t)
    ensures Run(New(owner), t).inlined == RunOnTheSpotIn(owner, t)
    decreases |t|
  {
    if t != [] {
      var u, a := t[..|t| - 1], t[|t| - 1];
      assert t == u + [a];
      RunSnoc(New(owner), u, a);
      CallbacksAreTrace(owner, u);
      CallbackStep(Run(New(owner), u), a);
    }
  }
}
