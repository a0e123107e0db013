/** The bounded queue that threads share: one step of the model is what a thread does between taking the
    mutex and either returning or falling asleep on a condition variable. */
module BlockingQueue {

  datatype Op<T> = Push(value: T) | Pop | Close(wait: bool)

  /** Where a thread is in its call. `Entering` and `Woken` threads are about to take the mutex. */
  datatype Pc<T> = Entering(op: Op<T>) | Sleeping(op: Op<T>) | Woken(op: Op<T>) | Done(op: Op<T>, ok: bool)

  /** `pushed` and `popped` record the values of the successful calls, in order. */
  datatype State<T> = State(
    maxSize: nat, queue: seq<T>, closed: bool, threads: map<nat, Pc<T>>, pushed: seq<T>, popped: seq<T>)

  /** The threads asleep on `m_haveData` or on `m_haveSpace`. */
  function Sleepers<T>(threads: map<nat, Pc<T>>, onData: bool): set<nat> {
    set t | t in threads && threads[t].Sleeping? && threads[t].op.Pop? == onData
  }

  function Wake<T>(threads: map<nat, Pc<T>>, who: set<nat>): map<nat, Pc<T>> {
    map t | t in threads :: if t in who && threads[t].Sleeping? then Woken(threads[t].op) else threads[t]
  }

  /** `notify_one`; `wakee` is the scheduler's choice. */
  function NotifyOne<T>(threads: map<nat, Pc<T>>, onData: bool, wakee: nat): map<nat, Pc<T>> {
    Wake(threads, {wakee} * Sleepers(threads, onData))
  }

  predicate Runnable<T>(s: State<T>, t: nat) {
    t in s.threads && (s.threads[t].Entering? || s.threads[t].Woken?)
  }

  // ---------------------------------------------------------------------------------------------
  // The sections

  function PushSection<T>(s: State<T>, t: nat, v: T, wakee: nat): State<T> {
    if !s.closed && |s.queue| >= s.maxSize then s.(threads := s.threads[t := Sleeping(Push(v))])
    else if s.closed then s.(threads := s.threads[t := Done(Push(v), false)])
    else s.(queue := s.queue + [v], pushed := s.pushed + [v],
            threads := NotifyOne(s.threads, true, wakee)[t := Done(Push(v), true)])
  }

  function PopSection<T>(s: State<T>, t: nat, wakee: nat): State<T> {
    if s.queue == [] && s.closed then s.(threads := s.threads[t := Done(Pop, false)])
    else if s.queue == [] then s.(threads := s.threads[t := Sleeping(Pop)])
    else
      var rest := s.queue[1..];
      var threads := if s.closed && rest == [] then Wake(s.threads, Sleepers(s.threads, false))
                     else NotifyOne(s.threads, false, wakee);
      s.(queue := rest, popped := s.popped + [s.queue[0]], threads := threads[t := Done(Pop, true)])
  }

  function CloseSection<T>(s: State<T>, t: nat, wait: bool, first: bool): State<T> {
    var pc := if wait && s.queue != [] then Sleeping(Close(wait)) else Done(Close(wait), true);
    if first then
      s.(closed := true, threads := Wake(Wake(s.threads, Sleepers(s.threads, true)), Sleepers(s.threads, false))[t := pc])
    else s.(threads := s.threads[t := pc])
  }

  datatype Step<T> = Begin(t: nat, op: Op<T>) | Run(t: nat, wakee: nat) | Spurious(t: nat)

  /** `notify_one` leaves nobody asleep by choice: when somebody sleeps there, the wakee is one of them. */
  predicate Allowed<T>(s: State<T>, step: Step<T>) {
    match step
    case Begin(t, _) => t !in s.threads || s.threads[t].Done?
    case Run(t, wakee) =>
      Runnable(s, t) && (var there := Sleepers(s.threads, s.threads[t].op.Push?); there != {} ==> wakee in there)
    case Spurious(t) => t in s.threads && s.threads[t].Sleeping?
  }

  function Next<T>(s: State<T>, step: Step<T>): State<T>
    requires Allowed(s, step)
  {
    match step
    case Begin(t, op) => s.(threads := s.threads[t := Entering(op)])
    case Spurious(t) => s.(threads := Wake(s.threads, {t}))
    case Run(t, wakee) =>
      match s.threads[t].op
      case Push(v) => PushSection(s, t, v, wakee)
      case Pop => PopSection(s, t, wakee)
      case Close(wait) => CloseSection(s, t, wait, s.threads[t].Entering?)
  }

  function Initial<T>(maxSize: nat): State<T> {
    State(maxSize, [], false, map[], [], [])
  }

  // ---------------------------------------------------------------------------------------------
  // What every step keeps

  ghost predicate Asleep<T>(s: State<T>, t: nat) {
    t in s.threads && s.threads[t].Sleeping?
  }

  function WokenPushers<T>(threads: map<nat, Pc<T>>): set<nat> {
    set t | t in threads && threads[t].Woken? && threads[t].op.Push?
  }

  function WokenPoppers<T>(threads: map<nat, Pc<T>>): set<nat> {
    set t | t in threads && threads[t].Woken? && threads[t].op.Pop?
  }

  ghost predicate Data<T>(s: State<T>) {
    |s.queue| <= s.maxSize && s.pushed == s.popped + s.queue
  }

  /** Once closed, only closers sleep, and only while there is something to drain. */
  ghost predicate Closing<T>(s: State<T>) {
    forall t :: t in s.threads ==>
      && (s.threads[t].Sleeping? && s.closed ==> s.threads[t].op.Close?)
      && (s.threads[t].op.Close? && !s.threads[t].Entering? ==> s.closed)
      && (s.threads[t].Sleeping? && s.threads[t].op.Close? ==> s.queue != [])
      && (s.threads[t].Done? && s.threads[t].op == Close(true) ==> s.queue == [])
  }

  /** Whoever sleeps does so because the others that were woken will use up what there is. */
  ghost predicate Covered<T>(s: State<T>) {
    && (!s.closed && Sleepers(s.threads, false) != {} ==> |s.queue| + |WokenPushers(s.threads)| >= s.maxSize)
    && (!s.closed && Sleepers(s.threads, true) != {} ==> |s.queue| <= |WokenPoppers(s.threads)|)
  }

  ghost predicate Good<T>(s: State<T>) {
    Data(s) && Closing(s) && Covered(s)
  }

  lemma StepKeepsData<T>(s: State<T>, step: Step<T>)
    requires Data(s) && Allowed(s, step)
    ensures Data(Next(s, step)) && Next(s, step).maxSize == s.maxSize
    ensures s.closed ==> Next(s, step).closed && Next(s, step).pushed == s.pushed
    ensures s.pushed <= Next(s, step).pushed && s.popped <= Next(s, step).popped
  {
    hide Allowed, Wake, Sleepers, NotifyOne;
  }

  lemma StepKeepsClosing<T>(s: State<T>, step: Step<T>)
    requires Closing(s) && Allowed(s, step)
    ensures Closing(Next(s, step))
  {
  }

  /** A thread that is not asleep moves on. */
  lemma Moved<T>(threads: map<nat, Pc<T>>, t: nat, pc: Pc<T>, onData: bool)
    requires t !in threads || !threads[t].Sleeping?
    requires !pc.Woken?
    ensures Sleepers(threads[t := pc], onData) ==
            Sleepers(threads, onData) + (if pc.Sleeping? && pc.op.Pop? == onData then {t} else {})
    ensures WokenPushers(threads[t := pc]) == WokenPushers(threads) - {t}
    ensures WokenPoppers(threads[t := pc]) == WokenPoppers(threads) - {t}
  {
  }

  /** One sleeper is woken. */
  lemma WokenUp<T>(threads: map<nat, Pc<T>>, t: nat, onData: bool)
    requires t in threads && threads[t].Sleeping?
    ensures Sleepers(Wake(threads, {t}), onData) == Sleepers(threads, onData) - {t}
    ensures WokenPushers(Wake(threads, {t})) == WokenPushers(threads) + (if threads[t].op.Push? then {t} else {})
    ensures WokenPoppers(Wake(threads, {t})) == WokenPoppers(threads) + (if threads[t].op.Pop? then {t} else {})
    ensures t !in WokenPushers(threads) && t !in WokenPoppers(threads)
  {
  }

  /** `notify_one` wakes nobody or one sleeper. */
  lemma Notified<T>(threads: map<nat, Pc<T>>, onData: bool, wakee: nat, t: nat)
    requires Sleepers(threads, onData) != {} ==> wakee in Sleepers(threads, onData)
    requires t in threads && !threads[t].Sleeping?
    ensures var after := NotifyOne(threads, onData, wakee);
      && t in after && after[t] == threads[t]
      && if Sleepers(threads, onData) == {} then after == threads
         else wakee in threads && threads[wakee].Sleeping? && threads[wakee].op.Pop? == onData && after == Wake(threads, {wakee})
  {
    if Sleepers(threads, onData) == {} {
      assert Wake(threads, {}) == threads;
      assert {wakee} * Sleepers(threads, onData) == {};
    } else {
      assert {wakee} * Sleepers(threads, onData) == {wakee};
    }
  }

  lemma PushKeepsCovered<T>(s: State<T>, t: nat, v: T, wakee: nat)
    requires Covered(s) && Runnable(s, t) && s.threads[t].op == Push(v) && Allowed(s, Run(t, wakee))
    ensures Covered(PushSection(s, t, v, wakee))
  {
    hide Sleepers, WokenPushers, WokenPoppers, Wake, NotifyOne;
    if s.closed || |s.queue| >= s.maxSize {
      var pc := if s.closed then Done(Push(v), false) else Sleeping(Push(v));
      Moved(s.threads, t, pc, true);
      Moved(s.threads, t, pc, false);
      NotBoth(s.threads, t);
    } else {
      PushedKeepsCovered(s, t, v, wakee);
    }
  }

  /** The push that appends its value: it may wake one popper. */
  lemma PushedKeepsCovered<T>(s: State<T>, t: nat, v: T, wakee: nat)
    requires Covered(s) && Runnable(s, t) && s.threads[t].op == Push(v) && !s.closed
    requires Sleepers(s.threads, true) != {} ==> wakee in Sleepers(s.threads, true)
    requires |s.queue| < s.maxSize
    ensures Covered(PushSection(s, t, v, wakee))
  {
    hide Sleepers, WokenPushers, WokenPoppers, Wake, NotifyOne;
    var threads := NotifyOne(s.threads, true, wakee);
    Notified(s.threads, true, wakee, t);
    if Sleepers(s.threads, true) != {} {
      WokenUp(s.threads, wakee, true);
      WokenUp(s.threads, wakee, false);
    }
    NotBoth(threads, t);
    Moved(threads, t, Done(Push(v), true), true);
    Moved(threads, t, Done(Push(v), true), false);
  }

  lemma NotBoth<T>(threads: map<nat, Pc<T>>, t: nat)
    requires t in threads
    ensures threads[t].op.Push? ==> t !in WokenPoppers(threads)
    ensures threads[t].op.Pop? ==> t !in WokenPushers(threads)
  {
  }

  lemma PopKeepsCovered<T>(s: State<T>, t: nat, wakee: nat)
    requires Covered(s) && Closing(s) && Runnable(s, t) && s.threads[t].op == Pop && Allowed(s, Run(t, wakee))
    ensures Covered(PopSection(s, t, wakee))
  {
    hide Sleepers, WokenPushers, WokenPoppers, Wake, NotifyOne;
    if !s.closed {
      var threads, pc := s.threads, PopSection(s, t, wakee).threads[t];
      if pc == Done(Pop, true) {
        Notified(threads, false, wakee, t);
        if Sleepers(threads, false) != {} {
          WokenUp(threads, wakee, true);
          WokenUp(threads, wakee, false);
        }
        threads := NotifyOne(threads, false, wakee);
      }
      Moved(threads, t, pc, true);
      Moved(threads, t, pc, false);
      NotBoth(threads, t);
    }
  }

  lemma CloseKeepsCovered<T>(s: State<T>, t: nat, wait: bool)
    requires Closing(s) && Runnable(s, t) && s.threads[t].op == Close(wait)
    ensures Covered(CloseSection(s, t, wait, s.threads[t].Entering?))
  {
  }

  lemma SpuriousKeepsCovered<T>(s: State<T>, t: nat)
    requires Covered(s) && Asleep(s, t)
    ensures Covered(s.(threads := Wake(s.threads, {t})))
  {
    hide Sleepers, WokenPushers, WokenPoppers, Wake;
    WokenUp(s.threads, t, true);
    WokenUp(s.threads, t, false);
  }

  lemma BeginKeepsCovered<T>(s: State<T>, t: nat, op: Op<T>)
    requires Covered(s) && (t !in s.threads || s.threads[t].Done?)
    ensures Covered(s.(threads := s.threads[t := Entering(op)]))
  {
    hide Sleepers, WokenPushers, WokenPoppers;
    Moved(s.threads, t, Entering(op), true);
    Moved(s.threads, t, Entering(op), false);
    NoneWoken(s.threads, t);
  }

  lemma NoneWoken<T>(threads: map<nat, Pc<T>>, t: nat)
    requires t !in threads || threads[t].Done?
    ensures t !in WokenPushers(threads) && t !in WokenPoppers(threads)
  {
  }

  lemma StepKeepsGood<T>(s: State<T>, step: Step<T>)
    requires Good(s) && Allowed(s, step)
    ensures Good(Next(s, step))
  {
    hide Data, Closing, Covered, PushSection, PopSection, CloseSection, Wake, Sleepers;
    StepKeepsData(s, step);
    StepKeepsClosing(s, step);
    match step {
      case Begin(t, op) => BeginKeepsCovered(s, t, op);
      case Spurious(t) => SpuriousKeepsCovered(s, t);
      case Run(t, wakee) => {
        match s.threads[t].op {
          case Push(v) => PushKeepsCovered(s, t, v, wakee);
          case Pop => PopKeepsCovered(s, t, wakee);
          case Close(wait) => CloseKeepsCovered(s, t, wait);
        }
      }
    }
  }

  // ---------------------------------------------------------------------------------------------
  // Every run

  ghost predicate RunAllowed<T>(s: State<T>, steps: seq<Step<T>>)
    decreases |steps|
  {
    steps == [] || (Allowed(s, steps[0]) && RunAllowed(Next(s, steps[0]), steps[1..]))
  }

  function RunAll<T>(s: State<T>, steps: seq<Step<T>>): State<T>
    requires RunAllowed(s, steps)
    decreases |steps|
  {
    if steps == [] then s else RunAll(Next(s, steps[0]), steps[1..])
  }

  /** Nothing is pushed in a run that starts closed, and the records only grow. */
  lemma {:induction false} RunKeepsGood<T>(s: State<T>, steps: seq<Step<T>>)
    requires Good(s) && RunAllowed(s, steps)
    ensures var s' := RunAll(s, steps);
      && Good(s') && s'.maxSize == s.maxSize && s.popped <= s'.popped
      && (s.closed ==> s'.closed && s'.pushed == s.pushed)
    decreases |steps|
  {
    hide Good, Next, Allowed;
    if steps != [] {
      StepKeepsGood(s, steps[0]);
      GoodData(s, steps[0]);
      RunKeepsGood(Next(s, steps[0]), steps[1..]);
    }
  }

  lemma GoodData<T>(s: State<T>, step: Step<T>)
    requires Good(s) && Allowed(s, step)
    ensures Next(s, step).maxSize == s.maxSize && s.popped <= Next(s, step).popped
    ensures s.closed ==> Next(s, step).closed && Next(s, step).pushed == s.pushed
  {
    StepKeepsData(s, step);
  }

  /** Every interleaving, from an empty queue: bounded, first in first out, and nobody is forgotten. */
  lemma EveryRun<T>(maxSize: nat, steps: seq<Step<T>>)
    requires RunAllowed(Initial(maxSize), steps)
    ensures var s := RunAll(Initial(maxSize), steps);
      && |s.queue| <= maxSize && s.popped <= s.pushed && s.pushed == s.popped + s.queue
      && (forall t :: t in s.threads && s.threads[t] == Done(Close(true), true) ==> s.closed && s.queue == [])
      && Covered(s)
  {
    hide Next, Allowed;
    InitialIsGood<T>(maxSize);
    RunKeepsGood(Initial<T>(maxSize), steps);
  }

  lemma InitialIsGood<T>(maxSize: nat)
    ensures Good(Initial<T>(maxSize))
  {
  }

  /** No call succeeds in pushing after a close. */
  lemma NoPushAfterClose<T>(maxSize: nat, steps: seq<Step<T>>, more: seq<Step<T>>)
    requires RunAllowed(Initial(maxSize), steps) && RunAll(Initial(maxSize), steps).closed
    requires RunAllowed(RunAll(Initial(maxSize), steps), more)
    ensures RunAll(RunAll(Initial(maxSize), steps), more).pushed == RunAll(Initial(maxSize), steps).pushed
  {
    hide Next, Allowed, Good;
    InitialIsGood<T>(maxSize);
    RunKeepsGood(Initial<T>(maxSize), steps);
    RunKeepsGood(RunAll(Initial(maxSize), steps), more);
  }

  // ---------------------------------------------------------------------------------------------
  // What a call returns

  /** The step ends the call of thread `t`. */
  ghost predicate Ends<T>(s: State<T>, step: Step<T>, t: nat)
    requires Allowed(s, step)
  {
    var s' := Next(s, step);
    t in s'.threads && s'.threads[t].Done? && !(t in s.threads && s.threads[t].Done?)
  }

  /** The answers: a push says true if and only if the queue is open, and exactly then its value is appended; a pop says
      true if and only if there is something, and exactly then the first value is taken; it says false only on a queue
      that is closed and drained. */
  lemma CallReturns<T>(s: State<T>, step: Step<T>, t: nat)
    requires Allowed(s, step) && Ends(s, step, t)
    ensures var s' := Next(s, step);
      && t in s.threads && s'.threads[t].op == s.threads[t].op
      && match s'.threads[t]
         case Done(Push(v), ok) =>
           && (ok <==> !s.closed) && (ok <==> s'.pushed == s.pushed + [v]) && (ok ==> |s.queue| < s.maxSize)
           && s'.queue == s.queue + (if ok then [v] else []) && (!ok ==> s'.pushed == s.pushed)
           && s'.popped == s.popped && s'.closed == s.closed
         case Done(Pop, ok) =>
           && (ok <==> s.queue != []) && (ok <==> s.queue != [] && s'.popped == s.popped + [s.queue[0]])
           && (!ok ==> s.closed && s'.popped == s.popped && s'.queue == s.queue)
           && (ok ==> s.queue == [s.queue[0]] + s'.queue) && s'.pushed == s.pushed && s'.closed == s.closed
         case Done(Close(wait), ok) =>
           && ok && s'.closed == (s.closed || s.threads[t].Entering?) && (wait ==> s.queue == [])
           && s'.queue == s.queue && s'.pushed == s.pushed && s'.popped == s.popped
  {
    hide Sleepers;
  }

  /** And nothing is appended or taken but by a call that ends so. */
  lemma RecordsNeedReturns<T>(s: State<T>, step: Step<T>)
    requires Allowed(s, step)
    ensures var s' := Next(s, step);
      && (s'.pushed != s.pushed ==>
            step.Run? && Ends(s, step, step.t) && s'.threads[step.t].op.Push? && s'.threads[step.t].ok)
      && (s'.popped != s.popped ==>
            step.Run? && Ends(s, step, step.t) && s'.threads[step.t].op.Pop? && s'.threads[step.t].ok)
      && (s'.queue != s.queue ==> s'.pushed != s.pushed || s'.popped != s.popped)
  {
    hide Sleepers, Wake, NotifyOne;
  }

  /** The values of the pushes that say true along a run, in the order in which they end. */
  ghost function SaidTrue<T>(s: State<T>, steps: seq<Step<T>>): seq<T>
    requires RunAllowed(s, steps)
    decreases |steps|
  {
    if steps == [] then []
    else
      var s', step := Next(s, steps[0]), steps[0];
      (if step.Run? && Ends(s, step, step.t) && s'.threads[step.t].op.Push? && s'.threads[step.t].ok
       then [s'.threads[step.t].op.value] else [])
      + SaidTrue(s', steps[1..])
  }

  /** The number of pops that say true along a run. */
  ghost function PopsTrue<T>(s: State<T>, steps: seq<Step<T>>): nat
    requires RunAllowed(s, steps)
    decreases |steps|
  {
    if steps == [] then 0
    else
      var s', step := Next(s, steps[0]), steps[0];
      (if step.Run? && Ends(s, step, step.t) && s'.threads[step.t].op.Pop? && s'.threads[step.t].ok then 1 else 0)
      + PopsTrue(s', steps[1..])
  }

  /** Over every run the values pushed are exactly those of the pushes that said true, in that order, and as many are
      taken from their front as pops said true. */
  lemma {:induction false} RunReturns<T>(s: State<T>, steps: seq<Step<T>>)
    requires Data(s) && RunAllowed(s, steps)
    ensures var s' := RunAll(s, steps);
      && s'.pushed == s.pushed + SaidTrue(s, steps) && |s'.popped| == |s.popped| + PopsTrue(s, steps)
      && s'.popped <= s'.pushed && s'.queue == s'.pushed[|s'.popped|..]
    decreases |steps|
  {
    hide Allowed, Next, Ends;
    if steps != [] {
      var step := steps[0];
      StepKeepsData(s, step);
      RecordsNeedReturns(s, step);
      if step.Run? && Ends(s, step, step.t) { CallReturns(s, step, step.t); }
      RunReturns(Next(s, step), steps[1..]);
    }
  }

  /** A push that ends with true was begun and had ended before the queue was closed: once it is closed, no thread gets
      there, and one that begins another call does not get back. */
  lemma {:induction false} PushEndedBefore<T>(s: State<T>, steps: seq<Step<T>>, t: nat, v: T)
    requires s.closed && RunAllowed(s, steps)
    requires var s' := RunAll(s, steps); t in s'.threads && s'.threads[t] == Done(Push(v), true)
    ensures t in s.threads && s.threads[t] == Done(Push(v), true)
    ensures forall i | 0 <= i < |steps| :: !(steps[i].Begin? && steps[i].t == t)
    decreases |steps|
  {
    hide Sleepers;
    if steps != [] {
      var step, s1 := steps[0], Next(s, steps[0]);
      assert s1.closed;
      PushEndedBefore(s1, steps[1..], t, v);
      if Ends(s, step, t) { CallReturns(s, step, t); }
      forall i | 0 <= i < |steps| ensures !(steps[i].Begin? && steps[i].t == t) {
        if i > 0 { assert steps[i] == steps[1..][i - 1]; }
      }
    }
  }

  /** When no thread can run, whoever sleeps has a reason: the pushers a full queue, the poppers an empty
      one, and neither a closed one; the closers something left to drain. */
  lemma NobodySleepsInVain<T>(maxSize: nat, steps: seq<Step<T>>, t: nat)
    requires RunAllowed(Initial(maxSize), steps)
    requires var s := RunAll(Initial(maxSize), steps); Asleep(s, t) && forall u :: !Runnable(s, u)
    ensures var s := RunAll(Initial(maxSize), steps);
      match s.threads[t].op
      case Push(_) => !s.closed && |s.queue| == maxSize
      case Pop => !s.closed && s.queue == []
      case Close(_) => s.closed && s.queue != []
  {
    hide Next, Allowed;
    InitialIsGood<T>(maxSize);
    RunKeepsGood(Initial<T>(maxSize), steps);
    var s := RunAll(Initial<T>(maxSize), steps);
    assert t in Sleepers(s.threads, s.threads[t].op.Pop?);
    forall u ensures u !in WokenPushers(s.threads) && u !in WokenPoppers(s.threads) {
      assert !Runnable(s, u);
    }
    assert WokenPushers(s.threads) == {} && WokenPoppers(s.threads) == {};
  }

  // ---------------------------------------------------------------------------------------------
  // GroupClose

  /** A group of closers: the 64-bit counter, the calls between their test of it and their subtraction, the
      subtractions done so far, and how often the queue was closed. */
  datatype Group = Group(count: nat, between: nat, subtractions: nat, closes: nat)

  /** A call first tests the counter, and goes on to subtract only when it is not zero. */
  datatype GroupStep = Test | Subtract

  predicate GroupAllowed(g: Group, step: GroupStep) {
    step.Subtract? ==> g.between > 0
  }

  function GroupNext(g: Group, step: GroupStep): Group
    requires GroupAllowed(g, step)
  {
    match step
    case Test => if g.count == 0 then g else g.(between := g.between + 1)
    case Subtract =>
      Group(if g.count == 0 then 0xFFFF_FFFF_FFFF_FFFF else g.count - 1, g.between - 1, g.subtractions + 1,
            g.closes + if g.count == 1 then 1 else 0)
  }

  ghost predicate GroupRun(g: Group, steps: seq<GroupStep>)
    decreases |steps|
  {
    steps == [] || (GroupAllowed(g, steps[0]) && GroupRun(GroupNext(g, steps[0]), steps[1..]))
  }

  function GroupAfter(g: Group, steps: seq<GroupStep>): Group
    requires GroupRun(g, steps)
    decreases |steps|
  {
    if steps == [] then g else GroupAfter(GroupNext(g, steps[0]), steps[1..])
  }

  /** The queue is closed by the last of the group and by nobody else, however many calls race: the counter
      would have to go all the way around for a second time. */
  ghost predicate GroupGood(g: Group, size: nat) {
    && (size == 0 ==> g.between == 0 && g.subtractions == 0)
    && (g.subtractions < size + 0x1_0000_0000_0000_0000 ==>
          && g.count == (if g.subtractions <= size then size - g.subtractions
                         else size + 0x1_0000_0000_0000_0000 - g.subtractions)
          && g.closes == (if size > 0 && g.subtractions >= size then 1 else 0))
  }

  lemma {:induction false} GroupStaysGood(g: Group, size: nat, steps: seq<GroupStep>)
    requires size < 0x1_0000_0000_0000_0000 && GroupGood(g, size) && GroupRun(g, steps)
    ensures GroupGood(GroupAfter(g, steps), size)
    decreases |steps|
  {
    if steps != [] {
      GroupStaysGood(GroupNext(g, steps[0]), size, steps[1..]);
    }
  }

  lemma LastOfGroupCloses(size: nat, steps: seq<GroupStep>)
    requires size < 0x1_0000_0000_0000_0000 && GroupRun(Group(size, 0, 0, 0), steps)
    ensures var g := GroupAfter(Group(size, 0, 0, 0), steps);
      g.subtractions < size + 0x1_0000_0000_0000_0000 ==> g.closes == if size > 0 && g.subtractions >= size then 1 else 0
  {
    GroupStaysGood(Group(size, 0, 0, 0), size, steps);
  }
}
