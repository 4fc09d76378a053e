/** The timer queue in the form of the source: an object whose methods update its sets in place. */
module TimerQueues {
  import opened TimerModel
  import opened TimerProofs
  import opened TimerTheorems

  ghost function Elements(s: seq<Entry>): set<Entry> {
    set e | e in s
  }

  // A set has one enumeration in strict order.
  lemma {:induction false} SortedUnique(s: seq<Entry>, t: seq<Entry>)
    requires StrictlySorted(s) && StrictlySorted(t) && Elements(s) == Elements(t)
    ensures s == t
  {
    if s == [] {
      NonEmpty(t);
    } else {
      assert s[0] in Elements(t);
      assert t[0] in Elements(s);
      assert s[0] == t[0];
      forall e ensures e in Elements(s[1..]) <==> e in Elements(t[1..]) {
        TailElements(s, e);
        TailElements(t, e);
      }
      SortedUnique(s[1..], t[1..]);
      assert s == [s[0]] + s[1..] && t == [t[0]] + t[1..];
    }
  }

  // Cutting an ordered sequence at a lower bound
  lemma CutAt(s: seq<Entry>, k: nat, key: Entry, x: set<Entry>)
    requires StrictlySorted(s) && k <= |s|
    requires forall i :: 0 <= i < |s| ==> (i < k <==> Before(s[i], key))
    requires x == set e | e in Elements(s) && Before(e, key)
    ensures s[..k] == InOrder(x)
    ensures StrictlySorted(s[k..]) && Elements(s[k..]) == Elements(s) - x
  {
    assert s == s[..k] + s[k..];
    assert Elements(s[..k]) == x;
    assert forall e :: e in InOrder(x) <==> e in x;
    SortedUnique(s[..k], InOrder(x));
    forall e | e in Elements(s[k..]) ensures e !in x {
      var i :| 0 <= i < |s[k..]| && s[k..][i] == e;
      assert s[k + i] == e;
    }
  }

  lemma NonEmpty(s: seq<Entry>)
    ensures s != [] ==> Elements(s) != {}
  {
    if s != [] {
      assert s[0] in Elements(s);
    }
  }

  lemma TailElements(s: seq<Entry>, e: Entry)
    requires StrictlySorted(s) && s != []
    ensures e in Elements(s[1..]) <==> e in Elements(s) && e != s[0]
  {
    assert s == [s[0]] + s[1..];
  }

  lemma AllDeletable(q: Queue, s: seq<Entry>)
    requires Inv(q) && StrictlySorted(s) && Elements(s) == q.timers
    ensures s == InOrder(q.timers) && Deletable(q, s)
  {
    assert forall e :: e in InOrder(q.timers) <==> e in q.timers;
    SortedUnique(s, InOrder(q.timers));
    BatchAddresses(q.timers);
  }

  lemma {:induction false} RunAppend(q: Queue, a: seq<Step>, b: seq<Step>)
    requires ValidRun(q, a)
    ensures ValidRun(q, a + b) <==> ValidRun(Run(q, a), b)
    ensures ValidRun(q, a + b) ==> Run(q, a + b) == Run(Run(q, a), b)
    decreases |a|
  {
    if a == [] {
      assert a + b == b;
    } else {
      assert (a + b)[0] == a[0] && (a + b)[1..] == a[1..] + b;
      RunAppend(Next(q, a[0]), a[1..], b);
    }
  }

  // What callbacks and other threads may do between two callbacks.
  predicate External(s: Step) {
    !s.Begin? && !s.RunCallback? && !s.End?
  }

  // The steps of the callback loop: `script[i]` is what the i-th callback does.
  function CallbackSteps(script: seq<seq<Step>>): seq<Step> {
    if script == [] then [] else [RunCallback] + (script[0] + CallbackSteps(script[1..]))
  }

  function HandleReadSteps(script: seq<seq<Step>>): seq<Step> {
    [Begin] + CallbackSteps(script) + [End]
  }

  lemma Unfold(q: Queue, script: seq<seq<Step>>)
    requires ValidRun(q, HandleReadSteps(script))
    ensures Enabled(q, Begin) && ValidRun(BeginRead(q), CallbackSteps(script))
    ensures var m := Run(BeginRead(q), CallbackSteps(script));
      Enabled(m, End) && Run(q, HandleReadSteps(script)) == EndRead(m)
  {
    var all := HandleReadSteps(script);
    assert all[0] == Begin && all[1..] == CallbackSteps(script) + [End];
    RunPrefix(BeginRead(q), CallbackSteps(script), [End]);
    RunAppend(BeginRead(q), CallbackSteps(script), [End]);
    assert ValidRun(Run(BeginRead(q), CallbackSteps(script)), [End]);
    assert [End][0] == End && [End][1..] == [];
  }

  lemma {:induction false} RunPrefix(q: Queue, a: seq<Step>, b: seq<Step>)
    requires ValidRun(q, a + b)
    ensures ValidRun(q, a)
    decreases |a|
  {
    if a != [] {
      assert (a + b)[0] == a[0] && (a + b)[1..] == a[1..] + b;
      RunPrefix(Next(q, a[0]), a[1..], b);
    }
  }

  // The first callback of the script, and the rest
  lemma FirstCallback(m: Queue, script: seq<seq<Step>>)
    requires script != [] && ValidRun(m, CallbackSteps(script))
    ensures Enabled(m, RunCallback) && ValidRun(RunNext(m), script[0])
    ensures var r := Run(RunNext(m), script[0]);
      && ValidRun(r, CallbackSteps(script[1..]))
      && Run(m, CallbackSteps(script)) == Run(r, CallbackSteps(script[1..]))
  {
    var all, rest := CallbackSteps(script), CallbackSteps(script[1..]);
    assert all[0] == RunCallback && all[1..] == script[0] + rest;
    RunPrefix(RunNext(m), script[0], rest);
    RunAppend(RunNext(m), script[0], rest);
  }

  // getExpired takes no error branch.
  lemma BeginMeans(q: Queue)
    requires Indexed(q.heap, q.timers, q.active)
    ensures var x := Expired(q, q.clock);
      BeginRead(q) == q.(fd := if q.fd.Readable? then Disarmed else q.fd,
                         timers := q.timers - x,
                         active := q.active - set e | e in x :: Id(e.timer, q.heap[e.timer].sequence),
                         canceling := {},
                         phase := Calling(InOrder(x), 0, q.clock))
  {
    var x := Expired(q, q.clock);
    assert (set e | e in x && e.timer in q.heap :: IdOf(q, e.timer)) ==
           set e | e in x :: Id(e.timer, q.heap[e.timer].sequence);
  }

  lemma {:induction false} KeepPhase(q: Queue, steps: seq<Step>)
    requires Inv(q) && ValidRun(q, steps) && forall s :: s in steps ==> External(s)
    ensures Run(q, steps).phase == q.phase
    decreases |steps|
  {
    if steps != [] {
      var s := steps[0];
      InvStep(q, s);
      assert External(s);
      if s.Add? { AddMeans(q, s.a); }
      assert Next(q, s).phase == q.phase;
      assert forall t :: t in steps[1..] ==> t in steps;
      KeepPhase(Next(q, s), steps[1..]);
    }
  }

  class TimerQueue {
    var heap: map<nat, Timer>   // the timers behind the pointers
    var created: nat
    var timers: seq<Entry>      // std::set<Entry>, in order
    var active: set<Id>
    var canceling: set<Id>
    var callingExpired: bool
    var fd: TimerFd
    var clock: int              // what Timestamp::now() returns
    ghost var freed: seq<nat>
    ghost var adding: set<nat>
    ghost var phase: Phase
    ghost var ran: seq<Id>

    ghost function Abs(): Queue
      reads this
    {
      Queue(heap, created, freed, adding, Elements(timers), active, canceling, phase, fd, clock, ran, false)
    }

    ghost predicate Valid()
      reads this
    {
      StrictlySorted(timers) && (callingExpired <==> phase.Calling?) && Inv(Abs())
    }

    constructor (now: int)
      requires TimerModel.Valid(now)
      ensures Valid() && Initial(Abs())
    {
      heap, created, timers, active, canceling := map[], 0, [], {}, {};
      callingExpired, fd, clock := false, Disarmed, now;
      freed, adding, phase, ran := [], {}, Quiet, [];
      new;
      InitialInv(Abs());
    }

    // timers_.lower_bound(key)
    method LowerBound(key: Entry) returns (k: nat)
      requires StrictlySorted(timers)
      ensures k <= |timers|
      ensures forall i :: 0 <= i < |timers| ==> (i < k <==> Before(timers[i], key))
    {
      k := 0;
      while k < |timers| && Before(timers[k], key)
        invariant k <= |timers|
        invariant forall i :: 0 <= i < k ==> Before(timers[i], key)
      {
        k := k + 1;
      }
    }

    // timers_.insert and timers_.erase
    method InsertEntry(e: Entry) returns (inserted: bool)
      requires StrictlySorted(timers)
      modifies this`timers
      ensures StrictlySorted(timers)
      ensures inserted <==> e !in old(timers)
      ensures Elements(timers) == Elements(old(timers)) + {e}
    {
      var k := LowerBound(e);
      inserted := !(k < |timers| && timers[k] == e);
      if inserted {
        assert timers == timers[..k] + timers[k..];
        timers := timers[..k] + [e] + timers[k..];
      }
    }

    method EraseEntry(e: Entry) returns (n: nat)
      requires StrictlySorted(timers)
      modifies this`timers
      ensures StrictlySorted(timers)
      ensures n == if e in old(timers) then 1 else 0
      ensures Elements(timers) == Elements(old(timers)) - {e}
    {
      var k := LowerBound(e);
      n := 0;
      if k < |timers| && timers[k] == e {
        n := 1;
        assert timers == timers[..k] + [e] + timers[k + 1..];
        timers := timers[..k] + timers[k + 1..];
      }
    }

    // TimerQueue::insert.  Both insertions succeed: the assertions are its error branches.
    method Insert(a: nat) returns (earliestChanged: bool)
      requires StrictlySorted(timers) && a in heap
      requires Indexed(heap, Elements(timers), active) && Id(a, heap[a].sequence) !in active
      modifies this`timers, this`active
      ensures StrictlySorted(timers)
      ensures earliestChanged <==> EarliestChanged(old(Abs()), a)
      ensures Abs() == TimerModel.Insert(old(Abs()), a)
    {
      ghost var q := Abs();
      InsertSucceeds(q, a);
      SameSize(heap, Elements(timers), active);
      FirstOf(timers);
      var when := heap[a].expiration;
      earliestChanged := |timers| == 0 || when < timers[0].when;
      var inserted := InsertEntry(Entry(when, a));
      assert inserted;
      var id := Id(a, heap[a].sequence);
      assert id !in active;
      active := active + {id};
    }

    lemma FirstOf(s: seq<Entry>)
      requires StrictlySorted(s)
      ensures s == [] <==> Elements(s) == {}
      ensures s != [] ==> First(Elements(s)) == s[0]
    {
      if s != [] {
        assert s[0] in Elements(s);
        assert IsFirst(s[0], Elements(s));
      }
    }

    // resetTimerfd
    method ResetTimerfd(when: int)
      modifies this`fd
      ensures Abs() == Arm(old(Abs()), when)
      ensures fd == Armed(if when < clock + 100 then clock + 100 else when, clock)
    {
      var delay := when - clock;
      if delay < MIN_DELAY {
        delay := MIN_DELAY;
      }
      fd := Armed(clock + delay, clock);
    }

    method AddTimerInLoop(a: nat)
      requires Valid() && Enabled(Abs(), Add(a))
      modifies this
      ensures Valid() && Abs() == AddInLoop(old(Abs()), a)
    {
      InvStep(Abs(), Add(a));
      AddEntry(a);
    }

    // The body of addTimerInLoop, for a timer that is in neither set
    method AddEntry(a: nat)
      requires StrictlySorted(timers) && a in heap
      requires Indexed(heap, Elements(timers), active) && Id(a, heap[a].sequence) !in active
      modifies this`adding, this`timers, this`active, this`fd
      ensures StrictlySorted(timers)
      ensures Abs() == AddInLoop(old(Abs()), a)
    {
      adding := adding - {a};
      ghost var m := Abs();
      var earliestChanged := Insert(a);
      if earliestChanged {
        ResetTimerfd(heap[a].expiration);
      }
    }

    // delete timer
    method Delete(a: nat)
      requires a in heap
      modifies this`heap, this`freed
      ensures Abs() == Free(old(Abs()), a)
    {
      freed := freed + [heap[a].sequence];
      heap := heap - {a};
    }

    method CancelInLoop(id: Id)
      requires Valid()
      modifies this
      ensures Valid() && Abs() == TimerModel.CancelInLoop(old(Abs()), id)
    {
      InvStep(Abs(), Cancel(id));
      if id.timer == 0 {
        return;
      }
      if id in active {
        var n := EraseEntry(Entry(heap[id.timer].expiration, id.timer));
        assert n == 1;
        active := active - {id};
        Delete(id.timer);
      } else if callingExpired {
        canceling := canceling + {id};
      }
    }
  
    // ~TimerQueue: delete every timer in timers_.
    method Destruct()
      requires Valid() && phase.Quiet?
      modifies this`heap, this`freed
      ensures Abs() == Destructed(old(Abs()))
    {
      ghost var q := Abs();
      AllDeletable(q, timers);
      for i := 0 to |timers|
        invariant FreeAll(Abs(), timers[i..]) == FreeAll(q, timers) && Deletable(Abs(), timers[i..])
      {
        assert timers[i..][0] == timers[i] && timers[i..][1..] == timers[i + 1..];
        FreeOne(Abs(), timers[i..]);
        InBatch(timers[i..], 0);
        Delete(timers[i].timer);
      }
    }

    // TimerQueue::getExpired
    method GetExpired(now: int) returns (expired: seq<Entry>)
      requires StrictlySorted(timers) && Indexed(heap, Elements(timers), active)
      modifies this`timers, this`active
      ensures StrictlySorted(timers)
      ensures expired == InOrder(Expired(old(Abs()), now))
      ensures Elements(timers) == Elements(old(timers)) - Expired(old(Abs()), now)
      ensures active == old(active) - set e | e in Expired(old(Abs()), now) :: Id(e.timer, heap[e.timer].sequence)
    {
      expired := [];
      if now <= 0 {
        return;
      }
      ghost var was := timers;
      ghost var x := Expired(Abs(), now);
      var end := LowerBound(Entry(now, UINTPTR_MAX));
      CutAt(was, end, Entry(now, UINTPTR_MAX), x);
      expired := timers[..end];
      timers := timers[end..];
      EraseActive(expired, was);
    }

    // activeTimers_.erase for the whole batch; each erasure finds its timer.
    method EraseActive(expired: seq<Entry>, ghost was: seq<Entry>)
      requires Indexed(heap, Elements(was), active) && StrictlySorted(expired) && expired <= was
      modifies this`active
      ensures active == old(active) - set e | e in expired :: Id(e.timer, heap[e.timer].sequence)
    {
      var i := 0;
      while i < |expired|
        invariant 0 <= i <= |expired|
        invariant active == old(active) - set e | e in expired[..i] :: Id(e.timer, heap[e.timer].sequence)
      {
        var e := expired[i];
        assert e in Elements(was);
        assert e !in expired[..i];
        assert expired[..i + 1] == expired[..i] + [e];
        var id := Id(e.timer, heap[e.timer].sequence);
        assert id in active by {   // n == 1
          forall f | f in expired[..i] ensures f.timer != e.timer {
            assert f in Elements(was);
          }
        }
        active := active - {id};
        i := i + 1;
      }
      assert expired[..i] == expired;
    }
  
    // One iteration of the loop in TimerQueue::reset
    method ResetEntry(e: Entry, now: int)
      requires StrictlySorted(timers) && Indexed(heap, Elements(timers), active)
      requires e.timer in heap && Id(e.timer, heap[e.timer].sequence) !in active
      modifies this`heap, this`freed, this`timers, this`active
      ensures StrictlySorted(timers)
      ensures Abs() == ResetOne(old(Abs()), e, now)
    {
      var a := e.timer;
      if heap[a].repeat && Id(a, heap[a].sequence) !in canceling {
        heap := heap[a := Restarted(heap[a], now)];
        assert Indexed(heap, Elements(timers), active);
        var _ := Insert(a);
      } else {
        Delete(a);
      }
    }

    // TimerQueue::reset
    method Reset(expired: seq<Entry>, now: int)
      requires StrictlySorted(timers) && Distinct(expired) && Sound(Abs(), Addresses(expired)) && phase.Quiet?
      modifies this`heap, this`freed, this`timers, this`active, this`fd
      ensures StrictlySorted(timers)
      ensures Abs() ==
        if TimerModel.Valid(now) then Rearm(ResetUpTo(old(Abs()), expired, now, |expired|)) else old(Abs())
    {
      if now <= 0 {
        return;
      }
      ghost var q := Abs();
      var i := 0;
      while i < |expired|
        invariant 0 <= i <= |expired| && StrictlySorted(timers)
        invariant Abs() == ResetUpTo(q, expired, now, i)
      {
        ResetSound(q, expired, now, i);
        AddressSplit(expired, i);
        ResetEntry(expired[i], now);
        i := i + 1;
      }
      ResetSound(q, expired, now, |expired|);
      RearmTimerfd();
    }

    // The end of TimerQueue::reset
    method RearmTimerfd()
      requires StrictlySorted(timers) && Indexed(heap, Elements(timers), active)
      modifies this`fd
      ensures Abs() == Rearm(old(Abs()))
    {
      FirstOf(timers);
      if |timers| != 0 {
        assert timers[0] in Elements(timers);
        var next := heap[timers[0].timer].expiration;
        if next > 0 {
          ResetTimerfd(next);
        }
      }
    }

    // A step of a callback, of another thread or of the kernel
    method Perform(s: Step)
      requires Valid() && External(s) && Enabled(Abs(), s)
      modifies this
      ensures Valid() && Abs() == Next(old(Abs()), s)
    {
      match s {
        case Add(a) => AddTimerInLoop(a);
        case Cancel(id) => CancelInLoop(id);
        case NewTimer(_, _, _, _) => InvStep(Abs(), s); Happen(s);
        case Tick(_) => InvStep(Abs(), s); Happen(s);
        case Fire => InvStep(Abs(), s); Happen(s);
      }
    }

    method Happen(s: Step)
      requires (s.NewTimer? || s.Tick? || s.Fire?) && Enabled(Abs(), s)
      modifies this`heap, this`created, this`adding, this`clock, this`fd
      ensures Abs() == Next(old(Abs()), s)
      ensures s.NewTimer? ==> heap == old(heap)[s.a := Timer(s.when, s.delta, s.repeat, old(created))] && s.a in adding
      ensures s.Tick? ==> clock == s.t
    {
      match s {
        case NewTimer(a, when, delta, repeat) =>
          heap := heap[a := Timer(when, delta, repeat, created)];
          created, adding := created + 1, adding + {a};
        case Tick(t) => clock := t;
        case Fire => fd := Readable;
      }
    }

    method PerformAll(steps: seq<Step>)
      requires Valid() && ValidRun(Abs(), steps) && forall s :: s in steps ==> External(s)
      modifies this
      ensures Valid() && Abs() == Run(old(Abs()), steps)
    {
      ghost var q := Abs();
      var i := 0;
      while i < |steps|
        invariant 0 <= i <= |steps| && Valid()
        invariant ValidRun(Abs(), steps[i..]) && Run(Abs(), steps[i..]) == Run(q, steps)
      {
        assert steps[i..][0] == steps[i] && steps[i..][1..] == steps[i + 1..];
        Perform(steps[i]);
        i := i + 1;
      }
    }

    // readTimerfd and the preparation of the batch
    method BeginBatch() returns (expired: seq<Entry>)
      requires Valid() && phase.Quiet?
      modifies this
      ensures Valid() && Abs() == BeginRead(old(Abs())) && expired == phase.batch
    {
      InvStep(Abs(), Begin);
      expired := TakeBatch();
    }

    method TakeBatch() returns (expired: seq<Entry>)
      requires StrictlySorted(timers) && Indexed(heap, Elements(timers), active)
      modifies this
      ensures StrictlySorted(timers) && callingExpired
      ensures Abs() == BeginRead(old(Abs())) && expired == phase.batch
    {
      BeginMeans(Abs());
      if fd.Readable? {
        fd := Disarmed;
      }
      expired := GetExpired(clock);
      callingExpired, canceling := true, {};
      phase := Calling(expired, 0, clock);
    }

    // it.second->run()
    method RunTimer()
      requires Valid() && Enabled(Abs(), RunCallback)
      modifies this`ran, this`phase
      ensures Valid() && Abs() == RunNext(old(Abs()))
    {
      ghost var q := Abs();
      InvStep(q, RunCallback);
      ghost var a := phase.batch[phase.next].timer;
      InBatch(phase.batch, phase.next);
      ran := ran + [IdOf(q, a)];
      phase := phase.(next := phase.next + 1);
    }

    method EndBatch(expired: seq<Entry>, now: int)
      requires Valid() && Enabled(Abs(), End) && expired == phase.batch && now == phase.now
      modifies this
      ensures Valid() && Abs() == EndRead(old(Abs()))
    {
      InvStep(Abs(), End);
      callingExpired := false;
      phase := Quiet;
      Reset(expired, now);
    }

    // TimerQueue::handleRead.  `script[i]` is what happens while the i-th callback runs, which may
    // add and cancel timers; the method is exactly one run of the step machine.
    method HandleRead(script: seq<seq<Step>>)
      requires Valid() && ValidRun(Abs(), HandleReadSteps(script))
      requires |script| == |BeginRead(Abs()).phase.batch|
      requires forall i, s :: 0 <= i < |script| && s in script[i] ==> External(s)
      modifies this
      ensures Valid() && Abs() == Run(old(Abs()), HandleReadSteps(script))
    {
      ghost var q := Abs();
      Unfold(q, script);
      var now := clock;
      var expired := BeginBatch();
      RunBatch(expired, script);
      EndBatch(expired, now);
    }

    // The callback loop
    method RunBatch(expired: seq<Entry>, script: seq<seq<Step>>)
      requires Valid() && phase.Calling? && phase.batch == expired && phase.next == 0
      requires ValidRun(Abs(), CallbackSteps(script)) && |script| == |expired|
      requires forall i, s :: 0 <= i < |script| && s in script[i] ==> External(s)
      modifies this
      ensures Valid() && Abs() == Run(old(Abs()), CallbackSteps(script))
      ensures phase == old(phase).(next := |expired|)
    {
      ghost var b := Abs();
      ghost var end := Run(b, CallbackSteps(script));
      assert script[0..] == script;
      var i := 0;
      while i < |expired|
        invariant 0 <= i <= |expired| && Valid() && phase == b.phase.(next := i)
        invariant ValidRun(Abs(), CallbackSteps(script[i..])) && Run(Abs(), CallbackSteps(script[i..])) == end
      {
        assert script[i..][0] == script[i] && script[i..][1..] == script[i + 1..];
        RunOne(script[i], script[i..]);
        i := i + 1;
      }
    }

    // One callback and what it does; `script` starts with it.
    method RunOne(steps: seq<Step>, ghost script: seq<seq<Step>>)
      requires Valid() && script != [] && script[0] == steps && ValidRun(Abs(), CallbackSteps(script))
      requires forall s :: s in steps ==> External(s)
      modifies this
      ensures Valid() && old(phase).Calling? && phase == old(phase).(next := old(phase).next + 1)
      ensures ValidRun(Abs(), CallbackSteps(script[1..]))
      ensures Run(Abs(), CallbackSteps(script[1..])) == Run(old(Abs()), CallbackSteps(script))
    {
      FirstCallback(Abs(), script);
      RunTimer();
      KeepPhase(Abs(), steps);
      PerformAll(steps);
    }
  }
}
