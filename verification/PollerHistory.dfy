/** What the mask operations do to the bits, and what the kernel watches after any run. */
module PollerHistory {
  import opened PollerModel
  import opened PollerTheorems

  lemma SetReading(m: Mask)
    ensures (m | 3) & 3 == 3 && (m | 3) & 4 == m & 4
  {
  }

  lemma ClearReading(m: Mask)
    ensures (m & !3) & 3 == 0 && (m & !3) & 4 == m & 4
  {
  }

  lemma SetWriting(m: Mask)
    ensures (m | 4) & 4 == 4 && (m | 4) & 3 == m & 3
  {
  }

  lemma ClearWriting(m: Mask)
    ensures (m & !4) & 4 == 0 && (m & !4) & 3 == m & 3
  {
  }

  // EPOLLIN and EPOLLPRI are 1 and 2, EPOLLOUT is 4: each call sets or clears its own bits and keeps the others.
  predicate Effect<Id>(m: Mask, call: Call<Id>, r: Mask) {
    match call
    case EnableReading(_) => r & 3 == 3 && r & 4 == m & 4
    case DisableReading(_) => r & 3 == 0 && r & 4 == m & 4
    case EnableWriting(_) => r & 4 == 4 && r & 3 == m & 3
    case DisableWriting(_) => r & 4 == 0 && r & 3 == m & 3
    case DisableAll(_) => r == 0
    case Remove(_) => r == m
  }

  lemma MaskBits<Id>(m: Mask, call: Call<Id>)
    ensures Effect(m, call, Masked(m, call))
  {
    match call {
      case EnableReading(_) => SetReading(m);
      case DisableReading(_) => ClearReading(m);
      case EnableWriting(_) => SetWriting(m);
      case DisableWriting(_) => ClearWriting(m);
      case DisableAll(_) =>
      case Remove(_) =>
    }
  }

  // The last of the channel's steps that concern writing enables it.
  predicate Writes<Id(==)>(c: Id, steps: seq<Step<Id>>) {
    steps != [] &&
    match steps[|steps| - 1]
    case Calls(EnableWriting(d)) => d == c || Writes(c, steps[..|steps| - 1])
    case Calls(DisableWriting(d)) => d != c && Writes(c, steps[..|steps| - 1])
    case Calls(DisableAll(d)) => d != c && Writes(c, steps[..|steps| - 1])
    case Create(d, _) => d != c && Writes(c, steps[..|steps| - 1])
    case _ => Writes(c, steps[..|steps| - 1])
  }

  predicate Reads<Id(==)>(c: Id, steps: seq<Step<Id>>) {
    steps != [] &&
    match steps[|steps| - 1]
    case Calls(EnableReading(d)) => d == c || Reads(c, steps[..|steps| - 1])
    case Calls(DisableReading(d)) => d != c && Reads(c, steps[..|steps| - 1])
    case Calls(DisableAll(d)) => d != c && Reads(c, steps[..|steps| - 1])
    case Create(d, _) => d != c && Reads(c, steps[..|steps| - 1])
    case _ => Reads(c, steps[..|steps| - 1])
  }

  function Bits(input: bool, output: bool): Mask {
    if input then if output then 7 else 3 else if output then 4 else 0
  }

  lemma MaskedBits<Id>(input: bool, output: bool, c: Id)
    ensures Masked(Bits(input, output), EnableReading(c)) == Bits(true, output)
    ensures Masked(Bits(input, output), DisableReading(c)) == Bits(false, output)
    ensures Masked(Bits(input, output), EnableWriting(c)) == Bits(input, true)
    ensures Masked(Bits(input, output), DisableWriting(c)) == Bits(input, false)
    ensures Masked(Bits(input, output), DisableAll(c)) == Bits(false, false)
  {
  }

  lemma {:induction false} WantedBits<Id>(c: Id, steps: seq<Step<Id>>)
    ensures Wanted(c, steps) == Bits(Reads(c, steps), Writes(c, steps))
    decreases |steps|
  {
    if steps != [] {
      var init := steps[..|steps| - 1];
      WantedBits(c, init);
      MaskedBits(Reads(c, init), Writes(c, init), c);
    }
  }

  // A channel is registered exactly if it made a call after it was created or last removed.
  predicate Joined<Id(==)>(c: Id, steps: seq<Step<Id>>) {
    steps != [] &&
    match steps[|steps| - 1]
    case Calls(call) => if call.c == c then !call.Remove? else Joined(c, steps[..|steps| - 1])
    case Create(d, _) => d != c && Joined(c, steps[..|steps| - 1])
    case Discard(_) => Joined(c, steps[..|steps| - 1])
  }

  lemma {:induction false} RegisteredIffJoined<Id>(p: Poller<Id>, steps: seq<Step<Id>>, c: Id)
    requires Fresh(p) && ValidRun(p, steps) && c in Run(p, steps).channels
    ensures Run(p, steps).channels[c].index != NEW <==> Joined(c, steps)
    decreases |steps|
  {
    if steps != [] {
      var init, last := steps[..|steps| - 1], steps[|steps| - 1];
      assert steps == init + [last];
      RunSnoc(p, init, last);
      var m := Run(p, init);
      if last.Calls? {
        PerformChannels(m, last.call);
        PerformIndex(m, last.call);
      }
      if c in m.channels {
        RegisteredIffJoined(p, init, c);
      }
    }
  }

  lemma PerformIndex<Id>(p: Poller<Id>, call: Call<Id>)
    requires call.c in p.channels
    ensures call.c in Perform(p, call).channels
    ensures Perform(p, call).channels[call.c].index == NEW <==> call.Remove?
  {
    if call.Remove? {
      RemoveChannels(p, call.c);
    } else {
      var q := SetEvents(p, call.c, Masked(p.channels[call.c].events, call));
      UpdateChannels(q, call.c);
      UpdateIndex(q, call.c);
    }
  }

  lemma UpdateIndex<Id>(p: Poller<Id>, c: Id)
    requires c in p.channels
    ensures c in UpdateChannel(p, c).channels && UpdateChannel(p, c).channels[c].index != NEW
  {
  }

  // A channel exists from its creation until it is destroyed.
  predicate Exists<Id(==)>(p: Poller<Id>, c: Id, steps: seq<Step<Id>>) {
    if steps == [] then c in p.channels
    else
      match steps[|steps| - 1]
      case Create(d, _) => d == c || Exists(p, c, steps[..|steps| - 1])
      case Discard(d) => d != c && Exists(p, c, steps[..|steps| - 1])
      case Calls(_) => Exists(p, c, steps[..|steps| - 1])
  }

  lemma {:induction false} ExistsIff<Id>(p: Poller<Id>, steps: seq<Step<Id>>, c: Id)
    requires ValidRun(p, steps)
    ensures c in Run(p, steps).channels <==> Exists(p, c, steps)
    decreases |steps|
  {
    if steps != [] {
      var init, last := steps[..|steps| - 1], steps[|steps| - 1];
      assert steps == init + [last];
      RunSnoc(p, init, last);
      var m := Run(p, init);
      if last.Calls? {
        PerformChannels(m, last.call);
      }
      ExistsIff(p, init, c);
    }
  }

  // The descriptor of a channel is the one it was created with.
  function FdOf<Id(==)>(p: Poller<Id>, c: Id, steps: seq<Step<Id>>): int {
    if steps == [] then if c in p.channels then p.channels[c].fd else -1
    else
      var last := steps[|steps| - 1];
      if last.Create? && last.c == c then last.fd else FdOf(p, c, steps[..|steps| - 1])
  }

  lemma {:induction false} FdIsGiven<Id>(p: Poller<Id>, steps: seq<Step<Id>>, c: Id)
    requires ValidRun(p, steps) && c in Run(p, steps).channels
    ensures Run(p, steps).channels[c].fd == FdOf(p, c, steps)
    decreases |steps|
  {
    if steps != [] {
      var init, last := steps[..|steps| - 1], steps[|steps| - 1];
      assert steps == init + [last];
      RunSnoc(p, init, last);
      var m := Run(p, init);
      if last.Calls? {
        PerformChannels(m, last.call);
      }
      if c in m.channels {
        FdIsGiven(p, init, c);
      }
    }
  }

  // In every run the kernel watches a channel, by its steps alone: for input exactly if the last step that
  // concerns reading enables it, for output exactly if the last that concerns writing does, for nothing else,
  // and for nothing at all before its first call and after its removal.
  lemma KernelWatches<Id>(p: Poller<Id>, steps: seq<Step<Id>>, c: Id)
    requires Fresh(p) && DistinctFds(p.channels) && ValidRun(p, steps) && StaysApart(p, steps)
    requires Exists(p, c, steps)
    ensures var w := Watched(Run(p, steps), FdOf(p, c, steps));
      if Joined(c, steps) then
        && (w & 4 == 4 <==> Writes(c, steps)) && (w & 3 == 3 <==> Reads(c, steps))
        && w == (if Reads(c, steps) then 3 else 0) | if Writes(c, steps) then 4 else 0
      else w == 0
  {
    ExistsIff(p, steps, c);
    KernelWatchesWhatIsWanted(p, steps, c);
    WantedBits(c, steps);
    RegisteredIffJoined(p, steps, c);
    FdIsGiven(p, steps, c);
    FreshAgrees(p);
    AgreementRun(p, steps);
    assert Agrees(Run(p, steps), c);
  }
}
