/**
 The poller's bookkeeping: a channel's event mask and index, the descriptor table, and the interest
 set kept by the kernel, which refuses an EPOLL_CTL_ADD of a present descriptor and an
 EPOLL_CTL_MOD or EPOLL_CTL_DEL of an absent one.
 */
module PollerModel {
  type Mask = bv32

  const NONE_EVENT: Mask := 0
  const READ_EVENT: Mask := 3    // EPOLLIN | EPOLLPRI
  const WRITE_EVENT: Mask := 4   // EPOLLOUT

  const NEW := -1
  const ADDED := 1
  const DELETED := 2

  datatype Channel = Channel(fd: int, events: Mask, index: int)

  // An epoll_event as the kernel keeps it
  datatype Entry<Id> = Entry(mask: Mask, data: Id)

  datatype Poller<Id(==)> = Poller(
    channels: map<Id, Channel>,   // every channel of the loop, registered or not
    table: map<int, Id>,          // channels_
    kernel: map<int, Entry<Id>>,
    refused: nat)                 // failed epoll_ctl calls

  datatype Operation = Add | Mod | Del

  // EpollPoller::update
  function EpollCtl<Id>(p: Poller<Id>, op: Operation, c: Id): Poller<Id>
    requires c in p.channels
  {
    var fd := p.channels[c].fd;
    if op == Add <==> fd in p.kernel then p.(refused := p.refused + 1)
    else if op == Del then p.(kernel := p.kernel - {fd})
    else p.(kernel := p.kernel[fd := Entry(p.channels[c].events, c)])
  }

  function SetIndex<Id>(p: Poller<Id>, c: Id, index: int): Poller<Id>
    requires c in p.channels
  {
    p.(channels := p.channels[c := p.channels[c].(index := index)])
  }

  function UpdateChannel<Id>(p: Poller<Id>, c: Id): Poller<Id>
    requires c in p.channels
  {
    var ch := p.channels[c];
    if ch.index == NEW || ch.index == DELETED then
      var q := if ch.index == NEW then p.(table := p.table[ch.fd := c]) else p;
      EpollCtl(SetIndex(q, c, ADDED), Add, c)
    else if ch.events == NONE_EVENT then SetIndex(EpollCtl(p, Del, c), c, DELETED)
    else EpollCtl(p, Mod, c)
  }

  function RemoveChannel<Id>(p: Poller<Id>, c: Id): Poller<Id>
    requires c in p.channels
  {
    var q := p.(table := p.table - {p.channels[c].fd});
    SetIndex(if p.channels[c].index == ADDED then EpollCtl(q, Del, c) else q, c, NEW)
  }

  datatype Call<Id> =
    | EnableReading(c: Id) | DisableReading(c: Id)
    | EnableWriting(c: Id) | DisableWriting(c: Id)
    | DisableAll(c: Id) | Remove(c: Id)

  function Masked<Id>(m: Mask, call: Call<Id>): Mask {
    match call
    case EnableReading(_) => m | READ_EVENT
    case DisableReading(_) => m & !READ_EVENT
    case EnableWriting(_) => m | WRITE_EVENT
    case DisableWriting(_) => m & !WRITE_EVENT
    case DisableAll(_) => NONE_EVENT
    case Remove(_) => m
  }

  function SetEvents<Id>(p: Poller<Id>, c: Id, events: Mask): Poller<Id>
    requires c in p.channels
  {
    p.(channels := p.channels[c := p.channels[c].(events := events)])
  }

  // A call of a Channel method, through EventLoop to the poller
  function Perform<Id>(p: Poller<Id>, call: Call<Id>): Poller<Id>
    requires call.c in p.channels
  {
    if call.Remove? then RemoveChannel(p, call.c)
    else UpdateChannel(SetEvents(p, call.c, Masked(p.channels[call.c].events, call)), call.c)
  }

  predicate HasChannel<Id(==)>(p: Poller<Id>, c: Id)
    requires c in p.channels
  {
    p.channels[c].fd in p.table && p.table[p.channels[c].fd] == c
  }

  // Only the channel itself is changed, and its descriptor never.
  lemma UpdateChannels<Id>(p: Poller<Id>, c: Id)
    requires c in p.channels
    ensures var q := UpdateChannel(p, c);
      c in q.channels && q.channels == p.channels[c := p.channels[c].(index := q.channels[c].index)]
  {
  }

  lemma RemoveChannels<Id>(p: Poller<Id>, c: Id)
    requires c in p.channels
    ensures RemoveChannel(p, c).channels == p.channels[c := p.channels[c].(index := NEW)]
  {
    var q := p.(table := p.table - {p.channels[c].fd});
    assert EpollCtl(q, Del, c).channels == p.channels;
  }

  lemma PerformChannels<Id>(p: Poller<Id>, call: Call<Id>)
    requires call.c in p.channels
    ensures var q := Perform(p, call);
      && call.c in q.channels
      && q.channels[call.c].fd == p.channels[call.c].fd
      && q.channels[call.c].events == Masked(p.channels[call.c].events, call)
      && q.channels == p.channels[call.c := q.channels[call.c]]
  {
    if call.Remove? {
      RemoveChannels(p, call.c);
    } else {
      UpdateChannels(SetEvents(p, call.c, Masked(p.channels[call.c].events, call)), call.c);
    }
  }

  // Channels come and go: an address, like a descriptor, may be used again after it was given back.  A channel
  // is removed from the poller before it is destroyed.
  datatype Step<Id> = Calls(call: Call<Id>) | Create(c: Id, fd: int) | Discard(c: Id)

  predicate Enabled<Id>(p: Poller<Id>, s: Step<Id>) {
    match s
    case Calls(call) => call.c in p.channels
    case Create(c, _) => c !in p.channels
    case Discard(c) => c in p.channels && p.channels[c].index == NEW
  }

  function Next<Id>(p: Poller<Id>, s: Step<Id>): Poller<Id>
    requires Enabled(p, s)
  {
    match s
    case Calls(call) => Perform(p, call)
    case Create(c, fd) => p.(channels := p.channels[c := Channel(fd, NONE_EVENT, NEW)])
    case Discard(c) => p.(channels := p.channels - {c})
  }

  predicate ValidRun<Id>(p: Poller<Id>, steps: seq<Step<Id>>)
    decreases |steps|
  {
    steps == [] || (Enabled(p, steps[0]) && ValidRun(Next(p, steps[0]), steps[1..]))
  }

  function Run<Id>(p: Poller<Id>, steps: seq<Step<Id>>): Poller<Id>
    requires ValidRun(p, steps)
    decreases |steps|
  {
    if steps == [] then p else Run(Next(p, steps[0]), steps[1..])
  }

  // A new channel gets a descriptor that no channel of the loop has at that moment.
  ghost predicate Apart<Id>(p: Poller<Id>, s: Step<Id>) {
    s.Create? ==> forall d :: d in p.channels ==> p.channels[d].fd != s.fd
  }

  ghost predicate StaysApart<Id>(p: Poller<Id>, steps: seq<Step<Id>>)
    requires ValidRun(p, steps)
    decreases |steps|
  {
    steps == [] || (Apart(p, steps[0]) && StaysApart(Next(p, steps[0]), steps[1..]))
  }

  // Nothing registered: every channel as its constructor leaves it
  ghost predicate Fresh<Id>(p: Poller<Id>) {
    && p.table == map[] && p.kernel == map[] && p.refused == 0
    && forall c :: c in p.channels ==> p.channels[c].events == NONE_EVENT && p.channels[c].index == NEW
  }
}
