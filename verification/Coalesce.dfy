/**
 * Coalescing watcher events: repeats on one path are merged for a moment, and nothing is
 * lost on the way but those repeats.
 */
module Coalesce {
  import opened Wrappers
  import opened Model
  import opened Handler

  const SLOT_LIMIT := 8

  datatype Slot = Slot(evs: seq<Event>, since: Ts)

  /** `order` is the order in which paths came, `urgent` the events without a path, `merged` a counter. */
  datatype Buffer = Buffer(limit: nat, period: int, slots: map<FileLoc, Slot>, order: seq<FileLoc>,
                           urgent: seq<Event>, merged: nat)

  /** The path an event is about; a rename is about its target. */
  function LocOf(ev: Event): Option<FileLoc> {
    match ev
    case NeedsRescan(_) => None
    case Renamed(_, to) => Some(to)
    case RenamedDir(_, to) => Some(to)
    case _ => Some(ev.loc)
  }

  predicate IsWeak(ev: Event) { ev.Modified? }

  /** It names a second path, or writes to a whole subtree. */
  predicate CarriesOwn(ev: Event) { ev.Renamed? || ev.RenamedDir? || ev.RemovedDir? }

  predicate SameKind(a: Event, b: Event) {
    || (a.Closed? && b.Closed?) || (a.Modified? && b.Modified?) || (a.Renamed? && b.Renamed?)
    || (a.MovedIn? && b.MovedIn?) || (a.Removed? && b.Removed?) || (a.RemovedUnknown? && b.RemovedUnknown?)
    || (a.RemovedDir? && b.RemovedDir?) || (a.RenamedDir? && b.RenamedDir?)
    || (a.CreatedDir? && b.CreatedDir?) || (a.NeedsRescan? && b.NeedsRescan?)
  }

  predicate MayReplace(last: Event, ev: Event) {
    IsWeak(last) || (SameKind(last, ev) && !CarriesOwn(last))
  }

  datatype Way = Ignore | Replace | Append

  function WayFor(evs: seq<Event>, ev: Event): Way {
    if evs == [] then Append
    else
      var last := evs[|evs| - 1];
      if IsWeak(ev) && !IsWeak(last) then Ignore
      else if MayReplace(last, ev) || |evs| >= SLOT_LIMIT then Replace
      else Append
  }

  function Merge(evs: seq<Event>, ev: Event): seq<Event> {
    match WayFor(evs, ev)
    case Ignore => evs
    case Replace => evs[..|evs| - 1] + [ev]
    case Append => evs + [ev]
  }

  predicate IsFull(b: Buffer) { b.urgent != [] || |b.slots| >= b.limit }

  function Offer(b: Buffer, ev: Event, now: Ts): Buffer {
    match LocOf(ev)
    case None => b.(urgent := b.urgent + [ev])
    case Some(l) =>
      if l in b.slots then
        b.(slots := b.slots[l := b.slots[l].(evs := Merge(b.slots[l].evs, ev))],
           merged := if WayFor(b.slots[l].evs, ev).Append? then b.merged else b.merged + 1)
      else b.(slots := b.slots[l := Slot([ev], now)], order := b.order + [l])
  }

  predicate IsDue(b: Buffer, l: FileLoc, now: Ts) {
    l in b.slots && Clamp(now - b.slots[l].since) >= b.period
  }

  /** Events of the due paths, in order. */
  function DueEvents(b: Buffer, now: Ts, order: seq<FileLoc>): seq<Event> {
    if order == [] then []
    else (if IsDue(b, order[0], now) then b.slots[order[0]].evs else []) + DueEvents(b, now, order[1..])
  }

  function NotDue(b: Buffer, now: Ts, order: seq<FileLoc>): seq<FileLoc> {
    if order == [] then []
    else (if order[0] in b.slots && !IsDue(b, order[0], now) then [order[0]] else []) + NotDue(b, now, order[1..])
  }

  function TakeDue(b: Buffer, now: Ts): (Buffer, seq<Event>) {
    (b.(urgent := [], order := NotDue(b, now, b.order),
        slots := map l | l in b.slots && !(l in b.order && IsDue(b, l, now)) :: b.slots[l]),
     b.urgent + DueEvents(b, now, b.order))
  }

  function AllEvents(b: Buffer, order: seq<FileLoc>): seq<Event> {
    if order == [] then []
    else (if order[0] in b.slots then b.slots[order[0]].evs else []) + AllEvents(b, order[1..])
  }

  function TakeAll(b: Buffer): (Buffer, seq<Event>) {
    (b.(urgent := [], order := [], slots := map[]), b.urgent + AllEvents(b, b.order))
  }

  // ---------------------------------------------------------------- well-formed buffers

  ghost predicate Distinct(s: seq<FileLoc>) {
    forall i, j :: 0 <= i < j < |s| ==> s[i] != s[j]
  }

  ghost predicate SlotOk(l: FileLoc, s: Slot) {
    && 1 <= |s.evs| <= SLOT_LIMIT
    && forall i :: 0 <= i < |s.evs| ==> LocOf(s.evs[i]) == Some(l)
  }

  ghost predicate BufferOk(b: Buffer) {
    && Distinct(b.order) && (forall l :: l in b.order <==> l in b.slots)
    && (forall l :: l in b.slots ==> SlotOk(l, b.slots[l]))
    && (forall i :: 0 <= i < |b.urgent| ==> LocOf(b.urgent[i]) == None)
  }

  lemma {:induction false} NotDueFacts(b: Buffer, now: Ts, order: seq<FileLoc>)
    ensures forall l :: l in NotDue(b, now, order) <==> l in order && l in b.slots && !IsDue(b, l, now)
    ensures Distinct(order) ==> Distinct(NotDue(b, now, order))
  {
    if order != [] {
      NotDueFacts(b, now, order[1..]);
      var rest := NotDue(b, now, order[1..]);
      if Distinct(order) {
        forall i | 0 <= i < |rest| ensures rest[i] != order[0] { assert rest[i] in rest; }
      }
    }
  }

  datatype Input = Comes(ev: Event, at: Ts) | Tick(at: Ts) | Stop

  function Feed(b: Buffer, i: Input): (Buffer, seq<Event>) {
    match i
    case Comes(ev, now) => (Offer(b, ev, now), [])
    case Tick(now) => TakeDue(b, now)
    case Stop => TakeAll(b)
  }

  lemma FeedOk(b: Buffer, i: Input)
    requires BufferOk(b)
    ensures BufferOk(Feed(b, i).0)
  {
    match i
    case Comes(ev, now) =>
    case Tick(now) => NotDueFacts(b, now, b.order);
    case Stop =>
  }

  // ---------------------------------------------------------------- nothing is lost uncounted

  ghost function HeldAt(slots: map<FileLoc, Slot>, order: seq<FileLoc>): nat {
    if order == [] then 0
    else (if order[0] in slots then |slots[order[0]].evs| else 0) + HeldAt(slots, order[1..])
  }

  ghost function Held(b: Buffer): nat { |b.urgent| + HeldAt(b.slots, b.order) }

  /** The sum changes by what one slot changes. */
  lemma {:induction false} HeldOneSlot(slots: map<FileLoc, Slot>, order: seq<FileLoc>, l: FileLoc, s: Slot)
    requires Distinct(order) && l in slots
    ensures HeldAt(slots[l := s], order) ==
      if l in order then HeldAt(slots, order) - |slots[l].evs| + |s.evs| else HeldAt(slots, order)
    ensures l in order ==> HeldAt(slots, order) >= |slots[l].evs|
  {
    if order != [] { HeldOneSlot(slots, order[1..], l, s); }
  }

  lemma {:induction false} HeldNewSlot(slots: map<FileLoc, Slot>, order: seq<FileLoc>, l: FileLoc, s: Slot)
    requires l !in order && l !in slots
    ensures HeldAt(slots[l := s], order + [l]) == HeldAt(slots, order) + |s.evs|
  {
    if order == [] {
      assert [] + [l] == [l] && [l][1..] == [];
    } else {
      assert (order + [l])[1..] == order[1..] + [l];
      HeldNewSlot(slots, order[1..], l, s);
    }
  }

  lemma {:induction false} HeldSplits(b: Buffer, now: Ts, order: seq<FileLoc>, after: map<FileLoc, Slot>)
    requires Distinct(order) && forall l :: l in order ==> l in b.slots
    requires forall l :: l in order && !IsDue(b, l, now) ==> l in after && after[l] == b.slots[l]
    ensures |DueEvents(b, now, order)| + HeldAt(after, NotDue(b, now, order)) == HeldAt(b.slots, order)
  {
    if order != [] {
      HeldSplits(b, now, order[1..], after);
      if !IsDue(b, order[0], now) { assert NotDue(b, now, order)[1..] == NotDue(b, now, order[1..]); }
      else { assert NotDue(b, now, order) == NotDue(b, now, order[1..]); }
    }
  }

  lemma {:induction false} HeldAll(b: Buffer, order: seq<FileLoc>)
    ensures |AllEvents(b, order)| == HeldAt(b.slots, order)
  {
    if order != [] { HeldAll(b, order[1..]); }
  }

  lemma FeedCounts(b: Buffer, i: Input)
    requires BufferOk(b)
    ensures var (after, out) := Feed(b, i);
      |out| + after.merged + Held(after) == b.merged + Held(b) + if i.Comes? then 1 else 0
  {
    match i
    case Comes(ev, now) =>
      var l := LocOf(ev);
      if l.Some? && l.value in b.slots {
        var s := b.slots[l.value];
        HeldOneSlot(b.slots, b.order, l.value, s.(evs := Merge(s.evs, ev)));
      } else if l.Some? {
        HeldNewSlot(b.slots, b.order, l.value, Slot([ev], now));
      }
    case Tick(now) => HeldSplits(b, now, b.order, TakeDue(b, now).0.slots);
    case Stop => HeldAll(b, b.order);
  }

  function Run(b: Buffer, ins: seq<Input>): (Buffer, seq<Event>)
    decreases |ins|
  {
    if ins == [] then (b, [])
    else
      var (next, out) := Feed(b, ins[0]);
      var (end, more) := Run(next, ins[1..]);
      (end, out + more)
  }

  /** The events that came in. */
  function Received(ins: seq<Input>): seq<Event> {
    if ins == [] then [] else (if ins[0].Comes? then [ins[0].ev] else []) + Received(ins[1..])
  }

  /** In every run, every event received was emitted, was counted as merged, or is still held. */
  lemma {:induction false} EventsConserved(b: Buffer, ins: seq<Input>)
    requires BufferOk(b)
    ensures var (end, out) := Run(b, ins);
      && BufferOk(end)
      && |out| + end.merged + Held(end) == b.merged + Held(b) + |Received(ins)|
    decreases |ins|
  {
    if ins != [] {
      FeedOk(b, ins[0]);
      FeedCounts(b, ins[0]);
      EventsConserved(Feed(b, ins[0]).0, ins[1..]);
    }
  }

  // ---------------------------------------------------------------- order is kept on each path

  /** The events of a sequence that are about `l`. */
  function About(evs: seq<Event>, l: FileLoc): seq<Event> {
    if evs == [] then [] else (if LocOf(evs[0]) == Some(l) then [evs[0]] else []) + About(evs[1..], l)
  }

  lemma {:induction false} AboutConcat(a: seq<Event>, b: seq<Event>, l: FileLoc)
    ensures About(a + b, l) == About(a, l) + About(b, l)
  {
    if a == [] { assert a + b == b; }
    else { assert (a + b)[1..] == a[1..] + b; AboutConcat(a[1..], b, l); }
  }

  lemma {:induction false} AboutAll(a: seq<Event>, l: FileLoc)
    requires forall i :: 0 <= i < |a| ==> LocOf(a[i]) == Some(l)
    ensures About(a, l) == a
  {
    if a != [] { AboutAll(a[1..], l); }
  }

  lemma {:induction false} AboutNone(a: seq<Event>, l: FileLoc)
    requires forall i :: 0 <= i < |a| ==> LocOf(a[i]) != Some(l)
    ensures About(a, l) == []
  {
    if a != [] { AboutNone(a[1..], l); }
  }

  /** The elements of `a` are found in `b`, in order, at the positions `at`. */
  ghost predicate FoundAt(a: seq<Event>, b: seq<Event>, at: seq<nat>) {
    && |at| == |a|
    && (forall i, j :: 0 <= i < j < |at| ==> at[i] < at[j])
    && (forall i :: 0 <= i < |at| ==> at[i] < |b| && a[i] == b[at[i]])
  }

  ghost predicate Subsequence(a: seq<Event>, b: seq<Event>) {
    exists at: seq<nat> :: FoundAt(a, b, at)
  }

  lemma SubsequenceExtend(a: seq<Event>, b: seq<Event>, e: Event)
    requires Subsequence(a, b)
    ensures Subsequence(a, b + [e]) && Subsequence(a + [e], b + [e])
  {
    var at: seq<nat> :| FoundAt(a, b, at);
    assert FoundAt(a, b + [e], at);
    assert FoundAt(a + [e], b + [e], at + [|b|]);
  }

  lemma SubsequenceDropLast(a: seq<Event>, b: seq<Event>)
    requires Subsequence(a, b) && a != []
    ensures Subsequence(a[..|a| - 1], b)
  {
    var at: seq<nat> :| FoundAt(a, b, at);
    assert FoundAt(a[..|a| - 1], b, at[..|a| - 1]);
  }

  ghost function HeldAbout(b: Buffer, l: FileLoc): seq<Event> {
    if l in b.slots then b.slots[l].evs else []
  }

  /** The events of one slot, taken or not, that are about `l`. */
  lemma SlotAbout(x: FileLoc, s: Slot, taken: bool, l: FileLoc)
    requires SlotOk(x, s)
    ensures About(if taken then s.evs else [], l) == if taken && x == l then s.evs else []
  {
    if taken {
      if x == l { AboutAll(s.evs, l); } else { AboutNone(s.evs, l); }
    }
  }

  lemma DistinctHead(order: seq<FileLoc>, l: FileLoc)
    requires order != [] && Distinct(order)
    ensures Distinct(order[1..]) && (l in order <==> l == order[0] || l in order[1..])
    ensures l == order[0] ==> l !in order[1..]
  {
  }

  lemma {:induction false} DueAbout(b: Buffer, now: Ts, order: seq<FileLoc>, l: FileLoc)
    requires Distinct(order) && forall x :: x in b.slots ==> SlotOk(x, b.slots[x])
    ensures About(DueEvents(b, now, order), l) == if l in order && IsDue(b, l, now) then b.slots[l].evs else []
    decreases |order|
  {
    if order != [] {
      var x, taken := order[0], IsDue(b, order[0], now);
      DistinctHead(order, l);
      DueAbout(b, now, order[1..], l);
      AboutConcat(if taken then b.slots[x].evs else [], DueEvents(b, now, order[1..]), l);
      if x in b.slots { SlotAbout(x, b.slots[x], taken, l); }
    }
  }

  lemma {:induction false} AllAbout(b: Buffer, order: seq<FileLoc>, l: FileLoc)
    requires Distinct(order) && forall x :: x in b.slots ==> SlotOk(x, b.slots[x])
    ensures About(AllEvents(b, order), l) == if l in order && l in b.slots then b.slots[l].evs else []
    decreases |order|
  {
    if order != [] {
      var x := order[0];
      DistinctHead(order, l);
      AllAbout(b, order[1..], l);
      AboutConcat(if x in b.slots then b.slots[x].evs else [], AllEvents(b, order[1..]), l);
      if x in b.slots { SlotAbout(x, b.slots[x], true, l); }
    }
  }

  lemma TickEmitsHeld(b: Buffer, now: Ts, l: FileLoc)
    requires BufferOk(b)
    ensures About(TakeDue(b, now).1, l) == if IsDue(b, l, now) then HeldAbout(b, l) else []
    ensures HeldAbout(TakeDue(b, now).0, l) == if IsDue(b, l, now) then [] else HeldAbout(b, l)
  {
    AboutNone(b.urgent, l);
    AboutConcat(b.urgent, DueEvents(b, now, b.order), l);
    DueAbout(b, now, b.order, l);
  }

  lemma StopEmitsHeld(b: Buffer, l: FileLoc)
    requires BufferOk(b)
    ensures About(TakeAll(b).1, l) == HeldAbout(b, l)
  {
    AboutNone(b.urgent, l);
    AboutConcat(b.urgent, AllEvents(b, b.order), l);
    AllAbout(b, b.order, l);
  }

  /** What a tick or a stop emits about a path is what was held about it. */
  lemma EmitsHeld(b: Buffer, i: Input, l: FileLoc)
    requires BufferOk(b) && !i.Comes?
    ensures About(Feed(b, i).1, l) + HeldAbout(Feed(b, i).0, l) == HeldAbout(b, l)
  {
    if i.Tick? { TickEmitsHeld(b, i.at, l); } else { StopEmitsHeld(b, l); }
  }

  /** Taking in an event keeps the held events of its path a subsequence of what came. */
  lemma OfferKeepsOrder(b: Buffer, ev: Event, now: Ts, l: FileLoc, done: seq<Event>, came: seq<Event>)
    requires BufferOk(b) && LocOf(ev) == Some(l) && Subsequence(done + HeldAbout(b, l), came)
    ensures Subsequence(done + HeldAbout(Offer(b, ev, now), l), came + [ev])
  {
    var held := HeldAbout(b, l);
    var all := done + held;
    SubsequenceExtend(all, came, ev);
    if held == [] {
      assert done + [ev] == all + [ev];
    } else {
      match WayFor(held, ev)
      case Ignore =>
      case Append => assert done + (held + [ev]) == all + [ev];
      case Replace =>
        SubsequenceDropLast(all, came);
        SubsequenceExtend(all[..|all| - 1], came, ev);
        assert done + (held[..|held| - 1] + [ev]) == all[..|all| - 1] + [ev];
    }
  }

  /** What one input contributes to the events about `l`. */
  ghost function CameAbout(i: Input, l: FileLoc): seq<Event> {
    if i.Comes? && LocOf(i.ev) == Some(l) then [i.ev] else []
  }

  lemma ReceivedHead(ins: seq<Input>, l: FileLoc)
    requires ins != []
    ensures About(Received(ins), l) == CameAbout(ins[0], l) + About(Received(ins[1..]), l)
  {
    var head := if ins[0].Comes? then [ins[0].ev] else [];
    AboutConcat(head, Received(ins[1..]), l);
    if ins[0].Comes? { assert [ins[0].ev][1..] == []; }
  }

  /** One input: what was emitted and is held about a path stays a subsequence of what came. */
  lemma FeedKeepsOrder(b: Buffer, i: Input, l: FileLoc, done: seq<Event>, came: seq<Event>)
    requires BufferOk(b) && Subsequence(done + HeldAbout(b, l), came)
    ensures Subsequence((done + About(Feed(b, i).1, l)) + HeldAbout(Feed(b, i).0, l), came + CameAbout(i, l))
  {
    assert done + [] == done && came + [] == came;
    if !i.Comes? {
      EmitsHeld(b, i, l);
      assert (done + About(Feed(b, i).1, l)) + HeldAbout(Feed(b, i).0, l) == done + HeldAbout(b, l);
    } else if LocOf(i.ev) == Some(l) {
      OfferKeepsOrder(b, i.ev, i.at, l, done, came);
    }
  }

  lemma Regroup(done: seq<Event>, out: seq<Event>, more: seq<Event>, held: seq<Event>,
                came: seq<Event>, first: seq<Event>, rest: seq<Event>)
    requires Subsequence(((done + out) + more) + held, (came + first) + rest)
    ensures Subsequence((done + (out + more)) + held, came + (first + rest))
  {
    assert (done + out) + more == done + (out + more);
    assert (came + first) + rest == came + (first + rest);
  }

  /** On every path, what comes out is an in-order subsequence of what went in. */
  lemma {:induction false} OrderKept(b: Buffer, ins: seq<Input>, l: FileLoc, done: seq<Event>, came: seq<Event>)
    requires BufferOk(b) && Subsequence(done + HeldAbout(b, l), came)
    ensures var (end, out) := Run(b, ins);
      Subsequence((done + About(out, l)) + HeldAbout(end, l), came + About(Received(ins), l))
    decreases |ins|
  {
    if ins == [] {
      assert done + [] == done && came + [] == came;
    } else {
      var (next, out) := Feed(b, ins[0]);
      var (end, more) := Run(next, ins[1..]);
      assert Run(b, ins) == (end, out + more);
      FeedOk(b, ins[0]);
      FeedKeepsOrder(b, ins[0], l, done, came);
      OrderKept(next, ins[1..], l, done + About(out, l), came + CameAbout(ins[0], l));
      AboutConcat(out, more, l);
      ReceivedHead(ins, l);
      Regroup(done, About(out, l), About(more, l), HeldAbout(Run(b, ins).0, l),
              came, CameAbout(ins[0], l), About(Received(ins[1..]), l));
    }
  }

  const NEW_SLOTS: map<FileLoc, Slot> := map[]

  function Fresh(limit: nat, period: int): Buffer { Buffer(limit, period, NEW_SLOTS, [], [], 0) }

  /** From an empty buffer: for each path, the output is a subsequence of the input. */
  lemma OutputIsSubsequence(limit: nat, period: int, ins: seq<Input>, l: FileLoc)
    ensures var (end, out) := Run(Fresh(limit, period), ins);
      Subsequence(About(out, l) + HeldAbout(end, l), About(Received(ins), l))
  {
    var at: seq<nat> := [];
    assert FoundAt([] + HeldAbout(Fresh(limit, period), l), [], at);
    OrderKept(Fresh(limit, period), ins, l, [], []);
    var (end, out) := Run(Fresh(limit, period), ins);
    assert [] + About(out, l) == About(out, l);
    assert [] + About(Received(ins), l) == About(Received(ins), l);
  }

  // ---------------------------------------------------------------- what may be dropped, and when a slot leaves

  /** Only a request to rescan is about no path; a rename is about its target, any other event about its own. */
  lemma PathsOfEvents(ev: Event, from: FileLoc, l: FileLoc)
    ensures LocOf(ev).None? <==> ev.NeedsRescan?
    ensures LocOf(Renamed(from, l)) == LocOf(RenamedDir(from, l)) == Some(l)
    ensures forall x :: x in {Closed(l), Modified(l), MovedIn(l), Removed(l), RemovedUnknown(l)} ==> LocOf(x) == Some(l)
    ensures LocOf(RemovedDir(l)) == LocOf(CreatedDir(l)) == Some(l)
  {
  }

  /**
   * Until eight events are held about a path, none of them is lost but a mere write, and that only if it is the last;
   * a full slot loses no more than the last one. The newcomer itself is dropped only if it is a mere write.
   */
  lemma DroppedOnlyWhenFull(b: Buffer, ev: Event, now: Ts, l: FileLoc)
    requires BufferOk(b) && l in b.slots
    ensures var was, after := b.slots[l].evs, HeldAbout(Offer(b, ev, now), l);
      && |after| >= |was| && was[..|was| - 1] <= after
      && (|was| < 8 && !was[|was| - 1].Modified? ==> was <= after)
      && (LocOf(ev) == Some(l) && !ev.Modified? ==> after[|after| - 1] == ev)
  {
    var was := b.slots[l].evs;
    assert SlotOk(l, b.slots[l]) && LocOf(was[|was| - 1]) == Some(l);
  }

  /** An input that does not flush a path first seen at `since`: an event, or a tick within its period. */
  predicate Spares(i: Input, since: Ts, period: int) {
    i.Comes? || (i.Tick? && Clamp(i.at - since) < period)
  }

  lemma SparedKeepsSlot(b: Buffer, i: Input, l: FileLoc)
    requires BufferOk(b) && l in b.slots && Spares(i, b.slots[l].since, b.period)
    ensures var (after, out) := Feed(b, i);
      l in after.slots && after.slots[l].since == b.slots[l].since && after.period == b.period && About(out, l) == []
  {
    if i.Tick? { TickEmitsHeld(b, i.at, l); }
  }

  /** Whatever comes, as long as no tick is due for it, a path is held with its time and nothing about it comes out. */
  lemma {:induction false} HeldUntilDue(b: Buffer, ins: seq<Input>, l: FileLoc)
    requires BufferOk(b) && l in b.slots
    requires forall k :: 0 <= k < |ins| ==> Spares(ins[k], b.slots[l].since, b.period)
    ensures var (end, out) := Run(b, ins);
      && BufferOk(end) && l in end.slots && end.slots[l].since == b.slots[l].since && end.period == b.period
      && About(out, l) == []
    decreases |ins|
  {
    if ins != [] {
      var (next, out) := Feed(b, ins[0]);
      FeedOk(b, ins[0]);
      SparedKeepsSlot(b, ins[0], l);
      HeldUntilDue(next, ins[1..], l);
      AboutConcat(out, Run(next, ins[1..]).1, l);
    }
  }

  lemma NewcomerIsHeld(b: Buffer, ev: Event, now: Ts, l: FileLoc)
    requires BufferOk(b) && LocOf(ev) == Some(l) && l !in b.slots
    ensures var next := Offer(b, ev, now);
      BufferOk(next) && l in next.slots && next.slots[l].since == now && next.period == b.period
  {
    FeedOk(b, Comes(ev, now));
  }

  lemma DueLeaves(b: Buffer, at: Ts, l: FileLoc)
    requires BufferOk(b) && IsDue(b, l, at)
    ensures About(TakeDue(b, at).1, l) == b.slots[l].evs != [] && l !in TakeDue(b, at).0.slots
  {
    TickEmitsHeld(b, at, l);
    assert SlotOk(l, b.slots[l]);
  }

  /**
   * From the first event of a path on, over any run without a stop: until the first tick one period later nothing
   * about the path comes out, and that tick emits exactly what is held about it and drops the slot.
   */
  lemma LeavesOnTime(b: Buffer, ev: Event, now: Ts, ins: seq<Input>, at: Ts, l: FileLoc)
    requires BufferOk(b) && LocOf(ev) == Some(l) && l !in b.slots
    requires forall k :: 0 <= k < |ins| ==> Spares(ins[k], now, b.period)
    requires Clamp(at - now) >= b.period
    ensures var (mid, early) := Run(Offer(b, ev, now), ins);
      && About(early, l) == [] && l in mid.slots
      && About(TakeDue(mid, at).1, l) == mid.slots[l].evs != [] && l !in TakeDue(mid, at).0.slots
  {
    NewcomerIsHeld(b, ev, now, l);
    var next := Offer(b, ev, now);
    HeldUntilDue(next, ins, l);
    DueLeaves(Run(next, ins).0, at, l);
  }

  // ---------------------------------------------------------------- repeats become one

  /** What a burst of writes and closes on one path comes to: one close if there was any, else one write. */
  ghost function Distilled(l: FileLoc, closed: bool): seq<Event> { if closed then [Closed(l)] else [Modified(l)] }

  lemma RepeatMerges(b: Buffer, ev: Event, now: Ts, l: FileLoc, closed: bool)
    requires l in b.slots && b.slots[l].evs == Distilled(l, closed) && (ev == Closed(l) || ev == Modified(l))
    ensures var after := Offer(b, ev, now);
      l in after.slots && after.slots[l].evs == Distilled(l, closed || ev.Closed?)
      && after.order == b.order && after.merged == b.merged + 1
  {
  }

  lemma SparedIsSame(b: Buffer, i: Input, l: FileLoc)
    requires BufferOk(b) && l in b.slots && Spares(i, b.slots[l].since, b.period)
    requires i.Comes? ==> LocOf(i.ev) != Some(l)
    ensures var after := Feed(b, i).0; l in after.slots && after.slots[l] == b.slots[l]
  {
    if i.Tick? { TickEmitsHeld(b, i.at, l); }
  }

  /** Everything that comes about `l` is a write or a close. */
  ghost predicate OnlyWrites(ins: seq<Input>, l: FileLoc) {
    forall k :: 0 <= k < |ins| && ins[k].Comes? && LocOf(ins[k].ev) == Some(l) ==>
      ins[k].ev == Closed(l) || ins[k].ev == Modified(l)
  }

  ghost predicate AnyClose(ins: seq<Input>, l: FileLoc) {
    exists k :: 0 <= k < |ins| && ins[k].Comes? && ins[k].ev == Closed(l)
  }

  lemma AnyCloseHead(ins: seq<Input>, l: FileLoc)
    requires ins != []
    ensures AnyClose(ins, l) <==> (ins[0].Comes? && ins[0].ev == Closed(l)) || AnyClose(ins[1..], l)
  {
    if AnyClose(ins[1..], l) {
      var k :| 0 <= k < |ins[1..]| && ins[1..][k].Comes? && ins[1..][k].ev == Closed(l);
      assert ins[k + 1].Comes? && ins[k + 1].ev == Closed(l);
    }
  }

  /**
   * However many writes and closes come about a path between its first event and its due tick, and whatever comes
   * about other paths: one event is held for them, the close if there was one.
   */
  lemma {:induction false} BurstBecomesOne(b: Buffer, ins: seq<Input>, l: FileLoc, closed: bool)
    requires BufferOk(b) && l in b.slots && b.slots[l].evs == Distilled(l, closed) && OnlyWrites(ins, l)
    requires forall k :: 0 <= k < |ins| ==> Spares(ins[k], b.slots[l].since, b.period)
    ensures var end := Run(b, ins).0;
      l in end.slots && end.slots[l].evs == Distilled(l, closed || AnyClose(ins, l))
    decreases |ins|
  {
    if ins != [] {
      var next := Feed(b, ins[0]).0;
      FeedOk(b, ins[0]);
      SparedKeepsSlot(b, ins[0], l);
      AnyCloseHead(ins, l);
      if ins[0].Comes? && LocOf(ins[0].ev) == Some(l) {
        RepeatMerges(b, ins[0].ev, ins[0].at, l, closed);
        BurstBecomesOne(next, ins[1..], l, closed || ins[0].ev.Closed?);
      } else {
        SparedIsSame(b, ins[0], l);
        BurstBecomesOne(next, ins[1..], l, closed);
      }
    }
  }

  lemma {:induction false} DueSplits(b: Buffer, now: Ts, first: seq<FileLoc>, rest: seq<FileLoc>)
    ensures DueEvents(b, now, first + rest) == DueEvents(b, now, first) + DueEvents(b, now, rest)
    decreases |first|
  {
    if first == [] {
      assert [] + rest == rest;
    } else {
      assert (first + rest)[1..] == first[1..] + rest;
      DueSplits(b, now, first[1..], rest);
    }
  }

  lemma DueOfPath(b: Buffer, now: Ts, l: FileLoc, rest: seq<FileLoc>)
    requires IsDue(b, l, now)
    ensures DueEvents(b, now, [l] + rest) == b.slots[l].evs + DueEvents(b, now, rest)
  {
    assert ([l] + rest)[1..] == rest;
  }

  /** First `x`, later `y`. */
  ghost predicate OneAfterTheOther(x: seq<Event>, y: seq<Event>, out: seq<Event>) {
    exists before, between, after :: out == before + x + between + y + after
  }

  lemma TwoOfOrder(s: seq<FileLoc>, i: nat, j: nat)
    requires i < j < |s|
    ensures s == s[..i] + ([s[i]] + (s[i + 1..j] + ([s[j]] + s[j + 1..])))
  {
  }

  lemma FiveParts(a: seq<Event>, b: seq<Event>, c: seq<Event>, d: seq<Event>, e: seq<Event>, f: seq<Event>)
    ensures a + (b + (c + (d + (e + f)))) == (a + b) + c + d + e + f
  {
  }

  /** Of two due paths the one that came first leaves first. */
  lemma PathsLeaveInOrder(b: Buffer, now: Ts, i: nat, j: nat)
    requires i < j < |b.order| && IsDue(b, b.order[i], now) && IsDue(b, b.order[j], now)
    ensures OneAfterTheOther(b.slots[b.order[i]].evs, b.slots[b.order[j]].evs, TakeDue(b, now).1)
  {
    var l, m := b.order[i], b.order[j];
    var p, q, r := b.order[..i], b.order[i + 1..j], b.order[j + 1..];
    TwoOfOrder(b.order, i, j);
    DueSplits(b, now, p, [l] + (q + ([m] + r)));
    DueOfPath(b, now, l, q + ([m] + r));
    DueSplits(b, now, q, [m] + r);
    DueOfPath(b, now, m, r);
    FiveParts(b.urgent, DueEvents(b, now, p), b.slots[l].evs, DueEvents(b, now, q), b.slots[m].evs,
              DueEvents(b, now, r));
    assert TakeDue(b, now).1 == (b.urgent + DueEvents(b, now, p)) + b.slots[l].evs + DueEvents(b, now, q)
                                + b.slots[m].evs + DueEvents(b, now, r);
  }

  /** A path that is new comes after the others, and its event waits from now on. */
  lemma NewcomerGoesLast(b: Buffer, ev: Event, now: Ts, l: FileLoc)
    requires LocOf(ev) == Some(l) && l !in b.slots
    ensures var after := Offer(b, ev, now);
      after.order == b.order + [l] && after.slots == b.slots[l := Slot([ev], now)] && after.merged == b.merged
  {
  }

  /** A tick hands out the events without a path before all others, whatever is due. */
  lemma UrgentGoesFirst(b: Buffer, now: Ts, ev: Event)
    requires LocOf(ev) == None
    ensures var (after, out) := TakeDue(Offer(b, ev, now), now);
      b.urgent + [ev] <= out && after.urgent == []
  {
  }

  // ---------------------------------------------------------------- the buffer in use

  class Coalescer {
    var state: Buffer

    constructor (limit: nat, period: int)
      ensures state == Fresh(limit, period) && BufferOk(state)
    {
      state := Fresh(limit, period);
    }

    /** Answers whether it is time to flush. */
    method Add(ev: Event, now: Ts) returns (full: bool)
      modifies this
      ensures state == Offer(old(state), ev, now)
      ensures full <==> state.urgent != [] || |state.slots| >= state.limit
    {
      var loc := LocOf(ev);
      if loc.None? {
        state := state.(urgent := state.urgent + [ev]);
        return true;
      }
      var l := loc.value;
      if l in state.slots {
        var slot := state.slots[l];
        match WayFor(slot.evs, ev) {
          case Ignore => state := state.(merged := state.merged + 1);
          case Replace =>
            slot := slot.(evs := slot.evs[..|slot.evs| - 1] + [ev]);
            state := state.(merged := state.merged + 1);
          case Append => slot := slot.(evs := slot.evs + [ev]);
        }
        state := state.(slots := state.slots[l := slot]);
      } else {
        state := state.(slots := state.slots[l := Slot([ev], now)], order := state.order + [l]);
      }
      full := IsFull(state);
    }

    method Flush(now: Ts) returns (out: seq<Event>)
      modifies this
      ensures (state, out) == TakeDue(old(state), now)
    {
      var b := state;
      var due, kept := DueAndKept(b, now);
      out := b.urgent + due;
      state := b.(urgent := [], order := kept,
                  slots := map l | l in b.slots && !(l in b.order && IsDue(b, l, now)) :: b.slots[l]);
    }

    method FlushAll() returns (out: seq<Event>)
      modifies this
      ensures (state, out) == TakeAll(old(state))
    {
      var b := state;
      var all: seq<Event> := [];
      for i := 0 to |b.order|
        invariant state == old(state)
        invariant all + AllEvents(b, b.order[i..]) == AllEvents(b, b.order)
      {
        assert b.order[i..][1..] == b.order[i + 1..];
        if b.order[i] in b.slots {
          all := all + b.slots[b.order[i]].evs;
        }
      }
      assert all == AllEvents(b, b.order);
      out := b.urgent + all;
      state := TakeAll(b).0;
    }
  }

  lemma {:induction false} DueLast(b: Buffer, now: Ts, order: seq<FileLoc>, l: FileLoc)
    ensures DueEvents(b, now, order + [l]) == DueEvents(b, now, order) + if IsDue(b, l, now) then b.slots[l].evs else []
    decreases |order|
  {
    if order == [] {
      assert [] + [l] == [l] && [l][1..] == [];
    } else {
      assert (order + [l])[1..] == order[1..] + [l];
      DueLast(b, now, order[1..], l);
    }
  }

  lemma {:induction false} NotDueLast(b: Buffer, now: Ts, order: seq<FileLoc>, l: FileLoc)
    ensures NotDue(b, now, order + [l]) == NotDue(b, now, order) + if l in b.slots && !IsDue(b, l, now) then [l] else []
    decreases |order|
  {
    if order == [] {
      assert [] + [l] == [l] && [l][1..] == [];
    } else {
      assert (order + [l])[1..] == order[1..] + [l];
      NotDueLast(b, now, order[1..], l);
    }
  }

  /** The pass over the paths in order. */
  method DueAndKept(b: Buffer, now: Ts) returns (due: seq<Event>, kept: seq<FileLoc>)
    ensures due == DueEvents(b, now, b.order) && kept == NotDue(b, now, b.order)
  {
    due, kept := [], [];
    for i := 0 to |b.order|
      invariant due == DueEvents(b, now, b.order[..i]) && kept == NotDue(b, now, b.order[..i])
    {
      var l := b.order[i];
      DueLast(b, now, b.order[..i], l);
      NotDueLast(b, now, b.order[..i], l);
      assert b.order[..i + 1] == b.order[..i] + [l];
      if l in b.slots {
        if Clamp(now - b.slots[l].since) >= b.period {
          due := due + b.slots[l].evs;
        } else {
          kept := kept + [l];
        }
      }
    }
    assert b.order[..|b.order|] == b.order;
  }
}
