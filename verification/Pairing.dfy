/** Pairing the two halves of a rename: a `From` waits for its `To`, for a `Both`, or expires. */
module Pairing {
  import opened Wrappers
  import opened Model
  import opened Handler

  datatype Tracker = Tracker(cookie: nat)

  datatype Half = Half(loc: FileLoc, at: Ts)

  /** `order` is the order in which the waiting halves came, `paired` the trackers matched recently. */
  datatype Table = Table(window: int, waiting: map<Tracker, Half>, order: seq<Tracker>, paired: map<Tracker, Ts>)

  predicate TooOld(window: int, at: Ts, now: Ts) { Clamp(now - at) > window }

  function Without(s: seq<Tracker>, t: Tracker): seq<Tracker> {
    if s == [] then [] else (if s[0] == t then [] else [s[0]]) + Without(s[1..], t)
  }

  function Drop(p: Table, t: Tracker): Table {
    p.(waiting := p.waiting - {t}, order := Without(p.order, t))
  }

  function OnFrom(p: Table, t: Tracker, loc: FileLoc, now: Ts): Table {
    p.(waiting := p.waiting[t := Half(loc, now)], order := if t in p.waiting then p.order else p.order + [t])
  }

  /** A half that is too old is left for the expiry. */
  function OnTo(p: Table, tracker: Option<Tracker>, loc: FileLoc, now: Ts): (Table, Event) {
    match tracker
    case None => (p, MovedIn(loc))
    case Some(t) =>
      if t !in p.waiting || TooOld(p.window, p.waiting[t].at, now) then (p, MovedIn(loc))
      else (Drop(p, t).(paired := p.paired[t := now]), Renamed(p.waiting[t].loc, loc))
  }

  /** Nothing to say when the pair was matched already; otherwise the waiting half goes with it. */
  function OnBoth(p: Table, tracker: Option<Tracker>, from: FileLoc, to: FileLoc): (Table, Option<Event>) {
    match tracker
    case None => (p, Some(Renamed(from, to)))
    case Some(t) => if t in p.paired then (p, None) else (Drop(p, t), Some(Renamed(from, to)))
  }

  function Aged(p: Table, now: Ts, order: seq<Tracker>): seq<Tracker> {
    if order == [] then []
    else (if order[0] in p.waiting && TooOld(p.window, p.waiting[order[0]].at, now) then [order[0]] else [])
         + Aged(p, now, order[1..])
  }

  function Young(p: Table, now: Ts, order: seq<Tracker>): seq<Tracker> {
    if order == [] then []
    else (if order[0] in p.waiting && !TooOld(p.window, p.waiting[order[0]].at, now) then [order[0]] else [])
         + Young(p, now, order[1..])
  }

  function Here(p: Table, order: seq<Tracker>): seq<Tracker> {
    if order == [] then [] else (if order[0] in p.waiting then [order[0]] else []) + Here(p, order[1..])
  }

  function Unknowns(waiting: map<Tracker, Half>, ts: seq<Tracker>): (evs: seq<Event>)
    requires forall t :: t in ts ==> t in waiting
    ensures |evs| == |ts| && forall i :: 0 <= i < |ts| ==> evs[i] == RemovedUnknown(waiting[ts[i]].loc)
  {
    seq(|ts|, i requires 0 <= i < |ts| => RemovedUnknown(waiting[ts[i]].loc))
  }

  function Elements(s: seq<Tracker>): set<Tracker> { set t | t in s }

  lemma {:induction false} AgedFacts(p: Table, now: Ts, order: seq<Tracker>)
    ensures forall t :: t in Aged(p, now, order) <==>
      t in order && t in p.waiting && TooOld(p.window, p.waiting[t].at, now)
    ensures forall t :: t in Young(p, now, order) <==>
      t in order && t in p.waiting && !TooOld(p.window, p.waiting[t].at, now)
    ensures Distinct(order) ==> Distinct(Aged(p, now, order)) && Distinct(Young(p, now, order))
  {
    if order != [] { AgedFacts(p, now, order[1..]); }
  }

  lemma {:induction false} HereFacts(p: Table, order: seq<Tracker>)
    ensures forall t :: t in Here(p, order) <==> t in order && t in p.waiting
    ensures Distinct(order) ==> Distinct(Here(p, order))
  {
    if order != [] { HereFacts(p, order[1..]); }
  }

  /** Every waiting half that is too old goes, in the order the halves came; old matches are forgotten. */
  function Expire(p: Table, now: Ts): (Table, seq<Event>) {
    var gone := Aged(p, now, p.order);
    AgedFacts(p, now, p.order);
    (p.(waiting := p.waiting - Elements(gone), order := Young(p, now, p.order),
        paired := map t | t in p.paired && !TooOld(p.window, p.paired[t], now) :: p.paired[t]),
     Unknowns(p.waiting, gone))
  }

  function Flush(p: Table): (Table, seq<Event>) {
    HereFacts(p, p.order);
    (p.(waiting := map[], order := []), Unknowns(p.waiting, Here(p, p.order)))
  }

  // ---------------------------------------------------------------- the order list

  ghost predicate Distinct(s: seq<Tracker>) {
    forall i, j :: 0 <= i < j < |s| ==> s[i] != s[j]
  }

  /** The order list names each waiting half once, and nothing else. */
  ghost predicate TableOk(p: Table) {
    Distinct(p.order) && forall t :: t in p.order <==> t in p.waiting
  }

  lemma {:induction false} WithoutLast(s: seq<Tracker>, x: Tracker, t: Tracker)
    ensures Without(s + [x], t) == Without(s, t) + if x == t then [] else [x]
    decreases |s|
  {
    if s == [] {
      assert [] + [x] == [x] && [x][1..] == [];
    } else {
      assert (s + [x])[1..] == s[1..] + [x];
      WithoutLast(s[1..], x, t);
    }
  }

  lemma {:induction false} WithoutFacts(s: seq<Tracker>, t: Tracker)
    ensures forall x :: x in Without(s, t) <==> x in s && x != t
    ensures Distinct(s) ==> Distinct(Without(s, t))
  {
    if s != [] {
      WithoutFacts(s[1..], t);
      var rest := Without(s[1..], t);
      if Distinct(s) {
        forall i | 0 <= i < |rest| ensures rest[i] != s[0] { assert rest[i] in rest; }
      }
    }
  }

  // ---------------------------------------------------------------- runs

  datatype Input =
    | From(t: Tracker, loc: FileLoc, at: Ts)
    | To(tracker: Option<Tracker>, loc: FileLoc, at: Ts)
    | Both(tracker: Option<Tracker>, from: FileLoc, to: FileLoc)
    | Tick(at: Ts)
    | Stop

  function Feed(p: Table, i: Input): (Table, seq<Event>) {
    match i
    case From(t, loc, now) => (OnFrom(p, t, loc, now), [])
    case To(tracker, loc, now) => var (q, ev) := OnTo(p, tracker, loc, now); (q, [ev])
    case Both(tracker, from, to) =>
      var (q, ev) := OnBoth(p, tracker, from, to);
      (q, if ev.Some? then [ev.value] else [])
    case Tick(now) => Expire(p, now)
    case Stop => Flush(p)
  }

  lemma FeedOk(p: Table, i: Input)
    requires TableOk(p)
    ensures TableOk(Feed(p, i).0)
  {
    match i
    case To(Some(t), _, _) => WithoutFacts(p.order, t);
    case Both(Some(t), _, _) => WithoutFacts(p.order, t);
    case Tick(now) => AgedFacts(p, now, p.order);
    case _ =>
  }

  /** How a waiting half leaves the table. */
  datatype Exit = ByTo | ByBoth | ByExpiry | ByStop

  /** The halves that input `i` makes leave, and how, with the event that says so. */
  ghost function Leaving(p: Table, i: Input): map<Tracker, (Exit, Event)> {
    match i
    case From(_, _, _) => map[]
    case To(tracker, loc, now) =>
      if tracker.Some? && tracker.value in p.waiting && !TooOld(p.window, p.waiting[tracker.value].at, now)
      then map[tracker.value := (ByTo, Renamed(p.waiting[tracker.value].loc, loc))] else map[]
    case Both(tracker, from, to) =>
      if tracker.Some? && tracker.value in p.waiting && tracker.value !in p.paired
      then map[tracker.value := (ByBoth, Renamed(from, to))] else map[]
    case Tick(now) =>
      map t | t in p.waiting && TooOld(p.window, p.waiting[t].at, now) :: (ByExpiry, RemovedUnknown(p.waiting[t].loc))
    case Stop => map t | t in p.waiting :: (ByStop, RemovedUnknown(p.waiting[t].loc))
  }

  /** A half is in the table after an input if it was and did not leave, or has just come. */
  lemma WaitingAfter(p: Table, i: Input)
    requires TableOk(p)
    ensures Feed(p, i).0.waiting.Keys ==
      (p.waiting.Keys - Leaving(p, i).Keys) + (if i.From? then {i.t} else {})
    ensures Leaving(p, i).Keys <= p.waiting.Keys
    ensures forall t :: t in Feed(p, i).0.waiting && !(i.From? && t == i.t) ==>
      t in p.waiting && Feed(p, i).0.waiting[t] == p.waiting[t]
  {
    if i.Tick? { AgedFacts(p, i.at, p.order); }
  }

  /** Each half that leaves does so with its event, once; an expired half never by its `To`. */
  lemma LeavingIsSaid(p: Table, i: Input, t: Tracker)
    requires TableOk(p) && t in Leaving(p, i)
    ensures var (how, ev) := Leaving(p, i)[t];
      && ev in Feed(p, i).1
      && (how.ByTo? ==> i.To? && i.tracker == Some(t) && ev == Renamed(p.waiting[t].loc, i.loc))
      && (how.ByTo? ==> !TooOld(p.window, p.waiting[t].at, i.at))
      && (how.ByBoth? ==> i.Both? && i.tracker == Some(t) && ev == Renamed(i.from, i.to))
      && (how.ByExpiry? || how.ByStop? ==> ev == RemovedUnknown(p.waiting[t].loc))
  {
    if i.Tick? {
      AgedFacts(p, i.at, p.order);
      var gone := Aged(p, i.at, p.order);
      var k :| 0 <= k < |gone| && gone[k] == t;
      assert Feed(p, i).1[k] == RemovedUnknown(p.waiting[t].loc);
    } else if i.Stop? {
      HereFacts(p, p.order);
      var k :| 0 <= k < |Here(p, p.order)| && Here(p, p.order)[k] == t;
      assert Feed(p, i).1[k] == RemovedUnknown(p.waiting[t].loc);
    }
  }

  /** A `To` pairs exactly with a half that waits within the window; otherwise it is a file moved in. */
  lemma ToPairsWithinWindow(p: Table, tracker: Option<Tracker>, loc: FileLoc, now: Ts)
    ensures var ev := OnTo(p, tracker, loc, now).1;
      && (ev.Renamed? <==>
            tracker.Some? && tracker.value in p.waiting && Clamp(now - p.waiting[tracker.value].at) <= p.window)
      && (!ev.Renamed? ==> ev == MovedIn(loc) && OnTo(p, tracker, loc, now).0 == p)
  {
  }

  function Run(p: Table, ins: seq<Input>): Table
    decreases |ins|
  {
    if ins == [] then p else Run(Feed(p, ins[0]).0, ins[1..])
  }

  /** How often the half of `t` leaves during a run. */
  ghost function TimesLeft(p: Table, ins: seq<Input>, t: Tracker): nat
    decreases |ins|
  {
    if ins == [] then 0
    else (if t in Leaving(p, ins[0]) then 1 else 0) + TimesLeft(Feed(p, ins[0]).0, ins[1..], t)
  }

  ghost function TimesCame(ins: seq<Input>, t: Tracker): nat {
    if ins == [] then 0 else (if ins[0].From? && ins[0].t == t then 1 else 0) + TimesCame(ins[1..], t)
  }

  ghost function Waits(p: Table, t: Tracker): nat { if t in p.waiting then 1 else 0 }

  /**
   * The halves are conserved: for a tracker used by one `From` at most (and none waiting before it
   * comes), what came in has left once, by exactly one of the four exits, or is still waiting.
   */
  lemma {:induction false} HalvesConserved(p: Table, ins: seq<Input>, t: Tracker)
    requires TableOk(p) && Waits(p, t) + TimesCame(ins, t) <= 1
    ensures TableOk(Run(p, ins))
    ensures Waits(p, t) + TimesCame(ins, t) == TimesLeft(p, ins, t) + Waits(Run(p, ins), t)
    decreases |ins|
  {
    if ins != [] {
      FeedOk(p, ins[0]);
      WaitingAfter(p, ins[0]);
      HalvesConserved(Feed(p, ins[0]).0, ins[1..], t);
    }
  }

  // ---------------------------------------------------------------- a rename in two halves

  /** An input that leaves the half of `t`, which came at `since`, waiting: it is not about `t`, or not late enough. */
  ghost predicate LeavesAlone(i: Input, t: Tracker, window: int, since: Ts) {
    match i
    case From(x, _, _) => x != t
    case To(x, _, _) => x != Some(t)
    case Both(x, _, _) => x != Some(t)
    case Tick(now) => Clamp(now - since) <= window
    case Stop => false
  }

  lemma {:induction false} HalfWaits(p: Table, ins: seq<Input>, t: Tracker)
    requires TableOk(p) && t in p.waiting
    requires forall k :: 0 <= k < |ins| ==> LeavesAlone(ins[k], t, p.window, p.waiting[t].at)
    ensures var end := Run(p, ins);
      TableOk(end) && end.window == p.window && t in end.waiting && end.waiting[t] == p.waiting[t]
    decreases |ins|
  {
    if ins != [] {
      var next := Feed(p, ins[0]).0;
      FeedOk(p, ins[0]);
      WaitingAfter(p, ins[0]);
      HalfWaits(next, ins[1..], t);
    }
  }

  /** The table once the half of `t` came from `from` and others came and went. */
  ghost function Meanwhile(p: Table, t: Tracker, from: FileLoc, since: Ts, ins: seq<Input>): Table {
    Run(Feed(p, From(t, from, since)).0, ins)
  }

  /**
   * A file leaves `from`, and whatever else happens in the meantime, its other half comes: within the window this is
   * one rename, said once, even if the kernel repeats it as a whole; later it is an arrival like any other.
   */
  lemma HalvesJoin(p: Table, t: Tracker, from: FileLoc, since: Ts, ins: seq<Input>, to: FileLoc, now: Ts)
    requires TableOk(p) && forall k :: 0 <= k < |ins| ==> LeavesAlone(ins[k], t, p.window, since)
    ensures var (after, said) := Feed(Meanwhile(p, t, from, since, ins), To(Some(t), to, now));
      if Clamp(now - since) <= p.window then
        said == [Renamed(from, to)] && t !in after.waiting && Feed(after, Both(Some(t), from, to)).1 == []
      else said == [MovedIn(to)] && t in after.waiting
  {
    FeedOk(p, From(t, from, since));
    HalfWaits(Feed(p, From(t, from, since)).0, ins, t);
  }

  /** No other half comes: the first tick after the window, or the stop, says that something left `from`. */
  lemma HalfExpires(p: Table, t: Tracker, from: FileLoc, since: Ts, ins: seq<Input>, last: Input)
    requires TableOk(p) && forall k :: 0 <= k < |ins| ==> LeavesAlone(ins[k], t, p.window, since)
    requires last.Stop? || (last.Tick? && Clamp(last.at - since) > p.window)
    ensures var (after, said) := Feed(Meanwhile(p, t, from, since, ins), last);
      RemovedUnknown(from) in said && t !in after.waiting
  {
    FeedOk(p, From(t, from, since));
    HalfWaits(Feed(p, From(t, from, since)).0, ins, t);
    var mid := Meanwhile(p, t, from, since, ins);
    LeavingIsSaid(mid, last, t);
    WaitingAfter(mid, last);
  }

  lemma {:induction false} AgedSplits(p: Table, now: Ts, first: seq<Tracker>, rest: seq<Tracker>)
    ensures Aged(p, now, first + rest) == Aged(p, now, first) + Aged(p, now, rest)
    decreases |first|
  {
    if first == [] {
      assert [] + rest == rest;
    } else {
      assert (first + rest)[1..] == first[1..] + rest;
      AgedSplits(p, now, first[1..], rest);
    }
  }

  lemma AgedFrom(p: Table, now: Ts, t: Tracker, rest: seq<Tracker>)
    requires t in p.waiting && TooOld(p.window, p.waiting[t].at, now)
    ensures Aged(p, now, [t] + rest) == [t] + Aged(p, now, rest)
  {
    assert ([t] + rest)[1..] == rest;
  }

  lemma TwoOfOrder(s: seq<Tracker>, i: nat, j: nat)
    requires i < j < |s|
    ensures s == s[..i] + ([s[i]] + (s[i + 1..j] + ([s[j]] + s[j + 1..])))
  {
  }

  /** Of two halves that expire at the same tick, the one that came first is reported first. */
  lemma HalvesExpireInOrder(p: Table, now: Ts, i: nat, j: nat) returns (x: nat, y: nat)
    requires TableOk(p) && i < j < |p.order|
    requires TooOld(p.window, p.waiting[p.order[i]].at, now) && TooOld(p.window, p.waiting[p.order[j]].at, now)
    ensures var said := Expire(p, now).1;
      && x < y < |said|
      && said[x] == RemovedUnknown(p.waiting[p.order[i]].loc) && said[y] == RemovedUnknown(p.waiting[p.order[j]].loc)
  {
    var t, u := p.order[i], p.order[j];
    var a, q, r := p.order[..i], p.order[i + 1..j], p.order[j + 1..];
    TwoOfOrder(p.order, i, j);
    AgedSplits(p, now, a, [t] + (q + ([u] + r)));
    AgedFrom(p, now, t, q + ([u] + r));
    AgedSplits(p, now, q, [u] + r);
    AgedFrom(p, now, u, r);
    AgedFacts(p, now, p.order);
    var gone := Aged(p, now, p.order);
    assert gone == Aged(p, now, a) + ([t] + (Aged(p, now, q) + ([u] + Aged(p, now, r))));
    x, y := |Aged(p, now, a)|, |Aged(p, now, a)| + 1 + |Aged(p, now, q)|;
    assert gone[x] == t && gone[y] == u;
  }

  /** The kernel reports both halves at once: that is the rename, and the half that waited does not expire as well. */
  lemma BothIsTheRename(p: Table, t: Tracker, from: FileLoc, to: FileLoc)
    requires TableOk(p)
    ensures var (after, said) := Feed(p, Both(Some(t), from, to));
      if t in p.paired then said == [] && after == p
      else said == [Renamed(from, to)] && after.waiting.Keys == p.waiting.Keys - {t}
    ensures Feed(p, Both(None, from, to)) == (p, [Renamed(from, to)])
  {
  }

  /** A match is remembered for the window, so that it is not said twice, and no longer. */
  lemma MatchIsForgotten(p: Table, now: Ts, t: Tracker)
    ensures t in Expire(p, now).0.paired <==> t in p.paired && Clamp(now - p.paired[t]) <= p.window
    ensures t in Expire(p, now).0.paired ==> Expire(p, now).0.paired[t] == p.paired[t]
  {
  }

  // ---------------------------------------------------------------- the table in use

  class Pairer {
    var table: Table

    constructor (window: int)
      ensures table == Table(window, map[], [], map[]) && TableOk(table)
    {
      table := Table(window, map[], [], map[]);
    }

    method TakeFrom(t: Tracker, loc: FileLoc, now: Ts)
      modifies this
      ensures table == Feed(old(table), From(t, loc, now)).0
    {
      var isNew := t !in table.waiting;
      table := table.(waiting := table.waiting[t := Half(loc, now)]);
      if isNew {
        table := table.(order := table.order + [t]);
      }
    }

    /** Takes a tracker out of the list by a pass over it. */
    method Remove(t: Tracker)
      modifies this
      ensures table == Drop(old(table), t)
    {
      var kept: seq<Tracker> := [];
      for i := 0 to |table.order|
        invariant table == old(table)
        invariant kept == Without(table.order[..i], t)
      {
        WithoutLast(table.order[..i], table.order[i], t);
        assert table.order[..i + 1] == table.order[..i] + [table.order[i]];
        if table.order[i] != t {
          kept := kept + [table.order[i]];
        }
      }
      assert table.order[..|table.order|] == table.order;
      table := table.(order := kept, waiting := table.waiting - {t});
    }

    method TakeTo(tracker: Option<Tracker>, loc: FileLoc, now: Ts) returns (ev: Event)
      modifies this
      ensures (table, [ev]) == Feed(old(table), To(tracker, loc, now))
    {
      if tracker.None? || tracker.value !in table.waiting {
        return MovedIn(loc);
      }
      var half := table.waiting[tracker.value];
      if TooOld(table.window, half.at, now) {
        return MovedIn(loc);
      }
      Remove(tracker.value);
      table := table.(paired := table.paired[tracker.value := now]);
      ev := Renamed(half.loc, loc);
    }

    method TakeBoth(tracker: Option<Tracker>, from: FileLoc, to: FileLoc) returns (ev: Option<Event>)
      modifies this
      ensures (table, ev) == OnBoth(old(table), tracker, from, to)
    {
      if tracker.Some? {
        if tracker.value in table.paired {
          return None;
        }
        Remove(tracker.value);
      }
      ev := Some(Renamed(from, to));
    }

    method ExpireOld(now: Ts) returns (evs: seq<Event>)
      modifies this
      ensures (table, evs) == Expire(old(table), now)
    {
      var p := table;
      var kept, gone := SplitByAge(p, now);
      AgedFacts(p, now, p.order);
      evs := Unknowns(p.waiting, gone);
      table := p.(waiting := p.waiting - Elements(gone), order := kept,
                  paired := map t | t in p.paired && !TooOld(p.window, p.paired[t], now) :: p.paired[t]);
    }

    method FlushAll() returns (evs: seq<Event>)
      modifies this
      ensures (table, evs) == Flush(old(table))
    {
      var p := table;
      var here: seq<Tracker> := [];
      for i := 0 to |p.order|
        invariant table == old(table)
        invariant here + Here(p, p.order[i..]) == Here(p, p.order)
      {
        assert p.order[i..][1..] == p.order[i + 1..];
        if p.order[i] in p.waiting {
          here := here + [p.order[i]];
        }
      }
      HereFacts(p, p.order);
      assert here == Here(p, p.order);
      evs := Unknowns(p.waiting, here);
      var (flushed, _) := Flush(p);
      table := flushed;
    }
  }

  lemma {:induction false} AgedLast(p: Table, now: Ts, order: seq<Tracker>, t: Tracker)
    ensures Aged(p, now, order + [t])
            == Aged(p, now, order) + if t in p.waiting && TooOld(p.window, p.waiting[t].at, now) then [t] else []
    decreases |order|
  {
    if order == [] {
      assert [] + [t] == [t] && [t][1..] == [];
    } else {
      assert (order + [t])[1..] == order[1..] + [t];
      AgedLast(p, now, order[1..], t);
    }
  }

  lemma {:induction false} YoungLast(p: Table, now: Ts, order: seq<Tracker>, t: Tracker)
    ensures Young(p, now, order + [t])
            == Young(p, now, order) + if t in p.waiting && !TooOld(p.window, p.waiting[t].at, now) then [t] else []
    decreases |order|
  {
    if order == [] {
      assert [] + [t] == [t] && [t][1..] == [];
    } else {
      assert (order + [t])[1..] == order[1..] + [t];
      YoungLast(p, now, order[1..], t);
    }
  }

  /** The pass over the list: who goes and who stays. */
  method SplitByAge(p: Table, now: Ts) returns (kept: seq<Tracker>, gone: seq<Tracker>)
    ensures kept == Young(p, now, p.order) && gone == Aged(p, now, p.order)
  {
    kept, gone := [], [];
    for i := 0 to |p.order|
      invariant kept == Young(p, now, p.order[..i]) && gone == Aged(p, now, p.order[..i])
    {
      var t := p.order[i];
      AgedLast(p, now, p.order[..i], t);
      YoungLast(p, now, p.order[..i], t);
      assert p.order[..i + 1] == p.order[..i] + [t];
      if t in p.waiting {
        if TooOld(p.window, p.waiting[t].at, now) {
          gone := gone + [t];
        } else {
          kept := kept + [t];
        }
      }
    }
    assert p.order[..|p.order|] == p.order;
  }
}
