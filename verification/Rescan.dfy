/**
 * The rescan flag between two threads: the watcher raises it in two steps (read, write) at any
 * time, a reconcile snapshots it, walks, reads it again and clears it only if it did not change.
 */
module Rescan {
  import opened Wrappers
  import opened Decimal

  const OFF := "0"

  /** The raw value of the flag as a generation; `None` when no rescan is wanted. */
  function Generation(flag: Option<string>): Option<string> {
    if flag.Some? && flag.value != OFF then flag else None
  }

  predicate IsSet(flag: Option<string>) { Generation(flag).Some? }

  /** The number a raise starts from: 0 for a missing, old-style or garbled value. */
  function Parsed(flag: Option<string>): nat {
    match flag
    case None => 0
    case Some(t) => if ParseU64(t).Some? then ParseU64(t).value else 0
  }

  /** `wrapping_add(1).max(1)`. */
  function Succ(n: nat): (m: nat)
    ensures n <= U64_MAX ==> 1 <= m <= U64_MAX && m != n
  {
    if n >= U64_MAX then 1 else n + 1
  }

  // ---------------------------------------------------------------- the two threads

  datatype Raiser = Resting | HasRead(n: nat)

  /** `raised` counts the writes that landed since the snapshot, `late` those since the second read. */
  datatype Job =
    | Waiting
    | Walking(snap: Option<string>, raised: nat)
    | Comparing(snap: Option<string>, seen: Option<string>, raised: nat, late: nat)

  datatype Machine = Machine(flag: Option<string>, raiser: Raiser, job: Job)

  datatype Step = RaiseRead | RaiseWrite | Snapshot | GiveUp | Reread | Clear

  predicate Enabled(m: Machine, s: Step) {
    match s
    case RaiseRead => m.raiser.Resting?
    case RaiseWrite => m.raiser.HasRead?
    case Snapshot => m.job.Waiting?
    case GiveUp => m.job.Walking?
    case Reread => m.job.Walking?
    case Clear => m.job.Comparing?
  }

  function CountWrite(j: Job): Job {
    match j
    case Waiting => j
    case Walking(snap, k) => Walking(snap, k + 1)
    case Comparing(snap, seen, k, late) => Comparing(snap, seen, k, late + 1)
  }

  function Take(m: Machine, s: Step): Machine
    requires Enabled(m, s)
  {
    match s
    case RaiseRead => m.(raiser := HasRead(Parsed(m.flag)))
    case RaiseWrite => Machine(Some(Digits(Succ(m.raiser.n))), Resting, CountWrite(m.job))
    case Snapshot => m.(job := Walking(Generation(m.flag), 0))
    case GiveUp => m.(job := Waiting)
    case Reread => m.(job := Comparing(m.job.snap, Generation(m.flag), m.job.raised, 0))
    case Clear => Machine(if m.job.seen == m.job.snap then Some(OFF) else m.flag, m.raiser, Waiting)
  }

  ghost predicate Possible(m: Machine, steps: seq<Step>)
    decreases |steps|
  {
    steps == [] || (Enabled(m, steps[0]) && Possible(Take(m, steps[0]), steps[1..]))
  }

  function TakeAll(m: Machine, steps: seq<Step>): Machine
    requires Possible(m, steps)
    decreases |steps|
  {
    if steps == [] then m else TakeAll(Take(m, steps[0]), steps[1..])
  }

  // ---------------------------------------------------------------- generations go round

  const PERIOD := U64_MAX

  /** Generation `k` raises after `n`. */
  function Around(n: nat, k: nat): nat
    requires 1 <= n <= U64_MAX
  {
    (n - 1 + k) % PERIOD + 1
  }

  lemma AroundSucc(n: nat, k: nat)
    requires 1 <= n <= U64_MAX
    ensures 1 <= Around(n, k) <= U64_MAX && Around(n, k + 1) == Succ(Around(n, k))
  {
  }

  lemma AroundSame(n: nat, k: nat)
    requires 1 <= n <= U64_MAX
    ensures Around(n, k) == n <==> k % PERIOD == 0
  {
  }

  /** A value that a raise could have written. */
  ghost predicate IsGeneration(v: string) {
    ParseU64(v).Some? && v == Digits(ParseU64(v).value) && ParseU64(v).value >= 1
  }

  lemma PrintedIsGeneration(n: nat)
    requires 1 <= n <= U64_MAX
    ensures IsGeneration(Digits(n)) && Parsed(Some(Digits(n))) == n
    ensures Generation(Some(Digits(n))) == Some(Digits(n))
  {
    ParsePrinted(n);
    DigitsInjective(n, 0);
  }

  /** All the raises since the snapshot together leave the value they found. */
  ghost predicate WentRound(snap: Option<string>, raised: nat) {
    snap.Some? && IsGeneration(snap.value) && raised % PERIOD == 0
  }

  /** What `k` raises since the snapshot have made of the flag. */
  ghost predicate Tracks(flag: Option<string>, snap: Option<string>, k: nat) {
    if k == 0 then Generation(flag) == snap
    else
      && flag.Some?
      && IsGeneration(flag.value)
      && (snap.Some? && IsGeneration(snap.value) ==> Parsed(flag) == Around(Parsed(snap), k))
  }

  /** What the raiser has read is the flag, unless the flag was cleared since. */
  ghost predicate ReadOk(m: Machine) {
    m.raiser.HasRead? ==> m.raiser.n <= U64_MAX && (m.raiser.n == Parsed(m.flag) || m.flag == Some(OFF))
  }

  ghost predicate JobOk(m: Machine) {
    match m.job
    case Waiting => true
    case Walking(snap, k) => Tracks(m.flag, snap, k)
    case Comparing(snap, seen, k, late) =>
      && (late == 0 ==> Generation(m.flag) == seen)
      && (late > 0 ==> IsSet(m.flag))
      && (k > 0 ==> seen.Some? && (seen == snap <==> WentRound(snap, k)))
      && (k == 0 ==> seen == snap)
  }

  ghost predicate MachineOk(m: Machine) { ReadOk(m) && JobOk(m) }

  lemma ParsedSmall(flag: Option<string>)
    ensures Parsed(flag) <= U64_MAX
  {
  }

  /** The first raise after the snapshot moves off the generation it found. */
  lemma FirstWrite(flag: Option<string>, snap: Option<string>, n: nat)
    requires Generation(flag) == snap && n <= U64_MAX && (n == Parsed(flag) || flag == Some(OFF))
    ensures Tracks(Some(Digits(Succ(n))), snap, 1)
  {
    PrintedIsGeneration(Succ(n));
    if snap.Some? && IsGeneration(snap.value) { AroundFirst(Parsed(snap)); }
  }

  lemma AroundFirst(n: nat)
    requires 1 <= n <= U64_MAX
    ensures Around(n, 1) == Succ(n)
  {
  }

  lemma LaterWrite(flag: Option<string>, snap: Option<string>, k: nat)
    requires k > 0 && Tracks(flag, snap, k)
    ensures Tracks(Some(Digits(Succ(Parsed(flag)))), snap, k + 1)
  {
    PrintedIsGeneration(Parsed(flag));
    PrintedIsGeneration(Succ(Parsed(flag)));
    if snap.Some? && IsGeneration(snap.value) { AroundSucc(Parsed(snap), k); }
  }

  lemma WriteTracks(flag: Option<string>, snap: Option<string>, k: nat, n: nat)
    requires Tracks(flag, snap, k) && n <= U64_MAX && (n == Parsed(flag) || flag == Some(OFF))
    ensures Tracks(Some(Digits(Succ(n))), snap, k + 1)
  {
    if k == 0 {
      FirstWrite(flag, snap, n);
    } else {
      TrackedNotOff(flag, snap, k);
      LaterWrite(flag, snap, k);
    }
  }

  lemma TrackedNotOff(flag: Option<string>, snap: Option<string>, k: nat)
    requires k > 0 && Tracks(flag, snap, k)
    ensures flag != Some(OFF)
  {
    PrintedIsGeneration(Parsed(flag));
  }

  lemma RereadOk(flag: Option<string>, snap: Option<string>, k: nat)
    requires k > 0 && Tracks(flag, snap, k)
    ensures Generation(flag).Some? && (Generation(flag) == snap <==> WentRound(snap, k))
  {
    PrintedIsGeneration(Parsed(flag));
    if snap.Some? && IsGeneration(snap.value) { AroundSame(Parsed(snap), k); }
  }

  lemma StepKeeps(m: Machine, s: Step)
    requires MachineOk(m) && Enabled(m, s)
    ensures MachineOk(Take(m, s))
  {
    ParsedSmall(m.flag);
    match s
    case RaiseWrite =>
      PrintedIsGeneration(Succ(m.raiser.n));
      if m.job.Walking? { WriteTracks(m.flag, m.job.snap, m.job.raised, m.raiser.n); }
    case Reread => if m.job.raised > 0 { RereadOk(m.flag, m.job.snap, m.job.raised); }
    case _ =>
  }

  lemma {:induction false} RunKeeps(m: Machine, steps: seq<Step>)
    requires MachineOk(m) && Possible(m, steps)
    ensures MachineOk(TakeAll(m, steps))
    decreases |steps|
  {
    if steps != [] {
      StepKeeps(m, steps[0]);
      RunKeeps(Take(m, steps[0]), steps[1..]);
    }
  }

  /** Any stored value, with both threads at rest. */
  function Booted(flag: Option<string>): Machine { Machine(flag, Resting, Waiting) }

  /**
   * In every run from any stored value, whatever lands when: after the clear the flag is set exactly
   * if raises landed between snapshot and second read and did not go exactly round all generations.
   * So a raise that lands after the second read is lost exactly when none, or a full round, landed before.
   */
  lemma SignalSurvives(flag: Option<string>, steps: seq<Step>)
    requires Possible(Booted(flag), steps) && Enabled(TakeAll(Booted(flag), steps), Clear)
    ensures var m := TakeAll(Booted(flag), steps);
      IsSet(Take(m, Clear).flag) <==> m.job.raised > 0 && !WentRound(m.job.snap, m.job.raised)
  {
    RunKeeps(Booted(flag), steps);
  }

  /** A reconcile that gives up keeps the flag: it is set if it was at the snapshot or was raised since. */
  lemma GivingUpKeepsSignal(flag: Option<string>, steps: seq<Step>)
    requires Possible(Booted(flag), steps) && Enabled(TakeAll(Booted(flag), steps), GiveUp)
    ensures var m := TakeAll(Booted(flag), steps);
      IsSet(Take(m, GiveUp).flag) <==> m.job.raised > 0 || m.job.snap.Some?
  {
    RunKeeps(Booted(flag), steps);
    var m := TakeAll(Booted(flag), steps);
    if m.job.raised > 0 { TrackedNotOff(m.flag, m.job.snap, m.job.raised); }
  }

  /** So a signal survives a reconcile that meets at least one raise, and fewer than there are generations. */
  lemma FewRaisesSurvive(flag: Option<string>, steps: seq<Step>)
    requires Possible(Booted(flag), steps) && Enabled(TakeAll(Booted(flag), steps), Clear)
    requires 0 < TakeAll(Booted(flag), steps).job.raised < PERIOD
    ensures IsSet(Take(TakeAll(Booted(flag), steps), Clear).flag)
  {
    SignalSurvives(flag, steps);
  }

  /** A run that meets the losing side: the only raise lands between the second read and the clear. */
  lemma LateRaiseIsLost(flag: Option<string>)
    ensures var steps := [Snapshot, Reread, RaiseRead, RaiseWrite];
      && Possible(Booted(flag), steps)
      && Enabled(TakeAll(Booted(flag), steps), Clear) && TakeAll(Booted(flag), steps).job.late == 1
      && !IsSet(Take(TakeAll(Booted(flag), steps), Clear).flag)
  {
    var m0 := Booted(flag);
    var m1 := Take(m0, Snapshot);
    var m2 := Take(m1, Reread);
    var m3 := Take(m2, RaiseRead);
    var m4 := Take(m3, RaiseWrite);
    var steps := [Snapshot, Reread, RaiseRead, RaiseWrite];
    assert steps[1..] == [Reread, RaiseRead, RaiseWrite] && steps[1..][1..] == [RaiseRead, RaiseWrite];
    assert steps[1..][1..][1..] == [RaiseWrite] && steps[1..][1..][1..][1..] == [];
    assert Possible(m4, []) && Possible(m3, [RaiseWrite]) && Possible(m2, [RaiseRead, RaiseWrite]);
    assert Possible(m1, steps[1..]);
    assert TakeAll(m3, [RaiseWrite]) == m4 && TakeAll(m2, [RaiseRead, RaiseWrite]) == m4;
    assert TakeAll(m1, steps[1..]) == m4;
  }

  // ---------------------------------------------------------------- the flag in the store

  class Meta {
    var flag: Option<string>

    constructor (flag: Option<string>)
      ensures this.flag == flag
    {
      this.flag := flag;
    }

    /** Both steps of a raise with nobody in between. */
    method Raise()
      modifies this
      ensures flag == Some(Digits(Succ(Parsed(old(flag))))) && IsSet(flag) && Generation(flag) != Generation(old(flag))
    {
      var n := Parsed(flag);
      flag := Some(Digits(Succ(n)));
      PrintedIsGeneration(Succ(n));
      ParsedSmall(old(flag));
    }

    /** Both steps of the conditional clear with nobody in between. */
    method ClearIfUnchanged(snap: Option<string>)
      modifies this
      ensures flag == if Generation(old(flag)) == snap then Some(OFF) else old(flag)
    {
      if Generation(flag) != snap {
        return;
      }
      flag := Some(OFF);
    }
  }
}
