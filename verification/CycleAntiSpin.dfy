/** The anti-spin floor of the local cycle (src/LocalGooseCycleService.cpp): with a clock that never goes back,
    self-scheduled captures are at least one second apart. */
module CycleAntiSpin {
  import opened Base
  import opened CycleStoreModel

  const MINIMUM_DELAY_MS: I64 := 1000

  /** What the services add to a store transition: captures carry the clock reading and never precede the
      deadline, a settlement re-schedules no sooner than the floor after its own clock reading, and a dormant cursor
      is only ever scheduled. */
  predicate TimedStep(e: Cursor, r: Cursor, at: int) {
    && (e.state.Scheduled? && r.state.Prepared? ==>
          r.captured.Some? && r.captured.value == at && e.due.Some? && e.due.value <= at)
    && (e.state.Prepared? && r.state.Scheduled? ==> r.due.Some? && r.due.value >= at + MINIMUM_DELAY_MS)
    && (e.state.Dormant? ==> r.state.Scheduled?)
  }

  ghost predicate TimedChain(log: seq<Entry>) {
    Chain(log) && forall i :: 0 <= i < |log| - 1 ==> TimedStep(log[i].cursor, log[i + 1].cursor, log[i + 1].at)
  }

  ghost predicate ClockNeverGoesBack(log: seq<Entry>) {
    forall i :: 0 <= i < |log| - 1 ==> log[i].at <= log[i + 1].at
  }

  /** Captures whose clock reading lies in the window [lo, hi]. */
  ghost function Captures(log: seq<Entry>, lo: int, hi: int): nat {
    if log == [] then 0
    else
      var last := log[|log| - 1];
      Captures(log[..|log| - 1], lo, hi) + (if last.cursor.state.Prepared? && lo <= last.at <= hi then 1 else 0)
  }

  ghost function RearmsIn(log: seq<Entry>, lo: int, hi: int): nat {
    if |log| <= 1 then 0
    else
      var last := log[|log| - 1];
      RearmsIn(log[..|log| - 1], lo, hi)
      + (if IsRearm(log[|log| - 2].cursor, last.cursor) && lo <= last.at <= hi then 1 else 0)
  }

  /** How far the run has advanced past the start of the window, given the captures and re-arms seen in it. */
  predicate Paced(e: Entry, c: nat, r: nat, lo: int) {
    match e.cursor.state
    case Prepared => 1000 * (c - 1 - r) <= e.at - lo
    case Dormant => 1000 * (c - 1 - r) <= e.at - lo
    case Scheduled => e.cursor.due.Some? &&
      1000 * (c - r) <= (if e.cursor.due.value < e.at then e.at else e.cursor.due.value) - lo
    case Blocked => true
  }

  lemma {:induction false} Pace(log: seq<Entry>, lo: int, hi: int)
    requires TimedChain(log) && ClockNeverGoesBack(log) && log != [] && lo <= hi
    ensures var c, r, last := Captures(log, lo, hi), RearmsIn(log, lo, hi), log[|log| - 1];
      c >= 1 ==>
        && 1000 * (c - 1 - r) <= hi - lo
        && lo <= last.at
        && (last.at <= hi ==> Paced(last, c, r, lo))
  {
    var init := log[..|log| - 1];
    if |log| == 1 {
      assert Captures(init, lo, hi) == 0;
    } else {
      TimedPrefix(log, |log| - 1);
      Pace(init, lo, hi);
      var n := |log| - 2;
      assert init[|init| - 1] == log[n];
      assert ValidTransition(log[n].cursor, log[n + 1].cursor) && TimedStep(log[n].cursor, log[n + 1].cursor, log[n + 1].at);
      assert log[n].at <= log[n + 1].at;
    }
  }

  lemma TimedPrefix(log: seq<Entry>, n: nat)
    requires TimedChain(log) && ClockNeverGoesBack(log) && n <= |log|
    ensures TimedChain(log[..n]) && ClockNeverGoesBack(log[..n])
  {
    ChainPrefix(log, n);
    var init := log[..n];
    forall i | 0 <= i < |init| - 1
      ensures TimedStep(init[i].cursor, init[i + 1].cursor, init[i + 1].at) && init[i].at <= init[i + 1].at
    {
      assert init[i] == log[i] && init[i + 1] == log[i + 1];
    }
  }

  /** Every run: a window of W milliseconds holds at most W / 1000 + 1 captures plus the re-arms in it. */
  lemma AntiSpin(log: seq<Entry>, lo: int, hi: int)
    requires TimedChain(log) && ClockNeverGoesBack(log) && lo <= hi
    ensures Captures(log, lo, hi) <= (hi - lo) / 1000 + 1 + RearmsIn(log, lo, hi)
  {
    if log != [] {
      Pace(log, lo, hi);
    }
  }
}
