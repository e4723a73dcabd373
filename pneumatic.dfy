/**
 * The two-channel pneumatic dispenser and the print job it runs with the
 * gantry.  The serial link to the pressure controller and the gantry's
 * motion commands are recorded in ONE event trace, so the order in which
 * writes and moves interleave is part of what is stated.  Distances are in
 * tenths of a millimetre (the job's C-axis step of 0.4 is 4).
 *
 * Serial protocol: every command is the line "<channel>,<value>\n"; a value
 * of -1 opens the channel's valve, -2 closes it, and 0..100 is a pressure
 * set-point in PSI.
 */
module Pneumatic {
  import opened PyStr

  const MinPressure := 0
  const MaxPressure := 100
  const InitialPressure := 15
  const OpenCode := -1
  const CloseCode := -2

  /** One gantry move: axis, signed distance in tenths of a mm, speed. */
  datatype Move = Move(axis: char, tenths: int, speed: int)

  /** What the rig observes: a line written to the serial port, or a move. */
  datatype Event = Write(line: string) | Motion(move: Move)

  // ---------------------------------------------------------------------
  // The serial protocol
  // ---------------------------------------------------------------------

  /** The line "<channel>,<value>\n" sent to the pressure controller. */
  function CommandLine(channel: int, value: int): (line: string)
    ensures EndsWith(line, "\n")
  {
    IntToString(channel) + "," + IntToString(value) + "\n"
  }

  function OpenLine(channel: int): string { CommandLine(channel, OpenCode) }

  function CloseLine(channel: int): string { CommandLine(channel, CloseCode) }

  /**
   * How the receiving side reads a line: drop the newline, split at the
   * comma, read two integers.  Anything else is not a command.
   */
  function ParseCommand(line: string): Option<(int, int)>
  {
    if !EndsWith(line, "\n") then None
    else
      var fields := Split(line[..|line| - 1], ',');
      if |fields| != 2 then None
      else match (ParseInt(fields[0]), ParseInt(fields[1]))
        case (Some(c), Some(v)) => Some((c, v))
        case _ => None
  }

  /** `str(i)` never holds a comma. */
  lemma NoCommaInNumber(i: int)
    ensures ',' !in IntToString(i)
  {
    var s := IntToString(i);
    forall k | 0 <= k < |s| ensures s[k] != ',' {
      assert IsDigit(s[k]) || s[k] == '-';
    }
  }

  /** Every command line the host writes is read back as the same pair. */
  lemma CommandRoundTrip(channel: int, value: int)
    ensures ParseCommand(CommandLine(channel, value)) == Some((channel, value))
  {
    var a, b := IntToString(channel), IntToString(value);
    var line := CommandLine(channel, value);
    assert line[..|line| - 1] == a + [','] + b;
    NoCommaInNumber(channel);
    NoCommaInNumber(value);
    assert Join([a, b], ',') == a + [','] + b;
    SplitJoin([a, b], ',');
    IntToStringRoundTrip(channel);
    IntToStringRoundTrip(value);
  }

  /** Different commands are different lines. */
  lemma CommandLineInjective(c1: int, v1: int, c2: int, v2: int)
    requires CommandLine(c1, v1) == CommandLine(c2, v2)
    ensures c1 == c2 && v1 == v2
  {
    CommandRoundTrip(c1, v1);
    CommandRoundTrip(c2, v2);
  }

  // ---------------------------------------------------------------------
  // The traces the rig's operations produce
  // ---------------------------------------------------------------------

  /** The set-points the pressure controller accepts. */
  predicate InRange(p: int) {
    MinPressure <= p <= MaxPressure
  }

  /** What `set_PID_pressure(channel, p)` writes: its line, or nothing when out of range. */
  function PressureWrites(channel: int, p: int): seq<Event>
  {
    if InRange(p) then [Write(CommandLine(channel, p))] else []
  }

  /** Channel 1 then channel 2 re-sent their desired pressures. */
  function Refresh(d1: int, d2: int): seq<Event>
  {
    PressureWrites(1, d1) + PressureWrites(2, d2)
  }

  /** A move followed by the two refreshes, as the job does after every move. */
  function MoveStep(m: Move, d1: int, d2: int): seq<Event>
  {
    [Motion(m)] + Refresh(d1, d2)
  }

  const MoveX := 600
  const MoveY := 50
  const MoveSpeed := 50
  const LayerStep := 4
  const LayerSpeed := 10
  const Rows := 100
  const UnitsPerRow := 5

  /** The Y step of row `i`: forward on even rows, back on odd rows. */
  function RowStep(i: int): int {
    if i % 2 == 0 then MoveY else -MoveY
  }

  /** One serpentine unit: out along X, over in Y, back along X, over in Y. */
  function UnitTrace(dy: int, d1: int, d2: int): seq<Event>
  {
    MoveStep(Move('X', MoveX, MoveSpeed), d1, d2) + MoveStep(Move('Y', dy, MoveSpeed), d1, d2)
    + MoveStep(Move('X', -MoveX, MoveSpeed), d1, d2) + MoveStep(Move('Y', dy, MoveSpeed), d1, d2)
  }

  function Repeat<T>(s: seq<T>, n: nat): seq<T>
  {
    if n == 0 then [] else Repeat(s, n - 1) + s
  }

  /** Row `i`: five units, then the C-axis step. */
  function RowTrace(i: int, d1: int, d2: int): seq<Event>
  {
    Repeat(UnitTrace(RowStep(i), d1, d2), UnitsPerRow) + [Motion(Move('C', LayerStep, LayerSpeed))]
  }

  /** The first `n` rows. */
  function RowsTrace(n: nat, d1: int, d2: int): seq<Event>
  {
    if n == 0 then [] else RowsTrace(n - 1, d1, d2) + RowTrace(n - 1, d1, d2)
  }

  /** Everything `printing_process` does, for the desired pressures it starts with. */
  function JobTrace(d1: int, d2: int): seq<Event>
  {
    Refresh(d1, d2) + [Write(OpenLine(1)), Write(OpenLine(2))]
    + RowsTrace(Rows, d1, d2)
    + [Write(CloseLine(1)), Write(CloseLine(2))]
  }

  /** Everything `cleanup` writes. */
  function CleanupTrace(): seq<Event>
  {
    PressureWrites(1, 0) + PressureWrites(2, 0) + [Write(CloseLine(1)), Write(CloseLine(2))]
  }

  /** Appending four pieces one after another appends their concatenation. */
  lemma Regroup<T>(x: seq<T>, a: seq<T>, b: seq<T>, c: seq<T>, d: seq<T>)
    ensures x + a + b + c + d == x + (a + b + c + d)
  {
  }

  /** Appending one more piece to `x + a`. */
  lemma Extend<T>(x: seq<T>, a: seq<T>, b: seq<T>)
    ensures x + a + b == x + (a + b)
  {
  }

  // ---------------------------------------------------------------------
  // The module-level state: serial port, gantry, desired pressures
  // ---------------------------------------------------------------------

  /**
   * The script's globals: what has gone out over the serial port and to the
   * gantry, and the desired pressure of each channel.
   */
  class Rig {
    var trace: seq<Event>
    var desired1: int
    var desired2: int

    constructor ()
      ensures trace == [] && desired1 == InitialPressure && desired2 == InitialPressure
    {
      trace := [];
      desired1 := InitialPressure;
      desired2 := InitialPressure;
    }

    /** `close_valve(n)`: writes "n,-2\n" and nothing else. */
    method CloseValve(n: int)
      modifies this
      ensures trace == old(trace) + [Write(CloseLine(n))]
      ensures desired1 == old(desired1) && desired2 == old(desired2)
    {
      trace := trace + [Write(CloseLine(n))];
    }

    /** `open_valve(n)`: writes "n,-1\n" and nothing else. */
    method OpenValve(n: int)
      modifies this
      ensures trace == old(trace) + [Write(OpenLine(n))]
      ensures desired1 == old(desired1) && desired2 == old(desired2)
    {
      trace := trace + [Write(OpenLine(n))];
    }

    /**
     * `set_PID_pressure(n, p)`: out of range, nothing at all; otherwise the
     * line "n,p\n", and channel n's desired pressure becomes p when n is 1 or 2.
     */
    method SetPidPressure(n: int, p: int)
      modifies this
      ensures trace == old(trace) + PressureWrites(n, p)
      ensures desired1 == if InRange(p) && n == 1 then p else old(desired1)
      ensures desired2 == if InRange(p) && n == 2 then p else old(desired2)
    {
      if p < MinPressure || p > MaxPressure {
        return;
      }
      trace := trace + [Write(CommandLine(n, p))];
      if n == 1 {
        desired1 := p;
      } else if n == 2 {
        desired2 := p;
      }
    }

    /** The gantry's linear move, recorded in order with the serial writes. */
    method MoveLinear(axis: char, tenths: int, speed: int)
      modifies this
      ensures trace == old(trace) + [Motion(Move(axis, tenths, speed))]
      ensures desired1 == old(desired1) && desired2 == old(desired2)
    {
      trace := trace + [Motion(Move(axis, tenths, speed))];
    }

    /** A move, then channel 1 and channel 2 set again to their desired pressures. */
    method MoveAndRefresh(axis: char, tenths: int, speed: int)
      modifies this
      ensures trace == old(trace) + MoveStep(Move(axis, tenths, speed), old(desired1), old(desired2))
      ensures desired1 == old(desired1) && desired2 == old(desired2)
    {
      MoveLinear(axis, tenths, speed);
      SetPidPressure(1, desired1);
      SetPidPressure(2, desired2);
    }

    /**
     * Row `i` of `printing_process`: five serpentine units, forward in Y on an
     * even row and back on an odd one, then the C-axis step.
     */
    method PrintRow(i: int)
      modifies this
      ensures trace == old(trace) + RowTrace(i, old(desired1), old(desired2))
      ensures desired1 == old(desired1) && desired2 == old(desired2)
    {
      ghost var d1, d2 := desired1, desired2;
      if i % 2 == 0 {
        for unit := 0 to UnitsPerRow
          invariant desired1 == d1 && desired2 == d2
          invariant trace == old(trace) + Repeat(UnitTrace(MoveY, d1, d2), unit)
        {
          ghost var before := trace;
          MoveAndRefresh('X', MoveX, MoveSpeed);
          MoveAndRefresh('Y', MoveY, MoveSpeed);
          MoveAndRefresh('X', -MoveX, MoveSpeed);
          MoveAndRefresh('Y', MoveY, MoveSpeed);
          Regroup(before, MoveStep(Move('X', MoveX, MoveSpeed), d1, d2), MoveStep(Move('Y', MoveY, MoveSpeed), d1, d2),
                  MoveStep(Move('X', -MoveX, MoveSpeed), d1, d2), MoveStep(Move('Y', MoveY, MoveSpeed), d1, d2));
          Extend(old(trace), Repeat(UnitTrace(MoveY, d1, d2), unit), UnitTrace(MoveY, d1, d2));
        }
      } else {
        for unit := 0 to UnitsPerRow
          invariant desired1 == d1 && desired2 == d2
          invariant trace == old(trace) + Repeat(UnitTrace(-MoveY, d1, d2), unit)
        {
          ghost var before := trace;
          MoveAndRefresh('X', MoveX, MoveSpeed);
          MoveAndRefresh('Y', -MoveY, MoveSpeed);
          MoveAndRefresh('X', -MoveX, MoveSpeed);
          MoveAndRefresh('Y', -MoveY, MoveSpeed);
          Regroup(before, MoveStep(Move('X', MoveX, MoveSpeed), d1, d2), MoveStep(Move('Y', -MoveY, MoveSpeed), d1, d2),
                  MoveStep(Move('X', -MoveX, MoveSpeed), d1, d2), MoveStep(Move('Y', -MoveY, MoveSpeed), d1, d2));
          Extend(old(trace), Repeat(UnitTrace(-MoveY, d1, d2), unit), UnitTrace(-MoveY, d1, d2));
        }
      }
      MoveLinear('C', LayerStep, LayerSpeed);
    }

    /**
     * `printing_process`: both set-points sent, both valves opened, the rows
     * printed, both valves closed; for the pressures desired when it starts.
     */
    method PrintingProcess()
      modifies this
      ensures trace == old(trace) + JobTrace(old(desired1), old(desired2))
      ensures desired1 == old(desired1) && desired2 == old(desired2)
    {
      ghost var d1, d2 := desired1, desired2;
      SetPidPressure(1, desired1);
      SetPidPressure(2, desired2);
      OpenValve(1);
      OpenValve(2);
      ghost var start := trace;
      assert start == old(trace) + Refresh(d1, d2) + [Write(OpenLine(1)), Write(OpenLine(2))];
      for i := 0 to Rows
        invariant desired1 == d1 && desired2 == d2
        invariant trace == start + RowsTrace(i, d1, d2)
      {
        PrintRow(i);
        Extend(start, RowsTrace(i, d1, d2), RowTrace(i, d1, d2));
      }
      CloseValve(1);
      CloseValve(2);
      Extend(start, RowsTrace(Rows, d1, d2), [Write(CloseLine(1)), Write(CloseLine(2))]);
      assert start + RowsTrace(Rows, d1, d2) + [Write(CloseLine(1))] + [Write(CloseLine(2))]
             == start + RowsTrace(Rows, d1, d2) + [Write(CloseLine(1)), Write(CloseLine(2))];
      Regroup(old(trace), Refresh(d1, d2), [Write(OpenLine(1)), Write(OpenLine(2))],
              RowsTrace(Rows, d1, d2), [Write(CloseLine(1)), Write(CloseLine(2))]);
    }

    /** `cleanup`: both set-points to 0, then both valves closed, whatever came before. */
    method Cleanup()
      modifies this
      ensures trace == old(trace) + CleanupTrace()
      ensures desired1 == 0 && desired2 == 0
    {
      SetPidPressure(1, 0);
      SetPidPressure(2, 0);
      CloseValve(1);
      CloseValve(2);
    }
  }

  // ---------------------------------------------------------------------
  // What the job and the cleanup amount to
  // ---------------------------------------------------------------------

  /** `str` of the small numbers the scripts send. */
  lemma SmallNumbers()
    ensures IntToString(0) == "0" && IntToString(1) == "1" && IntToString(2) == "2"
    ensures IntToString(-1) == "-1" && IntToString(-2) == "-2"
  {
    assert DigitChar(0) == '0' && DigitChar(1) == '1' && DigitChar(2) == '2';
  }

  /** The exact valve lines the scripts send. */
  lemma ProtocolLines()
    ensures OpenLine(1) == "1,-1\n" && OpenLine(2) == "2,-1\n"
    ensures CloseLine(1) == "1,-2\n" && CloseLine(2) == "2,-2\n"
  {
    SmallNumbers();
  }

  /** The exact lines `cleanup` sends: both set-points to zero, then both valves closed. */
  lemma CleanupLines()
    ensures CleanupTrace() == [Write("1,0\n"), Write("2,0\n"), Write("1,-2\n"), Write("2,-2\n")]
  {
    SmallNumbers();
    ProtocolLines();
    assert CommandLine(1, 0) == "1,0\n" && CommandLine(2, 0) == "2,0\n";
  }

  /** The four valve commands are four different lines. */
  lemma ValveLinesDistinct()
    ensures OpenLine(1) != CloseLine(1) && OpenLine(2) != CloseLine(2)
    ensures OpenLine(1) != OpenLine(2) && CloseLine(1) != CloseLine(2)
    ensures OpenLine(1) != CloseLine(2) && OpenLine(2) != CloseLine(1)
  {
    CommandRoundTrip(1, OpenCode);
    CommandRoundTrip(2, OpenCode);
    CommandRoundTrip(1, CloseCode);
    CommandRoundTrip(2, CloseCode);
  }

  /** The number of moves in a trace. */
  function MoveCount(t: seq<Event>): nat
  {
    if t == [] then 0 else (if t[0].Motion? then 1 else 0) + MoveCount(t[1..])
  }

  /** The number of serial writes in a trace. */
  function WriteCount(t: seq<Event>): nat
  {
    if t == [] then 0 else (if t[0].Write? then 1 else 0) + WriteCount(t[1..])
  }

  /** The net distance travelled along `axis`, in tenths of a mm. */
  function Travel(t: seq<Event>, axis: char): int
  {
    if t == [] then 0
    else (if t[0].Motion? && t[0].move.axis == axis then t[0].move.tenths else 0) + Travel(t[1..], axis)
  }

  /** The counts of a concatenation add up. */
  lemma {:induction false} CountsAppend(a: seq<Event>, b: seq<Event>, axis: char)
    ensures MoveCount(a + b) == MoveCount(a) + MoveCount(b)
    ensures WriteCount(a + b) == WriteCount(a) + WriteCount(b)
    ensures Travel(a + b, axis) == Travel(a, axis) + Travel(b, axis)
  {
    if a == [] {
      assert a + b == b;
    } else {
      assert (a + b)[0] == a[0] && (a + b)[1..] == a[1..] + b;
      CountsAppend(a[1..], b, axis);
    }
  }

  /** The counts of `n` repetitions are `n` times the counts of one. */
  lemma {:induction false} CountsRepeat(t: seq<Event>, n: nat, axis: char)
    ensures MoveCount(Repeat(t, n)) == n * MoveCount(t)
    ensures WriteCount(Repeat(t, n)) == n * WriteCount(t)
    ensures Travel(Repeat(t, n), axis) == n * Travel(t, axis)
  {
    if n > 0 {
      CountsRepeat(t, n - 1, axis);
      CountsAppend(Repeat(t, n - 1), t, axis);
      assert n * MoveCount(t) == (n - 1) * MoveCount(t) + MoveCount(t);
      assert n * WriteCount(t) == (n - 1) * WriteCount(t) + WriteCount(t);
      assert n * Travel(t, axis) == (n - 1) * Travel(t, axis) + Travel(t, axis);
    }
  }

  /** 1 when the set-point is sent, 0 when it is out of range and skipped. */
  function Sent(p: int): nat {
    if InRange(p) then 1 else 0
  }

  lemma StepCounts(m: Move, d1: int, d2: int, axis: char)
    ensures MoveCount(MoveStep(m, d1, d2)) == 1
    ensures WriteCount(MoveStep(m, d1, d2)) == Sent(d1) + Sent(d2)
    ensures Travel(MoveStep(m, d1, d2), axis) == if m.axis == axis then m.tenths else 0
  {
    CountsAppend(PressureWrites(1, d1), PressureWrites(2, d2), axis);
    CountsAppend([Motion(m)], Refresh(d1, d2), axis);
  }

  /** One unit along `axis`: four moves, four refreshes, and the unit's net travel. */
  lemma UnitCounts(dy: int, d1: int, d2: int, axis: char)
    ensures MoveCount(UnitTrace(dy, d1, d2)) == 4
    ensures WriteCount(UnitTrace(dy, d1, d2)) == 4 * (Sent(d1) + Sent(d2))
    ensures Travel(UnitTrace(dy, d1, d2), axis) == if axis == 'Y' then 2 * dy else 0
  {
    var s1, s2 := MoveStep(Move('X', MoveX, MoveSpeed), d1, d2), MoveStep(Move('Y', dy, MoveSpeed), d1, d2);
    var s3 := MoveStep(Move('X', -MoveX, MoveSpeed), d1, d2);
    StepCounts(Move('X', MoveX, MoveSpeed), d1, d2, axis);
    StepCounts(Move('Y', dy, MoveSpeed), d1, d2, axis);
    StepCounts(Move('X', -MoveX, MoveSpeed), d1, d2, axis);
    CountsAppend(s1, s2, axis);
    CountsAppend(s1 + s2, s3, axis);
    CountsAppend(s1 + s2 + s3, s2, axis);
  }

  /** One row: 21 moves, 20 refreshes, five Y double-steps and one C step. */
  lemma RowCounts(i: int, d1: int, d2: int, axis: char)
    ensures MoveCount(RowTrace(i, d1, d2)) == 21
    ensures WriteCount(RowTrace(i, d1, d2)) == 20 * (Sent(d1) + Sent(d2))
    ensures Travel(RowTrace(i, d1, d2), axis) ==
              if axis == 'Y' then 10 * RowStep(i) else if axis == 'C' then LayerStep else 0
  {
    var u := UnitTrace(RowStep(i), d1, d2);
    UnitCounts(RowStep(i), d1, d2, axis);
    CountsRepeat(u, UnitsPerRow, axis);
    CountsAppend(Repeat(u, UnitsPerRow), [Motion(Move('C', LayerStep, LayerSpeed))], axis);
  }

  /** Adding a row of 21 moves to `n - 1` such rows gives `n` of them. */
  lemma MovesStep(prev: seq<Event>, row: seq<Event>, n: nat)
    requires n > 0
    requires MoveCount(prev) == 21 * (n - 1) && MoveCount(row) == 21
    ensures MoveCount(prev + row) == 21 * n
  {
    CountsAppend(prev, row, 'X');
  }

  /** The first `n` rows make 21 moves each. */
  lemma {:induction false} RowsMoves(n: nat, d1: int, d2: int)
    ensures MoveCount(RowsTrace(n, d1, d2)) == 21 * n
  {
    if n > 0 {
      RowsMoves(n - 1, d1, d2);
      RowCounts(n - 1, d1, d2, 'X');
      MovesStep(RowsTrace(n - 1, d1, d2), RowTrace(n - 1, d1, d2), n);
    }
  }

  /** Adding one more row of `perRow` writes to `n - 1` such rows gives `n` of them. */
  lemma WritesStep(prev: seq<Event>, row: seq<Event>, n: nat, perRow: nat)
    requires n > 0
    requires WriteCount(prev) == (n - 1) * perRow && WriteCount(row) == perRow
    ensures WriteCount(prev + row) == n * perRow
  {
    CountsAppend(prev, row, 'X');
    assert n * perRow == (n - 1) * perRow + perRow;
  }

  /** The first `n` rows refresh each in-range channel 20 times per row. */
  lemma {:induction false} RowsWrites(n: nat, d1: int, d2: int)
    ensures WriteCount(RowsTrace(n, d1, d2)) == n * (20 * (Sent(d1) + Sent(d2)))
  {
    if n > 0 {
      RowsWrites(n - 1, d1, d2);
      RowCounts(n - 1, d1, d2, 'X');
      WritesStep(RowsTrace(n - 1, d1, d2), RowTrace(n - 1, d1, d2), n, 20 * (Sent(d1) + Sent(d2)));
    }
  }

  /** Where the first `n` rows leave an axis: Y is back at the start after every even number of rows, C has risen `n` steps. */
  function RowsTravelled(n: nat, axis: char): int {
    if axis == 'Y' then (if n % 2 == 0 then 0 else 10 * MoveY)
    else if axis == 'C' then LayerStep * n else 0
  }

  /** Adding row `n - 1` to the first `n - 1` rows gives the first `n`. */
  lemma TravelledStep(prev: seq<Event>, row: seq<Event>, n: nat, axis: char)
    requires n > 0
    requires Travel(prev, axis) == RowsTravelled(n - 1, axis)
    requires Travel(row, axis) == if axis == 'Y' then 10 * RowStep(n - 1) else if axis == 'C' then LayerStep else 0
    ensures Travel(prev + row, axis) == RowsTravelled(n, axis)
  {
    CountsAppend(prev, row, axis);
  }

  /** The first `n` rows: Y is back at the start after every even number of rows, and C has risen `n` steps. */
  lemma {:induction false} RowsTravel(n: nat, d1: int, d2: int, axis: char)
    ensures Travel(RowsTrace(n, d1, d2), axis) == RowsTravelled(n, axis)
  {
    if n > 0 {
      RowsTravel(n - 1, d1, d2, axis);
      RowCounts(n - 1, d1, d2, axis);
      TravelledStep(RowsTrace(n - 1, d1, d2), RowTrace(n - 1, d1, d2), n, axis);
    }
  }

  /** The counts of four concatenated pieces add up. */
  lemma CountsOfFour(a: seq<Event>, b: seq<Event>, c: seq<Event>, d: seq<Event>, axis: char)
    ensures MoveCount(a + b + c + d) == MoveCount(a) + MoveCount(b) + MoveCount(c) + MoveCount(d)
    ensures WriteCount(a + b + c + d) == WriteCount(a) + WriteCount(b) + WriteCount(c) + WriteCount(d)
    ensures Travel(a + b + c + d, axis) == Travel(a, axis) + Travel(b, axis) + Travel(c, axis) + Travel(d, axis)
  {
    CountsAppend(a, b, axis);
    CountsAppend(a + b, c, axis);
    CountsAppend(a + b + c, d, axis);
  }

  /** A refresh writes once per in-range channel and moves nothing. */
  lemma RefreshCounts(d1: int, d2: int, axis: char)
    ensures MoveCount(Refresh(d1, d2)) == 0
    ensures WriteCount(Refresh(d1, d2)) == Sent(d1) + Sent(d2)
    ensures Travel(Refresh(d1, d2), axis) == 0
  {
    CountsAppend(PressureWrites(1, d1), PressureWrites(2, d2), axis);
  }

  /**
   * The whole job: 2100 moves; X and Y both end where they started and C has
   * risen 100 steps of 0.4 mm; and the serial port sees the four valve
   * commands plus 2001 set-points for each channel whose desired pressure is
   * in range, and none for a channel whose desired pressure is not.
   */
  lemma JobCounts(d1: int, d2: int, axis: char)
    ensures MoveCount(JobTrace(d1, d2)) == 2100
    ensures Travel(JobTrace(d1, d2), axis) == if axis == 'C' then 400 else 0
    ensures WriteCount(JobTrace(d1, d2)) == 4 + 2001 * (Sent(d1) + Sent(d2))
  {
    var opens: seq<Event> := [Write(OpenLine(1)), Write(OpenLine(2))];
    var closes: seq<Event> := [Write(CloseLine(1)), Write(CloseLine(2))];
    assert Travel(opens[1..], axis) == 0 && Travel(closes[1..], axis) == 0;
    assert MoveCount(opens) == MoveCount(closes) == 0 && Travel(opens, axis) == Travel(closes, axis) == 0;
    assert WriteCount(opens) == WriteCount(closes) == 2;
    RefreshCounts(d1, d2, axis);
    RowsMoves(Rows, d1, d2);
    RowsWrites(Rows, d1, d2);
    RowsTravel(Rows, d1, d2, axis);
    CountsOfFour(Refresh(d1, d2), opens, RowsTrace(Rows, d1, d2), closes, axis);
  }

  /** The moves the job makes: the four serpentine moves at 50 and the C step at 10. */
  predicate JobMove(m: Move) {
    || m == Move('X', MoveX, MoveSpeed) || m == Move('X', -MoveX, MoveSpeed)
    || m == Move('Y', MoveY, MoveSpeed) || m == Move('Y', -MoveY, MoveSpeed)
    || m == Move('C', LayerStep, LayerSpeed)
  }

  /**
   * The lines the job writes: a valve command, or a channel's desired
   * pressure when (and only when) that pressure is in range.
   */
  predicate JobWrite(line: string, d1: int, d2: int) {
    || line == OpenLine(1) || line == OpenLine(2) || line == CloseLine(1) || line == CloseLine(2)
    || (InRange(d1) && line == CommandLine(1, d1))
    || (InRange(d2) && line == CommandLine(2, d2))
  }

  predicate JobEvent(e: Event, d1: int, d2: int) {
    match e
    case Motion(m) => JobMove(m)
    case Write(line) => JobWrite(line, d1, d2)
  }

  /** Every event of `t` is one the job may produce. */
  predicate AllJobEvents(t: seq<Event>, d1: int, d2: int) {
    forall e :: e in t ==> JobEvent(e, d1, d2)
  }

  lemma AllAppend(a: seq<Event>, b: seq<Event>, d1: int, d2: int)
    requires AllJobEvents(a, d1, d2) && AllJobEvents(b, d1, d2)
    ensures AllJobEvents(a + b, d1, d2)
  {
  }

  lemma {:induction false} AllRepeat(t: seq<Event>, n: nat, d1: int, d2: int)
    requires AllJobEvents(t, d1, d2)
    ensures AllJobEvents(Repeat(t, n), d1, d2)
  {
    if n > 0 {
      AllRepeat(t, n - 1, d1, d2);
      AllAppend(Repeat(t, n - 1), t, d1, d2);
    }
  }

  lemma StepEvents(m: Move, d1: int, d2: int)
    requires JobMove(m)
    ensures AllJobEvents(MoveStep(m, d1, d2), d1, d2)
  {
  }

  lemma RowEvents(i: int, d1: int, d2: int)
    ensures AllJobEvents(RowTrace(i, d1, d2), d1, d2)
  {
    var dy := RowStep(i);
    var s1, s2 := MoveStep(Move('X', MoveX, MoveSpeed), d1, d2), MoveStep(Move('Y', dy, MoveSpeed), d1, d2);
    var s3 := MoveStep(Move('X', -MoveX, MoveSpeed), d1, d2);
    StepEvents(Move('X', MoveX, MoveSpeed), d1, d2);
    StepEvents(Move('Y', dy, MoveSpeed), d1, d2);
    StepEvents(Move('X', -MoveX, MoveSpeed), d1, d2);
    AllAppend(s1, s2, d1, d2);
    AllAppend(s1 + s2, s3, d1, d2);
    AllAppend(s1 + s2 + s3, s2, d1, d2);
    AllRepeat(UnitTrace(dy, d1, d2), UnitsPerRow, d1, d2);
    AllAppend(Repeat(UnitTrace(dy, d1, d2), UnitsPerRow), [Motion(Move('C', LayerStep, LayerSpeed))], d1, d2);
  }

  lemma {:induction false} RowsEvents(n: nat, d1: int, d2: int)
    ensures AllJobEvents(RowsTrace(n, d1, d2), d1, d2)
  {
    if n > 0 {
      RowsEvents(n - 1, d1, d2);
      RowEvents(n - 1, d1, d2);
      AllAppend(RowsTrace(n - 1, d1, d2), RowTrace(n - 1, d1, d2), d1, d2);
    }
  }

  /** What the receiving side reads from a line the job may write. */
  lemma JobWriteDecodes(line: string, d1: int, d2: int)
    requires JobWrite(line, d1, d2)
    ensures ParseCommand(line) in {Some((1, OpenCode)), Some((2, OpenCode)),
                                   Some((1, CloseCode)), Some((2, CloseCode)),
                                   Some((1, d1)), Some((2, d2))}
  {
    CommandRoundTrip(1, OpenCode);
    CommandRoundTrip(2, OpenCode);
    CommandRoundTrip(1, CloseCode);
    CommandRoundTrip(2, CloseCode);
    CommandRoundTrip(1, d1);
    CommandRoundTrip(2, d2);
  }

  /**
   * Every event of the job is one of its five moves (so the speeds are fixed)
   * or one of its expected lines, and every line it writes decodes, on the
   * receiving side, to a valve code or to the channel's own desired pressure.
   */
  lemma JobEvents(d1: int, d2: int)
    ensures AllJobEvents(JobTrace(d1, d2), d1, d2)
    ensures forall e :: e in JobTrace(d1, d2) && e.Write? ==>
              ParseCommand(e.line) in {Some((1, OpenCode)), Some((2, OpenCode)),
                                       Some((1, CloseCode)), Some((2, CloseCode)),
                                       Some((1, d1)), Some((2, d2))}
  {
    var opens: seq<Event> := [Write(OpenLine(1)), Write(OpenLine(2))];
    var closes: seq<Event> := [Write(CloseLine(1)), Write(CloseLine(2))];
    assert AllJobEvents(Refresh(d1, d2), d1, d2);
    AllAppend(Refresh(d1, d2), opens, d1, d2);
    RowsEvents(Rows, d1, d2);
    AllAppend(Refresh(d1, d2) + opens, RowsTrace(Rows, d1, d2), d1, d2);
    AllAppend(Refresh(d1, d2) + opens + RowsTrace(Rows, d1, d2), closes, d1, d2);
    forall e | e in JobTrace(d1, d2) && e.Write?
      ensures ParseCommand(e.line) in {Some((1, OpenCode)), Some((2, OpenCode)),
                                       Some((1, CloseCode)), Some((2, CloseCode)),
                                       Some((1, d1)), Some((2, d2))}
    {
      JobWriteDecodes(e.line, d1, d2);
    }
  }

  /** What one event does to valve `ch`: an open or close command for it decides. */
  function ValveStep(e: Event, ch: int, open: bool): bool
  {
    if e == Write(OpenLine(ch)) then true
    else if e == Write(CloseLine(ch)) then false
    else open
  }

  /** Whether valve `ch` is open after the trace, from `open` before it. */
  function ValveOpenAfter(t: seq<Event>, ch: int, open: bool): bool
  {
    if t == [] then open else ValveOpenAfter(t[1..], ch, ValveStep(t[0], ch, open))
  }

  lemma {:induction false} ValveOpenAfterAppend(a: seq<Event>, b: seq<Event>, ch: int, open: bool)
    ensures ValveOpenAfter(a + b, ch, open) == ValveOpenAfter(b, ch, ValveOpenAfter(a, ch, open))
  {
    if a == [] {
      assert a + b == b;
    } else {
      assert (a + b)[0] == a[0] && (a + b)[1..] == a[1..] + b;
      ValveOpenAfterAppend(a[1..], b, ch, ValveStep(a[0], ch, open));
    }
  }

  lemma ValveOpenAfterOne(e: Event, ch: int, open: bool)
    ensures ValveOpenAfter([e], ch, open) == ValveStep(e, ch, open)
  {
    assert [e][1..] == [];
  }

  /** Closing valve 1 then valve 2 leaves both closed, whatever state they were in. */
  lemma CloseBothCloses(ch: int, open: bool)
    requires ch == 1 || ch == 2
    ensures !ValveOpenAfter([Write(CloseLine(1)), Write(CloseLine(2))], ch, open)
  {
    var e1, e2 := Write(CloseLine(1)), Write(CloseLine(2));
    assert [e1, e2] == [e1] + [e2];
    ValveLinesDistinct();
    ValveOpenAfterAppend([e1], [e2], ch, open);
    ValveOpenAfterOne(e1, ch, open);
    ValveOpenAfterOne(e2, ch, ValveStep(e1, ch, open));
  }

  /**
   * Both the job and the cleanup end with both valves closed, from any
   * history and any valve state before them.
   */
  lemma JobAndCleanupCloseValves(before: seq<Event>, ch: int, open: bool, d1: int, d2: int)
    requires ch == 1 || ch == 2
    ensures !ValveOpenAfter(before + JobTrace(d1, d2), ch, open)
    ensures !ValveOpenAfter(before + CleanupTrace(), ch, open)
  {
    var close: seq<Event> := [Write(CloseLine(1)), Write(CloseLine(2))];
    var job := before + (Refresh(d1, d2) + [Write(OpenLine(1)), Write(OpenLine(2))] + RowsTrace(Rows, d1, d2));
    assert before + JobTrace(d1, d2) == job + close;
    ValveOpenAfterAppend(job, close, ch, open);
    CloseBothCloses(ch, ValveOpenAfter(job, ch, open));
    var clean := before + (PressureWrites(1, 0) + PressureWrites(2, 0));
    assert before + CleanupTrace() == clean + close;
    ValveOpenAfterAppend(clean, close, ch, open);
    CloseBothCloses(ch, ValveOpenAfter(clean, ch, open));
  }

  // ---------------------------------------------------------------------
  // The window's valve buttons and pressure entries
  // ---------------------------------------------------------------------

  /** The valve map after valve `n` is toggled. */
  function Toggled(valves: map<int, bool>, n: int): (r: map<int, bool>)
    requires n in valves
    ensures r.Keys == valves.Keys && r[n] == !valves[n]
    ensures forall k :: k in valves && k != n ==> r[k] == valves[k]
  {
    valves[n := !valves[n]]
  }

  /** The line a toggle writes: close an open valve, open a closed one. */
  function ToggleLine(valves: map<int, bool>, n: int): string
    requires n in valves
  {
    if valves[n] then CloseLine(n) else OpenLine(n)
  }

  /**
   * Toggling twice restores the valve map, and the two writes are the close
   * and open commands of that valve in the order its state calls for.
   */
  lemma ToggleTwice(valves: map<int, bool>, n: int)
    requires n in valves
    ensures Toggled(Toggled(valves, n), n) == valves
    ensures ToggleLine(Toggled(valves, n), n) != ToggleLine(valves, n)
    ensures valves[n] ==> [ToggleLine(valves, n), ToggleLine(Toggled(valves, n), n)] == [CloseLine(n), OpenLine(n)]
  {
    CommandRoundTrip(n, OpenCode);
    CommandRoundTrip(n, CloseCode);
  }

  /** The pressure-control window: per-valve open/closed flags over the shared rig. */
  class PressureControlApp {
    const rig: Rig
    var valveState: map<int, bool>

    /** Both valves start open. */
    constructor (rig: Rig)
      ensures this.rig == rig && valveState == map[1 := true, 2 := true]
    {
      this.rig := rig;
      valveState := map[1 := true, 2 := true];
    }

    /**
     * `toggle_valve(n)`: flips valve n's flag and writes the matching command;
     * `ok` is false for a valve number the map does not hold (the KeyError),
     * in which case nothing changes.
     */
    method ToggleValve(n: int) returns (ok: bool)
      modifies this, rig
      ensures ok <==> n in old(valveState)
      ensures ok ==> valveState == Toggled(old(valveState), n)
                     && rig.trace == old(rig.trace) + [Write(ToggleLine(old(valveState), n))]
      ensures !ok ==> valveState == old(valveState) && rig.trace == old(rig.trace)
      ensures rig.desired1 == old(rig.desired1) && rig.desired2 == old(rig.desired2)
    {
      if n !in valveState {
        return false;
      }
      var state := valveState[n];
      if state {
        rig.CloseValve(n);
        valveState := valveState[n := false];
      } else {
        rig.OpenValve(n);
        valveState := valveState[n := true];
      }
      ok := true;
    }

    /**
     * `update_desired_pressure_1`: stores whatever integer the entry parses to,
     * with no range check; an entry that does not parse changes nothing.
     */
    method UpdateDesiredPressure1(entry: string) returns (ok: bool)
      modifies rig
      ensures ok <==> ParseInt(entry).Some?
      ensures rig.desired1 == if ok then ParseInt(entry).value else old(rig.desired1)
      ensures rig.desired2 == old(rig.desired2) && rig.trace == old(rig.trace)
    {
      var parsed := ParseInt(entry);
      if parsed.None? {
        return false;
      }
      rig.desired1 := parsed.value;
      ok := true;
    }

    /** `update_desired_pressure_2`, the same for channel 2. */
    method UpdateDesiredPressure2(entry: string) returns (ok: bool)
      modifies rig
      ensures ok <==> ParseInt(entry).Some?
      ensures rig.desired2 == if ok then ParseInt(entry).value else old(rig.desired2)
      ensures rig.desired1 == old(rig.desired1) && rig.trace == old(rig.trace)
    {
      var parsed := ParseInt(entry);
      if parsed.None? {
        return false;
      }
      rig.desired2 := parsed.value;
      ok := true;
    }
  }
}
