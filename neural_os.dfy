/** The NeuralOS demo page: a process table, a system log and two load
    metrics, changed by the Add/Remove/Start/Reset controls and by a one-second
    tick while running. Every `Math.random()` draw, every `new Date()` ISO
    timestamp and the `toFixed(1)` rendering of a metric are parameters. */
module NeuralOS {
  import opened Common
  import opened Numerals

  datatype Status = Running | Waiting | Completed

  datatype Level = Info | Warning | Error

  datatype Process = Process(id: int, name: string, status: Status, priority: int, cpu: real, memory: real)

  datatype SystemLog = SystemLog(timestamp: string, level: Level, message: string)

  datatype Metrics = Metrics(cpu: real, memory: real)

  /** The number of earlier entries a tick keeps (`prev.slice(-9)`). */
  const KeptLogs: nat := 9

  /** `Math.min(100, Math.max(0, x))` */
  function Clamp(x: real): (r: real)
    ensures 0.0 <= r <= 100.0
    ensures 0.0 <= x <= 100.0 ==> r == x
    ensures x < 0.0 ==> r == 0.0
    ensures x > 100.0 ==> r == 100.0
  {
    var low := if x < 0.0 then 0.0 else x;
    if low > 100.0 then 100.0 else low
  }

  /** Clamping never moves a value that was in range further than the unclamped value. */
  lemma ClampStep(prev: real, x: real)
    requires 0.0 <= prev <= 100.0
    ensures (if Clamp(x) >= prev then Clamp(x) - prev else prev - Clamp(x)) <=
            (if x >= prev then x - prev else prev - x)
  {
  }

  predicate InRange(x: real)
  {
    0.0 <= x <= 100.0
  }

  /** The tick's new system metrics; `rCpu` and `rMem` are its two draws. */
  function TickMetrics(m: Metrics, rCpu: real, rMem: real): (r: Metrics)
    ensures InRange(r.cpu) && InRange(r.memory)
  {
    Metrics(Clamp(m.cpu + (rCpu * 10.0 - 5.0)), Clamp(m.memory + (rMem * 5.0 - 2.5)))
  }

  /** With draws in [0, 1), a tick moves system cpu by at most 5 points and memory by at most 2.5. */
  lemma TickMetricsStep(m: Metrics, rCpu: real, rMem: real)
    requires InRange(m.cpu) && InRange(m.memory)
    requires 0.0 <= rCpu < 1.0 && 0.0 <= rMem < 1.0
    ensures var r := TickMetrics(m, rCpu, rMem);
            -5.0 <= r.cpu - m.cpu <= 5.0 && -2.5 <= r.memory - m.memory <= 2.5
  {
    ClampStep(m.cpu, m.cpu + (rCpu * 10.0 - 5.0));
    ClampStep(m.memory, m.memory + (rMem * 5.0 - 2.5));
  }

  /** One process's jitter: only cpu and memory change, both clamped. */
  function TickProcess(p: Process, rCpu: real, rMem: real): (r: Process)
    ensures r == p.(cpu := r.cpu, memory := r.memory)
    ensures InRange(r.cpu) && InRange(r.memory)
  {
    p.(cpu := Clamp(p.cpu + (rCpu * 5.0 - 2.5)), memory := Clamp(p.memory + (rMem * 3.0 - 1.5)))
  }

  /** The tick's process update: only cpu and memory change, and both land in [0, 100]. */
  function TickProcesses(ps: seq<Process>, rCpu: nat -> real, rMem: nat -> real): (r: seq<Process>)
    ensures |r| == |ps|
    ensures forall i :: 0 <= i < |r| ==>
      r[i].id == ps[i].id && r[i].name == ps[i].name &&
      r[i].status == ps[i].status && r[i].priority == ps[i].priority
    ensures forall i :: 0 <= i < |r| ==> InRange(r[i].cpu) && InRange(r[i].memory)
  {
    var r := seq(|ps|, i requires 0 <= i < |ps| => TickProcess(ps[i], rCpu(i), rMem(i)));
    assert forall i :: 0 <= i < |ps| ==> r[i] == TickProcess(ps[i], rCpu(i), rMem(i));
    r
  }

  /** `prev.slice(-9)` followed by the new entry. */
  function AppendBounded(logs: seq<SystemLog>, entry: SystemLog): (r: seq<SystemLog>)
    ensures |r| == (if |logs| < KeptLogs then |logs| else KeptLogs) + 1
    ensures r[|r| - 1] == entry
    ensures |logs| <= KeptLogs ==> r == logs + [entry]
    ensures forall i :: 0 <= i < |r| - 1 ==> r[i] == logs[|logs| - (|r| - 1) + i]
  {
    KeepLast(logs, KeptLogs) + [entry]
  }

  /** The tick entry's level: a warning for a draw above 0.9, never an error. */
  function LevelOf(draw: real): (r: Level)
    ensures r == Warning <==> draw > 0.9
    ensures r != Error
  {
    if draw > 0.9 then Warning else Info
  }

  /** `System metrics updated: CPU ${cpu.toFixed(1)}%, Memory ${memory.toFixed(1)}%` */
  function MetricsMessage(m: Metrics, fixed1: real -> string): string
  {
    "System metrics updated: CPU " + fixed1(m.cpu) + "%, Memory " + fixed1(m.memory) + "%"
  }

  const ProcessPrefix: string := "Process "

  /** The process `handleAddProcess` creates when the table holds `count` rows. */
  function NewProcess(count: nat, rPriority: real, rCpu: real, rMem: real): (p: Process)
    requires 0.0 <= rPriority < 1.0
    ensures p.id == count + 1 && p.status == Waiting
    ensures 1 <= p.priority <= 3
    ensures p.name == ProcessPrefix + ToBase(p.id, 10)
    ensures |p.name| > |ProcessPrefix| && p.name[..|ProcessPrefix|] == ProcessPrefix
    ensures FromBase(p.name[|ProcessPrefix|..], 10) == p.id
  {
    var id := count + 1;
    var name := ProcessPrefix + ToBase(id, 10);
    assert name[|ProcessPrefix|..] == ToBase(id, 10);
    FromToBase(id, 10);
    Process(id, name, Waiting, (rPriority * 3.0).Floor + 1, rCpu * 10.0, rMem * 20.0)
  }

  /** `processes.find(p => p.id === id)`: the first process with that id. */
  function FindProcess(ps: seq<Process>, id: int): (r: Option<Process>)
    ensures r.None? <==> forall i :: 0 <= i < |ps| ==> ps[i].id != id
    ensures r.Some? ==> exists i :: 0 <= i < |ps| && ps[i] == r.value && ps[i].id == id &&
                                    forall j :: 0 <= j < i ==> ps[j].id != id
    decreases |ps|
  {
    if ps == [] then None
    else if ps[0].id == id then Some(ps[0])
    else
      var r := FindProcess(ps[1..], id);
      assert r.Some? ==> exists i :: 1 <= i < |ps| && ps[i] == r.value && ps[i].id == id &&
                                     forall j :: 0 <= j < i ==> ps[j].id != id by {
        if r.Some? {
          var k :| 0 <= k < |ps| - 1 && ps[1..][k] == r.value && ps[1..][k].id == id &&
                   forall j :: 0 <= j < k ==> ps[1..][j].id != id;
          assert forall j :: 1 <= j < k + 1 ==> ps[j] == ps[1..][j - 1];
        }
      }
      r
  }

  /** The predicate of `prev.filter(p => p.id !== id)`. */
  function KeepsProcess(id: int): Process -> bool
  {
    (p: Process) => p.id != id
  }

  function WithoutProcess(ps: seq<Process>, id: int): (r: seq<Process>)
    ensures forall i :: 0 <= i < |r| ==> r[i] in ps && r[i].id != id
    ensures forall i :: 0 <= i < |ps| && ps[i].id != id ==> ps[i] in r
    ensures FindProcess(ps, id).None? ==> r == ps
  {
    Filter(ps, KeepsProcess(id))
  }

  /** A removal is logged exactly when it shrinks the table. */
  lemma RemovalLoggedIffRemoved(ps: seq<Process>, id: int)
    ensures FindProcess(ps, id).Some? <==> |WithoutProcess(ps, id)| < |ps|
  {
    if FindProcess(ps, id).Some? {
      var i :| 0 <= i < |ps| && ps[i].id == id;
      FilterDropsSome(ps, KeepsProcess(id), i);
    }
  }

  /** Every cpu and memory figure the page shows is a percentage in [0, 100]. */
  predicate MetricsInRange(m: Metrics, ps: seq<Process>)
  {
    InRange(m.cpu) && InRange(m.memory) &&
    forall i :: 0 <= i < |ps| ==> InRange(ps[i].cpu) && InRange(ps[i].memory)
  }

  /** The start-up table: ids 1, 2, 3 in order, every figure a percentage. */
  function InitialProcesses(): (r: seq<Process>)
    ensures |r| == 3 && forall i :: 0 <= i < |r| ==> r[i].id == i + 1
    ensures MetricsInRange(Metrics(0.0, 0.0), r)
  {
    [ Process(1, "System Monitor", Running, 1, 5.0, 10.0),
      Process(2, "Task Scheduler", Running, 2, 8.0, 15.0),
      Process(3, "Memory Manager", Waiting, 3, 3.0, 20.0) ]
  }

  class NeuralOS {
    var isRunning: bool
    var systemMetrics: Metrics
    var processes: seq<Process>
    var logs: seq<SystemLog>

    ghost predicate Valid()
      reads this
    {
      MetricsInRange(systemMetrics, processes)
    }

    /** The initial state; `t1` and `t2` are the two start-up timestamps. */
    constructor (t1: string, t2: string)
      ensures Valid()
      ensures !isRunning && systemMetrics == Metrics(0.0, 0.0)
      ensures processes == InitialProcesses()
      ensures logs == [SystemLog(t1, Info, "System initialized"), SystemLog(t2, Info, "Task scheduler started")]
    {
      isRunning := false;
      systemMetrics := Metrics(0.0, 0.0);
      processes := InitialProcesses();
      logs := [SystemLog(t1, Info, "System initialized"), SystemLog(t2, Info, "Task scheduler started")];
    }

    /** The Start/Stop button. */
    method ToggleRunning()
      requires Valid()
      modifies this`isRunning
      ensures Valid() && isRunning == !old(isRunning)
    {
      isRunning := !isRunning;
    }

    /** One firing of the interval that exists while running. */
    method Tick(rCpu: real, rMem: real, procCpu: nat -> real, procMem: nat -> real,
                rLevel: real, now: string, fixed1: real -> string)
      requires Valid() && isRunning
      modifies this`systemMetrics, this`processes, this`logs
      ensures Valid()
      ensures systemMetrics == TickMetrics(old(systemMetrics), rCpu, rMem)
      ensures processes == TickProcesses(old(processes), procCpu, procMem)
      ensures logs == AppendBounded(old(logs), SystemLog(now, LevelOf(rLevel), MetricsMessage(systemMetrics, fixed1)))
      ensures |logs| == (if |old(logs)| < KeptLogs then |old(logs)| else KeptLogs) + 1
    {
      var newMetrics := TickMetrics(systemMetrics, rCpu, rMem);
      systemMetrics := newMetrics;
      processes := TickProcesses(processes, procCpu, procMem);
      logs := AppendBounded(logs, SystemLog(now, LevelOf(rLevel), MetricsMessage(newMetrics, fixed1)));
    }

    /** `handleAddProcess`; the three draws give priority, cpu and memory. */
    method AddProcess(rPriority: real, rCpu: real, rMem: real, now: string)
      requires Valid()
      requires 0.0 <= rPriority < 1.0 && 0.0 <= rCpu < 1.0 && 0.0 <= rMem < 1.0
      modifies this`processes, this`logs
      ensures Valid()
      ensures processes == old(processes) + [NewProcess(|old(processes)|, rPriority, rCpu, rMem)]
      ensures processes[|processes| - 1].id == |old(processes)| + 1
      ensures logs == old(logs) + [SystemLog(now, Info, "New process added: " + processes[|processes| - 1].name)]
    {
      var p := NewProcess(|processes|, rPriority, rCpu, rMem);
      processes := processes + [p];
      logs := logs + [SystemLog(now, Info, "New process added: " + p.name)];
    }

    /** `handleRemoveProcess(id)`: drops every process with that id and logs
        the first one's name, if there was one. */
    method RemoveProcess(id: int, now: string)
      requires Valid()
      modifies this`processes, this`logs
      ensures Valid()
      ensures processes == WithoutProcess(old(processes), id)
      ensures forall i :: 0 <= i < |processes| ==> processes[i].id != id
      ensures match FindProcess(old(processes), id)
              case None => logs == old(logs)
              case Some(p) => logs == old(logs) + [SystemLog(now, Info, "Process removed: " + p.name)]
    {
      var found := FindProcess(processes, id);
      processes := WithoutProcess(processes, id);
      if found.Some? {
        logs := logs + [SystemLog(now, Info, "Process removed: " + found.value.name)];
      }
    }

    /** The Reset button: stops, zeroes the metrics, leaves one log entry and the processes as they are. */
    method Reset(now: string)
      requires Valid()
      modifies this`isRunning, this`systemMetrics, this`logs
      ensures Valid()
      ensures !isRunning && systemMetrics == Metrics(0.0, 0.0)
      ensures logs == [SystemLog(now, Info, "System reset")]
    {
      isRunning := false;
      systemMetrics := Metrics(0.0, 0.0);
      logs := [SystemLog(now, Info, "System reset")];
    }
  }

  lemma RemoveFirstInitialProcess()
    ensures WithoutProcess(InitialProcesses(), 1) == InitialProcesses()[1..]
  {
    var ps := InitialProcesses();
    assert ps == [ps[0]] + ps[1..];
    FilterAppend([ps[0]], ps[1..], KeepsProcess(1));
  }

  /** From the start-up table (ids 1, 2, 3), removing process 1 and adding a
      process gives the new process id 3 = length + 1, which "Memory Manager"
      already has. */
  method DuplicateIdAfterRemoveAndAdd(rPriority: real, rCpu: real, rMem: real) returns (ids: seq<int>)
    requires 0.0 <= rPriority < 1.0 && 0.0 <= rCpu < 1.0 && 0.0 <= rMem < 1.0
    ensures ids == [2, 3, 3]
  {
    var os := new NeuralOS("t0", "t0");
    os.RemoveProcess(1, "t1");
    RemoveFirstInitialProcess();
    var kept := os.processes;
    assert kept == InitialProcesses()[1..];
    assert |kept| == 2 && kept[0].id == 2 && kept[1].id == 3;
    os.AddProcess(rPriority, rCpu, rMem, "t2");
    assert os.processes == kept + [NewProcess(2, rPriority, rCpu, rMem)];
    ids := [os.processes[0].id, os.processes[1].id, os.processes[2].id];
  }
}
