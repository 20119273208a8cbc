/**
 CpuResolver and MemResolver of web/cmdexec: parameters are normalised and passed to an os.exe
 child as command line text, which the main function of web/category/event/cmd.go reads back.
 */
module BurnLaunch {
  import opened Names
  import opened Options
  import Decimal
  import MemBurn
  import MemBurnTheorems

  const CPU_FULL_LOAD := "fullload"
  const MEM_LOAD := "load"
  const DEFAULT_TIMEOUT := 60
  const DEFAULT_MODE := "ram"

  type GoInt = n: int | Decimal.IsInt64(n)

  class CpuParam {
    var cmt: string
    var cpuCount: GoInt
    var cpuPercent: GoInt
    var timeout: GoInt
  }

  class MemParam {
    var cmt: string
    var mode: string
    var memPercent: GoInt
    var timeout: GoInt
  }

  datatype Launch = Rejected | Spawned(argv: seq<string>)

  /** What the child process runs with. */
  datatype Child =
    | CpuRun(cpuCount: int, cpuPercent: int, uid: string, timeout: int)
    | MemRun(memPercent: int, mode: string, uid: string, timeout: int)
    | NotExpected

  /** strconv.Atoi with its error ignored. */
  function Atoi(s: string): int {
    var n := Decimal.ParseInt64(s);
    if n.Some? then n.value else 0
  }

  /** main of os.exe: os.Args[4] is the kind of event, os.Args[5] the timeout. */
  function ChildMain(argv: seq<string>): Child
    requires |argv| == 6
  {
    if argv[4] == CPU then CpuRun(Atoi(argv[1]), Atoi(argv[2]), argv[3], Atoi(argv[5]))
    else if argv[4] == MEM then MemRun(Atoi(argv[2]), argv[1], argv[3], Atoi(argv[5]))
    else NotExpected
  }

  lemma AtoiOfFormat(n: int)
    requires Decimal.IsInt64(n)
    ensures Atoi(Decimal.FormatInt(n)) == n
  {
    Decimal.ParseOfFormat(n);
  }

  /** uid is the outcome of generateUid, path the place of os.exe, numCpu what runtime.NumCPU() says. */
  method CpuResolver(param: CpuParam?, numCpu: GoInt, uid: Option<string>, path: string) returns (launch: Launch)
    requires numCpu >= 1
    modifies param
    ensures launch.Spawned? <==>
              param != null && old(param.cmt) == CPU_FULL_LOAD && 0 <= old(param.cpuPercent) <= 100 && uid.Some?
    ensures launch.Spawned? ==>
              && |launch.argv| == 6 && launch.argv[0] == path && launch.argv[3] == uid.value && launch.argv[4] == CPU
              && Decimal.ParseInt64(launch.argv[1]) == Some(param.cpuCount)
              && Decimal.ParseInt64(launch.argv[2]) == Some(param.cpuPercent)
              && 1 <= param.cpuCount <= numCpu
              && param.cpuCount == (if 1 <= old(param.cpuCount) <= numCpu then old(param.cpuCount) else numCpu)
              && param.cpuPercent == (if old(param.cpuPercent) == 0 then 100 else old(param.cpuPercent))
              && param.timeout == old(param.timeout)
              && ChildMain(launch.argv)
                 == CpuRun(param.cpuCount, param.cpuPercent, uid.value,
                           if old(param.timeout) == 0 then 60 else old(param.timeout))
  {
    if param == null || param.cmt != CPU_FULL_LOAD {
      return Rejected;
    }
    if param.cpuPercent != 0 {
      if param.cpuPercent > 100 || param.cpuPercent < 0 {
        return Rejected;
      }
    } else {
      param.cpuPercent := 100;
    }
    if param.cpuCount <= 0 || param.cpuCount > numCpu {
      param.cpuCount := numCpu;
    }
    var timeout := param.timeout;
    if param.timeout == 0 {
      timeout := DEFAULT_TIMEOUT;
    }
    if uid.None? {
      return Rejected;
    }
    AtoiOfFormat(param.cpuCount);
    AtoiOfFormat(param.cpuPercent);
    AtoiOfFormat(timeout);
    return Spawned([path, Decimal.FormatInt(param.cpuCount), Decimal.FormatInt(param.cpuPercent), uid.value, CPU,
                    Decimal.FormatInt(timeout)]);
  }

  method MemResolver(param: MemParam?, uid: Option<string>, path: string) returns (launch: Launch)
    modifies param
    ensures launch.Spawned? <==>
              param != null && old(param.cmt) == MEM_LOAD && 0 <= old(param.memPercent) <= 100 && uid.Some?
    ensures launch.Spawned? ==>
              && |launch.argv| == 6 && launch.argv[0] == path && launch.argv[1] == param.mode
              && launch.argv[3] == uid.value && launch.argv[4] == MEM
              && param.mode == (if old(param.mode) == "" then "ram" else old(param.mode))
              && param.memPercent == old(param.memPercent)
              && param.timeout == old(param.timeout)
              && ChildMain(launch.argv)
                 == MemRun(if old(param.memPercent) == 0 then 100 else old(param.memPercent), param.mode, uid.value,
                           if old(param.timeout) == 0 then 60 else old(param.timeout))
  {
    if param == null || param.cmt != MEM_LOAD {
      return Rejected;
    }
    var memPercent := param.memPercent;
    if memPercent != 0 {
      if memPercent > 100 || memPercent < 0 {
        return Rejected;
      }
    } else {
      memPercent := 100;
    }
    if param.mode == "" {
      param.mode := DEFAULT_MODE;
    }
    var timeout := param.timeout;
    if param.timeout == 0 {
      timeout := DEFAULT_TIMEOUT;
    }
    if uid.None? {
      return Rejected;
    }
    AtoiOfFormat(memPercent);
    AtoiOfFormat(timeout);
    return Spawned([path, param.mode, Decimal.FormatInt(memPercent), uid.value, MEM, Decimal.FormatInt(timeout)]);
  }

  /** A fill of a child that runs with percent leaves the share that was requested free, less one MB. */
  ghost predicate LeavesShare(total: nat, free: nat, percent: int, requested: int) {
    var fill := MemBurn.Fill(MemBurn.ExpectMem(total, free, percent, 0), MemBurn.Rate(0));
    fill > 0 ==> (free - fill * MemBurn.MB + MemBurn.MB) * 100 > total * (100 - requested)
  }

  /** From the request to the machine: no fill of the child of an accepted request goes below its share, less one MB. */
  method ResolveSafely(param: MemParam?, uid: Option<string>, path: string) returns (launch: Launch)
    modifies param
    ensures launch.Spawned? ==> param != null && |launch.argv| == 6 && ChildMain(launch.argv).MemRun?
    ensures launch.Spawned? ==>
              var requested := if old(param.memPercent) == 0 then 100 else old(param.memPercent);
              forall total: nat, free: nat | total <= MemBurn.MAX_TOTAL ::
                LeavesShare(total, free, ChildMain(launch.argv).memPercent, requested)
  {
    ghost var requested := if param == null || param.memPercent == 0 then 100 else param.memPercent;
    launch := MemResolver(param, uid, path);
    if launch.Spawned? {
      forall total: nat, free: nat | total <= MemBurn.MAX_TOTAL
        ensures LeavesShare(total, free, ChildMain(launch.argv).memPercent, requested)
      {
        MemBurnTheorems.FillLeavesShare(total, free, requested, 0, MemBurn.Rate(0));
      }
    }
  }
}
