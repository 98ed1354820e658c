/** The pid file as a lock: taken by creating it exclusively, given back by its owner, and
    broken by "adcserver -x" when the process it names is gone. */
module PidFile {
  import opened Wrappers

  const EEXIST := 17

  // ------------------------------------------------------ decimal pids in text

  predicate IsDigit(c: char) { '0' <= c <= '9' }

  function Digit(n: nat): char
    requires n < 10
  {
    '0' + n as char
  }

  /** snprintf "%d". */
  function Digits(n: nat): (s: string)
    ensures s != "" && IsDigit(s[0])
  {
    if n < 10 then [Digit(n)] else Digits(n / 10) + [Digit(n % 10)]
  }

  /** atoi and fscanf "%d": the digits up to the first other character. */
  function Parse(s: string, acc: nat): nat
    decreases |s|
  {
    if s == "" || !IsDigit(s[0]) then acc else Parse(s[1..], acc * 10 + (s[0] - '0') as nat)
  }

  function Atoi(s: string): nat { Parse(s, 0) }

  lemma {:induction false} ParseDigits(n: nat, rest: string)
    ensures Parse(Digits(n) + rest, 0) == Parse(rest, n)
    decreases n
  {
    var d := [Digit(n % 10)];
    assert (d + rest)[1..] == rest;
    if n < 10 {
      assert Digits(n) + rest == d + rest;
    } else {
      assert Digits(n) + rest == Digits(n / 10) + (d + rest);
      ParseDigits(n / 10, d + rest);
      assert Parse(d + rest, n / 10) == Parse(rest, n / 10 * 10 + n % 10);
    }
  }

  lemma {:induction false} ParseGrows(s: string, acc: nat)
    ensures Parse(s, acc) >= acc
    decreases |s|
  {
    if s == "" || !IsDigit(s[0]) {
    } else {
      ParseGrows(s[1..], acc * 10 + (s[0] - '0') as nat);
    }
  }

  /** Reading a pid back from a buffer with more characters behind it gives the pid written
      exactly if those characters do not start with a digit. */
  lemma ReadBackExactly(pid: nat, residue: string)
    requires pid > 0
    ensures Atoi(Digits(pid) + residue) == pid <==> residue == "" || !IsDigit(residue[0])
  {
    ParseDigits(pid, residue);
    if residue != "" && IsDigit(residue[0]) {
      ParseGrows(residue[1..], pid * 10 + (residue[0] - '0') as nat);
    }
  }

  /** What a short write leaves parses to a tenth of the pid at most. */
  lemma {:induction false} PrefixIsSmaller(pid: nat, n: nat)
    requires n < |Digits(pid)|
    ensures Atoi(Digits(pid)[..n]) <= pid / 10
    decreases pid
  {
    if pid < 10 {
      assert Digits(pid)[..n] == "";
    } else if n == |Digits(pid / 10)| {
      assert Digits(pid)[..n] == Digits(pid / 10) + "";
      ParseDigits(pid / 10, "");
    } else {
      assert Digits(pid)[..n] == Digits(pid / 10)[..n];
      PrefixIsSmaller(pid / 10, n);
    }
  }

  /** The characters written are read back as the pid exactly if all of them were written. */
  lemma ShortWriteExactly(pid: nat, n: nat)
    requires pid > 0 && n <= |Digits(pid)|
    ensures Atoi(Digits(pid)[..n]) == pid <==> n == |Digits(pid)|
  {
    if n < |Digits(pid)| {
      PrefixIsSmaller(pid, n);
    } else {
      assert Digits(pid)[..n] == Digits(pid) + "";
      ParseDigits(pid, "");
    }
  }

  lemma DigitsInjective(p: nat, q: nat)
    requires Digits(p) == Digits(q)
    ensures p == q
  {
    ParseDigits(p, "");
    ParseDigits(q, "");
  }

  // ------------------------------------------------- the three file operations

  /** adc_server_write_pid: O_EXCL fails on an existing file.  written is what write returned: a
      negative number leaves the file empty, and fewer characters than the pid has are taken for
      success. */
  function WriteFile(file: Option<string>, pid: nat, written: int): Option<string> {
    if file.Some? then file
    else Some(if written < 0 then "" else Digits(pid)[..Min(written, |Digits(pid)|)])
  }

  /** adc_server_remove_pid unlinks the file only if it names the caller; on an empty file the
      variable fscanf should have set is compared as it was. */
  function RemoveFile(file: Option<string>, pid: nat, garbage: int): Option<string> {
    if file.Some? && (if file.value == "" then garbage else Atoi(file.value)) == pid then None else file
  }

  /** What adc_server_exit meets: whether it may read the file, the stack bytes behind what it
      read, the number an empty file parses to, and whether no process group answers to it. */
  datatype ExitOracle = ExitOracle(readable: bool, residue: string, garbage: int, groupMissing: bool)

  /** The pid adc_server_exit signals: its buffer is not terminated after the bytes read. */
  function SignalledPid(text: string, o: ExitOracle): int {
    if text == "" then o.garbage else Atoi(text + o.residue)
  }

  /** kill reports that no such process exists. */
  predicate NoSuch(live: set<nat>, pid: int, groupMissing: bool) {
    if pid > 0 then pid !in live else groupMissing
  }

  function ExitFile(file: Option<string>, live: set<nat>, o: ExitOracle): Option<string> {
    if file.Some? && o.readable && NoSuch(live, SignalledPid(file.value, o), o.groupMissing) then None else file
  }

  // ----------------------------------------------------------------- runs

  datatype Phase = Starting | Holding | Leaving | Unrelated

  /** The file, and the live processes by pid. */
  datatype System = System(file: Option<string>, procs: map<nat, Phase>)

  datatype Step =
    | Spawn(pid: nat, server: bool)       // any free pid, used before or not
    | WritePid(pid: nat, written: int)
    | RemovePid(pid: nat, garbage: int)
    | Die(pid: nat)                       // a crash or an exit, at any moment
    | ServerExit(oracle: ExitOracle)      // adcserver -x

  function Apply(s: System, step: Step): System {
    match step
    case Spawn(pid, server) =>
      if pid > 0 && pid !in s.procs then s.(procs := s.procs[pid := if server then Starting else Unrelated]) else s
    case WritePid(pid, written) =>
      if pid in s.procs && s.procs[pid] == Starting then
        System(WriteFile(s.file, pid, written), s.procs[pid := if s.file.None? && written >= 0 then Holding else Leaving])
      else s
    case RemovePid(pid, garbage) =>
      if !(pid in s.procs && s.procs[pid] == Holding) then s
      // without a file the caller goes on to read from a null stream
      else if s.file.None? then s.(procs := s.procs - {pid})
      else System(RemoveFile(s.file, pid, garbage), s.procs[pid := Leaving])
    case Die(pid) => s.(procs := s.procs - {pid})
    case ServerExit(o) => s.(file := ExitFile(s.file, s.procs.Keys, o))
  }

  function Run(steps: seq<Step>): System
    decreases |steps|
  {
    if steps == [] then System(None, map[]) else Apply(Run(steps[..|steps| - 1]), steps[|steps| - 1])
  }

  /** The bytes behind the pid in the buffer of adc_server_exit do not start with a digit, and a
      write that works writes the whole pid. */
  predicate CleanStep(step: Step) {
    match step
    case ServerExit(o) => o.residue == "" || !IsDigit(o.residue[0])
    case WritePid(pid, written) => written < 0 || written >= |Digits(pid)|
    case _ => true
  }

  ghost predicate LockInv(s: System) {
    && (forall p :: p in s.procs ==> p > 0)
    && (forall p :: p in s.procs && s.procs[p] == Holding ==> s.file == Some(Digits(p)))
  }

  lemma WriteKeeps(s: System, pid: nat, written: int)
    requires LockInv(s) && CleanStep(WritePid(pid, written))
    ensures LockInv(Apply(s, WritePid(pid, written)))
  {
    assert Digits(pid)[..|Digits(pid)|] == Digits(pid);
  }

  lemma RemoveKeeps(s: System, pid: nat, garbage: int)
    requires LockInv(s)
    ensures LockInv(Apply(s, RemovePid(pid, garbage)))
  {
    if pid in s.procs && s.procs[pid] == Holding {
      forall p | p in s.procs && s.procs[p] == Holding ensures p == pid {
        DigitsInjective(p, pid);
      }
    }
  }

  /** adcserver -x takes the file from a live holder exactly if the characters behind the pid in
      its buffer extend it to the pid of no process. */
  lemma ExitBreaksLockExactly(s: System, holder: nat, o: ExitOracle)
    requires LockInv(s) && holder in s.procs && s.procs[holder] == Holding
    ensures Apply(s, ServerExit(o)).file != s.file <==>
            o.readable && o.residue != "" && IsDigit(o.residue[0]) && Atoi(Digits(holder) + o.residue) !in s.procs
  {
    ReadBackExactly(holder, o.residue);
    ParseDigits(holder, o.residue);
    ParseGrows(o.residue, holder);
  }

  lemma ExitKeeps(s: System, o: ExitOracle)
    requires LockInv(s) && CleanStep(ServerExit(o))
    ensures LockInv(Apply(s, ServerExit(o)))
  {
    forall p | p in s.procs && s.procs[p] == Holding ensures ExitFile(s.file, s.procs.Keys, o) == s.file {
      ExitBreaksLockExactly(s, p, o);
    }
  }

  lemma {:induction false} LockKept(steps: seq<Step>)
    requires forall i :: 0 <= i < |steps| ==> CleanStep(steps[i])
    ensures LockInv(Run(steps))
    decreases |steps|
  {
    if steps == [] {
    } else {
      var front, step := steps[..|steps| - 1], steps[|steps| - 1];
      assert forall i :: 0 <= i < |front| ==> front[i] == steps[i];
      LockKept(front);
      match step
      case Spawn(_, _) =>
      case WritePid(pid, written) => WriteKeeps(Run(front), pid, written);
      case RemovePid(pid, garbage) => RemoveKeeps(Run(front), pid, garbage);
      case Die(_) =>
      case ServerExit(o) => ExitKeeps(Run(front), o);
    }
  }

  /** Mutual exclusion: over any run of starts, crashes, exits and -x calls, with pids reused at
      will, at most one live server is between a successful write and its remove; the file then
      holds its pid, and its remove deletes the file. */
  lemma {:induction false} MutualExclusion(steps: seq<Step>, p: nat, q: nat, garbage: int)
    requires forall i :: 0 <= i < |steps| ==> CleanStep(steps[i])
    requires p in Run(steps).procs && Run(steps).procs[p] == Holding
    requires q in Run(steps).procs && Run(steps).procs[q] == Holding
    ensures p == q && Run(steps).file == Some(Digits(p)) && RemoveFile(Run(steps).file, p, garbage) == None
  {
    LockKept(steps);
    DigitsInjective(p, q);
    ParseDigits(p, "");
    assert Digits(p) + "" == Digits(p);
  }

  lemma Then(steps: seq<Step>, step: Step) returns (next: seq<Step>)
    ensures next == steps + [step] && Run(next) == Apply(Run(steps), step)
  {
    next := steps + [step];
    assert next[..|steps|] == steps;
  }

  ghost predicate TwoHolders(s: System) {
    exists p, q :: p in s.procs && q in s.procs && p != q && s.procs[p] == Holding && s.procs[q] == Holding
  }

  /** A server holds, its file is gone, and a second one takes the file. */
  lemma SecondServer(steps: seq<Step>, first: nat)
    requires Run(steps) == System(None, map[first := Holding]) && first != 2
    ensures exists more :: TwoHolders(Run(more))
  {
    var more := Then(steps, Spawn(2, true));
    more := Then(more, WritePid(2, 1));
    assert Run(more).procs[first] == Holding && Run(more).procs[2] == Holding;
  }

  /** What -x is for.  With a clean buffer it signals the process that has the pid in the file,
      be it the server or a later process of that pid, and removes the file exactly if there is
      no such process. */
  lemma StaleFileClearedExactly(s: System, pid: nat, o: ExitOracle)
    requires pid > 0 && s.file == Some(Digits(pid)) && o.readable && CleanStep(ServerExit(o))
    ensures SignalledPid(s.file.value, o) == pid
    ensures Apply(s, ServerExit(o)).file == (if pid in s.procs then s.file else None)
  {
    ReadBackExactly(pid, o.residue);
  }

  /** After any run that leaves the file of a server that has gone: a server that starts fails to
      take it, but after one -x, while no process has that pid, it does. */
  lemma ExitClearsTheWay(steps: seq<Step>, gone: nat, next: nat, o: ExitOracle)
    requires gone > 0 && Run(steps).file == Some(Digits(gone)) && gone !in Run(steps).procs
    requires o.readable && CleanStep(ServerExit(o))
    requires next in Run(steps).procs && Run(steps).procs[next] == Starting
    ensures var write, s := WritePid(next, |Digits(next)|), Run(steps);
      && Run(steps + [write]) == System(s.file, s.procs[next := Leaving])
      && Run(steps + [ServerExit(o)] + [write]) == System(Some(Digits(next)), s.procs[next := Holding])
  {
    var write := WritePid(next, |Digits(next)|);
    var early := Then(steps, write);
    var cleared := Then(steps, ServerExit(o));
    StaleFileClearedExactly(Run(steps), gone, o);
    var late := Then(cleared, write);
    assert Digits(next)[..|Digits(next)|] == Digits(next);
  }

  /** A server that starts holds the file exactly if there was none and the write did not fail; it
      then stands in the file with as many of its digits as were written, none at all included.
      A file that was there stays as it was. */
  lemma TakesFileExactly(s: System, pid: nat, written: int)
    requires pid in s.procs && s.procs[pid] == Starting
    ensures var t := Apply(s, WritePid(pid, written));
      && pid in t.procs && (t.procs[pid] == Holding <==> s.file == None && written >= 0)
      && t.procs[pid] in {Holding, Leaving}
      && (s.file.Some? ==> t.file == s.file)
      && (s.file.None? ==> t.file.Some? && t.file.value <= Digits(pid)
                           && |t.file.value| == Min(if written < 0 then 0 else written, |Digits(pid)|))
      && t.procs - {pid} == s.procs - {pid}
  {
  }

  /** What becomes of a holder that removes its file: it goes on to leave, unless the file is
      missing, when it dies of reading a null stream. */
  lemma RemovesExactly(s: System, pid: nat, garbage: int)
    requires pid in s.procs && s.procs[pid] == Holding
    ensures var t := Apply(s, RemovePid(pid, garbage));
      && (pid in t.procs <==> s.file.Some?)
      && (pid in t.procs ==> t.procs[pid] == Leaving)
      && t.procs - {pid} == s.procs - {pid}
      && (t.file == None <==> s.file.None? || (if s.file.value == "" then garbage else Atoi(s.file.value)) == pid)
  {
  }

  /** A process that dies is gone and leaves the file as it is. */
  lemma DiesExactly(s: System, pid: nat)
    ensures var t := Apply(s, Die(pid)); pid !in t.procs && t.procs == s.procs - {pid} && t.file == s.file
  {
  }

  /** On an empty file -x signals whatever its buffer held before: a number above 0 counts as a pid,
      any other as a process group. */
  lemma EmptyFileExactly(s: System, o: ExitOracle)
    requires s.file == Some("")
    ensures Apply(s, ServerExit(o)).procs == s.procs
    ensures Apply(s, ServerExit(o)).file == None <==>
            o.readable && ((o.garbage > 0 && o.garbage !in s.procs) || (o.garbage <= 0 && o.groupMissing))
  {
  }

  /** A server that crashes while it holds the file can be replaced, after any clean run: one -x
      and the next server takes the file. */
  lemma CrashedServerReplaced(steps: seq<Step>, holder: nat, next: nat, o: ExitOracle)
    requires forall i :: 0 <= i < |steps| ==> CleanStep(steps[i])
    requires holder in Run(steps).procs && Run(steps).procs[holder] == Holding
    requires next in Run(steps).procs && Run(steps).procs[next] == Starting
    requires o.readable && CleanStep(ServerExit(o))
    ensures var s := Run(steps + [Die(holder)] + [ServerExit(o)] + [WritePid(next, |Digits(next)|)]);
      s.file == Some(Digits(next)) && s.procs == Run(steps).procs[next := Holding] - {holder}
  {
    LockKept(steps);
    var crashed := Then(steps, Die(holder));
    ExitClearsTheWay(crashed, holder, next, o);
    assert Run(crashed).procs[next := Holding] == Run(steps).procs[next := Holding] - {holder};
  }

  /** The ordinary life of a server is a clean run: it takes the file and gives it back. */
  lemma TakenAndGivenBack(garbage: int)
    ensures exists steps ::
      && (forall i :: 0 <= i < |steps| ==> CleanStep(steps[i]))
      && Run(steps) == System(None, map[7 := Leaving])
  {
    var steps := [Spawn(7, true), WritePid(7, 1), RemovePid(7, garbage)];
    var one := Then([], Spawn(7, true));
    assert Run(one) == System(None, map[7 := Starting]);
    var two := Then(one, WritePid(7, 1));
    assert Digits(7)[..1] == Digits(7) && Digits(7) + "" == Digits(7);
    assert Run(two) == System(Some(Digits(7)), map[7 := Holding]);
    ParseDigits(7, "");
    var three := Then(two, RemovePid(7, garbage));
    assert three == steps;
  }

  /** A digit left on the stack is enough: -x reads pid 1 as 15, finds no such process, unlinks
      the file of the running server 1, and server 2 starts beside it. */
  lemma StaleDigitBreaksExclusion()
    ensures exists steps :: TwoHolders(Run(steps))
  {
    var exit := ServerExit(ExitOracle(true, "5", 0, false));
    var steps := Then([], Spawn(1, true));
    steps := Then(steps, WritePid(1, 1));
    assert Digits(1)[..1] == Digits(1);
    assert Run(steps) == System(Some(Digits(1)), map[1 := Holding]);
    ExitBreaksLockExactly(Run(steps), 1, exit.oracle);
    ParseDigits(1, "5");
    assert Parse("5", 1) == 15;
    steps := Then(steps, exit);
    SecondServer(steps, 1);
  }

  /** So is a short write: server 12 writes one character of its pid and goes on, -x reads it as
      process 1, finds no such process, unlinks the file, and server 2 starts beside it. */
  lemma ShortWriteBreaksExclusion()
    ensures exists steps :: TwoHolders(Run(steps))
  {
    var exit := ServerExit(ExitOracle(true, "", 0, false));
    var steps := Then([], Spawn(12, true));
    steps := Then(steps, WritePid(12, 1));
    assert Digits(12) == Digits(1) + [Digit(2)];
    assert Digits(12)[..1] + "" == Digits(1) + "";
    assert Run(steps) == System(Some(Digits(1)), map[12 := Holding]);
    ParseDigits(1, "");
    assert SignalledPid(Digits(1), exit.oracle) == 1;
    steps := Then(steps, exit);
    SecondServer(steps, 12);
  }

  // -------------------------------------------------------------- the program

  class PidFile {
    var file: Option<string>

    constructor ()
      ensures file == None
    {
      file := None;
    }

    method WritePid(pid: nat, written: int) returns (ret: int)
      modifies this
      ensures file == WriteFile(old(file), pid, written)
      // EEXIST
      ensures ret == if old(file).Some? then -17 else if written >= 0 then 0 else -1
    {
      if file.Some? {
        return -EEXIST;
      }
      file := Some("");
      if written < 0 {
        return -1;
      }
      file := Some(Digits(pid)[..Min(written, |Digits(pid)|)]);
      return 0;
    }

    /** crashed: there was no file, and the code went on to read from a null stream. */
    method RemovePid(pid: nat, garbage: int) returns (crashed: bool)
      modifies this
      ensures file == RemoveFile(old(file), pid, garbage) && crashed == old(file).None?
    {
      if file.None? {
        return true;
      }
      var read := garbage;
      if file.value != "" {
        read := Atoi(file.value);
      }
      if read == pid {
        file := None;
      }
      return false;
    }

    method ServerExit(live: set<nat>, o: ExitOracle) returns (signalled: Option<int>)
      modifies this
      ensures file == ExitFile(old(file), live, o)
      ensures signalled == if old(file).Some? && o.readable then Some(SignalledPid(old(file).value, o)) else None
    {
      if file.None? || !o.readable {
        return None;
      }
      var pid := SignalledPid(file.value, o);
      signalled := Some(pid);
      if NoSuch(live, pid, o.groupMissing) {
        file := None;
      }
    }
  }
}
