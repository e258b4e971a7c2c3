/**
 The one-shot script `steam-killer.py`: the same time policy, every running
 process named "steam" from the process listing, SIGTERM to all of them, one
 shared wait, and SIGKILL to each survivor.
 */
module SteamKillerScript {
  import opened Os
  import Policy
  import SteamKiller

  /** The process name the script hunts. */
  const Steam := "steam"

  // ---------------------------------------------------------------- policy

  /** `check_conditions`: true means "kill". Only Saturday daytime is allowed. */
  function CheckConditions(now: Clock): (kill: bool)
    ensures !kill <==> now.weekday == 5 && 6 <= now.hour <= 18
    ensures kill <==> !Policy.SaturdayDaytime.Contains(now)
  {
    var isSaturday := now.weekday == 5;
    var isDaytime := now.hour >= 6 && now.hour <= 18;
    !(isSaturday && isDaytime)
  }

  /** The script and the daemon apply one and the same rule. */
  lemma SameRuleAsDaemon(now: Clock)
    ensures CheckConditions(now) == SteamKiller.CheckTime(now)
  {
  }

  // ------------------------------------------------------- process lookup

  /** The processes `check_procs` keeps from a listing: those still running
      whose name is exactly `name`, in listing order. */
  function Matching(listed: seq<Process>, name: string): (ps: seq<Process>)
    ensures |ps| <= |listed|
  {
    if listed == [] then
      []
    else
      (if listed[0].running && listed[0].name == name then [listed[0]] else [])
      + Matching(listed[1..], name)
  }

  /** Only running processes named `name` are kept, and only from the listing. */
  lemma {:induction false} MatchingSound(listed: seq<Process>, name: string, p: Process)
    requires p in Matching(listed, name)
    ensures p in listed && p.running && p.name == name
  {
    if !(listed[0].running && listed[0].name == name) || p != listed[0] {
      MatchingSound(listed[1..], name, p);
    }
  }

  /** Nothing that qualifies is dropped. */
  lemma {:induction false} MatchingComplete(listed: seq<Process>, name: string, p: Process)
    requires p in listed && p.running && p.name == name
    ensures p in Matching(listed, name)
  {
    if listed[0] != p {
      MatchingComplete(listed[1..], name, p);
    }
  }

  /** Filtering a listing piece by piece gives the same processes in the
      same order as filtering it whole. */
  lemma {:induction false} MatchingAppend(a: seq<Process>, b: seq<Process>, name: string)
    ensures Matching(a + b, name) == Matching(a, name) + Matching(b, name)
  {
    if a == [] {
      assert a + b == b;
    } else {
      assert (a + b)[1..] == a[1..] + b;
      MatchingAppend(a[1..], b, name);
    }
  }

  /** `check_procs`: lists the processes and keeps the running ones named `name`. */
  method CheckProcs(h: Host, name: string) returns (procs: seq<Process>)
    modifies h`trace
    ensures h.trace == old(h.trace) + [ListProcesses]
    ensures procs == Matching(h.listing, name)
  {
    var listed := h.ProcessIter();
    procs := [];
    for i := 0 to |listed|
      invariant h.trace == old(h.trace) + [ListProcesses]
      invariant procs == Matching(listed[..i], name)
    {
      if listed[i].running && listed[i].name == name {
        procs := procs + [listed[i]];
      }
      assert listed[..i + 1] == listed[..i] + [listed[i]];
      MatchingAppend(listed[..i], [listed[i]], name);
      assert [listed[i]][1..] == [];
    }
    assert listed[..|listed|] == listed;
  }

  // ----------------------------------------------------------- escalation

  function Pids(procs: seq<Process>): set<Pid> {
    set p | p in procs :: p.pid
  }

  /** SIGTERM to each process, in list order. */
  function Terminations(procs: seq<Process>): seq<Action> {
    seq(|procs|, i requires 0 <= i < |procs| => Terminate(procs[i].pid))
  }

  /** SIGKILL to each PID, in the given order. */
  function Kills(order: seq<Pid>): seq<Action> {
    seq(|order|, i requires 0 <= i < |order| => Kill(order[i]))
  }

  /** `order` lists every PID of `targets` exactly once and nothing else. */
  ghost predicate Enumerates(order: seq<Pid>, targets: set<Pid>) {
    && (forall q :: q in targets <==> q in order)
    && (forall i, j :: 0 <= i < j < |order| ==> order[i] != order[j])
  }

  /** What `terminate_procs` does: SIGTERM to every process in list order,
      one wait for all of them, then SIGKILL to the survivors in `order`. */
  function TerminateProcsActions(procs: seq<Process>, order: seq<Pid>): (acts: seq<Action>)
    ensures |acts| == |procs| + 1 + |order|
    ensures forall i :: 0 <= i < |procs| ==> acts[i] == Terminate(procs[i].pid)
    ensures acts[|procs|] == Wait(Pids(procs))
    ensures forall k :: 0 <= k < |order| ==> acts[|procs| + 1 + k] == Kill(order[k])
  {
    Terminations(procs) + [Wait(Pids(procs))] + Kills(order)
  }

  /** Every process gets SIGTERM, all of them before the wait; every
      SIGKILL comes after the wait. */
  lemma TerminateAllBeforeWait(procs: seq<Process>, order: seq<Pid>)
    ensures var acts := TerminateProcsActions(procs, order);
      && Signalled(acts) == Pids(procs)
      && (forall i, j :: 0 <= i < |acts| && 0 <= j < |acts| && acts[i].Terminate? && acts[j].Wait? ==> i < j)
      && (forall i, j :: 0 <= i < |acts| && 0 <= j < |acts| && acts[i].Wait? && acts[j].Kill? ==> i < j)
  {
    var acts := TerminateProcsActions(procs, order);
    var n := |procs|;
    forall q | q in Pids(procs)
      ensures q in Signalled(acts)
    {
      var k :| 0 <= k < n && procs[k].pid == q;
      assert acts[k] == Terminate(q);
    }
  }

  /** SIGKILL goes to exactly the processes that outlived the wait, once
      each; the ones gone within it never get it. */
  lemma KillsOnlySurvivors(procs: seq<Process>, stubborn: set<Pid>, order: seq<Pid>, q: Pid)
    requires Enumerates(order, Pids(procs) * stubborn)
    ensures var acts := TerminateProcsActions(procs, order);
      && (Kill(q) in acts <==> q in Pids(procs) && q in stubborn)
      && (forall i, j :: 0 <= i < |acts| && 0 <= j < |acts| && acts[i] == acts[j] == Kill(q) ==> i == j)
  {
    var acts := TerminateProcsActions(procs, order);
    var n := |procs| + 1;
    if q in order {
      var k :| 0 <= k < |order| && order[k] == q;
      assert acts[n + k] == Kill(q);
    }
    if Kill(q) in acts {
      var k :| 0 <= k < |acts| && acts[k] == Kill(q);
      assert order[k - n] == q;
    }
    forall i, j | 0 <= i < |acts| && 0 <= j < |acts| && acts[i] == acts[j] == Kill(q)
      ensures i == j
    {
      assert order[i - n] == order[j - n];
    }
  }

  /** An enumeration is as long as the set it enumerates: as many SIGKILLs
      as survivors. */
  lemma {:induction false} EnumeratesSize(order: seq<Pid>, targets: set<Pid>)
    requires Enumerates(order, targets)
    ensures |order| == |targets|
  {
    if order == [] {
      assert forall q :: q !in targets;
      assert targets == {};
    } else {
      var n := |order| - 1;
      var last := order[n];
      var init := order[..n];
      assert order == init + [last];
      assert last !in init;
      EnumeratesSize(init, targets - {last});
    }
  }

  /** With nothing to terminate, no SIGTERM and no SIGKILL is sent. */
  lemma {:induction false} EmptyListNoSignals(stubborn: set<Pid>, order: seq<Pid>)
    requires Enumerates(order, Pids([]) * stubborn)
    ensures TerminateProcsActions([], order) == [Wait({})]
  {
    assert Pids([]) == {};
    EnumeratesSize(order, Pids([]) * stubborn);
    assert Kills(order) == [] && Terminations([]) == [];
  }

  /** The last loop of `terminate_procs`: SIGKILL to each process that
      `wait_procs` reported alive. `wait_procs` builds that list from a set,
      so the order is not fixed; `order` records the one taken. */
  method KillSurvivors(h: Host, alive: set<Pid>) returns (ghost order: seq<Pid>)
    modifies h`trace, h`procs
    ensures Enumerates(order, alive)
    ensures h.trace == old(h.trace) + Kills(order)
    ensures h.procs == old(h.procs) - alive
  {
    order := [];
    var rest := alive;
    while rest != {}
      invariant rest <= alive
      invariant Enumerates(order, alive - rest)
      invariant h.trace == old(h.trace) + Kills(order)
      invariant h.procs == old(h.procs) - (alive - rest)
      decreases rest
    {
      assert (forall x :: x !in rest) ==> rest == {};
      var p :| p in rest;
      h.SendKill(p);
      assert Kills(order + [p]) == Kills(order) + [Kill(p)];
      order := order + [p];
      rest := rest - {p};
    }
  }

  /** `terminate_procs`. */
  method TerminateProcs(h: Host, procs: seq<Process>) returns (ghost order: seq<Pid>)
    modifies h`trace, h`procs
    ensures Enumerates(order, Pids(procs) * h.stubborn)
    ensures h.trace == old(h.trace) + TerminateProcsActions(procs, order)
    ensures h.procs == old(h.procs) - Pids(procs)
  {
    for i := 0 to |procs|
      invariant h.trace == old(h.trace) + Terminations(procs[..i])
      invariant h.procs == old(h.procs)
    {
      h.SendTerminate(procs[i].pid);
      assert Terminations(procs[..i + 1]) == Terminations(procs[..i]) + [Terminate(procs[i].pid)];
    }
    assert procs[..|procs|] == procs;
    var gone, alive := h.WaitFor(Pids(procs));
    order := KillSurvivors(h, alive);
  }

  // ------------------------------------------------------------------ main

  /** `main` of the script: one evaluation, then exit. */
  method RunScript(h: Host) returns (ghost order: seq<Pid>)
    modifies h`trace, h`procs
    ensures !CheckConditions(h.now) ==> h.trace == old(h.trace) && h.procs == old(h.procs)
    ensures CheckConditions(h.now) ==>
      var matches := Matching(h.listing, Steam);
      && Enumerates(order, Pids(matches) * h.stubborn)
      && h.trace == old(h.trace) + [ListProcesses] + (if matches == [] then [] else TerminateProcsActions(matches, order))
      && h.procs == old(h.procs) - Pids(matches)
  {
    order := [];
    if CheckConditions(h.now) {
      var procs := CheckProcs(h, Steam);
      if procs != [] {
        order := TerminateProcs(h, procs);
      } else {
        assert Pids(procs) == {};
      }
    }
  }
}
