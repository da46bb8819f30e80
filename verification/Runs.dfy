/** Whole runs: any commands, in any order, from a new instance. */
module Runs {
  import opened Basics
  import opened Compiled
  import opened State
  import opened Advance
  import opened Step
  import opened Game
  import opened Invariant
  import opened Running
  import opened Stepping
  import opened Repairing

  /** The instance after a step, and what the step said; or why it was refused,
      with the instance as it was. A step whose advancer never comes to rest
      does not return, and nothing it did is ever kept. */
  datatype Stepped = Stepped(s: Instance, ev: seq<Event>, error: Option<StepError>, returned: bool)

  /** The one thing a caller owes: an answered decision was asked. */
  predicate Asked(s: Instance, c: Command) {
    c.CompleteDecision? ==> c.token in s.tokens && s.tokens[c.token].wait.OnDecision?
  }

  lemma OpenSound(p: Process, s: Instance, c: Command)
    requires Linted(p) && Resting(p, s)
    ensures (s.status.Active? ==> Asked(s, c)) ==> Sound(p, OpenCommand(p, s, c))
    ensures s.status.Active? && !Asked(s, c) ==> OpenCommand(p, s, c) == Refused(InvariantViolated)
  {
    hide Resting, WellFormed, Certified, SidePathsOk, Sound, OpenStart, OpenCompleteWorkItem, OpenRaiseError,
         OpenFireTimer, OpenDeliverMessage, OpenRepair;
    match c
    case StartWith(variables) => StartSound(p, s, variables);
    case CompleteWorkItem(item, patch) => CompleteWorkItemSound(p, s, item, patch);
    case RaiseError(item, code) => RaiseErrorSound(p, s, item, code);
    case FireTimer(timer) => FireTimerSound(p, s, timer);
    case DeliverMessage(sub, patch) => DeliverMessageSound(p, s, sub, patch);
    case CompleteDecision(token, answer, detail) =>
      if s.status.Active? ==> Asked(s, c) {
        CompleteDecisionSound(p, s, token, answer, detail);
      }
    case Repair(incident, d, why) => RepairSound(p, s, incident, d, why);
  }

  /** One step: the command opens, the advancer runs to quiescence. */
  ghost function StepOf(p: Process, s: Instance, c: Command): (r: Stepped)
    ensures r.error.Some? ==> r.s == s && r.ev == []
    ensures Linted(p) && Resting(p, s) ==>
              && Resting(p, r.s) && (NoWaitFreeCycle(p) ==> r.returned)
              && (r.error == Some(InvariantViolated) <==> s.status.Active? && !Asked(s, c))
  {
    assert Linted(p) && Resting(p, s) ==> OpensWell(p, s, c, OpenCommand(p, s, c)) by {
      if Linted(p) && Resting(p, s) { CommandOpensWell(p, s, c); }
    }
    match OpenCommand(p, s, c)
    case Refused(e) => Stepped(s, [], Some(e), true)
    case Opened(m) => if Ends(p, m) then Stepped(Run(p, m).s, Run(p, m).ev, None, true) else Stepped(s, [], None, false)
    case Ended(m) => Stepped(m.s, m.ev, None, true)
  }

  /** What a step may count on of its command. */
  ghost predicate OpensWell(p: Process, s: Instance, c: Command, o: Opening) {
    match o
    case Refused(e) => e.InvariantViolated? <==> s.status.Active? && !Asked(s, c)
    case Opened(m) => (s.status.Active? ==> Asked(s, c)) && (NoWaitFreeCycle(p) ==> Ends(p, m)) && (Ends(p, m) ==> Resting(p, Run(p, m).s))
    case Ended(m) => (s.status.Active? ==> Asked(s, c)) && Resting(p, m.s)
  }

  lemma CommandOpensWell(p: Process, s: Instance, c: Command)
    requires Linted(p) && Resting(p, s)
    ensures OpensWell(p, s, c, OpenCommand(p, s, c))
  {
    hide Linted, Resting, OpenCommand, Inv, Run, NoWaitFreeCycle, Ends;
    OpenSound(p, s, c);
    match OpenCommand(p, s, c)
    case Refused(_) =>
    case Opened(m) =>
      WaitsEnd(p, m);
      if Ends(p, m) {
        RunRests(p, m);
      }
    case Ended(m) => EndedRests(p, m);
  }

  lemma WaitsEnd(p: Process, m: Machine)
    requires Linted(p) && Inv(p, m, {})
    ensures NoWaitFreeCycle(p) ==> Ends(p, m)
  {
    hide Linted, Inv, NoWaitFreeCycle, EndsIn;
    if NoWaitFreeCycle(p) {
      Quiesces(p, m, QueueWeight(p, Heights(p), m.q));
    }
  }

  lemma EndedRests(p: Process, m: Machine)
    requires Inv(p, m, {}) && m.q == [] && !m.s.status.Active?
    ensures Resting(p, m.s)
  {
    hide Inv;
    Rests(p, m);
  }

  /** An instance and everything it ever said. */
  datatype Past = Past(s: Instance, ev: seq<Event>)

  lemma NewRests(p: Process)
    ensures Resting(p, NEW_INSTANCE)
  {
    NobodyIsSafe(p);
    assert Everybody(p, NEW_INSTANCE, []) == map[];
    hide Safe;
  }

  /** Every run: a new instance, and any commands at all. */
  ghost function After(p: Process, commands: seq<Command>): (h: Past)
    ensures Linted(p) ==> Resting(p, h.s)
  {
    NewRests(p);
    if commands == [] then
      Past(NEW_INSTANCE, [])
    else
      var before := After(p, commands[..|commands| - 1]);
      var r := StepOf(p, before.s, commands[|commands| - 1]);
      Past(r.s, before.ev + r.ev)
  }

  /** A step, given where its moves end. */
  lemma StepGives(p: Process, s: Instance, c: Command, m: Machine, k: nat, r: Machine)
    requires OpenCommand(p, s, c) == Opened(m) && Advanced(p, m, k) == Outcome.Ok(r) && r.q == []
    ensures StepOf(p, s, c) == Stepped(Settle(p, r).s, Settle(p, r).ev, None, true)
  {
    hide Linted, Resting, OpenCommand, Settle, Advanced;
    DrainIs(p, m, k);
  }

  lemma AfterOne(p: Process, commands: seq<Command>, c: Command)
    ensures var before, r := After(p, commands), StepOf(p, After(p, commands).s, c);
            After(p, commands + [c]) == Past(r.s, before.ev + r.ev)
  {
    hide StepOf;
    assert (commands + [c])[..|commands|] == commands;
  }
}
