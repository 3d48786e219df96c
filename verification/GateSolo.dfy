/** Operations run one step at a time, keeping track of the run they make. */
module GateSolo {
  import opened GateModel

  /** `s` is where the steps lead from `start`. */
  ghost predicate At(c: Config, start: State, steps: seq<Step>, s: State) {
    Runs(c, start, steps) && After(c, start, steps) == s
  }

  lemma {:induction false} RunsExtend(c: Config, start: State, steps: seq<Step>, step: Step)
    requires Runs(c, start, steps) && Enabled(c, After(c, start, steps), step)
    ensures Runs(c, start, steps + [step])
    ensures After(c, start, steps + [step]) == Apply(c, After(c, start, steps), step)
    decreases |steps|
  {
    if steps == [] {
      assert steps + [step] == [step] && [step][1..] == [];
      assert Runs(c, Apply(c, start, step), []);
    } else {
      RunsExtend(c, Apply(c, start, steps[0]), steps[1..], step);
      assert (steps + [step])[1..] == steps[1..] + [step];
    }
  }

  lemma {:induction false} RunsJoin(c: Config, start: State, first: seq<Step>, second: seq<Step>)
    requires Runs(c, start, first) && Runs(c, After(c, start, first), second)
    ensures Runs(c, start, first + second)
    ensures After(c, start, first + second) == After(c, After(c, start, first), second)
    decreases |first|
  {
    if first == [] {
      assert first + second == second;
    } else {
      RunsJoin(c, Apply(c, start, first[0]), first[1..], second);
      assert (first + second)[1..] == first[1..] + second;
    }
  }

  method Take(c: Config, start: State, steps: seq<Step>, s: State, step: Step)
    returns (t: State, taken: seq<Step>)
    requires At(c, start, steps, s) && Enabled(c, s, step)
    ensures taken == steps + [step] && t == Apply(c, s, step) && At(c, start, taken, t)
  {
    t := Apply(c, s, step);
    taken := steps + [step];
    RunsExtend(c, start, steps, step);
  }

  /** One action of a fetch that leaves its entry alone: only the fetch and the shared state move. */
  method TakePhase(
    c: Config, start: State, steps: seq<Step>, s: State, f: nat, action: FetchAction, ghost next: FetchOutcome)
    returns (t: State, taken: seq<Step>)
    requires At(c, start, steps, s) && Enabled(c, s, OnFetch(f, action))
    requires next == FetchApply(c, s.shared, f, s.fetches[f], s.entries[s.fetches[f].entry], |s.fetches|, action)
    requires next.entry == s.entries[s.fetches[f].entry] && next.retry.None?
    ensures At(c, start, taken, t)
    ensures t == State(s.entries, s.fetches[f := next.fetch], next.shared, s.reader)
  {
    t, taken := Take(c, start, steps, s, OnFetch(f, action));
  }
}
