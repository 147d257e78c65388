/** Taking one action after another: granted runs that are built step by step. */
module PublicationRuns {
  import opened Common
  import opened PublicationProtocol

  /** `actions` can be taken from `s`, the environment grants each, and they lead to `e`. */
  predicate Leads(s: State, actions: seq<Action>, e: State) {
    CanRun(s, actions) && GrantedRun(s, actions) && Run(s, actions) == e
  }

  lemma {:induction false} RunThen(s: State, actions: seq<Action>, a: Action)
    requires CanRun(s, actions) && GrantedRun(s, actions)
    requires Enabled(Run(s, actions), a) && Granted(Run(s, actions), a)
    ensures CanRun(s, actions + [a]) && GrantedRun(s, actions + [a])
    ensures Run(s, actions + [a]) == Apply(Run(s, actions), a)
    decreases |actions|
  {
    if actions == [] {
      assert [] + [a] == [a];
    } else {
      RunThen(Apply(s, actions[0]), actions[1..], a);
      assert (actions + [a])[1..] == actions[1..] + [a];
    }
  }

  lemma Nothing(s: State) returns (actions: seq<Action>)
    ensures actions == [] && Leads(s, actions, s)
  {
    actions := [];
  }

  lemma Then(s0: State, actions: seq<Action>, s: State, a: Action) returns (actions': seq<Action>)
    requires Leads(s0, actions, s) && Enabled(s, a) && Granted(s, a)
    ensures actions' == actions + [a] && Leads(s0, actions', Apply(s, a))
  {
    hide Apply, Enabled, Granted;
    RunThen(s0, actions, a);
    actions' := actions + [a];
  }

  lemma TakeStep(s0: State, actions: seq<Action>, s: State, t: Token, step: Step) returns (actions': seq<Action>, e: State)
    requires Leads(s0, actions, s) && StepEnabled(s, t, step) && StepGranted(s, t, step)
    ensures actions' == actions + [Work(t, step)] && Leads(s0, actions', e) && e == Advance(s, t, step)
  {
    hide Leads, StepEnabled, StepGranted, Advance;
    actions' := Then(s0, actions, s, Work(t, step));
    e := Advance(s, t, step);
  }

  lemma {:induction false} Joined(s: State, first: seq<Action>, m: State, later: seq<Action>, e: State)
    requires Leads(s, first, m) && Leads(m, later, e)
    ensures Leads(s, first + later, e)
    decreases |first|
  {
    hide Apply, Enabled, Granted;
    if first == [] {
      assert first + later == later;
    } else {
      Joined(Apply(s, first[0]), first[1..], m, later, e);
      assert (first + later)[1..] == first[1..] + later;
    }
  }
}
