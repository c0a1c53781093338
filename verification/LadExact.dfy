// The calling rule is exactly what keeps the daemon's clients from breaking.

module LadExact {
  import opened Options
  import opened LadSlots
  import opened LadRpc
  import opened LadInvariant
  import opened LadSteps
  import opened LadDaemon
  import opened LadTheorems
  import opened LadProgress
  import opened LadPaths
  import opened LadRule
  import opened LadRejoin
  import opened LadSecond

  /** Every beginning against the rule can be followed by a run, without another, to a broken state. */
  lemma AgainstRule<S, C(!new), R>(sv: Service<S, C, R>, s: State<S, C, R>, p: nat, t: nat, job: Job<C>)
    returns (xs: seq<Action<C>>, s': State<S, C, R>)
    requires Inv(s) && Enabled(s, Begin(p, t, job)) && !Obeyed(s, Begin(p, t, job))
    ensures Path(sv, Apply(sv, s, Begin(p, t, job)), xs, s') && Broken(s')
  {
    hide Inv, Run, CanRun, SetPc, Stuck, AtRest;
    var threads := s.procs[p].threads;
    match job
    case DoConnect =>
      var u :| 0 <= u < |threads| && (Joins(threads[u]) || Leaves(threads[u]));
      if Joins(threads[u]) { xs, s' := BesideJoiner(sv, s, p, t, u); } else { xs, s' := BesideLeaver(sv, s, p, t, u); }
    case DoDisconnect(h) =>
      var u :| 0 <= u < |threads| && (Leaves(threads[u]) || Calls(threads[u]));
      if Leaves(threads[u]) { xs, s' := BehindLeaver(sv, s, p, t, Leave(h), u); } else { xs, s' := BeforeCaller(sv, s, p, t, h, u); }
      InnerIsPath(sv, SetPc(s, p, t, WantGate(Leave(h))), xs, s');
    case DoCall(c) =>
      var u :| 0 <= u < |threads| && Leaves(threads[u]);
      var k := FindHandle(s.procs[p].info, 0).value;
      xs, s' := BehindLeaver(sv, s, p, t, Invoke(k, c), u);
      InnerIsPath(sv, SetPc(s, p, t, WantGate(Invoke(k, c))), xs, s');
  }

  /** With the rule kept, nothing is ever broken. */
  lemma RuleSuffices<S, C(!new), R>(sv: Service<S, C, R>, s: State<S, C, R>, actions: seq<Action<C>>)
    requires Init(s) && Obeys(sv, s, actions)
    ensures !Broken(Run(sv, s, actions))
  {
    hide Inv, Run, Obeys, Broken;
    Reachable(sv, s, actions);
    InvNotBroken(Run(sv, s, actions));
  }

  /** The rule is exact: from a state reached by the rule, beginning a connect, disconnect or call keeps it if and only if
    * no run that follows without another beginning leads to a broken state. */
  lemma RuleExact<S(!new), C(!new), R(!new)>(sv: Service<S, C, R>, s0: State<S, C, R>, before: seq<Action<C>>, p: nat, t: nat, job: Job<C>)
    requires Init(s0) && Obeys(sv, s0, before) && Enabled(Run(sv, s0, before), Begin(p, t, job))
    ensures var s := Run(sv, s0, before); var a := Begin(p, t, job);
            Obeyed(s, a) <==> NeverBreaks(sv, Apply(sv, s, a))
  {
    hide Inv, Run, Obeys, Broken, Enabled, Apply, Obeyed, Path;
    Reachable(sv, s0, before);
    var s := Run(sv, s0, before);
    var a := Begin(p, t, job);
    if Obeyed(s, a) {
      StepKeeps(sv, s, a);
      forall xs, s' | Path(sv, Apply(sv, s, a), xs, s') ensures !Broken(s') {
        PathInv(sv, Apply(sv, s, a), xs, s');
        InvNotBroken(s');
      }
    } else {
      var xs, s' := AgainstRule(sv, s, p, t, job);
    }
  }

  ghost predicate NeverBreaks<S(!new), C(!new), R(!new)>(sv: Service<S, C, R>, s: State<S, C, R>) {
    forall xs: seq<Action<C>>, s': State<S, C, R> :: Path(sv, s, xs, s') ==> !Broken(s')
  }
}
