/** Overlapping `manage_positions` passes on one state (execution/lifecycle.py): any number of
    coroutines interleaved at their awaits. The check-and-set and the discard each run under the
    state lock, so each is one step; a position's processing spans any number of other steps. */
module InFlight {

  datatype Phase = Between | Inside(ticker: string)

  /** `todo` is what is left of the pass's own snapshot of the tickers. */
  datatype Pass = Pass(todo: seq<string>, phase: Phase)

  datatype System = System(inFlight: set<string>, passes: seq<Pass>)

  datatype Step =
    | Start(tickers: seq<string>)
    | Claim(pass: nat)
    | Release(pass: nat, raised: bool)

  /** A step that its pass is not ready for does not happen. `raised` is an exception leaving the
      processing: the ticker is released all the same and the pass ends. */
  function Next(s: System, step: Step): System {
    match step
    case Start(tickers) => s.(passes := s.passes + [Pass(tickers, Between)])
    case Claim(p) =>
      if p < |s.passes| && s.passes[p].phase.Between? && s.passes[p].todo != [] then
        var ticker := s.passes[p].todo[0];
        var rest := s.passes[p].todo[1..];
        if ticker in s.inFlight then s.(passes := s.passes[p := Pass(rest, Between)])
        else System(s.inFlight + {ticker}, s.passes[p := Pass(rest, Inside(ticker))])
      else s
    case Release(p, raised) =>
      if p < |s.passes| && s.passes[p].phase.Inside? then
        System(s.inFlight - {s.passes[p].phase.ticker},
               s.passes[p := Pass(if raised then [] else s.passes[p].todo, Between)])
      else s
  }

  function Run(s: System, steps: seq<Step>): System
    decreases |steps|
  {
    if steps == [] then s else Run(Next(s, steps[0]), steps[1..])
  }

  predicate IsInside(s: System, p: nat, ticker: string) {
    p < |s.passes| && s.passes[p].phase == Inside(ticker)
  }

  /** No two passes are inside one ticker, and `inFlight` is exactly the set being processed. */
  ghost predicate Exclusive(s: System) {
    && (forall p: nat, q: nat, t :: IsInside(s, p, t) && IsInside(s, q, t) ==> p == q)
    && (forall t :: t in s.inFlight <==> exists p: nat :: IsInside(s, p, t))
  }

  lemma NextKeepsExclusive(s: System, step: Step)
    requires Exclusive(s)
    ensures Exclusive(Next(s, step))
  {
    var n := Next(s, step);
    if n != s {
      var touched := match step case Start(_) => |s.passes| case Claim(p) => p case Release(p, _) => p;
      assert forall p: nat, t :: p != touched ==> (IsInside(n, p, t) <==> IsInside(s, p, t));
      forall t
        ensures t in n.inFlight <==> exists p: nat :: IsInside(n, p, t)
      {
        if t in s.inFlight {
          var p: nat :| IsInside(s, p, t);
          assert p != touched ==> IsInside(n, p, t);
        }
        assert step.Claim? && t in n.inFlight && t !in s.inFlight ==> IsInside(n, touched, t);
        if exists p: nat :: IsInside(n, p, t) {
          var p: nat :| IsInside(n, p, t);
          assert p != touched ==> IsInside(s, p, t);
          if step.Release? && p != touched {
            assert IsInside(s, touched, s.passes[touched].phase.ticker);
          }
        }
      }
    }
  }

  lemma {:induction false} RunKeepsExclusive(s: System, steps: seq<Step>)
    requires Exclusive(s)
    ensures Exclusive(Run(s, steps))
    decreases |steps|
  {
    if steps != [] {
      NextKeepsExclusive(s, steps[0]);
      RunKeepsExclusive(Next(s, steps[0]), steps[1..]);
    }
  }

  const IDLE := System({}, [])

  /** From an idle state, over every interleaving of any number of passes, exceptions included: at
      most one pass is inside a ticker, `inFlight` is the set being processed, and once every pass
      is between tickers nothing is left in flight. */
  lemma OverlappingPassesExclude(steps: seq<Step>, p: nat, q: nat, t: string)
    ensures var s := Run(IDLE, steps);
            && (IsInside(s, p, t) && IsInside(s, q, t) ==> p == q)
            && (t in s.inFlight <==> exists k: nat :: IsInside(s, k, t))
            && ((forall k :: 0 <= k < |s.passes| ==> s.passes[k].phase.Between?) ==> s.inFlight == {})
  {
    RunKeepsExclusive(IDLE, steps);
    var s := Run(IDLE, steps);
    if s.inFlight != {} {
      var u :| u in s.inFlight;
      var k: nat :| IsInside(s, k, u);
      assert !s.passes[k].phase.Between?;
    }
  }

  /** A pass waiting for its turn gives way: it can neither enter a ticker another pass is in nor
      disturb it. */
  lemma ClaimSkipsBusyTicker(s: System, p: nat, q: nat, t: string)
    requires Exclusive(s) && p < |s.passes| && s.passes[p].phase.Between?
    requires s.passes[p].todo != [] && s.passes[p].todo[0] == t && IsInside(s, q, t)
    ensures var n := Next(s, Claim(p));
            n.inFlight == s.inFlight && IsInside(n, q, t) && !IsInside(n, p, t)
  {
    assert t in s.inFlight;
  }

  /** A pass enters the next of its tickers exactly when no pass is in it, and drops it from its list either
      way. */
  lemma ClaimsExactly(s: System, p: nat)
    requires Exclusive(s) && p < |s.passes| && s.passes[p].phase.Between? && s.passes[p].todo != []
    ensures var n := Next(s, Claim(p));
            var t := s.passes[p].todo[0];
            && (IsInside(n, p, t) <==> forall q: nat :: !IsInside(s, q, t))
            && n.passes[p].todo == s.passes[p].todo[1..] && |n.passes| == |s.passes|
            && (forall q :: 0 <= q < |s.passes| && q != p ==> n.passes[q] == s.passes[q])
  {
    var t := s.passes[p].todo[0];
    assert t in s.inFlight <==> exists q: nat :: IsInside(s, q, t);
  }

  /** Leaving a ticker frees it and nothing else; the pass goes on with its list, unless it raised. */
  lemma ReleasesExactly(s: System, p: nat, t: string, raised: bool)
    requires Exclusive(s) && IsInside(s, p, t)
    ensures var n := Next(s, Release(p, raised));
            && n.inFlight == s.inFlight - {t} && |n.passes| == |s.passes|
            && n.passes[p] == Pass(if raised then [] else s.passes[p].todo, Between)
            && (forall q :: 0 <= q < |s.passes| && q != p ==> n.passes[q] == s.passes[q])
  {
  }

  /** The steps of a pass that meets nobody. */
  function Alone(n: nat): (steps: seq<Step>) {
    if n == 0 then [] else [Claim(0), Release(0, false)] + Alone(n - 1)
  }

  /** Such a pass, once started, goes through all of its tickers and leaves nothing in flight. */
  lemma StartedPassFinishes(todo: seq<string>)
    ensures Run(IDLE, [Start(todo)] + Alone(|todo|)) == System({}, [Pass([], Between)])
  {
    var steps := [Start(todo)] + Alone(|todo|);
    assert steps[1..] == Alone(|todo|);
    assert Next(IDLE, steps[0]) == System({}, [Pass(todo, Between)]);
    AlonePassFinishes(todo);
  }

  lemma {:induction false} AlonePassFinishes(todo: seq<string>)
    ensures Run(System({}, [Pass(todo, Between)]), Alone(|todo|)) == System({}, [Pass([], Between)])
    decreases |todo|
  {
    if todo != [] {
      var s, steps := System({}, [Pass(todo, Between)]), Alone(|todo|);
      var inside := System({todo[0]}, [Pass(todo[1..], Inside(todo[0]))]);
      var after := System({}, [Pass(todo[1..], Between)]);
      assert Next(s, steps[0]) == inside;
      assert Next(inside, steps[1..][0]) == after;
      assert steps[1..][1..] == Alone(|todo| - 1);
      TwoSteps(s, steps);
      AlonePassFinishes(todo[1..]);
    }
  }

  lemma TwoSteps(s: System, steps: seq<Step>)
    requires |steps| >= 2
    ensures Run(s, steps) == Run(Next(Next(s, steps[0]), steps[1..][0]), steps[1..][1..])
  {
    hide Next;
    assert Run(s, steps) == Run(Next(s, steps[0]), steps[1..]);
  }
}
