/**
 Labelled transition systems shared by every protocol of the agency.

 The agency's services are `async`: between two `await`s any other request may take
 steps.  A protocol is therefore a `System`: its state holds the shared store together
 with every call that is in flight, an event is one atomic step of one call (or of the
 environment), and a run is any sequence of enabled events.  A statement about every run
 is a statement about every interleaving of any number of calls.
 */
module Runs {
  datatype Option<+T> = None | Some(value: T)

  datatype System<!S, !E> = System(init: S, enabled: (S, E) -> bool, next: (S, E) -> S)

  /** The state reached by `es`. */
  ghost function After<S, E>(sys: System<S, E>, es: seq<E>): S {
    if es == [] then sys.init
    else sys.next(After(sys, es[..|es| - 1]), es[|es| - 1])
  }

  ghost predicate IsRun<S, E>(sys: System<S, E>, es: seq<E>) {
    es == [] ||
    (IsRun(sys, es[..|es| - 1]) && sys.enabled(After(sys, es[..|es| - 1]), es[|es| - 1]))
  }

  lemma Extend<S, E>(sys: System<S, E>, es: seq<E>, e: E)
    ensures After(sys, es + [e]) == sys.next(After(sys, es), e)
    ensures IsRun(sys, es + [e]) <==> IsRun(sys, es) && sys.enabled(After(sys, es), e)
  {
    assert (es + [e])[..|es|] == es;
  }

  lemma Extend3<S, E>(sys: System<S, E>, es: seq<E>, a: E, b: E, c: E)
    ensures After(sys, es + [a] + [b] + [c]) == sys.next(sys.next(sys.next(After(sys, es), a), b), c)
    ensures IsRun(sys, es + [a] + [b] + [c])
       <==> && IsRun(sys, es) && sys.enabled(After(sys, es), a)
            && sys.enabled(sys.next(After(sys, es), a), b)
            && sys.enabled(sys.next(sys.next(After(sys, es), a), b), c)
  {
    Extend(sys, es, a);
    Extend(sys, es + [a], b);
    Extend(sys, es + [a] + [b], c);
  }

  lemma Extend4<S, E>(sys: System<S, E>, es: seq<E>, a: E, b: E, c: E, d: E)
    ensures var s3 := sys.next(sys.next(sys.next(After(sys, es), a), b), c);
            && After(sys, es + [a] + [b] + [c] + [d]) == sys.next(s3, d)
            && (IsRun(sys, es + [a] + [b] + [c] + [d]) <==> IsRun(sys, es + [a] + [b] + [c]) && sys.enabled(s3, d))
  {
    Extend3(sys, es, a, b, c);
    Extend(sys, es + [a] + [b] + [c], d);
  }

  /** `all` is a run that goes on from `es` and ends in `t`. */
  ghost predicate Reaches<S, E>(sys: System<S, E>, es: seq<E>, all: seq<E>, t: S) {
    IsRun(sys, all) && es <= all && After(sys, all) == t
  }

  /** From `s` one enabled step leads to `t`. */
  ghost predicate Steps<S, E>(sys: System<S, E>, s: S, e: E, t: S) {
    sys.enabled(s, e) && sys.next(s, e) == t
  }

  lemma Goes<S, E>(sys: System<S, E>, es: seq<E>, mid: seq<E>, s: S, e: E, t: S)
    requires Reaches(sys, es, mid, s) && Steps(sys, s, e, t)
    ensures Reaches(sys, es, mid + [e], t)
  {
    Extend(sys, mid, e);
  }

  /** A run continued by `more`, taken apart at its last event. */
  lemma SplitLast<S, E>(sys: System<S, E>, es: seq<E>, more: seq<E>)
    requires more != []
    ensures var before, e := es + more[..|more| - 1], more[|more| - 1];
            && After(sys, es + more) == sys.next(After(sys, before), e)
            && (IsRun(sys, es + more) <==> IsRun(sys, before) && sys.enabled(After(sys, before), e))
  {
    assert es + more == (es + more[..|more| - 1]) + [more[|more| - 1]];
    Extend(sys, es + more[..|more| - 1], more[|more| - 1]);
  }

  /** Every prefix of a run is a run, and each of its events was enabled when it was taken. */
  lemma {:induction false} Prefix<S, E>(sys: System<S, E>, es: seq<E>, i: nat)
    requires IsRun(sys, es) && i <= |es|
    ensures IsRun(sys, es[..i])
    ensures i < |es| ==> sys.enabled(After(sys, es[..i]), es[i])
    ensures i < |es| ==> After(sys, es[..i + 1]) == sys.next(After(sys, es[..i]), es[i])
    decreases |es|
  {
    if i == |es| {
      assert es[..i] == es;
    } else {
      var front := es[..|es| - 1];
      assert es[..i] == front[..i];
      Prefix(sys, front, i);
      if i + 1 == |es| {
        assert es[..i + 1] == es;
      } else {
        assert es[..i + 1] == front[..i + 1];
      }
    }
  }

  /** The state reached from `s` by `es`, and whether each event was enabled in its turn. */
  ghost function Apply<S, E>(sys: System<S, E>, s: S, es: seq<E>): S {
    if es == [] then s else Apply(sys, sys.next(s, es[0]), es[1..])
  }

  ghost predicate Takes<S, E>(sys: System<S, E>, s: S, es: seq<E>) {
    es != [] ==> sys.enabled(s, es[0]) && Takes(sys, sys.next(s, es[0]), es[1..])
  }

  lemma ApplyOne<S, E>(sys: System<S, E>, s: S, a: E)
    ensures Apply(sys, s, [a]) == sys.next(s, a) && (Takes(sys, s, [a]) <==> sys.enabled(s, a))
  {
  }

  lemma ApplyTwo<S, E>(sys: System<S, E>, s: S, a: E, b: E)
    ensures Apply(sys, s, [a, b]) == sys.next(sys.next(s, a), b)
    ensures Takes(sys, s, [a, b]) <==> sys.enabled(s, a) && sys.enabled(sys.next(s, a), b)
  {
    assert [a, b][1..] == [b];
    ApplyOne(sys, sys.next(s, a), b);
  }

  lemma {:induction false} Append<S, E>(sys: System<S, E>, es: seq<E>, more: seq<E>)
    ensures After(sys, es + more) == Apply(sys, After(sys, es), more)
    ensures IsRun(sys, es + more) <==> IsRun(sys, es) && Takes(sys, After(sys, es), more)
    decreases |more|
  {
    if more == [] {
      assert es + more == es;
    } else {
      assert es + more == (es + [more[0]]) + more[1..];
      Extend(sys, es, more[0]);
      Append(sys, es + [more[0]], more[1..]);
    }
  }

  /** What happens to one request: answered, carried out with the answer lost, or not carried out. */
  datatype Reply = Answered | Lost | NotDone

  // ---------------------------------------------------------------- methods among other calls

  /** While call `c` is suspended the events of `gap` that belong to others and are enabled take place. */
  ghost function Admit<S, E>(sys: System<S, E>, actor: E -> int, c: int, t: seq<E>, gap: seq<E>): seq<E> {
    if gap == [] then t else
    var before := Admit(sys, actor, c, t, gap[..|gap| - 1]);
    var e := gap[|gap| - 1];
    if actor(e) != c && sys.enabled(After(sys, before), e) then before + [e] else before
  }

  /** Call `c` waits, the others filling the gap, and then takes its step `e`. */
  ghost function Act<S, E>(sys: System<S, E>, actor: E -> int, c: int, t: seq<E>, gap: seq<E>, e: E): seq<E> {
    Admit(sys, actor, c, t, gap) + [e]
  }

  /** The events of call `c`, in order. */
  ghost function Own<E>(actor: E -> int, c: int, es: seq<E>): seq<E> {
    if es == [] then [] else
    Own(actor, c, es[..|es| - 1]) + (if actor(es[|es| - 1]) == c then [es[|es| - 1]] else [])
  }

  lemma {:induction false} OwnOfAdmit<S, E>(sys: System<S, E>, actor: E -> int, c: int, t: seq<E>, gap: seq<E>)
    ensures Own(actor, c, Admit(sys, actor, c, t, gap)) == Own(actor, c, t)
    ensures t <= Admit(sys, actor, c, t, gap)
    ensures IsRun(sys, t) ==> IsRun(sys, Admit(sys, actor, c, t, gap))
  {
    if gap != [] {
      var before := Admit(sys, actor, c, t, gap[..|gap| - 1]);
      OwnOfAdmit(sys, actor, c, t, gap[..|gap| - 1]);
      Extend(sys, before, gap[|gap| - 1]);
      assert (before + [gap[|gap| - 1]])[..|before|] == before;
    }
  }

  /** Interleaving never reorders, drops or repeats what the call itself does. */
  lemma OwnOfAct<S, E>(sys: System<S, E>, actor: E -> int, c: int, t: seq<E>, gap: seq<E>, e: E)
    requires actor(e) == c
    ensures Own(actor, c, Act(sys, actor, c, t, gap, e)) == Own(actor, c, t) + [e]
    ensures t < Act(sys, actor, c, t, gap, e)
  {
    var mid := Admit(sys, actor, c, t, gap);
    OwnOfAdmit(sys, actor, c, t, gap);
    assert (mid + [e])[..|mid|] == mid;
  }

  /** Call `c` takes the steps of `script` one after the other, the others filling one gap before each. */
  ghost function Weave<S, E>(
    sys: System<S, E>, actor: E -> int, c: int, t: seq<E>, gaps: seq<seq<E>>, script: seq<E>): seq<E>
    decreases |script|
  {
    if script == [] || gaps == [] then t
    else Weave(sys, actor, c, Act(sys, actor, c, t, gaps[0], script[0]), gaps[1..], script[1..])
  }

  lemma WeaveFirst<S, E>(
    sys: System<S, E>, actor: E -> int, c: int, t: seq<E>, gaps: seq<seq<E>>, e: E, rest: seq<E>)
    requires gaps != []
    ensures Weave(sys, actor, c, t, gaps, [e] + rest)
         == Weave(sys, actor, c, Act(sys, actor, c, t, gaps[0], e), gaps[1..], rest)
  {
    assert ([e] + rest)[1..] == rest;
  }

  lemma WeaveTwo<S, E>(sys: System<S, E>, actor: E -> int, c: int, t: seq<E>, gaps: seq<seq<E>>, a: E, b: E)
    requires |gaps| >= 2
    ensures Weave(sys, actor, c, t, gaps, [a, b])
         == Act(sys, actor, c, Act(sys, actor, c, t, gaps[0], a), gaps[1], b)
  {
    assert [a, b] == [a] + [b] && [b] == [b] + [];
    WeaveFirst(sys, actor, c, t, gaps, a, [b]);
    WeaveFirst(sys, actor, c, Act(sys, actor, c, t, gaps[0], a), gaps[1..], b, []);
  }

  lemma WeaveThree<S, E>(sys: System<S, E>, actor: E -> int, c: int, t: seq<E>, gaps: seq<seq<E>>, a: E, b: E, d: E)
    requires |gaps| >= 3
    ensures Weave(sys, actor, c, t, gaps, [a, b, d])
         == Act(sys, actor, c, Act(sys, actor, c, Act(sys, actor, c, t, gaps[0], a), gaps[1], b), gaps[2], d)
  {
    assert [a, b, d] == [a] + [b, d];
    WeaveFirst(sys, actor, c, t, gaps, a, [b, d]);
    WeaveTwo(sys, actor, c, Act(sys, actor, c, t, gaps[0], a), gaps[1..], b, d);
  }

  lemma {:induction false} WeaveBoth<S, E>(
    sys: System<S, E>, actor: E -> int, c: int, t: seq<E>, gaps: seq<seq<E>>, a: seq<E>, b: seq<E>)
    requires |a| <= |gaps|
    ensures Weave(sys, actor, c, t, gaps, a + b)
         == Weave(sys, actor, c, Weave(sys, actor, c, t, gaps, a), gaps[|a|..], b)
    decreases |a|
  {
    if a == [] {
      assert a + b == b;
    } else {
      var u := Act(sys, actor, c, t, gaps[0], a[0]);
      assert a + b == [a[0]] + (a[1..] + b) && gaps[1..][|a| - 1..] == gaps[|a|..];
      WeaveFirst(sys, actor, c, t, gaps, a[0], a[1..] + b);
      WeaveBoth(sys, actor, c, u, gaps[1..], a[1..], b);
    }
  }

  lemma WeaveLast<S, E>(sys: System<S, E>, actor: E -> int, c: int, t: seq<E>, gaps: seq<seq<E>>, a: seq<E>, e: E)
    requires |a| < |gaps|
    ensures Weave(sys, actor, c, t, gaps, a + [e])
         == Act(sys, actor, c, Weave(sys, actor, c, t, gaps, a), gaps[|a|], e)
  {
    WeaveBoth(sys, actor, c, t, gaps, a, [e]);
    assert [e] == [e] + [];
    WeaveFirst(sys, actor, c, Weave(sys, actor, c, t, gaps, a), gaps[|a|..], e, []);
  }

  /** The call's own events are then exactly its script, after what it had done before. */
  lemma {:induction false} OwnOfWeave<S, E>(
    sys: System<S, E>, actor: E -> int, c: int, t: seq<E>, gaps: seq<seq<E>>, script: seq<E>)
    requires |script| <= |gaps| && forall i | 0 <= i < |script| :: actor(script[i]) == c
    ensures Own(actor, c, Weave(sys, actor, c, t, gaps, script)) == Own(actor, c, t) + script
    ensures t <= Weave(sys, actor, c, t, gaps, script)
    decreases |script|
  {
    if script != [] {
      var u := Act(sys, actor, c, t, gaps[0], script[0]);
      OwnOfAct(sys, actor, c, t, gaps[0], script[0]);
      OwnOfWeave(sys, actor, c, u, gaps[1..], script[1..]);
      Regroup(Own(actor, c, t), script);
    }
  }

  /** The two and the three steps of a short call, and its own events after each. */
  lemma WeaveShort<S, E>(sys: System<S, E>, actor: E -> int, c: int, t: seq<E>, gaps: seq<seq<E>>, a: E, b: E, d: E)
    requires |gaps| >= 3 && actor(a) == c && actor(b) == c && actor(d) == c
    ensures var two := Act(sys, actor, c, Act(sys, actor, c, t, gaps[0], a), gaps[1], b);
            && two == Weave(sys, actor, c, t, gaps, [a, b]) && Own(actor, c, two) == Own(actor, c, t) + [a, b]
            && var three := Act(sys, actor, c, two, gaps[2], d);
               && three == Weave(sys, actor, c, t, gaps, [a, b, d])
               && Own(actor, c, three) == Own(actor, c, t) + [a, b, d]
  {
    WeaveTwo(sys, actor, c, t, gaps, a, b);
    WeaveThree(sys, actor, c, t, gaps, a, b, d);
    OwnOfWeave(sys, actor, c, t, gaps, [a, b]);
    OwnOfWeave(sys, actor, c, t, gaps, [a, b, d]);
  }

  lemma Regroup<E>(a: seq<E>, b: seq<E>)
    requires b != []
    ensures a + [b[0]] + b[1..] == a + b
  {
  }

  ghost predicate EndsWith<E>(es: seq<E>, e: E) {
    es != [] && es[|es| - 1] == e
  }

  /** From `t` to `u` call `c` has waited and then taken its step `e`. */
  ghost predicate Acted<S, E>(sys: System<S, E>, actor: E -> int, c: int, t: seq<E>, gap: seq<E>, e: E, u: seq<E>) {
    u == Act(sys, actor, c, t, gap, e) && t <= u && EndsWith(u, e)
  }

  lemma AdmitStep<S, E>(sys: System<S, E>, actor: E -> int, c: int, t: seq<E>, gap: seq<E>, i: nat)
    requires i < |gap|
    ensures var before := Admit(sys, actor, c, t, gap[..i]);
            var after := Admit(sys, actor, c, t, gap[..i + 1]);
            after == if actor(gap[i]) != c && sys.enabled(After(sys, before), gap[i]) then before + [gap[i]] else before
  {
    assert gap[..i + 1][..i] == gap[..i];
  }
}
