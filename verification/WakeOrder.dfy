/** Wakes come in list order: while a call waits in the list no wake selects a call behind it. */
module WakeOrder {
  import opened WakeProtocol
  import opened WakeInvariant
  import opened WakeTheorems

  ghost predicate Before(list: seq<nat>, t: nat, u: nat) {
    exists i, j :: 0 <= i < j < |list| && list[i] == t && list[j] == u
  }

  /** What a step may do to the list: nothing, link a call at either end, unlink the first, or let a call leave. */
  ghost predicate ListStep(s: Side, x: Action, s': Side) {
    || s'.list == s.list
    || (exists v :: s'.list == s.list + [v] || s'.list == [v] + s.list)
    || (s.list != [] && s'.list == s.list[1..])
    || (x.Go? && x.t in s.calls && s.calls[x.t].QuitHeld? && x.t in s.list && s'.list == Without(s.list, x.t))
  }

  lemma StepLists(s: Side, x: Action, s': Side)
    requires s.batch > 0 && Enabled(s, x) && s' == Apply(s, x)
    ensures ListStep(s, x, s')
  {
    hide ListStep;
    if x.Go? {
      hide GoEnabled, TakerStep, WakeStep, SupplyStep;
      if TakerPC(s.calls[x.t]) {
        TakerLists(s, x, s');
      } else if WakePC(s.calls[x.t]) {
        WakeLists(s, x, s');
      } else {
        SupplyLists(s, x.t, s.calls[x.t], x.a);
        SameList(s, x, s');
      }
    } else {
      SameList(s, x, s');
    }
  }

  lemma SameList(s: Side, x: Action, s': Side)
    requires s'.list == s.list
    ensures ListStep(s, x, s')
  {
  }

  lemma TakerLists(s: Side, x: Action, s': Side)
    requires x.Go? && x.t in s.calls && TakerPC(s.calls[x.t]) && s' == TakerStep(s, x.t, s.calls[x.t], x.a)
    ensures ListStep(s, x, s')
  {
    hide Without, Resume;
  }

  lemma WakeLists(s: Side, x: Action, s': Side)
    requires s.batch > 0 && x.Go? && x.t in s.calls && WakePC(s.calls[x.t]) && s' == WakeStep(s, x.t, s.calls[x.t], x.a)
    ensures ListStep(s, x, s')
  {
    hide AfterClean, Resume;
  }

  lemma SupplyLists(s: Side, t: nat, pc: PC, a: nat)
    requires s.batch > 0
    ensures SupplyStep(s, t, pc, a).list == s.list
  {
    hide AfterCheck, AfterProbe, Supplying;
  }

  lemma {:induction false} WithoutOrder(list: seq<nat>, v: nat, t: nat, u: nat)
    requires NoDup(list) && Before(list, t, u) && v != t && v != u
    ensures Before(Without(list, v), t, u)
    decreases |list|
  {
    var i, j :| 0 <= i < j < |list| && list[i] == t && list[j] == u;
    var rest := list[1..];
    if list[0] == v {
      assert rest[i - 1] == t && rest[j - 1] == u;
    } else if i == 0 {
      assert rest[j - 1] == u;
      WithoutIn(rest, v, u);
      var k :| 0 <= k < |Without(rest, v)| && Without(rest, v)[k] == u;
      var after := Without(list, v);
      assert after == [t] + Without(rest, v);
      assert after[0] == t && after[k + 1] == u;
    } else {
      assert rest[i - 1] == t && rest[j - 1] == u;
      WithoutOrder(rest, v, t, u);
      var a, b :| 0 <= a < b < |Without(rest, v)| && Without(rest, v)[a] == t && Without(rest, v)[b] == u;
      var after := Without(list, v);
      assert after == [list[0]] + Without(rest, v);
      assert after[a + 1] == t && after[b + 1] == u;
    }
  }

  lemma {:induction false} WithoutIn(list: seq<nat>, v: nat, u: nat)
    requires u in list && u != v
    ensures u in Without(list, v)
  {
    if list[0] != v && list[0] != u {
      WithoutIn(list[1..], v, u);
    }
  }

  /** One step keeps a call ahead of another, unless the other leaves by itself. */
  lemma StepOrder(s: Side, x: Action, s': Side, t: nat, u: nat)
    requires Inv(s) && s.batch > 0 && Enabled(s, x) && s' == Apply(s, x) && Before(s.list, t, u) && t in s'.list
    ensures Before(s'.list, t, u) || (u in s.calls && s.calls[u].QuitHeld?)
  {
    Ordered(s);
    StepLists(s, x, s');
    hide Inv, Apply, Enabled, Before, NoDup;
    if exists v :: s'.list == s.list + [v] || s'.list == [v] + s.list {
      var v :| s'.list == s.list + [v] || s'.list == [v] + s.list;
      LinkOrder(s.list, v, t, u);
    } else if s.list != [] && s'.list == s.list[1..] {
      DropOrder(s.list, t, u);
    } else if s'.list != s.list && x.t != u {
      assert x.t != t by { hide Without; GoneWithout(s.list, t); }
      WithoutOrder(s.list, x.t, t, u);
    }
  }

  lemma Ordered(s: Side)
    requires Inv(s)
    ensures NoDup(s.list)
  {
  }

  lemma GoneWithout(list: seq<nat>, t: nat)
    requires NoDup(list)
    ensures t !in Without(list, t) || t !in list
  {
    if t in list {
      WithoutOne(list, t);
    }
  }

  lemma LinkOrder(list: seq<nat>, v: nat, t: nat, u: nat)
    requires Before(list, t, u)
    ensures Before(list + [v], t, u) && Before([v] + list, t, u)
  {
    var i, j :| 0 <= i < j < |list| && list[i] == t && list[j] == u;
    assert (list + [v])[i] == t && (list + [v])[j] == u;
    assert ([v] + list)[i + 1] == t && ([v] + list)[j + 1] == u;
  }

  lemma DropOrder(list: seq<nat>, t: nat, u: nat)
    requires NoDup(list) && Before(list, t, u) && t in list[1..]
    ensures Before(list[1..], t, u)
  {
    var i, j :| 0 <= i < j < |list| && list[i] == t && list[j] == u;
    FirstGone(list, t);
    assert list[1..][i - 1] == t && list[1..][j - 1] == u;
  }

  lemma FirstGone(list: seq<nat>, t: nat)
    requires NoDup(list) && list != [] && t in list[1..]
    ensures list[0] != t
  {
    var k :| 0 <= k < |list[1..]| && list[1..][k] == t;
    assert list[k + 1] == t;
  }

  /** While a call waits in the list, no wake selects a call behind it: each of those is behind it still, or has left
      by itself. */
  lemma {:induction false} NoOvertaking(run: seq<Side>, i: nat, j: nat, t: nat, u: nat)
    requires Run(run) && i <= j < |run| && Before(run[i].list, t, u)
    requires forall k | i <= k <= j :: t in run[k].list
    ensures Before(run[j].list, t, u) || exists k :: i <= k < j && u in run[k].calls && run[k].calls[u].QuitHeld?
    decreases j
  {
    hide Inv, Init, Enabled, Apply, Before;
    if i < j {
      NoOvertaking(run, i, j - 1, t, u);
      if Before(run[j - 1].list, t, u) {
        RunInv(run, j - 1);
        assert Next(run[j - 1], run[j - 1 + 1]);
        var x :| Enabled(run[j - 1], x) && run[j] == Apply(run[j - 1], x);
        StepOrder(run[j - 1], x, run[j], t, u);
      }
    }
  }
}
