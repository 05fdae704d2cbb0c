/** The step system of a wait side on its packed word: while fewer than 2^31 calls are under way, the three
    fields of the word are the counts and the flag of the model, and every step changes the word by the
    arithmetic of the code. */
module WakeWord {
  import opened SideWord
  import opened WakeProtocol
  import opened WakeInvariant
  import opened WakeTheorems

  function WordOf(s: Side): nat {
    Word(s.pollers, s.parked, s.closed)
  }

  // ---------------------------------------------------------------------------------------
  // The counts stay in range

  function Listed(list: seq<nat>): set<nat> {
    if list == [] then {} else Listed(list[1..]) + {list[0]}
  }

  lemma {:induction false} ListedCount(list: seq<nat>)
    requires NoDup(list)
    ensures |Listed(list)| == |list| && forall t :: t in Listed(list) <==> t in list
  {
    if list != [] {
      ListedCount(list[1..]);
      assert list == [list[0]] + list[1..];
      assert list[0] !in list[1..];
    }
  }

  lemma {:induction false} AtMost(a: set<nat>, b: set<nat>)
    requires a <= b
    ensures |a| <= |b|
  {
    if a != {} {
      var x :| x in a;
      AtMost(a - {x}, b - {x});
    }
  }

  lemma DisjointCount(a: set<nat>, b: set<nat>)
    requires a !! b
    ensures |a + b| == |a| + |b|
  {
  }

  /** The call whose parked count is one ahead of the list. */
  ghost function Between(s: Side): set<nat> {
    if s.owner.By? && V(s, s.owner.call).ahead == 1 then {s.owner.call} else {}
  }

  /** Every count of the word stands for a call of its own. */
  lemma CountsBounded(s: Side)
    requires SideInv(s)
    ensures s.pollers + s.parked <= |s.calls.Keys|
  {
    CountsAdd(s);
    BetweenApart(s);
    hide SideInv, Pollers, Listed, Between;
    var pollers, listed, between := Pollers(s), Listed(s.list), Between(s);
    DisjointCount(pollers, listed);
    DisjointCount(pollers + listed, between);
    AtMost(pollers + listed + between, s.calls.Keys);
  }

  lemma CountsAdd(s: Side)
    requires SideInv(s)
    ensures s.pollers + s.parked == |Pollers(s)| + |Listed(s.list)| + |Between(s)|
  {
    ListedCount(s.list);
    if s.owner.By? && s.owner.call in s.calls {
      AheadView(s.calls[s.owner.call]);
    }
    hide ViewOf, Listed, TokenInv, LockInv, ListInv, Pollers;
  }

  lemma AheadView(pc: PC)
    ensures ViewOf(pc).ahead <= 1 && (ViewOf(pc).ahead == 1 ==> !ViewOf(pc).active && !ViewOf(pc).waits)
    ensures ViewOf(pc).waits ==> !ViewOf(pc).active
  {
  }

  lemma BetweenApart(s: Side)
    requires SideInv(s)
    ensures Pollers(s) !! Listed(s.list) && (Pollers(s) + Listed(s.list)) !! Between(s)
    ensures Pollers(s) + Listed(s.list) + Between(s) <= s.calls.Keys
  {
    hide ViewOf, Listed, CountInv, TokenInv, LockInv, NoDup;
    ListedCount(s.list);
    forall t | t in s.list ensures t in s.calls && t !in Pollers(s) && t !in Between(s) {
      assert V(s, t).waits;
      AheadView(s.calls[t]);
    }
    forall t | t in Between(s) ensures t in s.calls && t !in Pollers(s) {
      AheadView(s.calls[t]);
    }
  }

  // ---------------------------------------------------------------------------------------
  // The arithmetic of the code

  /** What the code makes of the word at a call's next step. */
  function CodeStep(w: nat, pc: PC): int {
    match pc
    case Leave(_) => w - ONE_POLLER
    case EnlistHeld => if ClosedOf(w) then w else w - ONE_POLLER + ONE_PARKED
    case QuitCount(_, _) => w - ONE_PARKED
    case WakeHeld(target, _) =>
      if ParkedOf(w) == 0 || PollersOf(w) >= target then w
      else
        var count := if ParkedOf(w) <= target - PollersOf(w) then ParkedOf(w) else target - PollersOf(w);
        w + count - count * ONE_PARKED
    case CloseHeld => if ClosedOf(w) then w else w + CLOSED_FLAG
    case _ => w
  }

  function CodeWord(w: nat, s: Side, x: Action): int {
    match x
    case Register(_) => if ClosedOf(w) then w else w + ONE_POLLER
    case Go(t, _) => if t in s.calls then CodeStep(w, s.calls[t]) else w
    case _ => w
  }

  /** The word shows the counts and the flag. */
  ghost predicate Shown(s: Side) {
    var w := WordOf(s);
    w < U64 && Packed(w) && PollersOf(w) == s.pollers && ParkedOf(w) == s.parked && ClosedOf(w) == s.closed
  }

  lemma WordShown(s: Side)
    requires SideInv(s) && |s.calls.Keys| < COUNT_LIMIT
    ensures Shown(s)
  {
    CountsBounded(s);
    FieldsOfWord(s.pollers, s.parked, s.closed);
  }

  lemma TakerWord(s: Side, t: nat, a: nat)
    requires SideInv(s) && Shown(s) && t in s.calls && TakerPC(s.calls[t])
    ensures WordOf(TakerStep(s, t, s.calls[t], a)) == CodeStep(WordOf(s), s.calls[t])
  {
    if s.calls[t].Leave? || s.calls[t].EnlistHeld? {
      PollerCounted(s, t);
    }
    assert s.calls[t].QuitCount? ==> s.parked > 0 by {
      assert s.calls[t].QuitCount? ==> V(s, t).lock && V(s, t).ahead == 1;
    }
    hide SideInv, PollersOf, ParkedOf, ClosedOf, Packed, Without, Resume;
  }

  lemma WakeSame(s: Side, t: nat, pc: PC, a: nat)
    requires s.batch > 0 && WakePC(pc) && !pc.WakeHeld?
    ensures WordOf(WakeStep(s, t, pc, a)) == WordOf(s) == CodeStep(WordOf(s), pc)
  {
    hide AfterClean, Resume, Word;
  }

  lemma WakeTransfers(s: Side, t: nat, pc: PC, a: nat)
    requires s.batch > 0 && Shown(s) && pc.WakeHeld? && pc.target <= MAX_CAP
    ensures WordOf(WakeStep(s, t, pc, a)) == CodeStep(WordOf(s), pc)
  {
    hide PollersOf, ParkedOf, ClosedOf, Packed, Resume;
  }

  lemma WakerWord(s: Side, t: nat, a: nat)
    requires Inv(s) && Shown(s) && t in s.calls && WakePC(s.calls[t])
    ensures s.batch > 0
    ensures WordOf(WakeStep(s, t, s.calls[t], a)) == CodeStep(WordOf(s), s.calls[t])
  {
    assert Aimed(s.calls[t], s.cap) && s.cap <= MAX_CAP;
    hide Shown, WakeStep, CodeStep, WordOf;
    if s.calls[t].WakeHeld? {
      WakeTransfers(s, t, s.calls[t], a);
    } else {
      WakeSame(s, t, s.calls[t], a);
    }
  }

  lemma SupplierWord(s: Side, t: nat, a: nat)
    requires s.batch > 0 && Shown(s) && t in s.calls && SupplyPC(s.calls[t])
    ensures WordOf(SupplyStep(s, t, s.calls[t], a)) == CodeStep(WordOf(s), s.calls[t])
  {
    hide PollersOf, ParkedOf, ClosedOf, Packed, AfterCheck, AfterProbe;
  }

  /** Every step changes the word exactly as the code does. */
  lemma WordStep(s: Side, x: Action)
    requires Inv(s) && |s.calls.Keys| < COUNT_LIMIT && Enabled(s, x)
    ensures s.batch > 0 && Shown(s) && WordOf(Apply(s, x)) == CodeWord(WordOf(s), s, x)
  {
    WordShown(s);
    assert s.batch > 0;
    if x.Go? {
      hide Inv, Shown, TakerStep, WakeStep, SupplyStep, CodeStep, Word;
      if TakerPC(s.calls[x.t]) {
        GoodSide(s);
        TakerWord(s, x.t, x.a);
      } else if WakePC(s.calls[x.t]) {
        WakerWord(s, x.t, x.a);
      } else {
        SupplierWord(s, x.t, x.a);
      }
    } else {
      hide Inv, PollersOf, ParkedOf, ClosedOf, Packed;
    }
  }

  lemma GoodSide(s: Side)
    requires Inv(s)
    ensures SideInv(s)
  {
  }

  /** In every run with fewer than 2^31 calls at a time, the counts and the flag are the fields of one 64-bit
      word, and each step is the code's arithmetic on that word, with no carry or borrow between fields. */
  lemma WordIsExact(run: seq<Side>, i: nat)
    requires Run(run) && i < |run| && |run[i].calls.Keys| < COUNT_LIMIT
    ensures Shown(run[i]) && run[i].batch > 0
    ensures forall x | Enabled(run[i], x) :: WordOf(Apply(run[i], x)) == CodeWord(WordOf(run[i]), run[i], x)
  {
    RunInv(run, i);
    var s := run[i];
    GoodSide(s);
    WordShown(s);
    assert s.batch > 0;
    hide Inv, Shown, Enabled, Apply, CodeWord;
    forall x | Enabled(s, x) ensures WordOf(Apply(s, x)) == CodeWord(WordOf(s), s, x) {
      WordStep(s, x);
    }
  }
}
