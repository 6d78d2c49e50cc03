/** Admission of part uploads: a global semaphore and one per account, found
    through weak references, in any interleaving of requests. */
module UploadAdmission {
  import opened Types

  datatype Phase = WaitsGlobal | WaitsAccount | Holds

  /** One request: the semaphore it found for its account, and how far it got.
      It keeps that semaphore alive for as long as it runs. */
  datatype Task = Task(account: Id, sem: Id, phase: Phase)

  datatype Limits = Limits(global: nat, perAccount: nat)

  /** `free` counts permits: of the global semaphore, and of each account
      semaphore still alive. `table` may also hold references that are dead. */
  datatype Admission = Admission(free: nat, sems: map<Id, nat>, table: map<Id, Id>, tasks: map<Id, Task>)

  datatype Action =
    | Enter(task: Id, account: Id, newSem: Id)
    | GrantGlobal(task: Id)
    | GrantAccount(task: Id)
    | Leave(task: Id)

  predicate Enabled(s: Admission, a: Action) {
    match a
    case Enter(t, _, newSem) => t !in s.tasks && newSem !in s.sems
    case GrantGlobal(t) => t in s.tasks && s.tasks[t].phase == WaitsGlobal && s.free > 0
    case GrantAccount(t) =>
      t in s.tasks && s.tasks[t].phase == WaitsAccount && s.tasks[t].sem in s.sems && s.sems[s.tasks[t].sem] > 0
    case Leave(t) => t in s.tasks && s.tasks[t].sem in s.sems
  }

  /** `accounts.retain(...)`: forget semaphores nobody holds any more. */
  function Retained(s: Admission): map<Id, Id> {
    map a | a in s.table && s.table[a] in s.sems :: s.table[a]
  }

  function Apply(c: Limits, s: Admission, a: Action): Admission
    requires Enabled(s, a)
  {
    match a
    case Enter(t, account, newSem) =>
      var table := Retained(s);
      if account in table then s.(table := table, tasks := s.tasks[t := Task(account, table[account], WaitsGlobal)])
      else
        s.(table := table[account := newSem], sems := s.sems[newSem := c.perAccount],
           tasks := s.tasks[t := Task(account, newSem, WaitsGlobal)])
    case GrantGlobal(t) =>
      s.(free := s.free - 1, tasks := s.tasks[t := s.tasks[t].(phase := WaitsAccount)])
    case GrantAccount(t) =>
      var sem := s.tasks[t].sem;
      s.(sems := s.sems[sem := s.sems[sem] - 1], tasks := s.tasks[t := s.tasks[t].(phase := Holds)])
    case Leave(t) =>
      var Task(_, sem, phase) := s.tasks[t];
      var returned := if phase == Holds then s.sems[sem := s.sems[sem] + 1] else s.sems;
      var last := forall u :: u in s.tasks && u != t ==> s.tasks[u].sem != sem;
      Admission(if phase == WaitsGlobal then s.free else s.free + 1,
                if last then returned - {sem} else returned, s.table, s.tasks - {t})
  }

  // ----- counting permits -----------------------------------------------------------------

  ghost function GlobalHolders(s: Admission): set<Id> {
    set t | t in s.tasks && s.tasks[t].phase != WaitsGlobal
  }

  ghost function SemHolders(s: Admission, sem: Id): set<Id> {
    set t | t in s.tasks && s.tasks[t].sem == sem && s.tasks[t].phase == Holds
  }

  ghost function AccountHolders(s: Admission, account: Id): set<Id> {
    set t | t in s.tasks && s.tasks[t].account == account && s.tasks[t].phase == Holds
  }

  ghost predicate Users(s: Admission, sem: Id) {
    exists t :: t in s.tasks && s.tasks[t].sem == sem
  }

  /** Permits are neither made nor lost. */
  ghost predicate Counted(c: Limits, s: Admission) {
    s.free + |GlobalHolders(s)| == c.global
    && forall sem :: sem in s.sems ==> s.sems[sem] + |SemHolders(s, sem)| == c.perAccount
  }

  /** A semaphore lives exactly as long as some request uses it. */
  ghost predicate InUse(s: Admission) {
    forall sem :: sem in s.sems <==> Users(s, sem)
  }

  /** The one semaphore of an account is the one the table finds. */
  ghost predicate Found(s: Admission) {
    (forall t :: t in s.tasks ==>
       s.tasks[t].account in s.table && s.table[s.tasks[t].account] == s.tasks[t].sem)
    && forall a, b :: a in s.table && b in s.table && s.table[a] == s.table[b] ==> a == b
  }

  ghost predicate Inv(c: Limits, s: Admission) {
    Counted(c, s) && InUse(s) && Found(s)
  }

  lemma Shrunk(a: set<Id>, b: set<Id>, t: Id)
    requires t in b && a == b - {t}
    ensures |a| + 1 == |b|
  {
    assert b == a + {t};
  }

  lemma Uses(s: Admission, t: Id)
    requires t in s.tasks
    ensures Users(s, s.tasks[t].sem)
  {
  }

  lemma EnterCounted(c: Limits, s: Admission, a: Action)
    requires Inv(c, s) && a.Enter? && Enabled(s, a)
    ensures Counted(c, Apply(c, s, a))
  {
    var s' := Apply(c, s, a);
    assert GlobalHolders(s') == GlobalHolders(s);
    assert !Users(s, a.newSem);
    assert SemHolders(s, a.newSem) == {};
    forall sem ensures SemHolders(s', sem) == SemHolders(s, sem) {
    }
  }

  lemma EnterInUse(c: Limits, s: Admission, a: Action)
    requires Inv(c, s) && a.Enter? && Enabled(s, a)
    ensures InUse(Apply(c, s, a))
  {
    var s' := Apply(c, s, a);
    Uses(s', a.task);
    forall sem ensures sem in s'.sems <==> Users(s', sem) {
      if Users(s, sem) {
        var t :| t in s.tasks && s.tasks[t].sem == sem;
        assert s'.tasks[t] == s.tasks[t];
        Uses(s', t);
      }
      if Users(s', sem) {
        var t :| t in s'.tasks && s'.tasks[t].sem == sem;
        assert t != a.task ==> Users(s, sem);
      }
    }
  }

  lemma EnterFound(c: Limits, s: Admission, a: Action)
    requires Inv(c, s) && a.Enter? && Enabled(s, a)
    ensures Found(Apply(c, s, a))
  {
    hide Counted;
    var s' := Apply(c, s, a);
    forall t | t in s'.tasks
      ensures s'.tasks[t].account in s'.table && s'.table[s'.tasks[t].account] == s'.tasks[t].sem
    {
      if t != a.task {
        Uses(s, t);
      }
    }
    forall x, y | x in s'.table && y in s'.table && s'.table[x] == s'.table[y] ensures x == y {
      assert x != a.account ==> x in s.table && s'.table[x] == s.table[x] && s.table[x] in s.sems;
      assert y != a.account ==> y in s.table && s'.table[y] == s.table[y] && s.table[y] in s.sems;
    }
  }

  /** A step that only moves one task on to its next phase. */
  lemma PhaseKeeps(s: Admission, s': Admission, t: Id, phase: Phase)
    requires InUse(s) && Found(s) && t in s.tasks
    requires s'.tasks == s.tasks[t := s.tasks[t].(phase := phase)]
    requires s'.sems.Keys == s.sems.Keys && s'.table == s.table
    ensures InUse(s') && Found(s')
  {
    forall sem ensures Users(s', sem) <==> Users(s, sem) {
      if u :| u in s.tasks && s.tasks[u].sem == sem {
        assert u in s'.tasks && s'.tasks[u].sem == sem;
      }
    }
  }

  lemma GrantGlobalKeeps(c: Limits, s: Admission, a: Action)
    requires Inv(c, s) && a.GrantGlobal? && Enabled(s, a)
    ensures Inv(c, Apply(c, s, a))
  {
    var s' := Apply(c, s, a);
    PhaseKeeps(s, s', a.task, WaitsAccount);
    hide InUse, Found;
    Shrunk(GlobalHolders(s), GlobalHolders(s'), a.task);
    forall sem ensures SemHolders(s', sem) == SemHolders(s, sem) {
    }
  }

  lemma HoldersMove(s: Admission, s': Admission, t: Id)
    requires t in s.tasks && s.tasks[t].phase == WaitsAccount
    requires s'.tasks == s.tasks[t := s.tasks[t].(phase := Holds)]
    ensures GlobalHolders(s') == GlobalHolders(s)
    ensures |SemHolders(s', s.tasks[t].sem)| == |SemHolders(s, s.tasks[t].sem)| + 1
    ensures forall sem :: sem != s.tasks[t].sem ==> SemHolders(s', sem) == SemHolders(s, sem)
  {
    Shrunk(SemHolders(s, s.tasks[t].sem), SemHolders(s', s.tasks[t].sem), t);
  }

  lemma GrantAccountKeeps(c: Limits, s: Admission, a: Action)
    requires Inv(c, s) && a.GrantAccount? && Enabled(s, a)
    ensures Inv(c, Apply(c, s, a))
  {
    hide InUse, Found, GlobalHolders, SemHolders;
    var s' := Apply(c, s, a);
    PhaseKeeps(s, s', a.task, Holds);
    HoldersMove(s, s', a.task);
  }

  lemma LeaveCounted(c: Limits, s: Admission, a: Action)
    requires Inv(c, s) && a.Leave? && Enabled(s, a)
    ensures Counted(c, Apply(c, s, a))
  {
    hide InUse, Found;
    var s' := Apply(c, s, a);
    var Task(_, left, phase) := s.tasks[a.task];
    if phase != WaitsGlobal {
      Shrunk(GlobalHolders(s'), GlobalHolders(s), a.task);
    } else {
      assert GlobalHolders(s') == GlobalHolders(s);
    }
    if phase == Holds {
      Shrunk(SemHolders(s', left), SemHolders(s, left), a.task);
    }
    forall sem | sem != left || phase != Holds ensures SemHolders(s', sem) == SemHolders(s, sem) {
    }
  }

  lemma LeaveInUse(c: Limits, s: Admission, a: Action)
    requires Inv(c, s) && a.Leave? && Enabled(s, a)
    ensures InUse(Apply(c, s, a)) && Found(Apply(c, s, a))
  {
    var s' := Apply(c, s, a);
    var left := s.tasks[a.task].sem;
    forall sem ensures sem in s'.sems <==> Users(s', sem) {
      if u :| u in s.tasks && u != a.task && s.tasks[u].sem == sem {
        assert u in s'.tasks && s'.tasks[u].sem == sem;
        assert Users(s, sem);
      } else {
        assert sem != left ==> !Users(s, sem);
      }
    }
  }

  // ----- runs ----------------------------------------------------------------------------------

  ghost predicate Run(c: Limits, states: seq<Admission>, actions: seq<Action>) {
    && |states| == |actions| + 1 && states[0] == Admission(c.global, map[], map[], map[])
    && forall i :: 0 <= i < |actions| ==>
         Enabled(states[i], actions[i]) && states[i + 1] == Apply(c, states[i], actions[i])
  }

  lemma {:induction false} RunInv(c: Limits, states: seq<Admission>, actions: seq<Action>, i: nat)
    requires Run(c, states, actions) && i < |states|
    ensures Inv(c, states[i])
  {
    if i > 0 {
      RunInv(c, states, actions, i - 1);
      var s, a := states[i - 1], actions[i - 1];
      match a
      case Enter(_, _, _) =>
        EnterCounted(c, s, a);
        EnterInUse(c, s, a);
        EnterFound(c, s, a);
      case GrantGlobal(_) => GrantGlobalKeeps(c, s, a);
      case GrantAccount(_) => GrantAccountKeeps(c, s, a);
      case Leave(_) =>
        LeaveCounted(c, s, a);
        LeaveInUse(c, s, a);
    } else {
      assert GlobalHolders(states[0]) == {};
    }
  }

  lemma SubsetSize(a: set<Id>, b: set<Id>)
    requires a <= b
    ensures |a| <= |b|
  {
    assert b == a + (b - a);
  }

  /** In every run there is at most one live semaphore per account, and permits
      held never exceed the global limit or any account's. */
  lemma LimitsHold(c: Limits, states: seq<Admission>, actions: seq<Action>, i: nat, account: Id)
    requires Run(c, states, actions) && i < |states|
    ensures |GlobalHolders(states[i])| <= c.global && |AccountHolders(states[i], account)| <= c.perAccount
    ensures forall t, u ::
      (t in states[i].tasks && u in states[i].tasks && states[i].tasks[t].account == states[i].tasks[u].account)
      ==> states[i].tasks[t].sem == states[i].tasks[u].sem
  {
    RunInv(c, states, actions, i);
    var s := states[i];
    if t :| t in s.tasks && s.tasks[t].account == account {
      var sem := s.tasks[t].sem;
      assert Users(s, sem);
      assert AccountHolders(s, account) <= SemHolders(s, sem);
      SubsetSize(AccountHolders(s, account), SemHolders(s, sem));
    } else {
      assert AccountHolders(s, account) == {};
    }
  }

  /** No deadlock: while any request waits, some waiter can be granted what it
      waits for, or some request holds both permits and can release them. */
  lemma NoDeadlock(c: Limits, states: seq<Admission>, actions: seq<Action>, i: nat, waiter: Id)
    requires Run(c, states, actions) && i < |states| && 0 < c.global && 0 < c.perAccount
    requires waiter in states[i].tasks && states[i].tasks[waiter].phase != Holds
    ensures var s := states[i];
      exists t :: t in s.tasks
        && (s.tasks[t].phase == Holds || Enabled(s, GrantGlobal(t)) || Enabled(s, GrantAccount(t)))
  {
    RunInv(c, states, actions, i);
    var s := states[i];
    if forall t :: t in s.tasks ==> s.tasks[t].phase != Holds {
      var t := waiter;
      if s.tasks[waiter].phase == WaitsGlobal && s.free == 0 {
        assert GlobalHolders(s) != {};
        t :| t in GlobalHolders(s);
      }
      assert Users(s, s.tasks[t].sem) && SemHolders(s, s.tasks[t].sem) == {};
      assert Enabled(s, GrantGlobal(t)) || Enabled(s, GrantAccount(t));
    }
  }

  /** And a waiter that cannot be granted its permit is right to wait: every
      global permit is taken, or its account has all of its own in use. */
  lemma BlockedMeansBusy(c: Limits, states: seq<Admission>, actions: seq<Action>, i: nat, t: Id)
    requires Run(c, states, actions) && i < |states| && t in states[i].tasks
    ensures var s := states[i];
      && (s.tasks[t].phase == WaitsGlobal ==>
            (Enabled(s, GrantGlobal(t)) <==> |GlobalHolders(s)| < c.global))
      && (s.tasks[t].phase == WaitsAccount ==>
            (Enabled(s, GrantAccount(t)) <==> |AccountHolders(s, s.tasks[t].account)| < c.perAccount))
  {
    RunInv(c, states, actions, i);
    var s := states[i];
    assert Users(s, s.tasks[t].sem);
    assert AccountHolders(s, s.tasks[t].account) == SemHolders(s, s.tasks[t].sem);
  }

  /** When every request has left, every permit is back. */
  lemma PermitsComeBack(c: Limits, states: seq<Admission>, actions: seq<Action>, i: nat)
    requires Run(c, states, actions) && i < |states| && states[i].tasks == map[]
    ensures states[i].free == c.global && states[i].sems == map[]
  {
    RunInv(c, states, actions, i);
    assert GlobalHolders(states[i]) == {};
    assert forall sem :: !Users(states[i], sem);
  }
}
