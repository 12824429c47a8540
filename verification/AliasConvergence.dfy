/**
 Recovery of aliases under interleaving: while all other resources' reconciles, users and administrators go on,
 failing and crashing as they like, two fault-free reconciles settle an alias for good.
 */
module AliasConvergence {
  import opened Kube
  import opened Opnsense
  import opened AliasSpec
  import opened AliasMachine
  import opened AliasSafety
  import opened AliasRecovery
  import opened AliasOwnership

  /** An event of somebody else; administrators leave alone the aliases and the names of `k`. */
  predicate Foreign(owners: map<string, Key>, w: World, e: Event, k: Key) {
    match e
    case AdminAdd(_, s) => !Owns(owners, k, s.name)
    case AdminSet(u, _) => !Claims(owners, w, k, u)
    case AdminDelete(u) => !Claims(owners, w, k, u)
    case AdminApply => true
    case _ => e.key != k
  }

  predicate Friendly(owners: map<string, Key>, w: World, e: Event, k: Key) {
    Separated(owners, w, e) && (FaultFree(e, k) || Foreign(owners, w, e, k))
  }

  predicate FriendlyRun(owners: map<string, Key>, w: World, es: seq<Event>, k: Key) {
    forall i | 0 <= i < |es| :: Friendly(owners, Run(w, es[..i]), es[i], k)
  }

  /** How many reconciles of `k` the run starts. */
  function Starts(w: World, es: seq<Event>, k: Key): nat {
    if es == [] then 0 else
    var init, e := es[..|es| - 1], es[|es| - 1];
    Starts(w, init, k) + (if e.Begin? && e.key == k && Enabled(Run(w, init), e) then 1 else 0)
  }

  // ---- What others leave alone ----

  /** `u` is recorded for `k`, has its alias name, or is in the hands of its reconcile. */
  predicate Concerns(w: World, k: Key, u: Uuid) {
    || (k in w.store.objects &&
        (u == w.store.objects[k].status.uuid || (u in w.staged && w.staged[u].name == w.store.objects[k].spec.name)))
    || WorksOn(PcOf(w, k), u)
  }

  /** The resource, its reconcile and the aliases that concern it are as they were, and none has come to concern it. */
  ghost predicate Undisturbed(w: World, w': World, k: Key) {
    && (k in w.store.objects <==> k in w'.store.objects)
    && (k in w.store.objects ==> w.store.objects[k] == w'.store.objects[k])
    && PcOf(w, k) == PcOf(w', k)
    && w.used <= w'.used
    && (forall u | Concerns(w, k, u) || Concerns(w', k, u) ::
          (u in w.staged <==> u in w'.staged) && (u in w.staged ==> w.staged[u] == w'.staged[u]))
  }

  lemma ForeignCallLeavesAlone(owners: map<string, Key>, w: World, j: Key, o: Outcome, k: Key)
    requires Own(owners, w) && Enabled(w, Call(j, o)) && j != k
    ensures Undisturbed(w, Perform(w, j, o), k)
  {
    var w' := Perform(w, j, o);
    CallLeavesOthers(w, j, o, k);
    forall u | Concerns(w, k, u) || Concerns(w', k, u)
      ensures (u in w.staged <==> u in w'.staged) && (u in w.staged ==> w.staged[u] == w'.staged[u])
    {
      if (u in w.staged <==> u in w'.staged) ==> u in w.staged && w'.staged[u] != w.staged[u] {
        ChangesOwnAlias(owners, w, j, o, u);
        ForeignWriteConcernsNot(owners, w, j, o, k, u);
      }
    }
  }

  lemma ForeignWriteConcernsNot(owners: map<string, Key>, w: World, j: Key, o: Outcome, k: Key, u: Uuid)
    requires Own(owners, w) && Enabled(w, Call(j, o)) && j != k
    requires u != "" && (Claims(owners, w, j, u) || u !in w.used)
    requires !(u in w.staged && u in StagedAfter(w, j, o) && StagedAfter(w, j, o)[u] == w.staged[u])
    ensures !Concerns(w, k, u) && !Concerns(Perform(w, j, o), k, u)
  {
    CallLeavesOthers(w, j, o, k);
    if Claims(owners, w, k, u) {
      ClaimsAreUsed(owners, w, k, u);
    }
    if u in StagedAfter(w, j, o) {
      WrittenName(w, j, o, u);
    }
  }

  lemma ForeignLeavesAlone(owners: map<string, Key>, w: World, e: Event, k: Key)
    requires Own(owners, w) && Separated(owners, w, e) && Foreign(owners, w, e, k)
    ensures Undisturbed(w, Next(w, e), k)
  {
    if Enabled(w, e) {
      if e.Call? {
        ForeignCallLeavesAlone(owners, w, e.key, e.outcome, k);
      } else if !ByUser(e) && !e.Begin? && !e.Crash? {
        AdminLeavesAlone(owners, w, e, k);
      }
    }
  }

  lemma AdminLeavesAlone(owners: map<string, Key>, w: World, e: Event, k: Key)
    requires Own(owners, w) && Enabled(w, e) && Separated(owners, w, e) && Foreign(owners, w, e, k)
    requires e.AdminAdd? || e.AdminSet? || e.AdminDelete? || e.AdminApply?
    ensures Undisturbed(w, Act(w, e), k)
  {
    var w' := Act(w, e);
    forall u | Concerns(w, k, u) || Concerns(w', k, u)
      ensures (u in w.staged <==> u in w'.staged) && (u in w.staged ==> w.staged[u] == w'.staged[u])
    {
      if u != "" && Concerns(w, k, u) {
        ConcernsAreClaims(owners, w, k, u);
      }
    }
  }

  lemma ConcernsAreClaims(owners: map<string, Key>, w: World, k: Key, u: Uuid)
    requires Own(owners, w) && u != "" && Concerns(w, k, u)
    ensures Claims(owners, w, k, u) && u in w.used
  {
    ClaimsAreUsed(owners, w, k, u);
  }

  lemma UndisturbedFinds(w: World, w': World, k: Key)
    requires k in w.store.objects && Undisturbed(w, w', k)
    ensures k in w'.store.objects && Found(w', k) == Found(w, k)
    ensures Named(w'.staged, w.store.objects[k].spec.name) == Named(w.staged, w.store.objects[k].spec.name)
  {
    var name := w.store.objects[k].spec.name;
    assert Concerns(w, k, w.store.objects[k].status.uuid);
    forall u
      ensures u in Named(w'.staged, name) <==> u in Named(w.staged, name)
    {
      assert u in Named(w.staged, name) ==> Concerns(w, k, u);
      assert u in Named(w'.staged, name) ==> Concerns(w', k, u);
    }
    assert Named(w'.staged, name) == Named(w.staged, name);
  }

  /** An undisturbed alias can be settled as before, and what it finds has the same content. */
  lemma UndisturbedCanSettle(w: World, w': World, k: Key)
    requires Inv(w) && k in w.store.objects && Undisturbed(w, w', k)
    ensures Found(w', k) == Found(w, k) && (CanSettle(w', k) <==> CanSettle(w, k))
    ensures match Found(w, k)
            case None => true
            case Some(u) => u in w.staged && u in w'.staged && w'.staged[u] == w.staged[u]
  {
    UndisturbedFinds(w, w', k);
    FoundIsStaged(w, k);
    NameLookupIsExact(w.staged, w.store.objects[k].spec.name);
    if Found(w, k).Some? {
      assert Concerns(w, k, Found(w, k).value);
    }
  }

  // ---- Recovery ----

  /** The running reconcile is about to settle its resource. */
  ghost predicate OnCourse(w: World, k: Key, pc: Pc)
    requires k in w.store.objects
  {
    match pc
    case Connecting(_) => true
    case Reading(obj) => obj.status.uuid != ""
    case LookingUp(obj) => obj.status.uuid !in w.staged
    case Creating(obj) => Found(w, k) == None
    case ReadingFound(_, u) => Found(w, k) == Some(u)
    case Updating(obj, u) => Found(w, k) == Some(u) && Drifted(w, obj.spec, u)
    case Reconfiguring(obj, u) => Found(w, k) == Some(u) && !Drifted(w, obj.spec, u)
    case SavingReady(obj, u) => Found(w, k) == Some(u) && !Drifted(w, obj.spec, u)
    case _ => false
  }

  /** Where `k` is after `n` starts. */
  ghost predicate Recovering(w: World, k: Key, n: nat) {
    && k in w.store.objects && !w.store.objects[k].deleting && CanSettle(w, k)
    && var pc := PcOf(w, k);
    if pc.Idle? then (n >= 1 ==> HasFinalizer(w, k)) && (n >= 2 ==> Settled(w, k))
    else if pc.AddingFinalizer? then n == 1 && w.store.objects[k] == pc.obj
    else n >= 1 && UpToDate(w, k, pc.obj) && OnCourse(w, k, pc)
  }

  /** What a call of a reconcile on its course leads to. */
  ghost predicate CourseKept(w: World, k: Key) {
    && k in w.store.objects && CanSettle(w, k)
    && var pc := PcOf(w, k);
    if pc.Idle? then Settled(w, k) else UpToDate(w, k, pc.obj) && OnCourse(w, k, pc)
  }

  lemma CourseResolves(w: World, k: Key, o: Outcome)
    requires Inv(w) && (PcOf(w, k).Reading? || PcOf(w, k).ReadingFound?) && o.fate.Done?
    requires UpToDate(w, k, PcOf(w, k).obj) && OnCourse(w, k, PcOf(w, k)) && CanSettle(w, k)
    ensures CourseKept(Perform(w, k, o), k)
  {
    assert KeyGood(w, k);
    FoundIsStaged(w, k);
  }

  lemma CourseLooksUp(w: World, k: Key, o: Outcome)
    requires Inv(w) && (PcOf(w, k).Connecting? || PcOf(w, k).LookingUp?) && o.fate.Done?
    requires UpToDate(w, k, PcOf(w, k).obj) && OnCourse(w, k, PcOf(w, k)) && CanSettle(w, k)
    ensures CourseKept(Perform(w, k, o), k)
  {
    assert "" !in w.staged;
  }

  lemma CourseCreates(w: World, k: Key, o: Outcome)
    requires Inv(w) && Enabled(w, Call(k, o)) && PcOf(w, k).Creating? && o.fate.Done?
    requires UpToDate(w, k, PcOf(w, k).obj) && OnCourse(w, k, PcOf(w, k))
    ensures CourseKept(Perform(w, k, o), k)
  {
    var w' := Perform(w, k, o);
    var spec := PcOf(w, k).obj.spec;
    assert KeyGood(w, k);
    CreateConverges(spec);
    NameLookupIsExact(w.staged, spec.name);
    assert Named(w'.staged, spec.name) == {o.uuid};
  }

  lemma CourseUpdates(w: World, k: Key, o: Outcome)
    requires Inv(w) && Enabled(w, Call(k, o)) && PcOf(w, k).Updating? && o.fate.Done?
    requires UpToDate(w, k, PcOf(w, k).obj) && OnCourse(w, k, PcOf(w, k)) && CanSettle(w, k)
    ensures CourseKept(Perform(w, k, o), k)
  {
    var w' := Perform(w, k, o);
    var obj, u := PcOf(w, k).obj, PcOf(w, k).uuid;
    FoundIsStaged(w, k);
    UpdateConvergesIff(obj.spec, w.staged[u]);
    NameLookupIsExact(w.staged, obj.spec.name);
    assert Named(w'.staged, obj.spec.name) == {u} by {
      assert Named(w.staged, obj.spec.name) - {u} == {};
    }
  }

  lemma CourseSaves(w: World, k: Key, o: Outcome)
    requires Inv(w) && (PcOf(w, k).Reconfiguring? || PcOf(w, k).SavingReady?) && o.fate.Done?
    requires UpToDate(w, k, PcOf(w, k).obj) && OnCourse(w, k, PcOf(w, k))
    ensures CourseKept(Perform(w, k, o), k)
  {
    FoundIsStaged(w, k);
  }

  lemma CourseCall(w: World, k: Key, o: Outcome)
    requires Inv(w) && Enabled(w, Call(k, o)) && o.fate.Done? && !PcOf(w, k).AddingFinalizer?
    requires UpToDate(w, k, PcOf(w, k).obj) && OnCourse(w, k, PcOf(w, k)) && CanSettle(w, k)
    ensures CourseKept(Perform(w, k, o), k)
  {
    var pc := PcOf(w, k);
    if pc.Reading? || pc.ReadingFound? {
      CourseResolves(w, k, o);
    } else if pc.Connecting? || pc.LookingUp? {
      CourseLooksUp(w, k, o);
    } else if pc.Creating? {
      CourseCreates(w, k, o);
    } else if pc.Updating? {
      CourseUpdates(w, k, o);
    } else {
      CourseSaves(w, k, o);
    }
  }

  lemma OthersRecover(w: World, w': World, k: Key, n: nat)
    requires Inv(w) && Undisturbed(w, w', k) && Recovering(w, k, n)
    ensures Recovering(w', k, n)
  {
    UndisturbedCanSettle(w, w', k);
    assert Concerns(w, k, w.store.objects[k].status.uuid);
  }

  lemma OwnEventRecovers(w: World, e: Event, k: Key, n: nat)
    requires Inv(w) && FaultFree(e, k) && Enabled(w, e) && Recovering(w, k, n)
    ensures Recovering(Act(w, e), k, n + (if e.Begin? then 1 else 0))
  {
    assert KeyGood(w, k);
    if e.Call? && !PcOf(w, k).AddingFinalizer? {
      CourseCall(w, k, e.outcome);
    }
  }

  lemma {:induction false} RunRecovers(owners: map<string, Key>, w: World, es: seq<Event>, k: Key)
    requires Own(owners, w) && FriendlyRun(owners, w, es, k) && Recovering(w, k, 0)
    ensures Own(owners, Run(w, es)) && Recovering(Run(w, es), k, Starts(w, es, k))
  {
    if es != [] {
      var init, e := es[..|es| - 1], es[|es| - 1];
      assert forall i | 0 <= i < |init| :: init[..i] == es[..i];
      assert es[..|init|] == init;
      RunRecovers(owners, w, init, k);
      NextKeepsOwn(owners, Run(w, init), e);
      if FaultFree(e, k) && Enabled(Run(w, init), e) {
        OwnEventRecovers(Run(w, init), e, k, Starts(w, init, k));
      } else if !FaultFree(e, k) {
        ForeignLeavesAlone(owners, Run(w, init), e, k);
        OthersRecover(Run(w, init), Run(w, es), k, Starts(w, init, k));
      }
    }
  }

  /**
   Recovery: from every state that a run with owned names can reach, whatever faults it met, two fault-free
   reconciles settle an undeleted alias that can be settled at all, however the others interleave.
   */
  lemma TwoReconcilesSettle(owners: map<string, Key>, w0: World, es: seq<Event>, fs: seq<Event>, k: Key)
    requires Initial(w0) && SeparatedRun(owners, w0, es)
    requires var w := Run(w0, es);
             && k in w.store.objects && !w.store.objects[k].deleting && PcOf(w, k).Idle? && CanSettle(w, k)
             && FriendlyRun(owners, w, fs, k) && Starts(w, fs, k) >= 2
    requires PcOf(Run(w0, es + fs), k).Idle?
    ensures Settled(Run(w0, es + fs), k)
  {
    ReachableOwn(owners, w0, es);
    RunConcat(w0, es, fs);
    RunRecovers(owners, Run(w0, es), fs, k);
  }

  // ---- Rest ----

  /** Settled, with no reconcile running or only one that has not got past reading. */
  ghost predicate Rested(w: World, k: Key) {
    && Settled(w, k)
    && var pc := PcOf(w, k);
    || pc.Idle?
    || ((pc.Connecting? || pc.Reading?) && pc.obj == w.store.objects[k])
  }

  lemma OwnEventRests(w: World, e: Event, k: Key)
    requires Inv(w) && FaultFree(e, k) && Rested(w, k)
    ensures
      var w' := Next(w, e);
      Rested(w', k) && w'.staged == w.staged && w'.live == w.live && w'.store == w.store && w'.used == w.used
  {
    assert KeyGood(w, k);
    assert w.store.objects[k].status.uuid != "";
  }

  lemma {:induction false} RunRests(owners: map<string, Key>, w: World, fs: seq<Event>, k: Key)
    requires Own(owners, w) && Rested(w, k) && FriendlyRun(owners, w, fs, k)
    ensures Own(owners, Run(w, fs)) && Rested(Run(w, fs), k)
  {
    if fs != [] {
      var init, e := fs[..|fs| - 1], fs[|fs| - 1];
      assert forall i | 0 <= i < |init| :: init[..i] == fs[..i];
      RunRests(owners, w, init, k);
      NextKeepsOwn(owners, Run(w, init), e);
      if FaultFree(e, k) {
        OwnEventRests(Run(w, init), e, k);
      } else {
        ForeignLeavesAlone(owners, Run(w, init), e, k);
        assert Concerns(Run(w, init), k, Run(w, init).store.objects[k].status.uuid);
      }
    }
  }

  /** A settled alias stays settled over every such run, and its reconciles write nothing. */
  lemma SettledForGood(owners: map<string, Key>, w0: World, es: seq<Event>, fs: seq<Event>, e: Event, k: Key)
    requires Initial(w0) && SeparatedRun(owners, w0, es) && Rested(Run(w0, es), k)
    requires FriendlyRun(owners, Run(w0, es), fs, k) && FaultFree(e, k)
    ensures
      var w := Run(w0, es + fs);
      var w' := Next(w, e);
      && Rested(w, k) && Rested(w', k)
      && w'.staged == w.staged && w'.live == w.live && w'.store == w.store && w'.used == w.used
  {
    ReachableOwn(owners, w0, es);
    RunConcat(w0, es, fs);
    RunRests(owners, Run(w0, es), fs, k);
    OwnEventRests(Run(w0, es + fs), e, k);
  }
}
