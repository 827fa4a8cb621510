/** Whole lives of an OCIMachine: passes, lost patches, a delete request, and a cloud that moves by itself. */
module MachineRuns {
  import opened Optional
  import opened CloudCall
  import opened MachinePass
  import ClusterSaga

  datatype State = State(m: Machine, gone: bool, c: Cloud, log: seq<Event>)

  /** A machine before its first pass; its InstanceId may name an instance that somebody else launched. */
  ghost predicate Init(s: State) {
    && s.m == Machine(false, false, s.m.id, false, false, false, false)
    && !s.m.id.OwnId?
    && s.c == Cloud(None, s.c.foreign, s.c.lbPresent, false, false, false)
    && !s.gone && s.log == []
  }

  /** `CloudMoves` changes instances that exist; `Attachments` attaches or detaches volumes, from outside or at
      launch; the load balancer goes away only under a deleted machine. */
  datatype Action =
    | RunPass(x: Answers, patchOk: bool)
    | RequestDelete
    | CloudMoves(own: Option<Life>, foreign: Option<Life>)
    | Attachments(attached: bool)
    | LbRemoved

  function Step(cfg: Config, s: State, a: Action): State {
    match a
    case RunPass(x, patchOk) =>
      if s.gone then s
      else
        var work := Pass(cfg, s.m, s.c, x);
        var m := if patchOk then work.m else s.m;
        State(m, m.deleting && !m.finalizer, work.c, s.log + work.events)
    case RequestDelete =>
      if s.gone then s else s.(m := s.m.(deleting := true), gone := !s.m.finalizer)
    case CloudMoves(own, foreign) =>
      s.(c := s.c.(own := if s.c.own.None? then None else own, foreign := foreign))
    case Attachments(attached) => s.(c := s.c.(attached := attached))
    case LbRemoved =>
      if s.m.deleting then s.(c := s.c.(lbPresent := false, backend := false)) else s
  }

  function Exec(cfg: Config, s: State, run: seq<Action>): State {
    if run == [] then s else Step(cfg, Exec(cfg, s, run[..|run| - 1]), run[|run| - 1])
  }

  // ---- Readiness -------------------------------------------------------------------------------

  predicate ReadyMeans(cfg: Config, s: State) {
    !s.m.deleting && s.m.ready ==>
      && s.m.address && !s.m.id.NoId? && s.m.providerId && s.m.finalizer
      && (cfg.controlPlane ==> s.c.backend)
  }

  /** What a normal pass never takes back, and what it must have done to set Ready or add a backend. */
  predicate Grows(cfg: Config, m: Machine, c: Cloud, w: Work) {
    && w.m.deleting == m.deleting && (m.finalizer ==> w.m.finalizer)
    && (m.address ==> w.m.address) && (m.providerId ==> w.m.providerId) && (!m.id.NoId? ==> !w.m.id.NoId?)
    && (c.backend ==> w.c.backend) && (c.lbPresent == w.c.lbPresent)
    && (w.c.backend && !c.backend ==> w.m.address && cfg.controlPlane && w.c.lbPresent)
    && (w.m.ready && !m.ready ==>
          w.m.address && !w.m.id.NoId? && w.m.providerId && w.m.finalizer && (cfg.controlPlane ==> w.c.backend))
  }

  lemma RunningPassGrows(cfg: Config, m: Machine, c: Cloud, x: Answers)
    requires !m.id.NoId? && m.providerId && m.finalizer
    ensures Grows(cfg, m, c, RunningPass(cfg, m, c, x))
  {
  }

  lemma NotRunningPassGrows(cfg: Config, m: Machine, c: Cloud, life: Life, x: Answers)
    ensures Grows(cfg, m, c, NotRunningPass(cfg, m, c, life, x))
  {
  }

  lemma LookupKeepsLb(cfg: Config, m: Machine, c: Cloud, x: Answers)
    ensures var l := GetOrCreateMachine(cfg, m, c, x); l.c.backend == c.backend && l.c.lbPresent == c.lbPresent
  {
  }

  lemma NormalPassGrows(cfg: Config, m: Machine, c: Cloud, x: Answers)
    ensures Grows(cfg, m, c, NormalPass(cfg, m, c, x)) && NormalPass(cfg, m, c, x).m.finalizer
  {
    var marked := m.(finalizer := true);
    var l := GetOrCreateMachine(cfg, marked, c, x);
    LookupKeepsLb(cfg, marked, c, x);
    if x.bootstrapReady && l.life.Some? {
      var named := Named(m);
      if l.life.value.Running? {
        RunningPassGrows(cfg, named, l.c, x);
        assert NormalPass(cfg, m, c, x) == RunningPass(cfg, named, l.c, x);
      } else {
        NotRunningPassGrows(cfg, named, l.c, l.life.value, x);
        assert NormalPass(cfg, m, c, x) == NotRunningPass(cfg, named, l.c, l.life.value, x);
      }
    }
  }

  lemma PassReady(cfg: Config, s: State, x: Answers, patchOk: bool)
    requires ReadyMeans(cfg, s) && !s.m.deleting
    ensures ReadyMeans(cfg, Step(cfg, s, RunPass(x, patchOk)))
  {
    NormalPassGrows(cfg, s.m, s.c, x);
  }

  /** In every reachable state before deletion, whatever patches were lost: a ready machine has an address,
      an instance, a provider id and its finalizer, and a control-plane machine is behind the load balancer. */
  lemma {:induction false} Readiness(cfg: Config, s: State, run: seq<Action>)
    requires Init(s)
    ensures ReadyMeans(cfg, Exec(cfg, s, run))
  {
    if run != [] {
      var before, a := run[..|run| - 1], run[|run| - 1];
      Readiness(cfg, s, before);
      var t := Exec(cfg, s, before);
      if a.RunPass? {
        if t.m.deleting {
          DeletingLasts(cfg, t, a.x, a.patchOk);
        } else {
          PassReady(cfg, t, a.x, a.patchOk);
        }
      }
    }
  }

  lemma DeletingLasts(cfg: Config, s: State, x: Answers, patchOk: bool)
    requires s.m.deleting
    ensures Step(cfg, s, RunPass(x, patchOk)).m.deleting
  {
  }

  // ---- Teardown order --------------------------------------------------------------------------

  /** What holds of each call the controller issued, whatever else happened. */
  predicate CallOk(e: Event) {
    match e
    case BackendAdded(deleting) => !deleting
    case TerminateIssued(owned, _) => owned
    case VolumeDeleteIssued(seen) => seen == None || seen == Some(Terminated)
  }

  /** The calls of one pass, with the states they were made in. */
  predicate CallsOk(m: Machine, c: Cloud, w: Work) {
    forall e :: e in w.events ==>
      && CallOk(e)
      && (e.VolumeDeleteIssued? ==> m.deleting && e.seen == Seen(m, c))
      && (e.TerminateIssued? ==> m.deleting)
  }

  lemma NormalPassCalls(cfg: Config, m: Machine, c: Cloud, x: Answers)
    requires !m.deleting
    ensures CallsOk(m, c, NormalPass(cfg, m, c, x))
  {
  }

  lemma DeletePassCalls(cfg: Config, m: Machine, c: Cloud, x: Answers)
    requires m.deleting
    ensures CallsOk(m, c, DeletePass(cfg, m, c, x))
  {
  }

  lemma PassCalls(cfg: Config, m: Machine, c: Cloud, x: Answers)
    ensures CallsOk(m, c, Pass(cfg, m, c, x))
  {
    if m.deleting {
      DeletePassCalls(cfg, m, c, x);
    } else {
      NormalPassCalls(cfg, m, c, x);
    }
  }

  /** In every run, the controller never terminates an instance it does not own, never puts a deleted machine back
      behind the load balancer, and deletes the volume only in a pass that sees the instance terminated or gone. */
  lemma {:induction false} Calls(cfg: Config, s: State, run: seq<Action>)
    requires Init(s)
    ensures forall e :: e in Exec(cfg, s, run).log ==> CallOk(e)
  {
    if run != [] {
      var before, a := run[..|run| - 1], run[|run| - 1];
      Calls(cfg, s, before);
      if a.RunPass? {
        PassCalls(cfg, Exec(cfg, s, before).m, Exec(cfg, s, before).c, a.x);
      }
    }
  }

  /** The delete pass sees the backend: it removes it by name, or the address it needs is stored. */
  predicate BackendVisible(cfg: Config, s: State) {
    s.c.backend ==> !BackendSkipped(cfg, s.m)
  }

  /** Termination is issued behind the load balancer's back exactly when the backend is there and hidden. */
  lemma TerminatesBehindLb(cfg: Config, m: Machine, c: Cloud, x: Answers)
    requires m.deleting && cfg.controlPlane && (c.backend ==> c.lbPresent)
    ensures TerminateIssued(true, true) in DeletePass(cfg, m, c, x).events <==>
      && x.lookupOk && Owned(m) && Seen(m, c).Some? && !Seen(m, c).value.Terminating? && !Seen(m, c).value.Terminated?
      && x.lbReadOk && c.backend && BackendSkipped(cfg, m) && !VolumeLost(cfg, c)
  {
  }

  /** Every pass of a machine whose address is not stored gets its patch through, unless the load balancer
      finds backends by name. */
  ghost predicate AddressPatched(cfg: Config, s: State, run: seq<Action>) {
    cfg.loadBalancerType != ClusterSaga.LOAD_BALANCER_TYPE_LB ||
    forall i :: 0 <= i < |run| && run[i].RunPass? && !Exec(cfg, s, run[..i]).m.address ==> run[i].patchOk
  }

  predicate Ordered(cfg: Config, s: State) {
    && BackendVisible(cfg, s)
    && (s.c.backend ==> s.c.lbPresent && cfg.controlPlane)
    && (forall e :: e in s.log && e.TerminateIssued? ==> !e.backend && s.m.deleting && !s.c.backend)
  }

  predicate Takes(m: Machine, c: Cloud, w: Work) {
    && w.m == m.(finalizer := w.m.finalizer)
    && w.c.lbPresent == c.lbPresent && (w.c.backend ==> c.backend)
    && forall e :: e in w.events && e.TerminateIssued? ==> !e.backend && !w.c.backend
  }

  lemma FinishDeleteTakes(cfg: Config, m: Machine, c: Cloud, x: Answers, seen: Option<Life>)
    ensures Takes(m, c, FinishDelete(cfg, m, c, x, seen))
  {
    assert FinishDelete(cfg, m, c, x, seen).events == if cfg.blockVolume then [VolumeDeleteIssued(seen)] else [];
  }

  lemma MissingPassTakes(cfg: Config, m: Machine, c: Cloud, x: Answers)
    ensures Takes(m, c, MissingPass(cfg, m, c, x))
  {
    FinishDeleteTakes(cfg, m, RemoveBackend(cfg, m, c, x), x, Seen(m, c));
  }

  lemma TerminatePassTakes(cfg: Config, m: Machine, c: Cloud, x: Answers)
    requires c.backend ==> c.lbPresent && cfg.controlPlane && !BackendSkipped(cfg, m)
    ensures Takes(m, c, TerminatePass(cfg, m, c, x))
  {
    assert RemoveBackendOk(cfg, m, c, x) ==> !RemoveBackend(cfg, m, c, x).backend;
  }

  lemma DeletePassTakes(cfg: Config, m: Machine, c: Cloud, x: Answers)
    requires c.backend ==> c.lbPresent && cfg.controlPlane && !BackendSkipped(cfg, m)
    ensures Takes(m, c, DeletePass(cfg, m, c, x))
  {
    var seen := Seen(m, c);
    if !x.lookupOk {
    } else if seen.None? {
      MissingPassTakes(cfg, m, c, x);
      assert DeletePass(cfg, m, c, x) == MissingPass(cfg, m, c, x);
    } else if seen.value.Terminated? {
      FinishDeleteTakes(cfg, m, c, x, seen);
      assert DeletePass(cfg, m, c, x) == FinishDelete(cfg, m, c, x, seen);
    } else if !seen.value.Terminating? {
      TerminatePassTakes(cfg, m, c, x);
      assert DeletePass(cfg, m, c, x) == TerminatePass(cfg, m, c, x);
    }
  }

  lemma PassOrdered(cfg: Config, s: State, x: Answers, patchOk: bool)
    requires Ordered(cfg, s) && !s.gone
    requires cfg.loadBalancerType == ClusterSaga.LOAD_BALANCER_TYPE_LB && !s.m.address ==> patchOk
    ensures Ordered(cfg, Step(cfg, s, RunPass(x, patchOk)))
  {
    PassCalls(cfg, s.m, s.c, x);
    if s.m.deleting {
      DeletePassTakes(cfg, s.m, s.c, x);
    } else {
      NormalPassGrows(cfg, s.m, s.c, x);
    }
  }

  /** From the moment a control-plane instance is told to terminate, its backend is out of the load balancer
      and stays out.  Backends found by name need nothing; backends found by address need the address stored. */
  lemma {:induction false} BackendLeavesFirst(cfg: Config, s: State, run: seq<Action>)
    requires Init(s) && AddressPatched(cfg, s, run)
    ensures Ordered(cfg, Exec(cfg, s, run))
  {
    if run != [] {
      var n := |run| - 1;
      var before, a := run[..n], run[n];
      assert AddressPatched(cfg, s, before) by {
        forall i | 0 <= i < n ensures before[..i] == run[..i] {}
      }
      BackendLeavesFirst(cfg, s, before);
      var t := Exec(cfg, s, before);
      if a.RunPass? && !t.gone {
        PassOrdered(cfg, t, a.x, a.patchOk);
      }
    }
  }

  function NoErrors(t: nat): Answers {
    Answers(true, true, Done, Done, true, true, true, Done, true, true, Done, Done, t, Done)
  }

  lemma ExecSnoc(cfg: Config, s: State, run: seq<Action>, a: Action)
    ensures Exec(cfg, s, run + [a]) == Step(cfg, Exec(cfg, s, run), a)
  {
  }

  /** A control-plane machine that was launched and is running, all patches stored. */
  lemma Launched(cfg: Config, s: State) returns (run: seq<Action>)
    requires Init(s) && s.m.id.NoId? && cfg == Config(true, cfg.loadBalancerType, false, false, false)
    ensures Exec(cfg, s, run) ==
              s.(m := Machine(false, true, OwnId, true, false, false, false), c := s.c.(own := Some(Running)))
    ensures forall a :: a in run && a.RunPass? ==> a == RunPass(NoErrors(0), true)
  {
    var a, b := RunPass(NoErrors(0), true), CloudMoves(Some(Running), s.c.foreign);
    ExecSnoc(cfg, s, [], a);
    ExecSnoc(cfg, s, [a], b);
    assert [] + [a] == [a] && Exec(cfg, s, []) == s;
    run := [a] + [b];
  }

  /** The storing of the address is needed: lose the patch of the pass that adds the backend to a load
      balancer of type LB, delete the machine, and termination is issued with the backend in place. */
  lemma LostAddressPatch(cfg: Config, s: State)
    requires Init(s) && s.m.id.NoId? && s.c.lbPresent
    requires cfg == Config(true, ClusterSaga.LOAD_BALANCER_TYPE_LB, false, false, false)
    ensures exists run :: TerminateIssued(true, true) in Exec(cfg, s, run).log
  {
    var up := Launched(cfg, s);
    var lost, kept := RunPass(NoErrors(0), false), RunPass(NoErrors(0), true);
    ExecSnoc(cfg, s, up, lost);
    ExecSnoc(cfg, s, up + [lost], RequestDelete);
    ExecSnoc(cfg, s, up + [lost] + [RequestDelete], kept);
    var t := Exec(cfg, s, up + [lost] + [RequestDelete]);
    assert t.m.deleting && !t.m.address && t.c.backend && t.c.lbPresent && t.c.own == Some(Running);
    assert TerminateIssued(true, true) in Pass(cfg, t.m, t.c, kept.x).events;
    assert TerminateIssued(true, true) in Exec(cfg, s, up + [lost] + [RequestDelete] + [kept]).log;
  }

  // ---- No instance is left behind ----------------------------------------------------------------

  predicate Ending(life: Option<Life>) {
    life.None? || life.value.Terminating? || life.value.Terminated?
  }

  predicate Live(life: Option<Life>) {
    life.Some? && !life.value.Terminated?
  }

  /** A live instance of the controller's own is guarded by the stored finalizer. */
  predicate Tracked(s: State) {
    && (Live(s.c.own) ==> s.m.finalizer && !s.gone)
    && (s.m.id.ForeignId? ==> s.c.own.None?)
  }

  /** The cloud does not bring a terminated instance back. */
  predicate NoRevival(s: State, a: Action) {
    a.CloudMoves? && !Live(s.c.own) ==> !Live(a.own)
  }

  /** Every pass gets its patch through while the finalizer is not stored yet, and nothing is revived. */
  ghost predicate FinalizerPatched(cfg: Config, s: State, run: seq<Action>) {
    forall i :: 0 <= i < |run| ==>
      && NoRevival(Exec(cfg, s, run[..i]), run[i])
      && (run[i].RunPass? && !Exec(cfg, s, run[..i]).m.finalizer ==> run[i].patchOk)
  }

  /** The part of a pass that follows the lookup keeps the instance, the finalizer and the identifier. */
  predicate KeepsOwn(m: Machine, c: Cloud, w: Work) {
    w.m.finalizer == m.finalizer && w.m.id == m.id && w.c.own == c.own
  }

  lemma RunningKeepsOwn(cfg: Config, m: Machine, c: Cloud, x: Answers)
    ensures KeepsOwn(m, c, RunningPass(cfg, m, c, x))
  {
  }

  lemma NotRunningKeepsOwn(cfg: Config, m: Machine, c: Cloud, life: Life, x: Answers)
    ensures KeepsOwn(m, c, NotRunningPass(cfg, m, c, life, x))
  {
  }

  lemma LookupLaunchesOwn(cfg: Config, m: Machine, c: Cloud, x: Answers)
    requires !m.id.NoId?
    ensures GetOrCreateMachine(cfg, m, c, x).c.own == c.own
  {
  }

  lemma NormalPassTracks(cfg: Config, m: Machine, c: Cloud, x: Answers)
    ensures var w := NormalPass(cfg, m, c, x);
      w.m.finalizer && (w.m.id.ForeignId? ==> m.id.ForeignId?) && (m.id.ForeignId? ==> w.c.own == c.own)
  {
    var marked := m.(finalizer := true);
    var l := GetOrCreateMachine(cfg, marked, c, x);
    if m.id.ForeignId? {
      LookupLaunchesOwn(cfg, marked, c, x);
    }
    if x.bootstrapReady && l.life.Some? {
      var named := Named(m);
      if l.life.value.Running? {
        RunningKeepsOwn(cfg, named, l.c, x);
        assert NormalPass(cfg, m, c, x) == RunningPass(cfg, named, l.c, x);
      } else {
        NotRunningKeepsOwn(cfg, named, l.c, l.life.value, x);
        assert NormalPass(cfg, m, c, x) == NotRunningPass(cfg, named, l.c, l.life.value, x);
      }
    }
  }

  lemma FinishKeepsOwn(cfg: Config, m: Machine, c: Cloud, x: Answers, seen: Option<Life>)
    ensures var w := FinishDelete(cfg, m, c, x, seen); w.m.id == m.id && w.c.own == c.own
  {
  }

  lemma MissingKeepsOwn(cfg: Config, m: Machine, c: Cloud, x: Answers)
    ensures var w := MissingPass(cfg, m, c, x); w.m.id == m.id && w.c.own == c.own
  {
    FinishKeepsOwn(cfg, m, RemoveBackend(cfg, m, c, x), x, Seen(m, c));
  }

  lemma TerminateKeepsMachine(cfg: Config, m: Machine, c: Cloud, x: Answers)
    requires Live(Seen(m, c))
    ensures var w := TerminatePass(cfg, m, c, x); w.m == m && (Live(w.c.own) ==> Live(c.own))
  {
  }

  /** A delete pass drops the finalizer only over an instance that is not alive. */
  lemma DeletePassTracks(cfg: Config, m: Machine, c: Cloud, x: Answers)
    requires m.id.ForeignId? ==> c.own.None?
    ensures var w := DeletePass(cfg, m, c, x);
      && w.m.id == m.id && (m.id.ForeignId? ==> w.c.own.None?)
      && (Live(w.c.own) ==> Live(c.own) && w.m.finalizer == m.finalizer)
  {
    var w := DeletePass(cfg, m, c, x);
    if x.lookupOk {
      match Seen(m, c)
      case None =>
        MissingKeepsOwn(cfg, m, c, x);
        assert w == MissingPass(cfg, m, c, x);
      case Some(Terminated) =>
        FinishKeepsOwn(cfg, m, c, x, Seen(m, c));
        assert w == FinishDelete(cfg, m, c, x, Seen(m, c));
      case Some(Terminating(_)) =>
      case Some(_) =>
        TerminateKeepsMachine(cfg, m, c, x);
        assert w == TerminatePass(cfg, m, c, x);
    }
  }

  lemma PassTracks(cfg: Config, s: State, x: Answers, patchOk: bool)
    requires Tracked(s) && !s.gone && (s.m.finalizer || patchOk)
    ensures Tracked(Step(cfg, s, RunPass(x, patchOk)))
  {
    if s.m.deleting {
      DeletePassTracks(cfg, s.m, s.c, x);
    } else {
      NormalPassTracks(cfg, s.m, s.c, x);
      NormalPassGrows(cfg, s.m, s.c, x);
    }
  }

  /** If the finalizer gets stored before anything else can fail, the machine never disappears while an
      instance launched for it is alive. */
  lemma {:induction false} NoOrphan(cfg: Config, s: State, run: seq<Action>)
    requires Init(s) && FinalizerPatched(cfg, s, run)
    ensures Tracked(Exec(cfg, s, run))
  {
    if run != [] {
      var n := |run| - 1;
      var before, a := run[..n], run[n];
      assert FinalizerPatched(cfg, s, before) by {
        forall i | 0 <= i < n ensures before[..i] == run[..i] && before[i] == run[i] {}
      }
      NoOrphan(cfg, s, before);
      var t := Exec(cfg, s, before);
      if a.RunPass? && !t.gone {
        PassTracks(cfg, t, a.x, a.patchOk);
      }
    }
  }

  /** A pass keeps the guard, whatever the cloud answers and whether or not its patch is stored, exactly when the
      finalizer is stored already or the pass has no reason to launch. */
  lemma TrackedIff(cfg: Config, s: State)
    requires Tracked(s) && !s.gone && !s.m.deleting
    ensures (forall x, patchOk :: Tracked(Step(cfg, s, RunPass(x, patchOk)))) <==>
      s.m.finalizer || !s.m.id.NoId? || s.c.own.Some?
  {
    if s.m.finalizer || !s.m.id.NoId? || s.c.own.Some? {
      forall x, patchOk ensures Tracked(Step(cfg, s, RunPass(x, patchOk))) {
        if s.m.finalizer || patchOk {
          PassTracks(cfg, s, x, patchOk);
        } else {
          NoLaunch(cfg, s.m, s.c, x);
        }
      }
    } else {
      LaunchesOwn(cfg, s.m, s.c);
      assert !Tracked(Step(cfg, s, RunPass(NoErrors(0), false)));
    }
  }

  lemma NoLaunch(cfg: Config, m: Machine, c: Cloud, x: Answers)
    requires !m.id.NoId? || c.own.Some?
    ensures NormalPass(cfg, m, c, x).c.own == c.own
  {
    var marked := m.(finalizer := true);
    var l := GetOrCreateMachine(cfg, marked, c, x);
    assert l.c.own == c.own;
    if x.bootstrapReady && l.life.Some? {
      var named := Named(m);
      if l.life.value.Running? {
        RunningKeepsOwn(cfg, named, l.c, x);
        assert NormalPass(cfg, m, c, x) == RunningPass(cfg, named, l.c, x);
      } else {
        NotRunningKeepsOwn(cfg, named, l.c, l.life.value, x);
        assert NormalPass(cfg, m, c, x) == NotRunningPass(cfg, named, l.c, l.life.value, x);
      }
    }
  }

  lemma LaunchesOwn(cfg: Config, m: Machine, c: Cloud)
    requires m.id.NoId? && c.own.None?
    ensures NormalPass(cfg, m, c, NoErrors(0)).c.own == Some(Provisioning)
  {
    var marked := m.(finalizer := true);
    var l := GetOrCreateMachine(cfg, marked, c, NoErrors(0));
    assert l.c.own == Some(Provisioning) && l.life == Some(Provisioning);
  }

  /** The condition is needed: the first pass launches before its finalizer is stored. */
  lemma LostFinalizerPatch(cfg: Config, s: State)
    requires Init(s) && s.m.id.NoId?
    ensures exists run :: var t := Exec(cfg, s, run); t.gone && Live(t.c.own)
  {
    var lost := RunPass(NoErrors(0), false);
    ExecSnoc(cfg, s, [], lost);
    ExecSnoc(cfg, s, [lost], RequestDelete);
    assert [] + [lost] == [lost] && Exec(cfg, s, []) == s;
    var t := Exec(cfg, s, [lost] + [RequestDelete]);
    assert t.gone && Live(t.c.own);
  }

  // ---- Deletion ends -----------------------------------------------------------------------------

  predicate AsksAgain(w: Work) {
    w.m.finalizer ==> w.result.Error? || w.result.seconds > 0
  }

  lemma FinishAsksAgain(cfg: Config, m: Machine, c: Cloud, x: Answers, seen: Option<Life>)
    ensures AsksAgain(FinishDelete(cfg, m, c, x, seen))
  {
  }

  lemma MissingAsksAgain(cfg: Config, m: Machine, c: Cloud, x: Answers)
    ensures AsksAgain(MissingPass(cfg, m, c, x))
  {
    FinishAsksAgain(cfg, m, RemoveBackend(cfg, m, c, x), x, Seen(m, c));
  }

  /** A delete pass that leaves the finalizer reports an error or asks to be run again. */
  lemma DeleteAsksAgain(cfg: Config, m: Machine, c: Cloud, x: Answers)
    ensures AsksAgain(DeletePass(cfg, m, c, x))
  {
    if x.lookupOk {
      match Seen(m, c)
      case None => MissingAsksAgain(cfg, m, c, x);
      case Some(Terminated) => FinishAsksAgain(cfg, m, c, x, Seen(m, c));
      case Some(Terminating(_)) =>
      case Some(_) => assert AsksAgain(TerminatePass(cfg, m, c, x));
    }
  }

  function TickLife(life: Option<Life>): Option<Life> {
    match life
    case Some(Terminating(n)) => if n == 0 then Some(Terminated) else Some(Terminating(n - 1))
    case _ => life
  }

  /** An error-free pass, and a cloud that gets on with terminating. */
  function Round(cfg: Config, s: State, t: nat): State {
    var v := Step(cfg, s, RunPass(NoErrors(t), true));
    Step(cfg, v, CloudMoves(TickLife(v.c.own), TickLife(v.c.foreign)))
  }

  function Iterate<S>(f: S -> S, s: S, n: nat): S {
    if n == 0 then s else f(Iterate(f, s, n - 1))
  }

  lemma {:induction false} IterateKeeps<S>(f: S -> S, p: S -> bool, s: S, n: nat)
    requires p(s) && forall v | p(v) :: p(f(v))
    ensures p(Iterate(f, s, n))
  {
    if n > 0 {
      IterateKeeps(f, p, s, n - 1);
    }
  }

  function Rounds(cfg: Config, s: State, t: nat, n: nat): State {
    Iterate(v => Round(cfg, v, t), s, n)
  }

  /** The instance seen is up, and is somebody else's or has attachments without the machine's volume. */
  predicate Blocked(cfg: Config, s: State) {
    !Ending(Seen(s.m, s.c)) && (s.m.id.ForeignId? || VolumeLost(cfg, s.c))
  }

  predicate Removing(s: State) {
    s.gone || (s.m.deleting && s.m.finalizer)
  }

  function Rank(s: State, t: nat): nat {
    if s.gone then 0
    else match Seen(s.m, s.c)
      case Some(Terminating(n)) => 2 + n
      case Some(Terminated) => 1
      case None => 1
      case Some(_) => 3 + t
  }

  lemma ErrorFreeFinish(cfg: Config, m: Machine, c: Cloud, t: nat, seen: Option<Life>)
    ensures var w := FinishDelete(cfg, m, c, NoErrors(t), seen);
      w.m == m.(finalizer := false) && w.c == c.(volume := w.c.volume)
  {
  }

  lemma ErrorFreeMissing(cfg: Config, m: Machine, c: Cloud, t: nat)
    ensures var w := MissingPass(cfg, m, c, NoErrors(t));
      w.m == m.(finalizer := false) && w.c == c.(volume := w.c.volume, backend := w.c.backend)
  {
    ErrorFreeFinish(cfg, m, RemoveBackend(cfg, m, c, NoErrors(t)), t, Seen(m, c));
  }

  lemma ErrorFreeTerminate(cfg: Config, m: Machine, c: Cloud, t: nat)
    ensures var w := TerminatePass(cfg, m, c, NoErrors(t));
      && w.m == m && w.c == c.(backend := w.c.backend, own := w.c.own)
      && w.c.own == if Owned(m) && !VolumeLost(cfg, c) then Some(Terminating(t)) else c.own
  {
  }

  /** An error-free delete pass, by what it sees. */
  lemma ErrorFreeDelete(cfg: Config, m: Machine, c: Cloud, t: nat)
    ensures var w := DeletePass(cfg, m, c, NoErrors(t));
      && w.c.foreign == c.foreign && w.c.attached == c.attached
      && (!Ending(Seen(m, c)) ==> w.c.volume == c.volume)
      && match Seen(m, c) {
           case None => w.m == m.(finalizer := false)
           case Some(Terminated) => w.m == m.(finalizer := false)
           case Some(Terminating(_)) => w.m == m && w.c == c
           case Some(_) =>
             w.m == m && w.c.own == if Owned(m) && !VolumeLost(cfg, c) then Some(Terminating(t)) else c.own
         }
  {
    var x := NoErrors(t);
    match Seen(m, c)
    case None =>
      ErrorFreeMissing(cfg, m, c, t);
      assert DeletePass(cfg, m, c, x) == MissingPass(cfg, m, c, x);
    case Some(Terminated) =>
      ErrorFreeFinish(cfg, m, c, t, Seen(m, c));
      assert DeletePass(cfg, m, c, x) == FinishDelete(cfg, m, c, x, Seen(m, c));
    case Some(Terminating(_)) =>
    case Some(_) =>
      ErrorFreeTerminate(cfg, m, c, t);
      assert DeletePass(cfg, m, c, x) == TerminatePass(cfg, m, c, x);
  }

  lemma RoundLowersRank(cfg: Config, s: State, t: nat)
    requires Removing(s) && !Blocked(cfg, s)
    ensures Sinks(cfg, s, Round(cfg, s, t), t)
  {
    if !s.gone {
      ErrorFreeDelete(cfg, s.m, s.c, t);
    }
  }

  lemma BlockedRound(cfg: Config, s: State, t: nat)
    requires Removing(s) && !s.gone && Blocked(cfg, s)
    ensures var v := Round(cfg, s, t); Removing(v) && !v.gone && Blocked(cfg, v)
  {
  }

  lemma BlockedForever(cfg: Config, s: State, t: nat, n: nat)
    requires Removing(s) && !s.gone && Blocked(cfg, s)
    ensures !Rounds(cfg, s, t, n).gone
  {
    var p := v => Removing(v) && !v.gone && Blocked(cfg, v);
    forall v | p(v) ensures p(Round(cfg, v, t)) {
      BlockedRound(cfg, v, t);
    }
    IterateKeeps(v => Round(cfg, v, t), p, s, n);
  }

  predicate Sinks(cfg: Config, v: State, w: State, t: nat) {
    Removing(w) && !Blocked(cfg, w) && (w.gone || Rank(w, t) < Rank(v, t))
  }

  lemma {:induction false} SinkingEnds(cfg: Config, f: State -> State, s: State, t: nat, n: nat)
    requires Removing(s) && !Blocked(cfg, s)
    requires forall v | Removing(v) && !Blocked(cfg, v) :: Sinks(cfg, v, f(v), t)
    ensures var v := Iterate(f, s, n); Removing(v) && !Blocked(cfg, v) && (v.gone || Rank(v, t) + n <= Rank(s, t))
  {
    if n > 0 {
      SinkingEnds(cfg, f, s, t, n - 1);
      assert Sinks(cfg, Iterate(f, s, n - 1), Iterate(f, s, n), t);
    }
  }

  lemma RankZero(s: State, t: nat)
    ensures Rank(s, t) == 0 <==> s.gone
  {
  }

  lemma SinkingReachesZero(cfg: Config, f: State -> State, s: State, t: nat)
    requires Removing(s) && !Blocked(cfg, s)
    requires forall v | Removing(v) && !Blocked(cfg, v) :: Sinks(cfg, v, f(v), t)
    ensures Iterate(f, s, Rank(s, t)).gone
  {
    SinkingEnds(cfg, f, s, t, Rank(s, t));
    RankZero(Iterate(f, s, Rank(s, t)), t);
  }

  lemma UnblockedEnds(cfg: Config, s: State, t: nat)
    requires Removing(s) && !Blocked(cfg, s)
    ensures Rounds(cfg, s, t, Rank(s, t)).gone
  {
    var f := v => Round(cfg, v, t);
    forall v | Removing(v) && !Blocked(cfg, v) ensures Sinks(cfg, v, f(v), t) {
      RoundLowersRank(cfg, v, t);
    }
    SinkingReachesZero(cfg, f, s, t);
  }

  /** Without errors and with a cloud that finishes terminations, deletion ends exactly when the machine is
      not blocked; the rank bounds the number of rounds. */
  lemma DeletionEndsIff(cfg: Config, s: State, t: nat)
    requires Removing(s) && !s.gone
    ensures (exists n :: Rounds(cfg, s, t, n).gone) <==> !Blocked(cfg, s)
    ensures !Blocked(cfg, s) ==> Rounds(cfg, s, t, Rank(s, t)).gone
  {
    if Blocked(cfg, s) {
      forall n: nat ensures !Rounds(cfg, s, t, n).gone {
        BlockedForever(cfg, s, t, n);
      }
    } else {
      UnblockedEnds(cfg, s, t);
    }
  }

  /** Blocked machines are reachable: one that names somebody else's running instance, */
  lemma BlockedByForeign(cfg: Config, s: State) returns (run: seq<Action>)
    requires Init(s) && s.m.id.ForeignId? && s.c.foreign == Some(Running)
    ensures var t := Exec(cfg, s, run); Removing(t) && !t.gone && Blocked(cfg, t)
  {
    var waits := RunPass(NoErrors(0).(bootstrapReady := false), true);
    ExecSnoc(cfg, s, [], waits);
    ExecSnoc(cfg, s, [waits], RequestDelete);
    assert [] + [waits] == [waits] && Exec(cfg, s, []) == s;
    run := [waits] + [RequestDelete];
  }

  /** and one whose volume could not be made while another volume is attached to its running instance. */
  lemma BlockedByVolume(cfg: Config, s: State) returns (run: seq<Action>)
    requires Init(s) && s.m.id.NoId? && cfg.blockVolume
    ensures var t := Exec(cfg, s, run); Removing(t) && !t.gone && Blocked(cfg, t)
  {
    var launches := RunPass(NoErrors(0).(createVolume := Fails(false)), true);
    ExecSnoc(cfg, s, [], launches);
    assert [] + [launches] == [launches] && Exec(cfg, s, []) == s;
    run := [launches];
    assert Exec(cfg, s, run) == s.(m := s.m.(finalizer := true), c := s.c.(own := Some(Provisioning)));
    ExecSnoc(cfg, s, run, CloudMoves(Some(Running), s.c.foreign));
    run := run + [CloudMoves(Some(Running), s.c.foreign)];
    ExecSnoc(cfg, s, run, Attachments(true));
    run := run + [Attachments(true)];
    ExecSnoc(cfg, s, run, RequestDelete);
    run := run + [RequestDelete];
  }
}
