/** What the passes of the two managed controllers do to their objects, what a finalizer waits for, and when deletion
    ends. */
module ManagedDeletion {
  import opened Optional
  import opened ManagedPasses
  import opened ManagedProtocol
  import Saga = ClusterSaga

  // ---- One pass ------------------------------------------------------------------------------------

  /** A pass over a live managed cluster that cannot read its control plane does nothing but set the finalizer.  Any
      other makes the network, is ready from its first success on, and takes the endpoint of a ready control plane. */
  lemma ClusterPassBy(
      cfg: Config, own: ManagedCluster, cp: Option<ControlPlane>, net: Saga.Cloud, o: seq<Saga.Outcome>)
    requires !own.deleting
    ensures var w := ClusterPass(cfg, own, cp, net, o);
      && w.after.finalizer && !w.deleteStarted && w.ok == w.completed
      && (cp.None? ==> !w.ok && w.net == net && w.after == own.(finalizer := true))
      && (cp.Some? ==> w.net == Saga.AfterCreate(cfg.network, o, net) && w.ok == Saga.CreateSucceeds(cfg.network, o))
      && (w.after.ready <==> own.ready || w.ok)
      && w.after.endpoint == if w.ok && cp.value.ready then cp.value.endpoint else own.endpoint
  {
  }

  predicate OkeGone(oke: Oke) {
    oke.Absent? || oke == Present(Deleted)
  }

  /** A pass drops the finalizer only of a deleted control plane whose OKE cluster it sees absent or deleted. */
  lemma DropsOverGone(cfg: Config, own: ControlPlane, mc: Option<ManagedCluster>, oke: Oke, x: Answers)
    requires own.finalizer && !ControlPlanePass(cfg, own, mc, oke, x).after.finalizer
    ensures own.deleting && OkeGone(oke) && GateOpen(mc) && x.lookupOk
  {
  }

  /** With an open gate and a cluster that can be looked up, a delete pass lets go of a cluster that is gone, waits
      for one that is going, and otherwise asks OKE to delete it and keeps the finalizer. */
  lemma DeletePassBy(cfg: Config, own: ControlPlane, mc: Option<ManagedCluster>, oke: Oke, x: Answers)
    requires own.deleting && GateOpen(mc) && x.lookupOk
    ensures var w := ControlPlanePass(cfg, own, mc, oke, x);
      && !w.created && !w.published && w.after.endpoint == own.endpoint && w.after.hasId == own.hasId
      && (OkeGone(oke) ==> w.ok && !w.after.finalizer && w.oke == oke)
      && (!OkeGone(oke) ==> w.after.finalizer == own.finalizer)
      && (oke.Present? && oke.state.Deleting? ==> w.ok && !w.after.ready && w.oke == oke)
      && (!OkeGone(oke) && !oke.state.Deleting? && x.deleteOk ==> w.ok && w.oke == Present(Deleting(x.deletionTime)))
      && (!OkeGone(oke) && !oke.state.Deleting? && !x.deleteOk ==> !w.ok)
  {
  }

  /** A pass creates only if no identifier is recorded and no cluster is found, so that a cluster that has been
      recorded and is lost is never made again. */
  lemma CreatesUnrecorded(cfg: Config, own: ControlPlane, mc: Option<ManagedCluster>, oke: Oke, x: Answers)
    requires ControlPlanePass(cfg, own, mc, oke, x).created
    ensures !own.deleting && !own.hasId && oke.Absent? && GateOpen(mc)
    ensures var w := ControlPlanePass(cfg, own, mc, oke, x);
      w.oke.Present? && w.after.finalizer && (w.ok ==> w.after.hasId)
  {
  }

  /** A pass over a live control plane with a cluster: it fails over a failed or going one, waits for one that is
      being created or updated, and over an active one becomes ready. */
  lemma ReconcilePassBy(cfg: Config, own: ControlPlane, mc: Option<ManagedCluster>, oke: Oke, x: Answers)
    requires !own.deleting && GateOpen(mc) && x.lookupOk && oke.Present?
    ensures var w := ControlPlanePass(cfg, own, mc, oke, x);
      && w.after.finalizer && w.after.hasId && !w.created
      && (oke.state.Creating? || oke.state.Updating? ==> w.ok && w.oke == oke && w.after.ready == own.ready)
      && (oke.state.Active? ==> w.after.ready && w.published && w.ok == x.tailOk)
      && (oke.state.Failed? || oke.state.Deleting? || oke.state.Deleted? ==> !w.ok && w.after.ready == own.ready)
  {
  }

  // ---- Every run -----------------------------------------------------------------------------------

  lemma ExecSnoc(cfg: Config, run: seq<Action>, a: Action)
    ensures Exec(cfg, INIT, run + [a]) == Step(cfg, Exec(cfg, INIT, run), a)
  {
    ExecConcat(cfg, INIT, run, [a]);
    ExecTwo(cfg, Exec(cfg, INIT, run), a, a);
  }

  /** The step is a pass over a deleted control plane that sees its OKE cluster absent or deleted. */
  predicate SeesGone(w: World, a: Action) {
    && a.ControlPlaneWorks? && w.cpRun.ControlPlaneIdle? && a.own < |w.cps|
    && w.cps[a.own].deleting && OkeGone(w.oke)
  }

  /** The step is a pass over a deleted managed cluster that leaves nothing of its network. */
  ghost predicate LeavesNoNetwork(cfg: Config, w: World, a: Action)
    requires w.mcs != [] && w.cps != []
  {
    && a.ClusterWorks? && w.mcRun.ClusterIdle? && a.own < |w.mcs| && w.mcs[a.own].deleting
    && Step(cfg, w, a).net.some * Saga.Managed(cfg.network) == {}
  }

  /** A finalizer that was stored has been lost only if `seen`. */
  predicate ControlPlaneGuarded(w: World, seen: bool) {
    && w.cps != []
    && (forall i, j :: 0 <= i <= j < |w.cps| && w.cps[i].finalizer && !w.cps[j].finalizer ==> seen)
    && (w.cpRun.ControlPlaneRunning? && w.cpRun.own.finalizer && !w.cpRun.after.finalizer ==> seen)
    && (w.cpGone ==> !Last(w.cps).finalizer && Last(w.cps).deleting)
  }

  predicate ClusterGuarded(w: World, seen: bool) {
    && w.mcs != []
    && (forall i, j :: 0 <= i <= j < |w.mcs| && w.mcs[i].finalizer && !w.mcs[j].finalizer ==> seen)
    && (w.mcRun.ClusterRunning? && w.mcRun.own.finalizer && !w.mcRun.after.finalizer ==> seen)
    && (w.mcGone ==> !Last(w.mcs).finalizer && Last(w.mcs).deleting)
  }

  lemma StoreControlPlaneGuarded(w: World, c: ControlPlane, seen: bool)
    requires ControlPlaneGuarded(w, seen) && !w.cpGone && (Last(w.cps).finalizer && !c.finalizer ==> seen)
    ensures ControlPlaneGuarded(StoreControlPlane(w, c), seen)
  {
    var v := StoreControlPlane(w, c);
    forall i, j | 0 <= i <= j < |v.cps| && v.cps[i].finalizer && !v.cps[j].finalizer ensures seen {
      assert i < |w.cps| ==> i <= |w.cps| - 1;
    }
  }

  lemma StoreClusterGuarded(w: World, m: ManagedCluster, seen: bool)
    requires ClusterGuarded(w, seen) && !w.mcGone && (Last(w.mcs).finalizer && !m.finalizer ==> seen)
    ensures ClusterGuarded(StoreCluster(w, m), seen)
  {
    var v := StoreCluster(w, m);
    forall i, j | 0 <= i <= j < |v.mcs| && v.mcs[i].finalizer && !v.mcs[j].finalizer ensures seen {
      assert i < |w.mcs| ==> i <= |w.mcs| - 1;
    }
  }

  lemma StepGuardsControlPlane(cfg: Config, w: World, a: Action, seen: bool)
    requires w.mcs != [] && ControlPlaneGuarded(w, seen)
    ensures ControlPlaneGuarded(Step(cfg, w, a), seen || SeesGone(w, a))
  {
    match a
    case ControlPlaneWorks(i, mc, x) =>
      if w.cpRun.ControlPlaneIdle? && i < |w.cps| {
        var after := ControlPlanePass(cfg, w.cps[i], Read(w.mcs, mc), w.oke, x).after;
        if w.cps[i].finalizer && !after.finalizer {
          DropsOverGone(cfg, w.cps[i], Read(w.mcs, mc), w.oke, x);
        }
      }
    case ControlPlanePatches(patchOk) =>
      if w.cpRun.ControlPlaneRunning? && patchOk && !w.cpGone {
        var c := MergeControlPlane(w.cpRun.own, w.cpRun.after, Last(w.cps));
        StoreControlPlaneGuarded(w.(cpRun := ControlPlaneIdle), c, seen);
      }
    case DeleteControlPlane =>
      if !w.cpGone {
        StoreControlPlaneGuarded(w, Last(w.cps).(deleting := true), seen);
      }
    case _ =>
  }

  lemma ClusterDropsOverNothing(cfg: Config, own: ManagedCluster, cp: Option<ControlPlane>, net: Saga.Cloud,
      o: seq<Saga.Outcome>)
    requires own.finalizer && !ClusterPass(cfg, own, cp, net, o).after.finalizer
    ensures own.deleting && ClusterPass(cfg, own, cp, net, o).net.some * Saga.Managed(cfg.network) == {}
  {
    assert forall r :: r in Saga.Managed(cfg.network) ==> Saga.DeleteRank(r) < Saga.DELETE_STEPS;
  }

  lemma StepGuardsCluster(cfg: Config, w: World, a: Action, seen: bool)
    requires w.cps != [] && ClusterGuarded(w, seen)
    ensures ClusterGuarded(Step(cfg, w, a), seen || LeavesNoNetwork(cfg, w, a))
  {
    match a
    case ClusterWorks(i, cp, o) =>
      if w.mcRun.ClusterIdle? && i < |w.mcs| {
        var after := ClusterPass(cfg, w.mcs[i], Read(w.cps, cp), w.net, o).after;
        if w.mcs[i].finalizer && !after.finalizer {
          ClusterDropsOverNothing(cfg, w.mcs[i], Read(w.cps, cp), w.net, o);
        }
      }
    case ClusterPatches(patchOk) =>
      if w.mcRun.ClusterRunning? && patchOk && !w.mcGone {
        var m := MergeCluster(w.mcRun.own, w.mcRun.after, Last(w.mcs));
        StoreClusterGuarded(w.(mcRun := ClusterIdle), m, seen);
      }
    case DeleteManagedCluster =>
      if !w.mcGone {
        StoreClusterGuarded(w, Last(w.mcs).(deleting := true), seen);
      }
    case _ =>
  }

  ghost predicate SawGone(cfg: Config, run: seq<Action>) {
    exists j :: 0 <= j < |run| && SeesGone(Exec(cfg, INIT, run[..j]), run[j])
  }

  ghost predicate LeftNoNetwork(cfg: Config, run: seq<Action>) {
    exists j :: 0 <= j < |run| && LeavesNoNetwork(cfg, Exec(cfg, INIT, run[..j]), run[j])
  }

  lemma {:induction false} RunGuarded(cfg: Config, run: seq<Action>)
    ensures ControlPlaneGuarded(Exec(cfg, INIT, run), SawGone(cfg, run))
    ensures ClusterGuarded(Exec(cfg, INIT, run), LeftNoNetwork(cfg, run))
  {
    if run != [] {
      var n := |run| - 1;
      var before, a := run[..n], run[n];
      RunGuarded(cfg, before);
      assert run == before + [a];
      ExecSnoc(cfg, before, a);
      var w := Exec(cfg, INIT, before);
      StepGuardsControlPlane(cfg, w, a, SawGone(cfg, before));
      StepGuardsCluster(cfg, w, a, LeftNoNetwork(cfg, before));
      assert forall j :: 0 <= j < n ==> before[..j] == run[..j] && before[j] == run[j];
    }
  }

  /** In every run, a control plane whose finalizer was ever stored is gone only after a pass that saw its OKE
      cluster absent or deleted, and a managed cluster only after a pass that left nothing of its network. */
  lemma GoneOnlyAfter(cfg: Config, run: seq<Action>)
    ensures var w := Exec(cfg, INIT, run);
      && (w.cpGone && (exists c :: c in w.cps && c.finalizer) ==> SawGone(cfg, run))
      && (w.mcGone && (exists m :: m in w.mcs && m.finalizer) ==> LeftNoNetwork(cfg, run))
  {
    RunGuarded(cfg, run);
    var w := Exec(cfg, INIT, run);
    if w.cpGone && exists c :: c in w.cps && c.finalizer {
      var i :| 0 <= i < |w.cps| && w.cps[i].finalizer;
      assert !w.cps[|w.cps| - 1].finalizer;
    }
    if w.mcGone && exists m :: m in w.mcs && m.finalizer {
      var i :| 0 <= i < |w.mcs| && w.mcs[i].finalizer;
      assert !w.mcs[|w.mcs| - 1].finalizer;
    }
  }

  // ---- Deletion of the control plane ends -------------------------------------------------------------

  /** OKE gets on with deleting. */
  function DeleteTick(oke: Oke): Oke {
    match oke
    case Present(Deleting(n)) => if n == 0 then Present(Deleted) else Present(Deleting(n - 1))
    case _ => oke
  }

  predicate DeletesFree(x: Answers, t: nat) {
    x.lookupOk && x.deleteOk && x.deletionTime <= t
  }

  /** An error-free pass over the newest control plane that reads the managed cluster given, and a tick of OKE. */
  ghost function DeletionRound(cfg: Config, w: World, mc: Option<nat>, x: Answers): World {
    if w.mcs == [] || w.cps == [] then w
    else
      var v := Step(cfg, Step(cfg, w, ControlPlaneWorks(|w.cps| - 1, mc, x)), ControlPlanePatches(true));
      Step(cfg, v, OkeMoves(DeleteTick(v.oke)))
  }

  ghost function Iterate(f: (World, nat) -> World, w: World, n: nat): World {
    if n == 0 then w else f(Iterate(f, w, n - 1), n)
  }

  ghost function DeletionRounds(cfg: Config, w: World, mc: Option<nat>, xs: nat -> Answers, n: nat): World {
    Iterate(Rounding(cfg, mc, xs), w, n)
  }

  ghost function Rounding(cfg: Config, mc: Option<nat>, xs: nat -> Answers): (World, nat) -> World {
    (v: World, k: nat) => DeletionRound(cfg, v, mc, xs(k))
  }

  predicate Leaving(w: World) {
    && w.mcs != [] && w.cps != [] && w.cpRun.ControlPlaneIdle?
    && (w.cpGone || (Last(w.cps).deleting && Last(w.cps).finalizer))
  }

  function DeletionRank(w: World, t: nat): nat {
    if w.cpGone then 0
    else match w.oke
      case Absent => 1
      case Present(Deleted) => 1
      case Present(Deleting(n)) => 2 + n
      case Present(_) => 3 + t
  }

  /** From v to u: the control plane is gone, or the rank has sunk by at least k. */
  predicate Sunk(v: World, u: World, t: nat, k: nat) {
    Leaving(u) && u.mcs == v.mcs && (u.cpGone || DeletionRank(u, t) + k <= DeletionRank(v, t))
  }

  lemma OpenGateSinks(cfg: Config, w: World, mc: Option<nat>, x: Answers, t: nat)
    requires Leaving(w) && GateOpen(Read(w.mcs, mc)) && DeletesFree(x, t)
    ensures Sunk(w, DeletionRound(cfg, w, mc, x), t, 1)
  {
    if !w.cpGone {
      DeletePassBy(cfg, Last(w.cps), Read(w.mcs, mc), w.oke, x);
    }
  }

  lemma {:induction false} SinkingSinks(f: (World, nat) -> World, w: World, t: nat, n: nat)
    requires Leaving(w) && forall v, k | Leaving(v) && v.mcs == w.mcs :: Sunk(v, f(v, k), t, 1)
    ensures Sunk(w, Iterate(f, w, n), t, n)
  {
    if n > 0 {
      SinkingSinks(f, w, t, n - 1);
      assert Sunk(Iterate(f, w, n - 1), f(Iterate(f, w, n - 1), n), t, 1);
    }
  }

  lemma SinkingEnds(f: (World, nat) -> World, w: World, t: nat)
    requires Leaving(w) && forall v, k | Leaving(v) && v.mcs == w.mcs :: Sunk(v, f(v, k), t, 1)
    ensures Iterate(f, w, DeletionRank(w, t)).cpGone
  {
    var v := Iterate(f, w, DeletionRank(w, t));
    SinkingSinks(f, w, t, DeletionRank(w, t));
    assert !v.cpGone ==> DeletionRank(v, t) > 0;
  }

  lemma RoundingSinks(cfg: Config, w: World, mc: Option<nat>, xs: nat -> Answers, t: nat)
    requires GateOpen(Read(w.mcs, mc)) && forall i :: DeletesFree(xs(i), t)
    ensures forall v, k | Leaving(v) && v.mcs == w.mcs :: Sunk(v, Rounding(cfg, mc, xs)(v, k), t, 1)
  {
    forall v: World, k: nat | Leaving(v) && v.mcs == w.mcs ensures Sunk(v, Rounding(cfg, mc, xs)(v, k), t, 1) {
      OpenGateSinks(cfg, v, mc, xs(k), t);
    }
  }

  lemma OpenGateEnds(cfg: Config, w: World, mc: Option<nat>, xs: nat -> Answers, t: nat)
    requires Leaving(w) && GateOpen(Read(w.mcs, mc)) && forall i :: DeletesFree(xs(i), t)
    ensures DeletionRounds(cfg, w, mc, xs, DeletionRank(w, t)).cpGone
  {
    RoundingSinks(cfg, w, mc, xs, t);
    SinkingEnds(Rounding(cfg, mc, xs), w, t);
  }

  predicate Waiting(w: World, mcs: seq<ManagedCluster>) {
    Leaving(w) && !w.cpGone && w.mcs == mcs
  }

  lemma ClosedGateStays(cfg: Config, w: World, mc: Option<nat>, x: Answers, mcs: seq<ManagedCluster>)
    requires Waiting(w, mcs) && !GateOpen(Read(mcs, mc))
    ensures Waiting(DeletionRound(cfg, w, mc, x), mcs)
  {
  }

  lemma {:induction false} IterateWaits(f: (World, nat) -> World, w: World, n: nat)
    requires Waiting(w, w.mcs) && forall v, k | Waiting(v, w.mcs) :: Waiting(f(v, k), w.mcs)
    ensures Waiting(Iterate(f, w, n), w.mcs)
  {
    if n > 0 {
      IterateWaits(f, w, n - 1);
    }
  }

  lemma RoundingWaits(cfg: Config, w: World, mc: Option<nat>, xs: nat -> Answers)
    requires !GateOpen(Read(w.mcs, mc))
    ensures forall v, k | Waiting(v, w.mcs) :: Waiting(Rounding(cfg, mc, xs)(v, k), w.mcs)
  {
    forall v: World, k: nat | Waiting(v, w.mcs) ensures Waiting(Rounding(cfg, mc, xs)(v, k), w.mcs) {
      ClosedGateStays(cfg, v, mc, xs(k), w.mcs);
    }
  }

  lemma ClosedGateForever(cfg: Config, w: World, mc: Option<nat>, xs: nat -> Answers, n: nat)
    requires Waiting(w, w.mcs) && !GateOpen(Read(w.mcs, mc))
    ensures !DeletionRounds(cfg, w, mc, xs, n).cpGone
  {
    RoundingWaits(cfg, w, mc, xs);
    IterateWaits(Rounding(cfg, mc, xs), w, n);
  }

  /** Error-free passes with an OKE that finishes deleting end the deletion of a control plane exactly when the
      managed cluster they read is there and ready; the rank bounds them.  So a control plane that is deleted after
      its managed cluster is gone stays. */
  lemma ControlPlaneDeletionEndsIff(cfg: Config, w: World, mc: Option<nat>, xs: nat -> Answers, t: nat)
    requires Leaving(w) && !w.cpGone && forall i :: DeletesFree(xs(i), t)
    ensures (exists n :: DeletionRounds(cfg, w, mc, xs, n).cpGone) <==> GateOpen(Read(w.mcs, mc))
    ensures GateOpen(Read(w.mcs, mc)) ==> DeletionRounds(cfg, w, mc, xs, DeletionRank(w, t)).cpGone
  {
    if GateOpen(Read(w.mcs, mc)) {
      OpenGateEnds(cfg, w, mc, xs, t);
    } else {
      forall n: nat ensures !DeletionRounds(cfg, w, mc, xs, n).cpGone {
        ClosedGateForever(cfg, w, mc, xs, n);
      }
    }
  }

  /** Both objects are set up, with an OKE cluster on its way. */
  lemma BothSetUp(cfg: Config) returns (run: seq<Action>)
    ensures var w := Exec(cfg, INIT, run);
      && |w.mcs| == 2 && w.mcs[1] == SET_UP && Last(w.cps) == ControlPlane(false, true, false, UNSET, true)
      && w.oke.Present? && !w.oke.state.Deleted? && !w.mcGone && !w.cpGone && Quiet(w)
  {
    run := SetUp(cfg);
    ExecSnoc(cfg, run, ControlPlaneWorks(0, Some(1), NoErrors(0)));
    run := run + [ControlPlaneWorks(0, Some(1), NoErrors(0))];
    ExecSnoc(cfg, run, ControlPlanePatches(true));
    run := run + [ControlPlanePatches(true)];
  }

  /** Both deleted, the managed cluster can be gone first: its passes do not wait for the control plane.  The control
      plane, which can no longer read it, then stays for ever, and so does its OKE cluster. */
  lemma Stranded(cfg: Config, xs: nat -> Answers) returns (run: seq<Action>)
    ensures var w := Exec(cfg, INIT, run);
      && w.mcGone && !w.cpGone && Last(w.cps).deleting && w.oke.Present? && !w.oke.state.Deleted?
      && forall n :: !DeletionRounds(cfg, w, None, xs, n).cpGone
  {
    run := BothSetUp(cfg);
    ExecSnoc(cfg, run, DeleteControlPlane);
    run := run + [DeleteControlPlane];
    ExecSnoc(cfg, run, DeleteManagedCluster);
    run := run + [DeleteManagedCluster];
    var w := Exec(cfg, INIT, run);
    assert Leaving(w) && !w.cpGone && |w.mcs| == 3 && w.mcs[2] == SET_UP.(deleting := true) && w.mcRun.ClusterIdle?;
    ExecSnoc(cfg, run, ClusterWorks(2, Some(0), []));
    run := run + [ClusterWorks(2, Some(0), [])];
    Saga.DeleteStopIs(cfg.network, [], Saga.DELETE_STEPS);
    ExecSnoc(cfg, run, ClusterPatches(true));
    run := run + [ClusterPatches(true)];
    w := Exec(cfg, INIT, run);
    assert Waiting(w, w.mcs) && w.mcGone;
    forall n: nat ensures !DeletionRounds(cfg, w, None, xs, n).cpGone {
      ClosedGateForever(cfg, w, None, xs, n);
    }
  }
}
