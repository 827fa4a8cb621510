/** When the controllers create OKE clusters only onto a whole network. */
module ManagedTeardown {
  import opened Optional
  import opened ManagedPasses
  import opened ManagedProtocol
  import Saga = ClusterSaga

  /** A managed cluster that is being deleted stays so, and only such a one has its network deleted; the first
      version of the control plane is always there to be read. */
  predicate Marks(w: World) {
    && w.mcs != [] && w.cps != []
    && (forall m :: m in w.mcs && m.deleting ==> Last(w.mcs).deleting)
    && (NetworkDeleteStarted in w.log ==> Last(w.mcs).deleting)
    && w.cps[0] == INIT.cps[0]
  }

  predicate Marked(cfg: Config, w: World) {
    Inv(cfg, w) && Marks(w)
  }

  lemma ClusterWorksMarks(cfg: Config, w: World, a: Action)
    requires Marks(w) && a.ClusterWorks?
    ensures Marks(Step(cfg, w, a)) && Step(cfg, w, a).mcs == w.mcs
  {
    if w.mcRun.ClusterIdle? && a.own < |w.mcs| {
      var work := ClusterPass(cfg, w.mcs[a.own], Read(w.cps, a.cp), w.net, a.o);
      assert w.mcs[a.own] in w.mcs;
      assert work.deleteStarted == w.mcs[a.own].deleting;
      assert NetworkDeleteStarted in ClusterEvents(work) ==> work.deleteStarted;
    }
  }

  lemma ControlPlaneWorksMarks(cfg: Config, w: World, a: Action)
    requires Marks(w) && a.ControlPlaneWorks?
    ensures Marks(Step(cfg, w, a)) && Step(cfg, w, a).mcs == w.mcs
  {
    if w.cpRun.ControlPlaneIdle? && a.own < |w.cps| {
      var work := ControlPlanePass(cfg, w.cps[a.own], Read(w.mcs, a.mc), w.oke, a.x);
      assert NetworkDeleteStarted !in ControlPlaneEvents(cfg, work, w.oke, w.net);
    }
  }

  lemma StoresMarks(w: World, m: ManagedCluster, c: ControlPlane)
    requires Marks(w) && (Last(w.mcs).deleting ==> m.deleting)
    ensures Marks(StoreCluster(w, m)) && Marks(StoreControlPlane(w, c))
  {
  }

  lemma StepMarks(cfg: Config, w: World, a: Action)
    requires Marks(w)
    ensures Marks(Step(cfg, w, a))
    ensures !a.DeleteManagedCluster? ==> Last(Step(cfg, w, a).mcs).deleting == Last(w.mcs).deleting
  {
    match a
    case ClusterWorks(_, _, _) => ClusterWorksMarks(cfg, w, a);
    case ControlPlaneWorks(_, _, _) => ControlPlaneWorksMarks(cfg, w, a);
    case ClusterPatches(_) =>
      if w.mcRun.ClusterRunning? {
        var m := MergeCluster(w.mcRun.own, w.mcRun.after, Last(w.mcs));
        StoresMarks(w.(mcRun := ClusterIdle), m, Last(w.cps));
      }
    case ControlPlanePatches(_) =>
      if w.cpRun.ControlPlaneRunning? {
        var c := MergeControlPlane(w.cpRun.own, w.cpRun.after, Last(w.cps));
        StoresMarks(w.(cpRun := ControlPlaneIdle), Last(w.mcs), c);
      }
    case OkeMoves(_) =>
    case DeleteManagedCluster => StoresMarks(w, Last(w.mcs).(deleting := true), Last(w.cps));
    case DeleteControlPlane => StoresMarks(w, Last(w.mcs), Last(w.cps).(deleting := true));
  }

  lemma StepMarked(cfg: Config, w: World, a: Action)
    requires Marked(cfg, w)
    ensures Marked(cfg, Step(cfg, w, a))
    ensures !a.DeleteManagedCluster? ==> Last(Step(cfg, w, a).mcs).deleting == Last(w.mcs).deleting
  {
    StepKeeps(cfg, w, a);
    StepMarks(cfg, w, a);
  }

  lemma {:induction false} ExecMarked(cfg: Config, w: World, run: seq<Action>)
    requires Marked(cfg, w)
    ensures Marked(cfg, Exec(cfg, w, run))
    ensures DeleteManagedCluster !in run ==> Last(Exec(cfg, w, run).mcs).deleting == Last(w.mcs).deleting
    decreases |run|
  {
    if run != [] {
      StepMarked(cfg, w, run[0]);
      ExecMarked(cfg, Step(cfg, w, run[0]), run[1..]);
    }
  }

  /** Every OKE cluster created from the n-th event on is created onto the whole managed network. */
  predicate OntoWhole(cfg: Config, log: seq<Event>, n: nat) {
    forall i | n <= i < |log| && log[i].OkeCreated? :: Saga.Managed(cfg.network) <= log[i].net.full
  }

  lemma NotDeletingIsWhole(cfg: Config, w: World, run: seq<Action>, n: nat)
    requires Marked(cfg, w) && DeleteManagedCluster !in run && !Last(w.mcs).deleting
    ensures OntoWhole(cfg, Exec(cfg, w, run).log, n)
  {
    ExecMarked(cfg, w, run);
    var log := Exec(cfg, w, run).log;
    forall i | n <= i < |log| && log[i].OkeCreated? ensures Saga.Managed(cfg.network) <= log[i].net.full {
      assert EventOk(cfg, log[..i], log[i]);
    }
  }

  /** A delete pass without errors over a deleting version takes the whole network down. */
  lemma NetworkTornDown(cfg: Config, w: World, k: nat)
    requires Marks(w) && Quiet(w) && k < |w.mcs| && w.mcs[k].deleting
    ensures var v := Step(cfg, w, ClusterWorks(k, None, []));
      && v.mcs == w.mcs && v.cps == w.cps && v.oke == w.oke && v.cpRun.ControlPlaneIdle?
      && v.log == w.log + [NetworkDeleteStarted] && v.net.full * Saga.Managed(cfg.network) == {}
  {
    Saga.DeleteStopIs(cfg.network, [], Saga.DELETE_STEPS);
    assert forall r :: r in Saga.Managed(cfg.network) ==> Saga.DeleteRank(r) < Saga.DELETE_STEPS;
    assert ClusterEvents(ClusterPass(cfg, w.mcs[k], None, w.net, [])) == [NetworkDeleteStarted];
  }

  /** A pass over the first version of the control plane that reads a ready managed cluster creates. */
  lemma CreatesAnew(cfg: Config, w: World, k: nat)
    requires Marks(w) && w.cpRun.ControlPlaneIdle? && w.oke.Absent? && k < |w.mcs| && w.mcs[k].ready
    ensures Step(cfg, w, ControlPlaneWorks(0, Some(k), NoErrors(0))).log == w.log + [OkeCreated(w.net)]
  {
  }

  lemma ExecThree(cfg: Config, w: World, a: Action, b: Action, c: Action)
    requires w.mcs != [] && w.cps != []
    ensures Exec(cfg, w, [a, b, c]) == Step(cfg, Step(cfg, Step(cfg, w, a), b), c)
  {
    assert [a, b, c][1..] == [b, c];
    ExecTwo(cfg, Step(cfg, w, a), b, c);
  }

  lemma QuietBreaks(cfg: Config, w: World, k: nat) returns (run: seq<Action>)
    requires Marks(w) && Quiet(w) && Last(w.mcs).deleting && k < |w.mcs| && w.mcs[k].ready
    requires Saga.Managed(cfg.network) != {}
    ensures DeleteManagedCluster !in run && !OntoWhole(cfg, Exec(cfg, w, run).log, |w.log|)
  {
    var down, away := ClusterWorks(|w.mcs| - 1, None, []), OkeMoves(Absent);
    var create := ControlPlaneWorks(0, Some(k), NoErrors(0));
    var u := Step(cfg, w, down);
    NetworkTornDown(cfg, w, |w.mcs| - 1);
    StepMarks(cfg, w, down);
    var t := Step(cfg, u, away);
    StepMarks(cfg, u, away);
    CreatesAnew(cfg, t, k);
    run := [down, away, create];
    var log := Exec(cfg, w, run).log;
    assert log == w.log + [NetworkDeleteStarted] + [OkeCreated(u.net)] by {
      ExecThree(cfg, w, down, away, create);
    }
    assert log[|w.log| + 1] == OkeCreated(u.net);
  }

  lemma DeletingBreaks(cfg: Config, w: World, k: nat) returns (run: seq<Action>)
    requires Marks(w) && Last(w.mcs).deleting && k < |w.mcs| && w.mcs[k].ready && Saga.Managed(cfg.network) != {}
    ensures DeleteManagedCluster !in run && !OntoWhole(cfg, Exec(cfg, w, run).log, |w.log|)
  {
    var a, b := ClusterPatches(false), ControlPlanePatches(false);
    ExecTwo(cfg, w, a, b);
    StepMarks(cfg, w, a);
    StepMarks(cfg, Step(cfg, w, a), b);
    var v := Exec(cfg, w, [a, b]);
    assert Quiet(v) && v.mcs == w.mcs && v.log == w.log;
    var rest := QuietBreaks(cfg, v, k);
    ExecConcat(cfg, w, [a, b], rest);
    run := [a, b] + rest;
  }

  /** Once some stored version of the managed cluster is ready: whatever happens short of a delete request, the
      controllers create OKE clusters onto the whole network only, exactly when the newest version carries no
      deletion mark, or there is no network to manage. */
  lemma WholeNetworkIff(cfg: Config, run: seq<Action>)
    requires exists m :: m in Exec(cfg, INIT, run).mcs && m.ready
    ensures var w := Exec(cfg, INIT, run);
      (forall more | DeleteManagedCluster !in more :: OntoWhole(cfg, Exec(cfg, w, more).log, |w.log|)) <==>
      !Last(w.mcs).deleting || Saga.Managed(cfg.network) == {}
  {
    var w := Exec(cfg, INIT, run);
    InitOk(cfg);
    ExecMarked(cfg, INIT, run);
    if !Last(w.mcs).deleting {
      forall more | DeleteManagedCluster !in more ensures OntoWhole(cfg, Exec(cfg, w, more).log, |w.log|) {
        NotDeletingIsWhole(cfg, w, more, |w.log|);
      }
    } else if Saga.Managed(cfg.network) != {} {
      var m :| m in w.mcs && m.ready;
      var k :| 0 <= k < |w.mcs| && w.mcs[k] == m;
      var more := DeletingBreaks(cfg, w, k);
    }
  }
}
