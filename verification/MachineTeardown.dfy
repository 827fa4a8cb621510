/** What a machine that is gone leaves in the cloud. */
module MachineTeardown {
  import opened Optional
  import opened MachinePass
  import opened MachineRuns

  // ---- One pass ------------------------------------------------------------------------------------

  predicate Drops(m: Machine, w: Work) {
    m.finalizer && !w.m.finalizer
  }

  /** A delete pass can let go of the machine with its backend in place exactly when it sees the instance
      terminated, or does not see it and does not look for the backend. */
  lemma BackendLeftIff(cfg: Config, m: Machine, c: Cloud)
    requires m.deleting && m.finalizer && cfg.controlPlane && c.lbPresent && c.backend
    ensures (exists x :: Drops(m, DeletePass(cfg, m, c, x)) && DeletePass(cfg, m, c, x).c.backend) <==>
      Seen(m, c) == Some(Terminated) || (Seen(m, c).None? && (m.id.NoId? || BackendSkipped(cfg, m)))
  {
    var ok := NoErrors(0);
    if Seen(m, c) == Some(Terminated) {
      assert DeletePass(cfg, m, c, ok) == FinishDelete(cfg, m, c, ok, Seen(m, c));
      assert Drops(m, DeletePass(cfg, m, c, ok));
    } else if Seen(m, c).None? {
      if m.id.NoId? || BackendSkipped(cfg, m) {
        assert Drops(m, DeletePass(cfg, m, c, ok)) && DeletePass(cfg, m, c, ok).c.backend;
      }
    }
  }

  /** It can let go of the machine with its volume in place exactly when it sees no instance and no identifier
      is recorded. */
  lemma VolumeLeftIff(cfg: Config, m: Machine, c: Cloud)
    requires m.deleting && m.finalizer && cfg.blockVolume && c.volume
    ensures (exists x :: Drops(m, DeletePass(cfg, m, c, x)) && DeletePass(cfg, m, c, x).c.volume) <==>
      Seen(m, c).None? && m.id.NoId?
  {
    var ok := NoErrors(0);
    if Seen(m, c).None? && m.id.NoId? {
      assert Drops(m, DeletePass(cfg, m, c, ok)) && DeletePass(cfg, m, c, ok).c.volume;
    }
  }

  // ---- Every run -----------------------------------------------------------------------------------

  /** The cloud ends no instance by itself, and forgets an ended one only if the machine has recorded it. */
  predicate Orderly(s: State, a: Action) {
    a.CloudMoves? && s.c.own.Some? ==>
      && (Ending(a.own) <==> Ending(s.c.own))
      && (a.own.None? ==> s.m.id.OwnId?)
  }

  /** Patches get through until the finalizer is stored, and for a load balancer of type LB the address. */
  predicate Stored(cfg: Config, s: State, a: Action) {
    a.RunPass? && (!s.m.finalizer || BackendSkipped(cfg, s.m)) ==> a.patchOk
  }

  ghost predicate Careful(cfg: Config, s: State, run: seq<Action>) {
    forall i :: 0 <= i < |run| ==>
      Orderly(Exec(cfg, s, run[..i]), run[i]) && Stored(cfg, Exec(cfg, s, run[..i]), run[i])
  }

  predicate BackendHeld(cfg: Config, m: Machine, c: Cloud) {
    c.backend ==> m.finalizer && !Ending(c.own) && c.lbPresent && cfg.controlPlane && !BackendSkipped(cfg, m)
  }

  predicate VolumeHeld(cfg: Config, m: Machine, c: Cloud) {
    c.volume ==> m.finalizer && cfg.blockVolume && (m.id.OwnId? || c.own.Some?)
  }

  /** Whatever exists is held by a machine that will look for it. */
  predicate Held(cfg: Config, m: Machine, c: Cloud) {
    !m.id.ForeignId? && BackendHeld(cfg, m, c) && VolumeHeld(cfg, m, c)
  }

  predicate Clean(cfg: Config, s: State) {
    Held(cfg, s.m, s.c) && (s.gone ==> !s.c.backend && !s.c.volume)
  }

  /** What the rest of a normal pass does to a machine whose instance was found. */
  predicate KeptUp(cfg: Config, m: Machine, c: Cloud, w: Work) {
    && w.m.id == m.id && w.m.finalizer == m.finalizer && (m.address ==> w.m.address)
    && w.c == c.(backend := w.c.backend)
    && (w.c.backend && !c.backend ==> cfg.controlPlane && c.lbPresent && c.own == Some(Running) && w.m.address)
  }

  lemma RunningKeptUp(cfg: Config, m: Machine, c: Cloud, x: Answers)
    requires c.own == Some(Running)
    ensures KeptUp(cfg, m, c, RunningPass(cfg, m, c, x))
  {
    var m' := m.(address := true);
    assert KeptUp(cfg, m', c, AttachPass(cfg, m', c, x));
  }

  lemma NotRunningKeptUp(cfg: Config, m: Machine, c: Cloud, life: Life, x: Answers)
    ensures KeptUp(cfg, m, c, NotRunningPass(cfg, m, c, life, x))
  {
  }

  lemma LookupHeld(cfg: Config, m: Machine, c: Cloud, x: Answers)
    requires Held(cfg, m, c) && m.finalizer
    ensures var l := GetOrCreateMachine(cfg, m, c, x); Held(cfg, m, l.c) && (l.life.Some? ==> l.life == l.c.own)
  {
  }

  lemma KeptUpHeld(cfg: Config, m: Machine, named: Machine, c: Cloud, w: Work)
    requires Held(cfg, m, c) && m.finalizer && KeptUp(cfg, named, c, w) && c.own.Some?
    requires named == m.(id := named.id, providerId := true) && !named.id.ForeignId?
    ensures Held(cfg, w.m, w.c) && (!BackendSkipped(cfg, m) ==> Held(cfg, m, w.c))
  {
  }

  /** A normal pass sets the finalizer, looks up, and either stops there or keeps the machine up. */
  predicate LooksUp(cfg: Config, m: Machine, c: Cloud, l: Lookup, w: Work) {
    || (w.m == m.(finalizer := true) && (w.c == c || w.c == l.c))
    || (l.life.Some? && KeptUp(cfg, Named(m), l.c, w))
  }

  lemma NormalLooksUp(cfg: Config, m: Machine, c: Cloud, x: Answers, l: Lookup)
    requires l == GetOrCreateMachine(cfg, m.(finalizer := true), c, x) && (l.life.Some? ==> l.life == l.c.own)
    ensures LooksUp(cfg, m, c, l, NormalPass(cfg, m, c, x))
  {
    if x.bootstrapReady && l.life.Some? {
      if l.life.value.Running? {
        RunningKeptUp(cfg, Named(m), l.c, x);
      } else {
        NotRunningKeptUp(cfg, Named(m), l.c, l.life.value, x);
      }
    }
  }

  lemma NormalHeld(cfg: Config, m: Machine, c: Cloud, x: Answers)
    requires Held(cfg, m, c)
    ensures var w := NormalPass(cfg, m, c, x);
      Held(cfg, w.m, w.c) && (m.finalizer && !BackendSkipped(cfg, m) ==> Held(cfg, m, w.c))
  {
    var marked := m.(finalizer := true);
    var l := GetOrCreateMachine(cfg, marked, c, x);
    LookupHeld(cfg, marked, c, x);
    NormalLooksUp(cfg, m, c, x, l);
    LookedUpHeld(cfg, m, c, l, NormalPass(cfg, m, c, x));
  }

  lemma LookedUpHeld(cfg: Config, m: Machine, c: Cloud, l: Lookup, w: Work)
    requires Held(cfg, m, c) && Held(cfg, m.(finalizer := true), l.c) && (l.life.Some? ==> l.life == l.c.own)
    requires LooksUp(cfg, m, c, l, w)
    ensures Held(cfg, w.m, w.c) && (m.finalizer && !BackendSkipped(cfg, m) ==> Held(cfg, m, w.c))
  {
    if l.life.Some? && KeptUp(cfg, Named(m), l.c, w) {
      KeptUpHeld(cfg, m.(finalizer := true), Named(m), l.c, w);
    }
  }

  /** A delete pass keeps the holding; if it drops the finalizer there is nothing left to hold. */
  predicate LetGo(cfg: Config, m: Machine, w: Work) {
    && w.m == m.(finalizer := w.m.finalizer)
    && Held(cfg, m, w.c)
    && (Drops(m, w) ==> !w.c.backend && !w.c.volume)
  }

  lemma FinishLetsGo(cfg: Config, m: Machine, c: Cloud, x: Answers, seen: Option<Life>)
    requires Held(cfg, m, c) && Ending(c.own)
    ensures LetGo(cfg, m, FinishDelete(cfg, m, c, x, seen))
  {
  }

  lemma MissingLetsGo(cfg: Config, m: Machine, c: Cloud, x: Answers)
    requires Held(cfg, m, c) && c.own.None?
    ensures LetGo(cfg, m, MissingPass(cfg, m, c, x))
  {
    assert RemoveBackend(cfg, m, c, x) == c;
    FinishLetsGo(cfg, m, c, x, Seen(m, c));
  }

  lemma TerminateLetsGo(cfg: Config, m: Machine, c: Cloud, x: Answers)
    requires Held(cfg, m, c) && c.own.Some?
    ensures LetGo(cfg, m, TerminatePass(cfg, m, c, x))
  {
    assert RemoveBackendOk(cfg, m, c, x) ==> !RemoveBackend(cfg, m, c, x).backend;
  }

  lemma DeleteLetsGo(cfg: Config, m: Machine, c: Cloud, x: Answers)
    requires Held(cfg, m, c)
    ensures LetGo(cfg, m, DeletePass(cfg, m, c, x))
  {
    if x.lookupOk {
      match Seen(m, c)
      case None => MissingLetsGo(cfg, m, c, x);
      case Some(Terminated) => FinishLetsGo(cfg, m, c, x, Seen(m, c));
      case Some(Terminating(_)) =>
      case Some(_) => TerminateLetsGo(cfg, m, c, x);
    }
  }

  lemma PassClean(cfg: Config, s: State, x: Answers, patchOk: bool)
    requires Clean(cfg, s) && !s.gone && Stored(cfg, s, RunPass(x, patchOk))
    ensures Clean(cfg, Step(cfg, s, RunPass(x, patchOk)))
  {
    if s.m.deleting {
      DeleteLetsGo(cfg, s.m, s.c, x);
    } else {
      NormalHeld(cfg, s.m, s.c, x);
      NormalPassTracks(cfg, s.m, s.c, x);
      NormalPassGrows(cfg, s.m, s.c, x);
    }
  }

  lemma StepClean(cfg: Config, s: State, a: Action)
    requires Clean(cfg, s) && Orderly(s, a) && Stored(cfg, s, a)
    ensures Clean(cfg, Step(cfg, s, a))
  {
    if a.RunPass? && !s.gone {
      PassClean(cfg, s, a.x, a.patchOk);
    }
  }

  lemma CarefulPrefix(cfg: Config, s: State, run: seq<Action>, n: nat)
    requires Careful(cfg, s, run) && n <= |run|
    ensures Careful(cfg, s, run[..n])
  {
    forall i | 0 <= i < n ensures run[..n][..i] == run[..i] && run[..n][i] == run[i] {}
  }

  /** In every careful run of a machine that names no foreign instance, the machine is gone only when neither its
      backend nor its volume is left. */
  lemma {:induction false} NothingLeft(cfg: Config, s: State, run: seq<Action>)
    requires Init(s) && s.m.id.NoId? && Careful(cfg, s, run)
    ensures Clean(cfg, Exec(cfg, s, run))
  {
    if run != [] {
      var n := |run| - 1;
      CarefulPrefix(cfg, s, run, n);
      NothingLeft(cfg, s, run[..n]);
      StepClean(cfg, Exec(cfg, s, run[..n]), run[n]);
    }
  }

  predicate NoTrouble(run: seq<Action>) {
    forall a :: a in run && a.RunPass? ==> a == RunPass(NoErrors(0), true)
  }

  predicate LeavesBackend(s: State) {
    s.gone && s.c.lbPresent && s.c.backend
  }

  /** The cloud must leave the ending to the controller: if it terminates the instance itself, an error-free run
      with every patch stored leaves the backend behind. */
  lemma TerminatedOutside(cfg: Config, s: State)
    requires Init(s) && s.m.id.NoId? && s.c.lbPresent
    requires cfg == Config(true, cfg.loadBalancerType, false, false, false)
    ensures exists run :: NoTrouble(run) && LeavesBackend(Exec(cfg, s, run))
  {
    var up := Launched(cfg, s);
    var pass, ends := RunPass(NoErrors(0), true), CloudMoves(Some(Terminated), s.c.foreign);
    ExecSnoc(cfg, s, up, pass);
    var t := Exec(cfg, s, up + [pass]);
    assert t.c == s.c.(own := Some(Running), backend := true) && t.m.finalizer && t.m.id.OwnId? && !t.gone;
    ExecSnoc(cfg, s, up + [pass], ends);
    ExecSnoc(cfg, s, up + [pass] + [ends], RequestDelete);
    var u := Exec(cfg, s, up + [pass] + [ends] + [RequestDelete]);
    assert u.m.deleting && u.m.finalizer && Seen(u.m, u.c) == Some(Terminated);
    assert u.c.backend && u.c.lbPresent && !u.gone;
    ExecSnoc(cfg, s, up + [pass] + [ends] + [RequestDelete], pass);
    assert NoTrouble(up + [pass] + [ends] + [RequestDelete] + [pass]);
  }

  /** And it must not forget an instance before the machine has recorded it: the volume made for it is left. */
  lemma ForgottenUnrecorded(cfg: Config, s: State)
    requires Init(s) && s.m.id.NoId? && cfg.blockVolume
    ensures exists run :: var t := Exec(cfg, s, run); t.gone && t.c.volume
  {
    var waits, lost := RunPass(NoErrors(0).(bootstrapReady := false), true), RunPass(NoErrors(0), false);
    var gone, last := CloudMoves(None, s.c.foreign), RunPass(NoErrors(0), true);
    ExecSnoc(cfg, s, [], waits);
    assert [] + [waits] == [waits] && Exec(cfg, s, []) == s;
    var r := [waits];
    var m := s.m.(finalizer := true);
    assert Exec(cfg, s, r) == s.(m := m);
    ExecSnoc(cfg, s, r, lost);
    r := r + [lost];
    assert Exec(cfg, s, r).m == m && Exec(cfg, s, r).c.own == Some(Provisioning);
    ExecSnoc(cfg, s, r, lost);
    r := r + [lost];
    assert Exec(cfg, s, r).m == m && Exec(cfg, s, r).c.volume && !Exec(cfg, s, r).gone;
    ExecSnoc(cfg, s, r, gone);
    r := r + [gone];
    ExecSnoc(cfg, s, r, RequestDelete);
    r := r + [RequestDelete];
    assert Exec(cfg, s, r).m == m.(deleting := true) && Exec(cfg, s, r).c.volume && Exec(cfg, s, r).c.own.None?;
    ExecSnoc(cfg, s, r, last);
    r := r + [last];
    assert Exec(cfg, s, r).gone && Exec(cfg, s, r).c.volume;
  }
}
