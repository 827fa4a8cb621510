/** How a machine comes up: what a pass makes of each state of its instance, and when the machine becomes ready. */
module MachineProgress {
  import opened Optional
  import opened CloudCall
  import opened MachinePass
  import opened MachineRuns

  // ---- One pass ------------------------------------------------------------------------------------

  /** The volume, where one is wanted, is made and attached. */
  predicate VolumeCallsOk(cfg: Config, x: Answers) {
    cfg.blockVolume ==> x.createVolume.Done? && x.attachOk
  }

  predicate LbCallsOk(cfg: Config, c: Cloud, x: Answers) {
    cfg.controlPlane ==> x.lbReadOk && c.lbPresent && (c.backend || x.addBackend.Done?)
  }

  /** The lookup ends with an instance exactly when one is found, or none is recorded and the launch succeeds, and
      the calls for the volume succeed. */
  lemma LookupFindsIff(cfg: Config, m: Machine, c: Cloud, x: Answers)
    ensures var l := GetOrCreateMachine(cfg, m, c, x);
      && (l.life.Some? <==>
            x.lookupOk && VolumeCallsOk(cfg, x) && (Seen(m, c).Some? || (m.id.NoId? && x.launch.Done?)))
      && (l.life.Some? ==> l.life == if Seen(m, c).Some? then Seen(m, c) else Some(Provisioning))
      && (l.life.Some? && cfg.blockVolume ==> l.c.volume && l.c.attached)
      && (l.life.Some? && Seen(m, c).None? ==> l.c.own == Some(Provisioning))
      && (Seen(m, c).Some? ==> l.c.own == c.own) && l.c.lbPresent == c.lbPresent && l.c.backend == c.backend
      && l.c.foreign == c.foreign
  {
  }

  lemma RunningReadyIff(cfg: Config, m: Machine, c: Cloud, x: Answers)
    ensures var w := RunningPass(cfg, m, c, x);
      && (w.m.ready <==>
            m.ready ||
            ((m.address || x.ipOk) && LbCallsOk(cfg, c, x) && (cfg.vnics ==> x.vnicsOk)))
      && w.m.failed == m.failed && w.m.id == m.id && w.m.finalizer == m.finalizer && w.m.deleting == m.deleting
      && w.c == c.(backend := w.c.backend)
  {
  }

  /** A machine that is not ready becomes ready in a pass exactly when its instance is running and every call that the
      pass makes for it succeeds. */
  lemma BecomesReadyIff(cfg: Config, m: Machine, c: Cloud, x: Answers)
    requires !m.ready
    ensures NormalPass(cfg, m, c, x).m.ready <==>
      && x.bootstrapReady && x.lookupOk && Seen(m, c) == Some(Running) && VolumeCallsOk(cfg, x)
      && (m.address || x.ipOk) && LbCallsOk(cfg, c, x) && (cfg.vnics ==> x.vnicsOk)
  {
    var marked := m.(finalizer := true);
    var l := GetOrCreateMachine(cfg, marked, c, x);
    LookupFindsIff(cfg, marked, c, x);
    if x.bootstrapReady && l.life.Some? {
      if l.life.value.Running? {
        RunningReadyIff(cfg, Named(m), l.c, x);
        assert NormalPass(cfg, m, c, x) == RunningPass(cfg, Named(m), l.c, x);
      } else {
        NotRunningNotReady(cfg, Named(m), l.c, l.life.value, x);
        assert NormalPass(cfg, m, c, x) == NotRunningPass(cfg, Named(m), l.c, l.life.value, x);
      }
    }
  }

  lemma NotRunningNotReady(cfg: Config, m: Machine, c: Cloud, life: Life, x: Answers)
    requires !m.ready
    ensures !NotRunningPass(cfg, m, c, life, x).m.ready
  {
  }

  /** What a pass makes of a machine whose instance is not running. */
  predicate ByLife(cfg: Config, m: Machine, life: Life, x: Answers, w: Work) {
    match life
    case Provisioning => w.m.ready == m.ready && w.m.failed == m.failed && w.result == RequeueAfter(10)
    case Starting => w.m.ready == m.ready && w.m.failed == m.failed && w.result == RequeueAfter(10)
    case Stopping => !w.m.ready && w.m.failed == m.failed && w.result == RequeueAfter(0)
    case Stopped => !w.m.ready && w.m.failed == m.failed && w.result == RequeueAfter(0)
    case Moving => !w.m.ready && w.m.failed == m.failed && w.result == RequeueAfter(0)
    case Terminated =>
      && w.result.Error?
      && (if cfg.deleteOnTermination && !x.deleteMachineOk then w.m.ready == m.ready && w.m.failed == m.failed
          else !w.m.ready && w.m.failed)
    case Terminating(_) => !w.m.ready && w.m.failed && w.result.Error?
    case CreatingImage => !w.m.ready && w.m.failed && w.result.Error?
    case Running => w.m.failed == m.failed
  }

  predicate Recorded(w: Work) {
    w.m.finalizer && !w.m.id.NoId? && w.m.providerId
  }

  lemma NotRunningByLife(cfg: Config, m: Machine, c: Cloud, life: Life, x: Answers)
    requires !life.Running? && m.finalizer && !m.id.NoId? && m.providerId
    ensures var w := NotRunningPass(cfg, m, c, life, x); Recorded(w) && ByLife(cfg, m, life, x, w)
  {
  }

  lemma RunningByLife(cfg: Config, m: Machine, c: Cloud, x: Answers)
    requires m.finalizer && !m.id.NoId? && m.providerId
    ensures var w := RunningPass(cfg, m, c, x); Recorded(w) && ByLife(cfg, m, Running, x, w)
  {
    var m' := m.(address := true);
    var w := AttachPass(cfg, m', c, x);
    assert Recorded(w) && w.m.failed == m.failed;
  }

  lemma ByLifeOfNamed(cfg: Config, m: Machine, life: Life, x: Answers, w: Work)
    requires ByLife(cfg, Named(m), life, x, w)
    ensures ByLife(cfg, m, life, x, w)
  {
  }

  /** A pass that gets to see the instance records it, and then goes by its state: it waits for an instance that is
      coming up, takes readiness from one that is stopping, and fails the machine of one that has ended. */
  lemma PassByLife(cfg: Config, m: Machine, c: Cloud, x: Answers)
    requires x.bootstrapReady && x.lookupOk && VolumeCallsOk(cfg, x) && Seen(m, c).Some?
    ensures var w := NormalPass(cfg, m, c, x); Recorded(w) && ByLife(cfg, m, Seen(m, c).value, x, w)
  {
    var marked := m.(finalizer := true);
    var l := GetOrCreateMachine(cfg, marked, c, x);
    LookupFindsIff(cfg, marked, c, x);
    assert l.life == Seen(m, c);
    if l.life.value.Running? {
      RunningByLife(cfg, Named(m), l.c, x);
      assert NormalPass(cfg, m, c, x) == RunningPass(cfg, Named(m), l.c, x);
    } else {
      NotRunningByLife(cfg, Named(m), l.c, l.life.value, x);
      assert NormalPass(cfg, m, c, x) == NotRunningPass(cfg, Named(m), l.c, l.life.value, x);
    }
    ByLifeOfNamed(cfg, m, l.life.value, x, NormalPass(cfg, m, c, x));
  }

  // ---- Coming up -----------------------------------------------------------------------------------

  /** The machine is new or its instance is on its way up. */
  predicate Coming(s: State) {
    && !s.gone && !s.m.deleting && !s.m.id.ForeignId? && !s.m.ready
    && (s.c.own.None? ==> s.m.id.NoId?)
    && (s.c.own.Some? ==> s.c.own.value.Provisioning? || s.c.own.value.Starting?)
  }

  /** An error-free pass, after which the instance is in the state given. */
  function UpRound(cfg: Config, s: State, life: Life): State {
    var v := Step(cfg, s, RunPass(NoErrors(0), true));
    Step(cfg, v, CloudMoves(Some(life), v.c.foreign))
  }

  lemma ComingPass(cfg: Config, s: State)
    requires Coming(s)
    ensures var v := Step(cfg, s, RunPass(NoErrors(0), true));
      && !v.gone && !v.m.deleting && v.m.id.OwnId? && !v.m.ready && v.c.own.Some?
      && v.c.lbPresent == s.c.lbPresent
  {
    var m, x := s.m, NoErrors(0);
    var marked := m.(finalizer := true);
    var l := GetOrCreateMachine(cfg, marked, s.c, x);
    LookupFindsIff(cfg, marked, s.c, x);
    assert NormalPass(cfg, m, s.c, x) == NotRunningPass(cfg, Named(m), l.c, l.life.value, x);
  }

  lemma UpRoundEffect(cfg: Config, s: State, life: Life)
    requires Coming(s)
    ensures var v := UpRound(cfg, s, life);
      && !v.gone && !v.m.deleting && v.m.id.OwnId? && !v.m.ready && v.c.own == Some(life)
      && v.c.lbPresent == s.c.lbPresent
  {
    ComingPass(cfg, s);
  }

  function Iterate(f: (State, nat) -> State, s: State, n: nat): State {
    if n == 0 then s else f(Iterate(f, s, n - 1), n - 1)
  }

  function Rising(cfg: Config, lives: nat -> Life): (State, nat) -> State {
    (v: State, k: nat) => UpRound(cfg, v, lives(k))
  }

  function UpRounds(cfg: Config, s: State, lives: nat -> Life, n: nat): State {
    Iterate(Rising(cfg, lives), s, n)
  }

  predicate OnTheWay(life: Life) {
    life.Provisioning? || life.Starting?
  }

  predicate StillComing(v: State, lbPresent: bool) {
    Coming(v) && v.c.lbPresent == lbPresent
  }

  lemma {:induction false} StaysComing(
      f: (State, nat) -> State, s: State, lives: nat -> Life, n: nat, lbPresent: bool)
    requires StillComing(s, lbPresent) && forall k :: 0 <= k < n ==> OnTheWay(lives(k))
    requires forall v, k | StillComing(v, lbPresent) && OnTheWay(lives(k)) :: StillComing(f(v, k), lbPresent)
    ensures StillComing(Iterate(f, s, n), lbPresent)
  {
    if n > 0 {
      StaysComing(f, s, lives, n - 1, lbPresent);
    }
  }

  lemma RisingComes(cfg: Config, lives: nat -> Life, lbPresent: bool)
    ensures forall v, k | StillComing(v, lbPresent) && OnTheWay(lives(k)) ::
      StillComing(Rising(cfg, lives)(v, k), lbPresent)
  {
    forall v: State, k: nat | StillComing(v, lbPresent) && OnTheWay(lives(k))
      ensures StillComing(Rising(cfg, lives)(v, k), lbPresent)
    {
      UpRoundEffect(cfg, v, lives(k));
    }
  }

  lemma UpIsReadyIff(cfg: Config, s: State)
    requires !s.gone && !s.m.deleting && s.m.id.OwnId? && !s.m.ready && s.c.own == Some(Running)
    ensures Step(cfg, s, RunPass(NoErrors(0), true)).m.ready <==> (cfg.controlPlane ==> s.c.lbPresent)
  {
    BecomesReadyIff(cfg, s.m, s.c, NoErrors(0));
  }

  /** However long the cloud takes to bring the instance up, n rounds, the pass after it is up makes the machine ready,
      exactly when a control-plane machine has a load balancer to be put behind. */
  lemma ComesUpIff(cfg: Config, s: State, lives: nat -> Life, n: nat)
    requires Coming(s) && lives(n).Running? && forall k :: 0 <= k < n ==> OnTheWay(lives(k))
    ensures Step(cfg, UpRounds(cfg, s, lives, n + 1), RunPass(NoErrors(0), true)).m.ready <==>
      (cfg.controlPlane ==> s.c.lbPresent)
  {
    var f := Rising(cfg, lives);
    RisingComes(cfg, lives, s.c.lbPresent);
    StaysComing(f, s, lives, n, s.c.lbPresent);
    var u := Iterate(f, s, n);
    assert UpRounds(cfg, s, lives, n + 1) == UpRound(cfg, u, lives(n));
    UpRoundEffect(cfg, u, lives(n));
    UpIsReadyIff(cfg, UpRound(cfg, u, lives(n)));
  }
}
