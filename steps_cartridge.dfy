// The steps of the cartridge-config controller (pkg/reconciliation/steps/cartridge):
// the requested CartridgeConfig holds a YAML document that is uploaded to the
// cluster through the leader whenever it differs from the configuration the
// cluster reports.

module CartridgeSteps {
  import opened Wrappers
  import opened Errors
  import opened K8s
  import opened Api
  import opened Topology
  import opened Reconciliation
  import opened Environment
  import opened Contexts

  /** SetPhase: the configuration's phase becomes `phase`; nothing else changes. */
  function SetConfigPhaseSpec(s: State, log: seq<Call>, phase: string): (r: StepOut)
    requires s.Wf()
    ensures r.log == log
    ensures r.ret.Panic? <==> !s.obj.ConfigObj?
    ensures r.ret.Panic? ==> r.state == s
    ensures !r.ret.Panic? ==>
      (r.ret == NextStep() && r.state.obj.ConfigObj? && r.state.obj.config.status.phase == phase
       && r.state.obj.config.meta == s.obj.config.meta && r.state.obj.config.spec == s.obj.config.spec
       && r.state.RelatedCluster() == s.RelatedCluster() && r.state.leader == s.leader)
  {
    match s.obj
    case ConfigObj(config) => StepOut(NextStep(), s.UpdateObject(ConfigObj(config.SetPhase(phase))), log)
    case _ => StepOut(Panic, s, log)
  }

  /** ResetStatus: the configuration's status becomes its zero value. */
  function ResetConfigStatusSpec(s: State, log: seq<Call>): (r: StepOut)
    requires s.Wf()
    ensures r.log == log
    ensures r.ret.Panic? <==> !s.obj.ConfigObj?
    ensures r.ret.Panic? ==> r.state == s
    ensures !r.ret.Panic? ==>
      (r.ret == NextStep() && r.state.obj.ConfigObj? && r.state.obj.config.status.phase == ""
       && r.state.obj.config.meta == s.obj.config.meta && r.state.obj.config.spec == s.obj.config.spec
       && r.state.RelatedCluster() == s.RelatedCluster() && r.state.leader == s.leader)
  {
    match s.obj
    case ConfigObj(config) => StepOut(NextStep(), s.UpdateObject(ConfigObj(config.ResetStatus())), log)
    case _ => StepOut(Panic, s, log)
  }

  method SetConfigPhase(ctx: Context, ctrl: Controller, phase: string) returns (ret: StepReturn)
    requires ctx.ConfigCtx?
    modifies ctx.Repr()
    ensures ctx.Repr() == old(ctx.Repr())
    ensures StepOut(ret, ctx.Abs(), ctrl.log) == SetConfigPhaseSpec(old(ctx.Abs()), old(ctrl.log), phase)
  {
    var config := ctx.fc.config;
    if config == null {
      return Panic;
    }
    config.SetPhase(phase);
    ret := NextStep();
  }

  method ResetConfigStatus(ctx: Context, ctrl: Controller) returns (ret: StepReturn)
    requires ctx.ConfigCtx?
    modifies ctx.Repr()
    ensures ctx.Repr() == old(ctx.Repr())
    ensures StepOut(ret, ctx.Abs(), ctrl.log) == ResetConfigStatusSpec(old(ctx.Abs()), old(ctrl.log))
  {
    var config := ctx.fc.config;
    if config == null {
      return Panic;
    }
    config.ResetStatus();
    ret := NextStep();
  }

  /**
   * Configure: download the cluster's configuration through the leader,
   * parse the requested document, and upload it only when the two differ.
   */
  function ConfigureSpec(w: World, s: State, log: seq<Call>): (r: StepOut)
    ensures r.state == s
    ensures r.ret.Panic? <==> s.leader.None? || (!s.obj.ConfigObj? && GetCartridgeConfigAnswer(w.cartridgeConfig(|log|, s.leader.value)).Ok?)
    ensures r.ret.Return? ==> r.ret.res.None?
  {
    if s.leader.None? then StepOut(Panic, s, log)
    else
      var l := s.leader.value;
      var log1 := log + [GetCartridgeConfigCall(l.meta.name)];
      var actual := GetCartridgeConfigAnswer(w.cartridgeConfig(|log|, l));
      if actual.Fail? then StepOut(ErrorOf(Some(actual.error)), s, log1)
      else if !s.obj.ConfigObj? then StepOut(Panic, s, log1)
      else
        var desired := w.yaml(s.obj.config.GetData());
        if desired.Fail? then StepOut(ErrorOf(Some(desired.error)), s, log1)
        else if actual.value == desired.value then StepOut(ErrorOf(None), s, log1)
        else
          var log2 := log1 + [ApplyCartridgeConfigCall(l.meta.name, UploadedConfig(desired.value))];
          StepOut(ErrorOf(ApplyCartridgeConfigError(w.applyConfig(|log1|, l, UploadedConfig(desired.value)))), s, log2)
  }

  method Configure(ctx: Context, ctrl: Controller) returns (ret: StepReturn)
    requires ctx.ConfigCtx?
    modifies ctrl
    ensures StepOut(ret, ctx.Abs(), ctrl.log) == ConfigureSpec(ctrl.world, old(ctx.Abs()), old(ctrl.log))
  {
    var leader := ctx.Common().GetLeader();
    if leader.None? {
      return Panic;
    }
    var download := ctrl.GetCartridgeConfig(leader.value);
    var actual := GetCartridgeConfigAnswer(download);
    if actual.Fail? {
      return ErrorOf(Some(actual.error));
    }
    var config := ctx.fc.config;
    if config == null {
      return Panic;
    }
    var desired := ctrl.world.yaml(config.Value().GetData());
    if desired.Fail? {
      return ErrorOf(Some(desired.error));
    }
    if actual.value == desired.value {
      return ErrorOf(None);
    }
    var applied := ctrl.ApplyCartridgeConfig(leader.value, desired.value);
    ret := ErrorOf(ApplyCartridgeConfigError(applied));
  }

  /**
   * The step uploads at most once, only the parsed document (without the
   * reserved sections), only through the leader, and only when it differs
   * from what the cluster reported; the pass goes on exactly when the
   * configurations already agreed or the upload succeeded.
   */
  lemma ConfigureUploadsOnlyDifferences(w: World, s: State, log: seq<Call>)
    requires s.leader.Some? && s.obj.ConfigObj?
    ensures var r := ConfigureSpec(w, s, log);
      var l := s.leader.value;
      var actual := GetCartridgeConfigAnswer(w.cartridgeConfig(|log|, l));
      var desired := w.yaml(s.obj.config.GetData());
      |log| < |r.log| <= |log| + 2 && r.log[..|log| + 1] == log + [GetCartridgeConfigCall(l.meta.name)]
      && (|r.log| == |log| + 2 <==> actual.Ok? && desired.Ok? && actual.value != desired.value)
      && (|r.log| == |log| + 2 ==> r.log[|log| + 1] == ApplyCartridgeConfigCall(l.meta.name, UploadedConfig(desired.value)))
      && (r.ret == NextStep() <==>
            (actual.Ok? && desired.Ok?
             && (actual.value == desired.value
                 || w.applyConfig(|log| + 1, l, UploadedConfig(desired.value)) == Ok(true))))
  {
    var l := s.leader.value;
    var log1 := log + [GetCartridgeConfigCall(l.meta.name)];
    assert log1[..|log| + 1] == log1;
    var r := ConfigureSpec(w, s, log);
    if |r.log| == |log| + 2 {
      assert r.log[..|log| + 1] == log1;
    }
  }

  /** Once the cluster reports the requested configuration, the step changes nothing and the pass goes on. */
  lemma ConfigureIsIdempotent(w: World, s: State, log: seq<Call>)
    requires s.leader.Some? && s.obj.ConfigObj?
    requires w.yaml(s.obj.config.GetData()).Ok?
    requires w.cartridgeConfig(|log|, s.leader.value) == Ok(w.yaml(s.obj.config.GetData()).value)
    ensures var r := ConfigureSpec(w, s, log);
      r.ret == NextStep() && r.log == log + [GetCartridgeConfigCall(s.leader.value.meta.name)]
      && (forall i :: |log| <= i < |r.log| ==> !r.log[i].IsWrite())
  {
    var r := ConfigureSpec(w, s, log);
    assert r.log[|log|] == GetCartridgeConfigCall(s.leader.value.meta.name);
  }
}
