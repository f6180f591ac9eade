/** The setup state machine of the container preview: the flags that guard a
    setup run, the progress step and loading flags it publishes, the runtime
    calls it makes, and the `server-ready` handlers it leaves registered. The
    runtime is an input: what the `package.json` probe returns, whether each
    awaited primitive rejects, and the install exit code. */
module ContainerSetup {
  import opened Wrappers
  import opened TemplateTree

  datatype LoadingState = LoadingState(transforming: bool, mounting: bool, installing: bool, starting: bool, ready: bool)

  const AllIdle := LoadingState(false, false, false, false, false)

  /** What `instance.fs.readFile("package.json", "utf8")` does. */
  datatype Probe = ProbeThrows | ProbeRead(text: string)

  /** What the runtime does during one setup run. */
  datatype Runtime = Runtime(probe: Probe, mount: Outcome, spawnInstall: Outcome, installExit: int, spawnStart: Outcome)

  /** A call into the runtime: mounting the transformed template, or spawning a process. */
  datatype RuntimeCall = Mount(template: TemplateFolder) | Spawn(command: string, args: seq<string>)

  const InstallCall := Spawn("npm", ["install"])
  const StartCall := Spawn("npm", ["run", "start"])

  /** A registered `server-ready` handler: the one the reattach path leaves, or
      the one a cold start leaves (`notify` when an `onServerReady` was passed). */
  datatype Listener = Reattached | Started(notify: bool)

  /** A progress snapshot: the step and loading flags a stage publishes. */
  datatype Progress = Progress(step: int, loading: LoadingState)

  datatype Preview = Preview(
    isSetupComplete: bool,
    isSetupInProgress: bool,
    currentStep: int,
    loading: LoadingState,
    previewUrl: string,
    setupError: Option<string>,
    listeners: seq<Listener>,    // server-ready handlers, in registration order
    calls: seq<RuntimeCall>,     // runtime calls, in call order
    stages: seq<Progress>,       // stage snapshots, in order
    notified: seq<string>)       // urls handed to onServerReady, in order

  const Initial := Preview(false, false, 0, AllIdle, "", None, [], [], [], [])

  // ------------------------------------------------------------ error message

  function DigitChar(d: nat): char
    requires d < 10
  {
    "0123456789"[d]
  }

  /** The decimal rendering of a number, as a template literal prints it. */
  function NatToString(n: nat): (s: string)
    ensures 1 <= |s| && (n >= 10 <==> |s| >= 2)
    decreases n
  {
    if n < 10 then [DigitChar(n)] else NatToString(n / 10) + [DigitChar(n % 10)]
  }

  function IntToString(i: int): string {
    if i < 0 then "-" + NatToString(-i) else NatToString(i)
  }

  lemma {:induction false} NatToStringInjective(a: nat, b: nat)
    requires NatToString(a) == NatToString(b)
    ensures a == b
    decreases a
  {
    if a >= 10 {
      var sa, sb := NatToString(a), NatToString(b);
      assert sa[..|sa| - 1] == NatToString(a / 10) && sb[..|sb| - 1] == NatToString(b / 10);
      NatToStringInjective(a / 10, b / 10);
      assert DigitChar(a % 10) == sa[|sa| - 1] == DigitChar(b % 10);
    }
  }

  function InstallFailureMessage(exitCode: int): string {
    "Failed to install dependencies. Exit code: " + IntToString(exitCode)
  }

  lemma IntToStringInjective(a: int, b: int)
    requires IntToString(a) == IntToString(b)
    ensures a == b
  {
    var sa, sb := IntToString(a), IntToString(b);
    if a < 0 && b < 0 {
      assert sa[1..] == NatToString(-a) && sb[1..] == NatToString(-b);
      NatToStringInjective(-a, -b);
    } else if a >= 0 && b >= 0 {
      NatToStringInjective(a, b);
    } else if a < 0 {
      NoMinus(b);
    } else {
      NoMinus(a);
    }
  }

  /** The error raised for a failed install carries the exit code: different
      codes give different messages. */
  lemma InstallFailureCarriesCode(a: int, b: int)
    requires InstallFailureMessage(a) == InstallFailureMessage(b)
    ensures a == b
  {
    var prefix := "Failed to install dependencies. Exit code: ";
    assert (prefix + IntToString(a))[|prefix|..] == IntToString(a);
    assert (prefix + IntToString(b))[|prefix|..] == IntToString(b);
    IntToStringInjective(a, b);
  }

  lemma {:induction false} NoMinus(n: nat)
    ensures '-' !in NatToString(n)
    decreases n
  {
    if n >= 10 { NoMinus(n / 10); }
  }

  // ------------------------------------------------------------ transitions

  /** The `forceResetup` effect. */
  function ForceReset(p: Preview, forceResetup: bool): (r: Preview)
    ensures !forceResetup ==> r == p
    ensures forceResetup ==>
      && !r.isSetupComplete && !r.isSetupInProgress
      && r.previewUrl == "" && r.currentStep == 0 && r.loading == AllIdle
      && r.setupError == p.setupError && r.listeners == p.listeners && r.calls == p.calls
      && r.stages == p.stages && r.notified == p.notified
  {
    if forceResetup then
      p.(isSetupComplete := false, isSetupInProgress := false, previewUrl := "", currentStep := 0, loading := AllIdle)
    else p
  }

  /** The template effect: a template with at least one item clears the two
      guard flags, and only them. */
  function TemplateChanged(p: Preview, templateData: TemplateFolder): (r: Preview)
    ensures |templateData.items| > 0 ==> r == p.(isSetupComplete := false, isSetupInProgress := false)
    ensures |templateData.items| == 0 ==> r == p
  {
    if |templateData.items| > 0 then p.(isSetupComplete := false, isSetupInProgress := false) else p
  }

  /** The loading flags of cold-path stage `k`, merged into the previous ones. */
  function StageLoading(l: LoadingState, k: int): LoadingState {
    if k == 1 then l.(transforming := true)
    else if k == 2 then l.(transforming := false, mounting := true)
    else if k == 3 then l.(mounting := false, installing := true)
    else l.(installing := false, starting := true)
  }

  /** Entering cold-path stage `k`. */
  function Advance(p: Preview, k: int): (r: Preview)
    ensures r.currentStep == k && r.stages == p.stages + [Progress(k, r.loading)]
    ensures r.calls == p.calls && r.listeners == p.listeners
  {
    var l := StageLoading(p.loading, k);
    p.(currentStep := k, loading := l, stages := p.stages + [Progress(k, l)])
  }

  /** The `catch` of a setup run: the error is published, the run is no longer in
      progress, every loading flag is cleared; the step stays where it was. */
  function Failed(p: Preview, message: string): (r: Preview)
    ensures r.setupError == Some(message) && !r.isSetupInProgress && r.loading == AllIdle
    ensures r.isSetupComplete == p.isSetupComplete && r.currentStep == p.currentStep && r.previewUrl == p.previewUrl
    ensures r.listeners == p.listeners && r.calls == p.calls && r.stages == p.stages && r.notified == p.notified
  {
    p.(setupError := Some(message), isSetupInProgress := false, loading := AllIdle)
  }

  /** Every awaited step from the install on succeeds. */
  predicate InstallRunPasses(rt: Runtime) {
    rt.spawnInstall.Pass? && rt.installExit == 0 && rt.spawnStart.Pass?
  }

  /** The cold path: transform, mount, install, start. The mount is the first
      runtime call; a run that passes every step leaves one cold-start handler,
      and any failing step ends the run with an error and no new handler. */
  function ColdPath(p: Preview, templateData: TemplateFolder, rt: Runtime, notify: bool): (r: Preview)
    ensures |p.calls| < |r.calls| && r.calls[|p.calls|] == Mount(templateData)
    ensures rt.mount.Pass? && InstallRunPasses(rt) ==>
      r.listeners == p.listeners + [Started(notify)] && r.currentStep == 4 && r.setupError == p.setupError
    ensures !(rt.mount.Pass? && InstallRunPasses(rt)) ==>
      r.listeners == p.listeners && r.setupError.Some? && !r.isSetupInProgress && r.loading == AllIdle
  {
    var transforming := Advance(p, 1);
    var mounting := Advance(transforming, 2);
    var mounted := mounting.(calls := mounting.calls + [Mount(templateData)]);
    if rt.mount.Fail? then Failed(mounted, rt.mount.message)
    else InstallAndStart(Advance(mounted, 3), rt, notify)
  }

  /** The cold path from step 3 on: install, check the exit code, start. The
      install is spawned first; the start is spawned exactly when the install
      was spawned and exited with code 0. */
  function InstallAndStart(p: Preview, rt: Runtime, notify: bool): (r: Preview)
    ensures r.calls == p.calls + (if rt.spawnInstall.Pass? && rt.installExit == 0 then [InstallCall, StartCall] else [InstallCall])
    ensures InstallRunPasses(rt) ==>
      r.listeners == p.listeners + [Started(notify)] && r.currentStep == 4 && r.setupError == p.setupError
    ensures !InstallRunPasses(rt) ==>
      r.listeners == p.listeners && r.setupError.Some? && !r.isSetupInProgress && r.loading == AllIdle
  {
    var spawned := p.(calls := p.calls + [InstallCall]);
    if rt.spawnInstall.Fail? then Failed(spawned, rt.spawnInstall.message)
    else if rt.installExit != 0 then Failed(spawned, InstallFailureMessage(rt.installExit))
    else
      var starting := Advance(spawned, 4);
      var started := starting.(calls := starting.calls + [StartCall]);
      assert started.calls == p.calls + [InstallCall, StartCall];
      if rt.spawnStart.Fail? then Failed(started, rt.spawnStart.message)
      else started.(listeners := started.listeners + [Started(notify)])
  }

  /** The package.json probe found content: the files are taken to be mounted. */
  predicate Reattaches(rt: Runtime) {
    rt.probe.ProbeRead? && rt.probe.text != ""
  }

  /** The guard of `setupContainer`. */
  predicate SetupAdmitted(p: Preview, hasInstance: bool) {
    hasInstance && !p.isSetupComplete && !p.isSetupInProgress
  }

  /** One invocation of `setupContainer`. */
  function Setup(p: Preview, hasInstance: bool, templateData: TemplateFolder, rt: Runtime, notify: bool): (r: Preview)
    ensures !SetupAdmitted(p, hasInstance) ==> r == p
    ensures |p.calls| <= |r.calls| && r.calls[..|p.calls|] == p.calls && r.notified == p.notified
  {
    if !SetupAdmitted(p, hasInstance) then p
    else
      var running := p.(isSetupInProgress := true, setupError := None);
      if Reattaches(rt) then
        var attached := running.(listeners := running.listeners + [Reattached]);
        var l := attached.loading.(starting := true);
        attached.(currentStep := 4, loading := l, stages := attached.stages + [Progress(4, l)])
      else ColdPath(running, templateData, rt, notify)
  }

  /** One `server-ready` handler running: the url is shown and the server is
      ready; only a cold-start handler completes the setup and notifies. */
  function Fire(p: Preview, l: Listener, url: string): (r: Preview)
    ensures r.previewUrl == url && r.loading == p.loading.(starting := false, ready := true)
    ensures r.isSetupComplete == (p.isSetupComplete || l.Started?)
    ensures r.isSetupInProgress == (p.isSetupInProgress && l.Reattached?)
    ensures r.notified == p.notified + (if l == Started(true) then [url] else [])
    ensures r.listeners == p.listeners && r.calls == p.calls && r.stages == p.stages
    ensures r.currentStep == p.currentStep && r.setupError == p.setupError
  {
    var shown := p.(previewUrl := url, loading := p.loading.(starting := false, ready := true));
    match l
    case Reattached => shown
    case Started(notify) =>
      shown.(isSetupComplete := true, isSetupInProgress := false,
             notified := if notify then shown.notified + [url] else shown.notified)
  }

  /** Every handler in `ls` running, in order. */
  function FireAll(p: Preview, ls: seq<Listener>, url: string): (r: Preview)
    ensures r.listeners == p.listeners && r.calls == p.calls && r.stages == p.stages
    ensures ls != [] ==> r.previewUrl == url && r.loading.ready && !r.loading.starting
    decreases |ls|
  {
    if ls == [] then p else Fire(FireAll(p, ls[..|ls| - 1], url), ls[|ls| - 1], url)
  }

  /** A `server-ready` event from the runtime: every handler ever registered runs. */
  function ServerReady(p: Preview, url: string): (r: Preview)
    ensures r.listeners == p.listeners && r.calls == p.calls && r.stages == p.stages
    ensures p.listeners == [] ==> r == p
    ensures p.listeners != [] ==> r.previewUrl == url && r.loading.ready && !r.loading.starting
  {
    FireAll(p, p.listeners, url)
  }

  // ------------------------------------------------------------ step display

  datatype StepIcon = CheckCircle | Spinner | Circle

  /** `getStepIcon`. */
  function GetStepIcon(stepIndex: int, currentStep: int): (r: StepIcon)
    ensures r == CheckCircle <==> stepIndex < currentStep
    ensures r == Spinner <==> stepIndex == currentStep
    ensures r == Circle <==> stepIndex > currentStep
  {
    if stepIndex < currentStep then CheckCircle
    else if stepIndex == currentStep then Spinner
    else Circle
  }

  /** The colour class `getStepText` gives a label. */
  function GetStepTextClass(stepIndex: int, currentStep: int): (r: string)
    ensures r == "text-green-600" <==> stepIndex < currentStep
    ensures r == "text-blue-600" <==> stepIndex == currentStep
    ensures r == "text-gray-500" <==> stepIndex > currentStep
  {
    var isActive := stepIndex == currentStep;
    var isComplete := stepIndex < currentStep;
    if isComplete then "text-green-600" else if isActive then "text-blue-600" else "text-gray-500"
  }

  // ------------------------------------------------------------ properties

  /** The four stage flags of a loading state. */
  function StageFlags(l: LoadingState): seq<bool> {
    [l.transforming, l.mounting, l.installing, l.starting]
  }

  predicate NoStageFlag(l: LoadingState) {
    !l.transforming && !l.mounting && !l.installing && !l.starting
  }

  /** Stage `k` (1 to 4) is the one stage flag that is set. */
  predicate OnlyStage(l: LoadingState, k: int)
    requires 1 <= k <= 4
  {
    forall j :: 0 <= j < 4 ==> StageFlags(l)[j] == (j == k - 1)
  }

  /** The reattach path: step 4 with `starting` set, no mount, no spawn; the run
      stays in progress and is not complete. */
  lemma ReattachSkipsColdPath(p: Preview, hasInstance: bool, templateData: TemplateFolder, rt: Runtime, notify: bool)
    requires SetupAdmitted(p, hasInstance) && Reattaches(rt)
    ensures var r := Setup(p, hasInstance, templateData, rt, notify);
      && r.calls == p.calls
      && r.currentStep == 4 && r.loading == p.loading.(starting := true)
      && r.isSetupInProgress && !r.isSetupComplete && r.setupError == None
      && r.listeners == p.listeners + [Reattached]
  {
  }

  /** A probe that throws, or reads nothing, leads to the cold path: the error is swallowed. */
  lemma ProbeFailureRunsColdPath(p: Preview, hasInstance: bool, templateData: TemplateFolder, rt: Runtime, notify: bool)
    requires SetupAdmitted(p, hasInstance) && !Reattaches(rt)
    ensures var r := Setup(p, hasInstance, templateData, rt, notify);
      |r.calls| > |p.calls| && r.calls[|p.calls|] == Mount(templateData) && r.stages[|p.stages|].step == 1
  {
  }

  /** A cold run with no failure: one mount, one install, one start, in that
      order; step 4 with `starting` set; still in progress until the server is
      ready; one handler registered. */
  lemma ColdPathSucceeds(p: Preview, hasInstance: bool, templateData: TemplateFolder, rt: Runtime, notify: bool)
    requires SetupAdmitted(p, hasInstance) && !Reattaches(rt)
    requires rt.mount.Pass? && rt.spawnInstall.Pass? && rt.installExit == 0 && rt.spawnStart.Pass?
    ensures var r := Setup(p, hasInstance, templateData, rt, notify);
      && r.calls == p.calls + [Mount(templateData), InstallCall, StartCall]
      && r.currentStep == 4 && r.loading.starting && !r.loading.installing
      && r.isSetupInProgress && !r.isSetupComplete && r.setupError == None
      && r.listeners == p.listeners + [Started(notify)]
      && |r.stages| == |p.stages| + 4
      && forall k :: |p.stages| <= k < |r.stages| ==> r.stages[k].step == k - |p.stages| + 1
  {
  }

  /** A non-zero install exit code: the error carries the code, the start process
      is never spawned, the run stops being in progress, every loading flag is
      cleared, and the step stays at 3 (installing). */
  lemma InstallFailureAborts(p: Preview, hasInstance: bool, templateData: TemplateFolder, rt: Runtime, notify: bool)
    requires SetupAdmitted(p, hasInstance) && !Reattaches(rt)
    requires rt.mount.Pass? && rt.spawnInstall.Pass? && rt.installExit != 0
    ensures var r := Setup(p, hasInstance, templateData, rt, notify);
      && r.calls == p.calls + [Mount(templateData), InstallCall]
      && StartCall !in r.calls[|p.calls|..]
      && r.setupError == Some(InstallFailureMessage(rt.installExit))
      && !r.isSetupInProgress && !r.isSetupComplete && r.loading == AllIdle
      && r.currentStep == 3 && r.listeners == p.listeners
  {
    var r := Setup(p, hasInstance, templateData, rt, notify);
    assert r.calls[|p.calls|..] == [Mount(templateData), InstallCall];
  }

  /** Whatever fails, the failure looks the same: the error is set, nothing is
      in progress or loading, and the step is the one the failing stage entered. */
  lemma FailureShape(p: Preview, hasInstance: bool, templateData: TemplateFolder, rt: Runtime, notify: bool)
    requires SetupAdmitted(p, hasInstance)
    ensures var r := Setup(p, hasInstance, templateData, rt, notify);
      r.setupError.Some? ==>
        && !r.isSetupInProgress && !r.isSetupComplete && r.loading == AllIdle
        && |r.stages| > |p.stages| && r.currentStep == r.stages[|r.stages| - 1].step
        && r.listeners == p.listeners
  {
  }

  /** The four snapshots the cold path publishes, from loading flags `l`. */
  function ColdSnapshots(l: LoadingState): (r: seq<Progress>)
    ensures |r| == 4 && forall k :: 0 <= k < 4 ==> r[k].step == k + 1
  {
    var l1 := StageLoading(l, 1);
    var l2 := StageLoading(l1, 2);
    var l3 := StageLoading(l2, 3);
    var l4 := StageLoading(l3, 4);
    [Progress(1, l1), Progress(2, l2), Progress(3, l3), Progress(4, l4)]
  }

  /** A cold run publishes a non-empty prefix of the four snapshots, and stops
      early only on a failure. */
  lemma ColdStagesArePrefix(p: Preview, hasInstance: bool, templateData: TemplateFolder, rt: Runtime, notify: bool)
    requires SetupAdmitted(p, hasInstance) && !Reattaches(rt)
    ensures var r := Setup(p, hasInstance, templateData, rt, notify);
      && |p.stages| + 2 <= |r.stages| <= |p.stages| + 4
      && r.stages == p.stages + ColdSnapshots(p.loading)[..|r.stages| - |p.stages|]
      && (|r.stages| < |p.stages| + 4 ==> r.setupError.Some?)
  {
    var snaps := ColdSnapshots(p.loading);
    var running := p.(isSetupInProgress := true, setupError := None);
    var s2 := Advance(Advance(running, 1), 2);
    assert s2.stages == p.stages + snaps[..2];
    var s3 := Advance(s2, 3);
    assert s3.stages == p.stages + snaps[..3];
    var s4 := Advance(s3, 4);
    assert s4.stages == p.stages + snaps[..4];
  }

  /** From no stage flag, each of the four snapshots shows exactly its own flag. */
  lemma ColdSnapshotsShowOneFlag(l: LoadingState)
    requires NoStageFlag(l)
    ensures forall k :: 0 <= k < 4 ==> OnlyStage(ColdSnapshots(l)[k].loading, k + 1)
  {
  }

  /** Starting from no stage flag, each cold-path stage shows exactly its own flag. */
  lemma ColdStagesShowOneFlag(p: Preview, hasInstance: bool, templateData: TemplateFolder, rt: Runtime, notify: bool)
    requires SetupAdmitted(p, hasInstance) && !Reattaches(rt) && NoStageFlag(p.loading)
    ensures var r := Setup(p, hasInstance, templateData, rt, notify);
      forall k :: |p.stages| <= k < |r.stages| ==>
        1 <= r.stages[k].step <= 4 && r.stages[k].step == k - |p.stages| + 1 &&
        OnlyStage(r.stages[k].loading, r.stages[k].step)
  {
    var r := Setup(p, hasInstance, templateData, rt, notify);
    ColdStagesArePrefix(p, hasInstance, templateData, rt, notify);
    ColdSnapshotsShowOneFlag(p.loading);
    var snaps := ColdSnapshots(p.loading);
    forall k | |p.stages| <= k < |r.stages|
      ensures r.stages[k] == snaps[k - |p.stages|]
    {
    }
  }

  /** Left-over stage flags are merged, not cleared: a cold run that starts with
      `starting` still set (after a reattach) shows two stages at once. */
  lemma ColdStagesKeepStaleFlags(p: Preview, hasInstance: bool, templateData: TemplateFolder, rt: Runtime, notify: bool)
    requires SetupAdmitted(p, hasInstance) && !Reattaches(rt) && p.loading.starting
    ensures var r := Setup(p, hasInstance, templateData, rt, notify);
      r.stages[|p.stages|].loading.transforming && r.stages[|p.stages|].loading.starting
  {
  }

  /** The runs a host makes in a row. */
  datatype Invocation = Invocation(hasInstance: bool, templateData: TemplateFolder, rt: Runtime, notify: bool)

  function SetupAll(p: Preview, runs: seq<Invocation>): Preview
    decreases |runs|
  {
    if runs == [] then p
    else SetupAll(Setup(p, runs[0].hasInstance, runs[0].templateData, runs[0].rt, runs[0].notify), runs[1..])
  }

  /** Idempotence: once a run is in progress or complete, any number of further
      invocations changes nothing, so no second mount, install or start happens. */
  lemma {:induction false} SetupIdempotent(p: Preview, runs: seq<Invocation>)
    requires p.isSetupInProgress || p.isSetupComplete
    ensures SetupAll(p, runs) == p
    decreases |runs|
  {
    if runs != [] {
      SetupIdempotent(p, runs[1..]);
    }
  }

  /** A run that does not fail leaves the machine in progress: N invocations in a
      row make exactly the calls of the first one. */
  lemma RepeatedSetupCallsOnce(p: Preview, first: Invocation, more: seq<Invocation>)
    requires SetupAdmitted(p, first.hasInstance)
    requires Setup(p, first.hasInstance, first.templateData, first.rt, first.notify).setupError == None
    ensures SetupAll(p, [first] + more) == Setup(p, first.hasInstance, first.templateData, first.rt, first.notify)
  {
    var r := Setup(p, first.hasInstance, first.templateData, first.rt, first.notify);
    assert r.isSetupInProgress;
    assert ([first] + more)[1..] == more;
    SetupIdempotent(r, more);
  }

  /** A failed run leaves the guard open: the next invocation starts a new run. */
  lemma FailureAdmitsRetry(p: Preview, hasInstance: bool, templateData: TemplateFolder, rt: Runtime, notify: bool)
    requires SetupAdmitted(p, hasInstance)
    requires Setup(p, hasInstance, templateData, rt, notify).setupError.Some?
    ensures SetupAdmitted(Setup(p, hasInstance, templateData, rt, notify), hasInstance)
  {
  }

  /** A forced reset opens the guard whatever the state was. */
  lemma ForceResetAdmitsSetup(p: Preview)
    ensures SetupAdmitted(ForceReset(p, true), true)
  {
  }

  /** Firing handlers only ever moves the url, the ready flags and, for a
      cold-start handler, the guard flags and the notifications. */
  lemma {:induction false} FireAllShape(p: Preview, ls: seq<Listener>, url: string)
    ensures var r := FireAll(p, ls, url);
      && r.calls == p.calls && r.listeners == p.listeners && r.stages == p.stages
      && r.currentStep == p.currentStep && r.setupError == p.setupError
      && (ls != [] ==> r.previewUrl == url && !r.loading.starting && r.loading.ready)
      && (ls == [] ==> r == p)
      && ((forall i :: 0 <= i < |ls| ==> ls[i] == Reattached) ==>
            r.isSetupComplete == p.isSetupComplete && r.isSetupInProgress == p.isSetupInProgress
            && r.notified == p.notified)
      && ((exists i :: 0 <= i < |ls| && ls[i].Started?) ==> r.isSetupComplete && !r.isSetupInProgress)
    decreases |ls|
  {
    if ls != [] {
      var init := ls[..|ls| - 1];
      FireAllShape(p, init, url);
      if exists i :: 0 <= i < |ls| && ls[i].Started? {
        var i :| 0 <= i < |ls| && ls[i].Started?;
        if i < |ls| - 1 {
          assert init[i].Started?;
        }
      }
    }
  }

  /** The handler a cold start registered completes the setup when the server is
      ready; the reattach handler alone never does. */
  lemma ServerReadyCompletesOnlyColdStart(p: Preview, url: string)
    requires p.listeners != []
    ensures var r := ServerReady(p, url);
      && r.previewUrl == url && r.loading.ready && !r.loading.starting
      && ((exists i :: 0 <= i < |p.listeners| && p.listeners[i].Started?) ==> r.isSetupComplete && !r.isSetupInProgress)
      && ((forall i :: 0 <= i < |p.listeners| ==> p.listeners[i] == Reattached) ==>
            r.isSetupComplete == p.isSetupComplete && r.isSetupInProgress == p.isSetupInProgress)
  {
    FireAllShape(p, p.listeners, url);
  }

  /** `onServerReady` receives the url once per cold-start handler that was given one. */
  lemma {:induction false} ServerReadyNotifies(p: Preview, ls: seq<Listener>, url: string)
    ensures FireAll(p, ls, url).notified == p.notified + seq(CountNotifying(ls), _ => url)
    decreases |ls|
  {
    if ls != [] {
      ServerReadyNotifies(p, ls[..|ls| - 1], url);
      var n := CountNotifying(ls[..|ls| - 1]);
      assert seq(n, _ => url) + [url] == seq(n + 1, _ => url);
    }
  }

  function CountNotifying(ls: seq<Listener>): nat
    decreases |ls|
  {
    if ls == [] then 0
    else CountNotifying(ls[..|ls| - 1]) + (if ls[|ls| - 1] == Started(true) then 1 else 0)
  }

  /** Handlers are never removed: a `server-ready` event after a forced reset
      still runs a cold-start handler and marks the setup complete. */
  lemma StaleServerReadyCompletes(p: Preview, url: string)
    requires exists i :: 0 <= i < |p.listeners| && p.listeners[i].Started?
    ensures ServerReady(ForceReset(p, true), url).isSetupComplete
    ensures ServerReady(ForceReset(p, true), url).previewUrl == url
  {
    FireAllShape(ForceReset(p, true), p.listeners, url);
  }

  /** For the step on screen, the steps before it are complete, it is active,
      and the ones after it are pending; icon and text always agree. */
  lemma StepDisplayAgrees(stepIndex: int, currentStep: int)
    ensures GetStepIcon(stepIndex, currentStep) == CheckCircle <==> GetStepTextClass(stepIndex, currentStep) == "text-green-600"
    ensures GetStepIcon(stepIndex, currentStep) == Spinner <==> GetStepTextClass(stepIndex, currentStep) == "text-blue-600"
    ensures GetStepIcon(stepIndex, currentStep) == Circle <==> GetStepTextClass(stepIndex, currentStep) == "text-gray-500"
  {
  }

  // ------------------------------------------------------------ the component

  /** The component's state, changed by its effects and handlers. */
  class PreviewMachine {
    var isSetupComplete: bool
    var isSetupInProgress: bool
    var currentStep: int
    var loading: LoadingState
    var previewUrl: string
    var setupError: Option<string>
    var listeners: seq<Listener>
    var calls: seq<RuntimeCall>
    var stages: seq<Progress>
    var notified: seq<string>

    function Snapshot(): Preview
      reads this
    {
      Preview(isSetupComplete, isSetupInProgress, currentStep, loading, previewUrl, setupError,
              listeners, calls, stages, notified)
    }

    constructor ()
      ensures Snapshot() == Initial
    {
      isSetupComplete, isSetupInProgress, currentStep, loading := false, false, 0, AllIdle;
      previewUrl, setupError := "", None;
      listeners, calls, stages, notified := [], [], [], [];
    }

    /** The `forceResetup` effect. */
    method ForceResetupEffect(forceResetup: bool)
      modifies this
      ensures Snapshot() == ForceReset(old(Snapshot()), forceResetup)
    {
      if forceResetup {
        isSetupComplete := false;
        isSetupInProgress := false;
        previewUrl := "";
        currentStep := 0;
        loading := AllIdle;
      }
    }

    /** The effect that runs when `templateData` changes. */
    method TemplateDataEffect(templateData: TemplateFolder)
      modifies this
      ensures Snapshot() == TemplateChanged(old(Snapshot()), templateData)
    {
      if |templateData.items| > 0 {
        isSetupComplete := false;
        isSetupInProgress := false;
      }
    }

    method EnterStage(k: int)
      modifies this
      ensures Snapshot() == Advance(old(Snapshot()), k)
    {
      loading := StageLoading(loading, k);
      currentStep := k;
      stages := stages + [Progress(k, loading)];
    }

    method Fail(message: string)
      modifies this
      ensures Snapshot() == Failed(old(Snapshot()), message)
    {
      setupError := Some(message);
      isSetupInProgress := false;
      loading := AllIdle;
    }

    /** `setupContainer`. `hasInstance` is whether a runtime instance exists,
        `rt` what it does, `notify` whether an `onServerReady` was passed. */
    method SetupContainer(hasInstance: bool, templateData: TemplateFolder, rt: Runtime, notify: bool)
      modifies this
      ensures Snapshot() == Setup(old(Snapshot()), hasInstance, templateData, rt, notify)
    {
      if !hasInstance || isSetupComplete || isSetupInProgress {
        return;
      }
      isSetupInProgress := true;
      setupError := None;
      if rt.probe.ProbeRead? && rt.probe.text != "" {
        listeners := listeners + [Reattached];
        currentStep := 4;
        loading := loading.(starting := true);
        stages := stages + [Progress(4, loading)];
        return;
      }
      ColdStart(templateData, rt, notify);
    }

    /** The cold path of `setupContainer`, up to the mount. */
    method ColdStart(templateData: TemplateFolder, rt: Runtime, notify: bool)
      modifies this
      ensures Snapshot() == ColdPath(old(Snapshot()), templateData, rt, notify)
    {
      EnterStage(1);
      EnterStage(2);
      calls := calls + [Mount(templateData)];
      if rt.mount.Fail? {
        Fail(rt.mount.message);
        return;
      }
      EnterStage(3);
      InstallAndServe(rt, notify);
    }

    /** The cold path of `setupContainer` from the install on. */
    method InstallAndServe(rt: Runtime, notify: bool)
      modifies this
      ensures Snapshot() == InstallAndStart(old(Snapshot()), rt, notify)
    {
      calls := calls + [InstallCall];
      if rt.spawnInstall.Fail? {
        Fail(rt.spawnInstall.message);
        return;
      }
      if rt.installExit != 0 {
        Fail(InstallFailureMessage(rt.installExit));
        return;
      }
      EnterStage(4);
      calls := calls + [StartCall];
      if rt.spawnStart.Fail? {
        Fail(rt.spawnStart.message);
        return;
      }
      listeners := listeners + [Started(notify)];
    }

    /** One `server-ready` handler running. */
    method RunHandler(handler: Listener, url: string)
      modifies this
      ensures Snapshot() == Fire(old(Snapshot()), handler, url)
    {
      previewUrl := url;
      loading := loading.(starting := false, ready := true);
      if handler.Started? {
        isSetupComplete := true;
        isSetupInProgress := false;
        if handler.notify {
          notified := notified + [url];
        }
      }
    }

    /** The runtime's `server-ready` event: every registered handler runs, in order. */
    method ServerReadyEvent(url: string)
      modifies this
      ensures Snapshot() == ServerReady(old(Snapshot()), url)
    {
      var handlers := listeners;
      for i := 0 to |handlers|
        invariant listeners == handlers
        invariant Snapshot() == FireAll(old(Snapshot()), handlers[..i], url)
      {
        assert handlers[..i + 1][..i] == handlers[..i];
        RunHandler(handlers[i], url);
      }
      assert handlers[..|handlers|] == handlers;
    }
  }
}
