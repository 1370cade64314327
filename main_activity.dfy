/** Model of the decision logic in MainActivity.kt: the record button, the
    screen-capture consent result, the permission callbacks, the output path
    and the observer that reacts to the button action.

    What the activity does to the outside world (intents to the service,
    launched system dialogs, toasts, animations, the preview dialog) is an
    effect appended to `effects`. */
module Activity {
  import opened Optional
  import opened MainViewModel
  import Paths
  import RecordingService

  /** Activity.RESULT_OK */
  const RESULT_OK: int := -1
  const FOREGROUND_SERVICE_MEDIA_PROJECTION: string := "android.permission.FOREGROUND_SERVICE_MEDIA_PROJECTION"
  /** The permissions requestPermissionsIfNecessary checks. */
  const REQUIRED_PERMISSIONS: seq<string> := [FOREGROUND_SERVICE_MEDIA_PROJECTION]

  datatype Icon = IcStop | IcPlay

  datatype UiEffect =
    | SendToService(intent: RecordingService.Intent)  // startForegroundService / startService
    | LaunchScreenCapture                             // screenCaptureLauncher.launch
    | LaunchPermissionRequest(permissions: seq<string>) // permissionLauncher.launch
    | ShowPermissionDenied                            // the "permissions are required" toast
    | AnimateButtonIcon(icon: Icon)
    | StartPulse
    | StopPulse
    | ShowPreviewDialog(outputPath: string)

  /** The intent startScreenRecordingService sends. */
  function StartIntent(resultCode: int, data: RecordingService.CaptureToken, outputPath: string): RecordingService.Intent {
    RecordingService.Intent(Some(RecordingService.ACTION_START), Some(resultCode), Some(data), Some(outputPath))
  }

  /** The intent stopScreenRecording sends. */
  function StopIntent(): RecordingService.Intent {
    RecordingService.Intent(Some(RecordingService.ACTION_STOP), None, None, None)
  }

  /** What the button-action observer does with an action it receives. */
  function Reaction(action: ButtonAction, outputPath: string): (r: seq<UiEffect>)
    ensures |r| == (if action == ActionStart then 2 else 3)
    ensures r[0] == AnimateButtonIcon(if action == ActionStart then IcStop else IcPlay)
    ensures StartPulse in r <==> action == ActionStart
    ensures StopPulse in r <==> action == ActionStop
    ensures ShowPreviewDialog(outputPath) in r <==> action == ActionStop
  {
    match action
    case ActionStart => [AnimateButtonIcon(IcStop), StartPulse]
    case ActionStop => [AnimateButtonIcon(IcPlay), StopPulse, ShowPreviewDialog(outputPath)]
  }

  /** getOutputPath as the activity evaluates it. `appMoviesDir` is what
      getExternalFilesDir(DIRECTORY_MOVIES) answers, or None when the activity
      has no base context yet, in which case that call throws; the public
      movies directory needs no context. */
  function OutputPathWithContext(sdk: int, appMoviesDir: Option<string>, publicMoviesDir: string): (r: Option<string>)
    ensures r.None? <==> sdk <= Paths.SDK_Q && appMoviesDir.None?
    ensures appMoviesDir.Some? ==> r == Some(Paths.RecordingOutputPath(sdk, appMoviesDir.value, publicMoviesDir))
    ensures r.Some? ==> r.value == Paths.RecordingOutputPath(sdk, appMoviesDir.GetOr(""), publicMoviesDir)
  {
    if sdk <= Paths.SDK_Q then
      if appMoviesDir.None? then None else Some(Paths.RecordingOutputPath(sdk, appMoviesDir.value, publicMoviesDir))
    else Some(Paths.RecordingOutputPath(sdk, "", publicMoviesDir))
  }

  /** `recordOutputPath` is initialised while the activity is constructed,
      before it has a context: the path cannot be built up to Android 10,
      only after it. */
  lemma OutputPathInInitializer(sdk: int, publicMoviesDir: string)
    ensures OutputPathWithContext(sdk, None, publicMoviesDir).None? <==> sdk <= Paths.SDK_Q
  {
  }

  /** Evaluated once the activity has its context (in onCreate), the path
      always exists, names the recording file and lies in the directory the
      platform version selects. */
  lemma OutputPathOnceAttached(sdk: int, appMoviesDir: string, publicMoviesDir: string)
    ensures OutputPathWithContext(sdk, Some(appMoviesDir), publicMoviesDir).Some?
    ensures Paths.BaseName(OutputPathWithContext(sdk, Some(appMoviesDir), publicMoviesDir).value)
      == Paths.RECORDING_FILE_NAME
    ensures Paths.Parent(OutputPathWithContext(sdk, Some(appMoviesDir), publicMoviesDir).value)
      == Some(if sdk <= Paths.SDK_Q then appMoviesDir else publicMoviesDir)
  {
    Paths.OutputPathShape(sdk, appMoviesDir, publicMoviesDir);
  }

  /** `permissions.all { it.value }` over the permission callback's entries. */
  function AllGranted(results: seq<(string, bool)>): (r: bool)
    ensures r <==> forall i :: 0 <= i < |results| ==> results[i].1
  {
    if results == [] then true else results[0].1 && AllGranted(results[1..])
  }

  /** `requiredPermissions.filter { checkSelfPermission(it) != GRANTED }`,
      `granted` being the permissions the system reports as granted. */
  function MissingPermissions(required: seq<string>, granted: set<string>): (missing: seq<string>)
    ensures |missing| <= |required|
    ensures forall p :: p in missing <==> p in required && p !in granted
  {
    if required == [] then []
    else if required[0] in granted then MissingPermissions(required[1..], granted)
    else [required[0]] + MissingPermissions(required[1..], granted)
  }

  class MainActivity {
    const viewModel: MainActivityViewModel
    /** recordOutputPath, fixed when the activity is created. */
    const recordOutputPath: string
    /** Number of action writes that precede the observer's subscription,
        less the current value, which a new observer receives at once. */
    const observedFrom: nat
    /** The actions delivered to the observer subscribeObservers registered. */
    var observed: seq<ButtonAction>
    var effects: seq<UiEffect>

    ghost predicate Valid()
      reads this, viewModel
    {
      && viewModel.Valid()
      && observedFrom <= |viewModel.actionWrites|
      && (viewModel.actionWrites != [] ==> observedFrom < |viewModel.actionWrites|)
      && observed == DistinctUntilChanged(None, viewModel.actionWrites[observedFrom..])
    }

    /** Creation: the output path is chosen (as OutputPathWithContext gives it
        once the context is attached), the observer subscribes to the (possibly
        retained) view model and receives its current action, if any. */
    constructor (sdk: int, appMoviesDir: string, publicMoviesDir: string, vm: MainActivityViewModel)
      requires vm.Valid()
      ensures Valid() && viewModel == vm
      ensures recordOutputPath == Paths.RecordingOutputPath(sdk, appMoviesDir, publicMoviesDir)
      ensures observed == (if vm.actionWrites == [] then [] else [vm.actionWrites[|vm.actionWrites| - 1]])
      ensures effects == (if vm.actionWrites == [] then []
                          else Reaction(vm.actionWrites[|vm.actionWrites| - 1], recordOutputPath))
    {
      viewModel := vm;
      var path := Paths.RecordingOutputPath(sdk, appMoviesDir, publicMoviesDir);
      recordOutputPath := path;
      var writes := vm.actionWrites;
      if writes == [] {
        observedFrom := 0;
        observed := [];
        effects := [];
      } else {
        observedFrom := |writes| - 1;
        observed := [writes[|writes| - 1]];
        effects := Reaction(writes[|writes| - 1], path);
        assert writes[|writes| - 1..] == [writes[|writes| - 1]];
      }
    }

    /** `viewModel.setScreenRecordButtonAction(action)`, including the
        synchronous delivery to the distinct-until-changed observer. */
    method SetButtonAction(action: ButtonAction)
      requires Valid()
      modifies this`observed, this`effects, viewModel
      ensures Valid()
      ensures viewModel.screenRecordButtonAction == Some(action)
      ensures viewModel.actionWrites == old(viewModel.actionWrites) + [action]
      ensures viewModel.statusBarColor == ColorFor(action)
      ensures viewModel.time == old(viewModel.time)
      ensures effects == old(effects) +
        (if old(viewModel.screenRecordButtonAction) == Some(action) then [] else Reaction(action, recordOutputPath))
    {
      ghost var before := viewModel.actionWrites[observedFrom..];
      ghost var previous := viewModel.screenRecordButtonAction;
      assert LastPassed(None, before) == previous;
      var changed := viewModel.screenRecordButtonAction != Some(action);
      viewModel.SetScreenRecordButtonAction(action);
      assert viewModel.actionWrites[observedFrom..] == before + [action];
      DistinctAppend(None, before, action);
      if changed {
        observed := observed + [action];
        effects := effects + Reaction(action, recordOutputPath);
      }
    }

    /** The record button's click handler: while recording it stops the
        service and sets STOP; otherwise it only asks for capture consent. */
    method OnRecordButtonClick()
      requires Valid()
      modifies this`observed, this`effects, viewModel
      ensures Valid()
      ensures old(viewModel.screenRecordButtonAction) == Some(ActionStart) ==>
        && viewModel.screenRecordButtonAction == Some(ActionStop)
        && viewModel.actionWrites == old(viewModel.actionWrites) + [ActionStop]
        && effects == old(effects) + [SendToService(StopIntent())] + Reaction(ActionStop, recordOutputPath)
      ensures old(viewModel.screenRecordButtonAction) != Some(ActionStart) ==>
        && viewModel.screenRecordButtonAction == old(viewModel.screenRecordButtonAction)
        && viewModel.actionWrites == old(viewModel.actionWrites)
        && viewModel.statusBarColor == old(viewModel.statusBarColor)
        && observed == old(observed)
        && effects == old(effects) + [LaunchScreenCapture]
      ensures viewModel.time == old(viewModel.time)
    {
      match viewModel.screenRecordButtonAction {
        case Some(ActionStart) =>
          effects := effects + [SendToService(StopIntent())];
          SetButtonAction(ActionStop);
        case _ =>
          effects := effects + [LaunchScreenCapture];
      }
    }

    /** The screen-capture launcher's callback: only RESULT_OK with data starts
        the service (with the path the preview dialog later gets) and sets START. */
    method OnScreenCaptureResult(resultCode: int, data: Option<RecordingService.CaptureToken>)
      requires Valid()
      modifies this`observed, this`effects, viewModel
      ensures Valid()
      ensures resultCode == RESULT_OK && data.Some? ==>
        && viewModel.screenRecordButtonAction == Some(ActionStart)
        && viewModel.actionWrites == old(viewModel.actionWrites) + [ActionStart]
        && effects == old(effects) + [SendToService(StartIntent(resultCode, data.value, recordOutputPath))]
             + (if old(viewModel.screenRecordButtonAction) == Some(ActionStart) then []
                else Reaction(ActionStart, recordOutputPath))
      ensures !(resultCode == RESULT_OK && data.Some?) ==>
        && viewModel.screenRecordButtonAction == old(viewModel.screenRecordButtonAction)
        && viewModel.actionWrites == old(viewModel.actionWrites)
        && viewModel.statusBarColor == old(viewModel.statusBarColor)
        && observed == old(observed) && effects == old(effects)
      ensures viewModel.time == old(viewModel.time)
    {
      if resultCode == RESULT_OK && data.Some? {
        effects := effects + [SendToService(StartIntent(resultCode, data.value, recordOutputPath))];
        SetButtonAction(ActionStart);
      }
    }

    /** The multiple-permissions callback: capture consent is requested only
        when every permission was granted. */
    method OnPermissionsResult(results: seq<(string, bool)>)
      modifies this`effects
      ensures (forall i :: 0 <= i < |results| ==> results[i].1) ==> effects == old(effects) + [LaunchScreenCapture]
      ensures (exists i :: 0 <= i < |results| && !results[i].1) ==> effects == old(effects) + [ShowPermissionDenied]
    {
      if AllGranted(results) {
        effects := effects + [LaunchScreenCapture];
      } else {
        effects := effects + [ShowPermissionDenied];
      }
    }

    /** requestPermissionsIfNecessary: asks for exactly the required permissions
        not yet granted, or goes straight to capture consent when there are none. */
    method RequestPermissionsIfNecessary(granted: set<string>)
      modifies this`effects
      ensures (forall p :: p in REQUIRED_PERMISSIONS ==> p in granted) ==>
        effects == old(effects) + [LaunchScreenCapture]
      ensures (exists p :: p in REQUIRED_PERMISSIONS && p !in granted) ==>
        && |effects| == |old(effects)| + 1
        && effects[..|old(effects)|] == old(effects)
        && effects[|old(effects)|].LaunchPermissionRequest?
        && (forall p :: p in effects[|old(effects)|].permissions <==> p in REQUIRED_PERMISSIONS && p !in granted)
    {
      var missing := MissingPermissions(REQUIRED_PERMISSIONS, granted);
      if missing != [] {
        effects := effects + [LaunchPermissionRequest(missing)];
      } else {
        effects := effects + [LaunchScreenCapture];
      }
    }
  }
}
