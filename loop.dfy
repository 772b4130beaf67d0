/** The monitor's frame loop: read a frame, feed the background model,
    classify and annotate, then poll one key ('q' quits, 'r' rebuilds the
    background model). Frames, contours and keys are inputs. */
module Loop {
  import opened Zone
  import opened Annotate

  datatype Option<T> = None | Some(value: T)

  /** The key codes the loop reacts to: ord('q') and ord('r'). */
  const KeyQuit := 113
  const KeyReset := 114

  /** The polled key masked to its low byte, `waitKey(1) & 0xFF`. Dafny's
      `%` is Euclidean, so for every integer, negative ones included, it
      keeps the same low byte as Python's `& 0xFF`; "no key" (-1) becomes 255. */
  function KeyCode(raw: int): (k: int)
    ensures 0 <= k < 256
    ensures (raw - k) % 256 == 0
  {
    raw % 256
  }

  /** The settings the loop uses; the zone is already in pixels. */
  datatype Config = Config(
    history: int, distThreshold: real, detectShadows: bool,
    minContourArea: real, zone: Rect)

  /** The KNN background subtractor, reduced to the parameters it was built
      with, which build of it this is, and how many frames it has absorbed
      since it was built. Its per-pixel statistics are not modelled. */
  datatype BackgroundModel = BackgroundModel(
    history: int, distThreshold: real, detectShadows: bool,
    generation: nat, absorbed: nat)

  /** A subtractor built from the configuration's parameters. */
  function FreshModel(cfg: Config, generation: nat): BackgroundModel
  {
    BackgroundModel(cfg.history, cfg.distThreshold, cfg.detectShadows, generation, 0)
  }

  /** The model was built from the configuration's parameters. */
  predicate BuiltFrom(cfg: Config, m: BackgroundModel)
  {
    m.history == cfg.history && m.distThreshold == cfg.distThreshold &&
    m.detectShadows == cfg.detectShadows
  }

  /** One loop iteration's inputs: whether the camera read succeeded, the
      contours found in the frame's cleaned foreground mask, and the raw
      value of the key poll. */
  datatype FrameInput = FrameInput(readOk: bool, contours: seq<Contour>, rawKey: int)

  /** What a processed frame yields: the flag and the marks drawn on it. */
  datatype FrameReport = FrameReport(motionInBox: bool, marks: seq<Mark>)

  datatype LoopState = LoopState(stopped: bool, model: BackgroundModel, framesProcessed: nat)

  datatype StepResult = StepResult(state: LoopState, report: Option<FrameReport>)

  datatype RunResult = RunResult(state: LoopState, reports: seq<FrameReport>)

  function Initial(cfg: Config): LoopState
  {
    LoopState(false, FreshModel(cfg, 0), 0)
  }

  /** The detection and drawing done for one frame's contours. */
  function ReportOf(cfg: Config, contours: seq<Contour>): (rep: FrameReport)
    ensures rep.motionInBox <==>
      exists c :: c in contours && Survives(c, cfg.minContourArea) && InZone(cfg.zone, Centre(c))
    ensures Banner in rep.marks <==> rep.motionInBox
    ensures forall m :: m in ZoneMarks(cfg.zone) ==> m in rep.marks
  {
    var rs := Classify(contours, cfg.minContourArea, cfg.zone);
    MotionIffSurvivorInZone(contours, cfg.minContourArea, cfg.zone);
    BannerIffMotion(cfg.zone, rs);
    FrameReport(AnyInZone(rs), FrameMarks(cfg.zone, rs))
  }

  /** Whether an input ends the loop: a failed read, or 'q'. */
  predicate Stops(input: FrameInput)
  {
    !input.readOk || KeyCode(input.rawKey) == KeyQuit
  }

  /** One iteration of the running loop. */
  function Next(cfg: Config, s: LoopState, input: FrameInput): (r: StepResult)
    requires !s.stopped
    ensures r.state.stopped <==> Stops(input)
    ensures !input.readOk ==>
      r.state.model == s.model && r.report == None && r.state.framesProcessed == s.framesProcessed
    ensures input.readOk ==>
      r.report == Some(ReportOf(cfg, input.contours)) && r.state.framesProcessed == s.framesProcessed + 1
    ensures input.readOk && KeyCode(input.rawKey) == KeyReset ==>
      r.state.model == Initial(cfg).model.(generation := s.model.generation + 1)
    ensures input.readOk && KeyCode(input.rawKey) != KeyReset ==>
      r.state.model == s.model.(absorbed := s.model.absorbed + 1)
    ensures BuiltFrom(cfg, s.model) ==> BuiltFrom(cfg, r.state.model)
  {
    if !input.readOk then
      StepResult(s.(stopped := true), None)
    else
      var absorbed := s.model.(absorbed := s.model.absorbed + 1);
      var report := ReportOf(cfg, input.contours);
      var key := KeyCode(input.rawKey);
      if key == KeyQuit then
        StepResult(LoopState(true, absorbed, s.framesProcessed + 1), Some(report))
      else if key == KeyReset then
        StepResult(LoopState(false, FreshModel(cfg, absorbed.generation + 1), s.framesProcessed + 1),
                   Some(report))
      else
        StepResult(LoopState(false, absorbed, s.framesProcessed + 1), Some(report))
  }

  /** The loop run over a stream of iteration inputs, until it stops or the
      stream ends, with the reports of the frames it processed. */
  function RunSpec(cfg: Config, s: LoopState, inputs: seq<FrameInput>): RunResult
    decreases |inputs|
  {
    if s.stopped || inputs == [] then RunResult(s, [])
    else
      var step := Next(cfg, s, inputs[0]);
      var rest := RunSpec(cfg, step.state, inputs[1..]);
      RunResult(rest.state, (if step.report.Some? then [step.report.value] else []) + rest.reports)
  }

  /** The index of the first input that stops the loop, or the stream's length. */
  function FirstStop(inputs: seq<FrameInput>): (k: nat)
    ensures k <= |inputs|
    ensures forall i :: 0 <= i < k ==> !Stops(inputs[i])
    ensures k < |inputs| ==> Stops(inputs[k])
    decreases |inputs|
  {
    if inputs == [] then 0
    else if Stops(inputs[0]) then 0
    else 1 + FirstStop(inputs[1..])
  }

  /** How many frames a run processes: those before the first stopping
      input, plus that input's frame when it was read (a 'q'). */
  function ProcessedCount(inputs: seq<FrameInput>): nat
  {
    var k := FirstStop(inputs);
    if k < |inputs| && inputs[k].readOk then k + 1 else k
  }

  /** The number of 'r' keys among some inputs. */
  function Resets(inputs: seq<FrameInput>): nat
    decreases |inputs|
  {
    if inputs == [] then 0
    else (if KeyCode(inputs[0].rawKey) == KeyReset then 1 else 0) + Resets(inputs[1..])
  }

  /** A run stops exactly at the first failed read or 'q'; it processes
      every frame before that, the 'q' frame itself, and nothing after it. */
  lemma {:induction false} RunStopsAtFirstStop(cfg: Config, s: LoopState, inputs: seq<FrameInput>)
    requires !s.stopped
    ensures var r := RunSpec(cfg, s, inputs);
      (r.state.stopped <==> FirstStop(inputs) < |inputs|) &&
      r.state.framesProcessed == s.framesProcessed + ProcessedCount(inputs) &&
      |r.reports| == ProcessedCount(inputs)
    decreases |inputs|
  {
    if inputs != [] && !Stops(inputs[0]) {
      var step := Next(cfg, s, inputs[0]);
      var rest := RunSpec(cfg, step.state, inputs[1..]);
      RunStopsAtFirstStop(cfg, step.state, inputs[1..]);
      assert step.report.Some? && step.state.framesProcessed == s.framesProcessed + 1;
      assert RunSpec(cfg, s, inputs) == RunResult(rest.state, [step.report.value] + rest.reports);
      assert FirstStop(inputs) == 1 + FirstStop(inputs[1..]);
    }
  }

  /** The reports of a run are, in order, the classification and drawing of
      the frames it processed, which are the first inputs of the stream. */
  lemma {:induction false} RunReportsInOrder(cfg: Config, s: LoopState, inputs: seq<FrameInput>)
    ensures var r := RunSpec(cfg, s, inputs);
      |r.reports| <= |inputs| &&
      forall i :: 0 <= i < |r.reports| ==> r.reports[i] == ReportOf(cfg, inputs[i].contours)
    decreases |inputs|
  {
    if !s.stopped && inputs != [] {
      var step := Next(cfg, s, inputs[0]);
      var rest := RunSpec(cfg, step.state, inputs[1..]);
      RunReportsInOrder(cfg, step.state, inputs[1..]);
      if step.report.Some? {
        assert step.report.value == ReportOf(cfg, inputs[0].contours);
        assert RunSpec(cfg, s, inputs).reports == [step.report.value] + rest.reports;
        forall i | 1 <= i < 1 + |rest.reports|
          ensures inputs[i] == inputs[1..][i - 1]
        {
        }
      }
    }
  }

  /** Once a run has stopped, later inputs change nothing: no frame after a
      failed read or a 'q' is processed. */
  lemma {:induction false} RunIgnoresLaterInputs(
    cfg: Config, s: LoopState, inputs: seq<FrameInput>, later: seq<FrameInput>)
    requires RunSpec(cfg, s, inputs).state.stopped
    ensures RunSpec(cfg, s, inputs + later) == RunSpec(cfg, s, inputs)
    decreases |inputs|
  {
    if !s.stopped && inputs != [] {
      assert (inputs + later)[0] == inputs[0];
      assert (inputs + later)[1..] == inputs[1..] + later;
      RunIgnoresLaterInputs(cfg, Next(cfg, s, inputs[0]).state, inputs[1..], later);
    }
  }

  /** Each 'r' on a processed frame rebuilds the background model from the
      same parameters and nothing else does: the final model is built from
      the configuration, and its build number has grown by the number of
      'r' keys before the first stopping input. */
  lemma {:induction false} RunCountsResets(cfg: Config, s: LoopState, inputs: seq<FrameInput>)
    requires !s.stopped
    requires BuiltFrom(cfg, s.model)
    ensures var m := RunSpec(cfg, s, inputs).state.model;
      BuiltFrom(cfg, m) &&
      m.generation == s.model.generation + Resets(inputs[..FirstStop(inputs)])
    decreases |inputs|
  {
    if inputs != [] {
      if Stops(inputs[0]) {
        assert inputs[..FirstStop(inputs)] == [];
      } else {
        var next := Next(cfg, s, inputs[0]).state;
        ResetStep(cfg, s, inputs[0]);
        RunCountsResets(cfg, next, inputs[1..]);
        ResetsBeforeStop(inputs);
        assert RunSpec(cfg, s, inputs).state == RunSpec(cfg, next, inputs[1..]).state;
      }
    }
  }

  /** A frame that does not stop the loop rebuilds the model once on 'r'
      and not otherwise. */
  lemma ResetStep(cfg: Config, s: LoopState, input: FrameInput)
    requires !s.stopped && !Stops(input)
    requires BuiltFrom(cfg, s.model)
    ensures var m := Next(cfg, s, input).state.model;
      !Next(cfg, s, input).state.stopped && BuiltFrom(cfg, m) &&
      m.generation == s.model.generation + if KeyCode(input.rawKey) == KeyReset then 1 else 0
  {
  }

  lemma ResetsBeforeStop(inputs: seq<FrameInput>)
    requires inputs != [] && !Stops(inputs[0])
    ensures Resets(inputs[..FirstStop(inputs)]) ==
      (if KeyCode(inputs[0].rawKey) == KeyReset then 1 else 0) +
      Resets(inputs[1..][..FirstStop(inputs[1..])])
  {
    var k := FirstStop(inputs[1..]);
    assert inputs[..FirstStop(inputs)] == [inputs[0]] + inputs[1..][..k];
    assert ([inputs[0]] + inputs[1..][..k])[1..] == inputs[1..][..k];
  }

  /** The detection and drawing done on one read frame: the scan over its
      contours, then the zone outline and label, then the banner when the
      flag is set. */
  method AnnotateFrame(cfg: Config, contours: seq<Contour>) returns (report: FrameReport)
    ensures report == ReportOf(cfg, contours)
  {
    var motionInBox, marks := ScanContours(contours, cfg.minContourArea, cfg.zone);
    marks := marks + ZoneMarks(cfg.zone);
    if motionInBox {
      marks := marks + [Banner];
    }
    report := FrameReport(motionInBox, marks);
  }

  /** The monitor as the running program holds it: the configuration, the
      current background subtractor and whether the loop has ended. */
  class Monitor {
    const cfg: Config
    var model: BackgroundModel
    var stopped: bool
    var framesProcessed: nat

    function State(): LoopState
      reads this
    {
      LoopState(stopped, model, framesProcessed)
    }

    constructor (cfg: Config)
      ensures this.cfg == cfg
      ensures State() == Initial(cfg)
    {
      this.cfg := cfg;
      model := FreshModel(cfg, 0);
      stopped := false;
      framesProcessed := 0;
    }

    /** One pass of the loop body. */
    method Step(input: FrameInput) returns (report: Option<FrameReport>)
      requires !stopped
      modifies this
      ensures StepResult(State(), report) == Next(cfg, old(State()), input)
    {
      if !input.readOk {
        stopped := true;
        return None;
      }
      model := model.(absorbed := model.absorbed + 1);
      var frameReport := AnnotateFrame(cfg, input.contours);
      framesProcessed := framesProcessed + 1;
      report := Some(frameReport);
      var key := KeyCode(input.rawKey);
      if key == KeyQuit {
        stopped := true;
      } else if key == KeyReset {
        model := FreshModel(cfg, model.generation + 1);
      }
    }

    /** The loop over the input stream, until it stops or the stream ends. */
    method Run(inputs: seq<FrameInput>) returns (reports: seq<FrameReport>)
      modifies this
      ensures RunResult(State(), reports) == RunSpec(cfg, old(State()), inputs)
    {
      reports := [];
      var i := 0;
      while i < |inputs| && !stopped
        invariant 0 <= i <= |inputs|
        invariant RunSpec(cfg, old(State()), inputs) ==
          RunResult(RunSpec(cfg, State(), inputs[i..]).state,
                    reports + RunSpec(cfg, State(), inputs[i..]).reports)
        decreases |inputs| - i
      {
        assert inputs[i..][0] == inputs[i];
        assert inputs[i..][1..] == inputs[i + 1..];
        var report := Step(inputs[i]);
        if report.Some? {
          reports := reports + [report.value];
        }
        i := i + 1;
      }
      assert RunSpec(cfg, State(), inputs[i..]) == RunResult(State(), []);
    }
  }
}
