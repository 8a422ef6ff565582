/** pollForAudio: poll the reply-audio URL with HEAD probes until the file
    it names is judged new and stable (or a grace period has passed), then
    download it; give up with "Audio polling timeout" once the time budget
    is spent.

    The source keeps its state in variables captured by a self-rescheduling
    closure. Here each tick the outside world produces (the elapsed time, the
    clock stamp and random suffix used in URLs, and the outcomes of the probe
    and of the download) is first seen through the service's own functions
    as an Observation; one run of the closure is the function Step over an
    explicit PollState and an observation, Run folds Step over the observed
    ticks, and the method PollForAudio keeps the source's mutable variables
    in a loop, makes the service calls itself, and is proved to compute what
    Run computes. */
module AudioPolling {
  import opened Wrappers
  import opened Text
  import opened ConversationService

  const GracePeriodMs := 8000
  const RequiredStableSizeRepeats := 2
  const TimeoutMessage := "Audio polling timeout"

  /** The status strings passed to onProgress. */
  datatype Status = Polling | Downloading | Ready

  datatype ProgressEvent = ProgressEvent(status: Status, pct: real)

  /** What the outside world supplies for one tick of the poll. */
  datatype Tick = Tick(elapsed: nat, stamp: nat, rnd: string, probe: HeadOutcome, download: DownloadOutcome)

  /** The fixed inputs of one pollForAudio call; `timeoutMs` is the effective
      timeout, already read from configuration. */
  datatype PollSetup = PollSetup(cfg: Config, device: Device, audioUrl: string, timeoutMs: nat)

  /** A tick as the poll closure sees it: the snapshot headAudio returns, the
      answer checkAudioReady gives, and the path downloadAudio returns. */
  datatype Observation = Observation(elapsed: nat, meta: ResourceMeta, ready: bool, download: Option<string>)

  function Observe(p: PollSetup, t: Tick): Observation {
    Observation(
      t.elapsed,
      HeadAudio(p.cfg, p.audioUrl, t.stamp, t.rnd, t.probe),
      CheckAudioReady(t.probe),
      DownloadAudio(p.cfg, p.device, p.audioUrl, t.stamp, t.download))
  }

  function Observations(p: PollSetup, ticks: seq<Tick>): seq<Observation> {
    seq(|ticks|, i requires 0 <= i < |ticks| => Observe(p, ticks[i]))
  }

  /** The readiness answer and the snapshot come from the same probe, so
      they agree; a probe that throws gives neither. */
  lemma ObservedReadinessIsSnapshot(p: PollSetup, t: Tick)
    ensures Observe(p, t).ready == Observe(p, t).meta.ok
    ensures t.probe.HeadThrew? ==> !Observe(p, t).meta.ok && Observe(p, t).meta.url == p.audioUrl
  {
    CheckAudioReadyAgreesWithHead(p.cfg, p.audioUrl, t.stamp, t.rnd, t.probe);
  }

  /** The variables the source's poll closure mutates (`changeDetected` stands
      for `changeDetectedAt != null`). */
  datatype PollState = PollState(
    baseline: ResourceMeta, changeDetected: bool, stableSizeCount: nat, stableConfirmation: bool)

  datatype PollOutcome = Pending | Resolved(path: string) | Rejected(reason: string)

  datatype StepResult = StepResult(state: PollState, outcome: PollOutcome, events: seq<ProgressEvent>)

  /** `Math.min(elapsed / effectiveTimeout * 100, 95)`; computed only while
      the budget is not spent. */
  function PollingProgress(elapsed: nat, timeoutMs: nat): (r: real)
    requires elapsed < timeoutMs
    ensures 0.0 <= r <= 95.0
    ensures r == 95.0 || r * timeoutMs as real == elapsed as real * 100.0
    ensures r < 95.0 <==> elapsed as real * 100.0 < 95.0 * timeoutMs as real
  {
    var e, t := elapsed as real, timeoutMs as real;
    var ratio := e / t;
    assert ratio * t == e;
    assert ratio >= 0.0;
    var raw := ratio * 100.0;
    assert raw * t == e * 100.0;
    assert raw < 95.0 <==> raw * t < 95.0 * t;
    if raw < 95.0 then raw else 95.0
  }

  /** The URL resolved after a failed download: the reference itself when it
      starts with "http", otherwise the base URL glued to it directly, with
      no conversation path. */
  function FallbackUrl(p: PollSetup): (r: string)
    ensures StartsWith(p.audioUrl, "http") ==> r == p.audioUrl
    ensures !StartsWith(p.audioUrl, "http") ==> r == p.cfg.baseURL + p.audioUrl
  {
    if StartsWith(p.audioUrl, "http") then p.audioUrl else p.cfg.baseURL + p.audioUrl
  }

  /** The fallback agrees with ordinary resolution for absolute URLs and for
      rooted paths such as the server's "/static/tts_outputs/<id>.mp3". */
  lemma FallbackMatchesResolutionForRootedPaths(p: PollSetup)
    requires StartsWith(p.audioUrl, "http") || StartsWith(p.audioUrl, "/")
    ensures FallbackUrl(p) == ResolveUrl(p.cfg, p.audioUrl)
  {
  }

  /** For a relative path the fallback drops the conversation path and the
      separating '/'. */
  lemma FallbackDropsConversationPath()
    ensures var p := PollSetup(Config("http://h", "", "/api"), Device(false, "", ""), "a.mp3", 60000);
            && FallbackUrl(p) == "http://ha.mp3"
            && ResolveUrl(p.cfg, p.audioUrl) == "http://h/api/a.mp3"
  {
    var p := PollSetup(Config("http://h", "", "/api"), Device(false, "", ""), "a.mp3", 60000);
    var a := "a.mp3";
    assert !StartsWith(a, "http") by { assert a[..4][0] == 'a'; }
    assert !StartsWith(a, "/") by { assert a[..1][0] == 'a'; }
    assert FallbackUrl(p) == "http://h" + a;
    assert ResolveUrl(p.cfg, a) == "http://h" + "/api" + "/" + a;
  }

  /** Sizes that confirm stability: truthy on both sides and equal. */
  predicate StableSize(baseline: ResourceMeta, meta: ResourceMeta) {
    TruthyNumber(meta.size) && TruthyNumber(baseline.size) && SameNumber(meta.size, baseline.size)
  }

  /** Which branch of the poll closure a tick takes; the events it reports
      and the outcome it settles follow from this alone. */
  datatype TickKind =
    | Unreached(progress: real)              // snapshot not ok
    | FirstChange(progress: real)            // first change: new baseline, wait a cycle
    | Waiting(progress: real)                // ok, but neither stable nor past the grace period
    | Fetched(progress: real, path: string)  // downloaded, or fell back to the URL
    | FinalFetched(path: string)             // budget spent, the last check succeeded
    | FinalFailed                            // budget spent, HEAD ok but the download failed
    | FinalNotReady                          // budget spent, HEAD not ok

  function OutcomeOf(k: TickKind): PollOutcome {
    match k
    case Fetched(_, path) => Resolved(path)
    case FinalFetched(path) => Resolved(path)
    case FinalFailed => Rejected(TimeoutMessage)
    case FinalNotReady => Rejected(TimeoutMessage)
    case _ => Pending
  }

  /** The two reports around a download that settles the promise. */
  const DownloadReports := [ProgressEvent(Downloading, 95.0)] + [ProgressEvent(Ready, 100.0)]

  /** While the budget lasts every tick first reports its polling progress;
      the branch then adds its own reports. */
  function EventsOf(k: TickKind): seq<ProgressEvent> {
    match k
    case Unreached(progress) => [ProgressEvent(Polling, progress)]
    case FirstChange(progress) => [ProgressEvent(Polling, progress)] + [ProgressEvent(Polling, progress)]
    case Waiting(progress) => [ProgressEvent(Polling, progress)]
    case Fetched(progress, _) =>
      [ProgressEvent(Polling, progress)] + DownloadReports
    case FinalFetched(_) => DownloadReports
    case FinalFailed => [ProgressEvent(Downloading, 95.0)]
    case FinalNotReady => []
  }

  /** The counter and confirmation update of a tick that sees an ok snapshot
      and is not the first change. */
  function Counted(s: PollState, meta: ResourceMeta): (r: PollState)
    ensures r.baseline == s.baseline && r.changeDetected == s.changeDetected
    ensures !s.changeDetected ==> r == s
    ensures s.changeDetected ==> r.stableSizeCount == if StableSize(s.baseline, meta) then s.stableSizeCount + 1 else 0
    ensures r.stableConfirmation <==> s.stableConfirmation || (s.changeDetected && r.stableSizeCount >= RequiredStableSizeRepeats)
  {
    if !s.changeDetected then s
    else
      var count := if StableSize(s.baseline, meta) then s.stableSizeCount + 1 else 0;
      PollState(s.baseline, true, count, s.stableConfirmation || count >= RequiredStableSizeRepeats)
  }

  /** The path a download attempt resolves to: the local copy, or the URL. */
  function FetchedPath(p: PollSetup, o: Observation): string {
    match o.download
    case Some(local) => local
    case None => FallbackUrl(p)
  }

  /** One run of the `poll` closure: the branch it takes and the state after it. */
  function Classify(p: PollSetup, s: PollState, o: Observation): (TickKind, PollState) {
    if o.elapsed >= p.timeoutMs then
      // the budget is spent: one last readiness probe decides
      if !o.ready then (FinalNotReady, s)
      else
        match o.download
        case Some(path) => (FinalFetched(path), s)
        case None => (FinalFailed, s)
    else
      var progress := PollingProgress(o.elapsed, p.timeoutMs);
      if !o.meta.ok then (Unreached(progress), s)
      else if ConsideredChanged(s.baseline, o.meta) && !s.changeDetected then
        (FirstChange(progress), PollState(o.meta, true, s.stableSizeCount, s.stableConfirmation))
      else
        var next := Counted(s, o.meta);
        if next.stableConfirmation || o.elapsed > GracePeriodMs then (Fetched(progress, FetchedPath(p, o)), next)
        else (Waiting(progress), next)
  }

  function Step(p: PollSetup, s: PollState, o: Observation): StepResult {
    var c := Classify(p, s, o);
    StepResult(c.1, OutcomeOf(c.0), EventsOf(c.0))
  }

  datatype RunResult = RunResult(state: PollState, outcome: PollOutcome, events: seq<ProgressEvent>, ticksUsed: nat)

  /** Ticks applied in order until one resolves or rejects; ticks after that are
      never run. With the ticks used up the promise is still pending. */
  function Run(p: PollSetup, s: PollState, obs: seq<Observation>): (r: RunResult)
    ensures r.ticksUsed <= |obs|
    ensures r.outcome == Pending ==> r.ticksUsed == |obs|
    ensures r.outcome != Pending ==> r.ticksUsed >= 1
    decreases |obs|
  {
    if obs == [] then RunResult(s, Pending, [], 0)
    else
      var first := Step(p, s, obs[0]);
      if first.outcome != Pending then RunResult(first.state, first.outcome, first.events, 1)
      else
        var rest := Run(p, first.state, obs[1..]);
        RunResult(rest.state, rest.outcome, first.events + rest.events, 1 + rest.ticksUsed)
  }

  /** The state before the first tick: the initial HEAD snapshot as baseline. */
  function InitialState(p: PollSetup, stamp: nat, rnd: string, probe: HeadOutcome): PollState {
    PollState(HeadAudio(p.cfg, p.audioUrl, stamp, rnd, probe), false, 0, false)
  }

  /** pollForAudio, with the source's variables updated in a loop over the
      ticks. */
  method PollForAudio(p: PollSetup, initialStamp: nat, initialRnd: string, initialProbe: HeadOutcome, ticks: seq<Tick>)
    returns (outcome: PollOutcome, events: seq<ProgressEvent>)
    ensures var r := Run(p, InitialState(p, initialStamp, initialRnd, initialProbe), Observations(p, ticks));
            outcome == r.outcome && events == r.events
  {
    var initialMeta := HeadAudio(p.cfg, p.audioUrl, initialStamp, initialRnd, initialProbe);
    var changeDetected := false;
    var stableConfirmation := false;
    var stableSizeCount: nat := 0;
    ghost var obs := Observations(p, ticks);
    ghost var whole := Run(p, InitialState(p, initialStamp, initialRnd, initialProbe), obs);
    outcome, events := Pending, [];
    var i := 0;
    while i < |ticks| && outcome == Pending
      invariant 0 <= i <= |ticks|
      invariant outcome == Pending ==>
                  var rest := Run(p, PollState(initialMeta, changeDetected, stableSizeCount, stableConfirmation), obs[i..]);
                  events + rest.events == whole.events && rest.outcome == whole.outcome
      invariant outcome != Pending ==> outcome == whole.outcome && events == whole.events
    {
      ghost var before := PollState(initialMeta, changeDetected, stableSizeCount, stableConfirmation);
      assert obs[i] == Observe(p, ticks[i]);
      var tickEvents;
      outcome, tickEvents, initialMeta, changeDetected, stableSizeCount, stableConfirmation :=
        PollTick(p, ticks[i], initialMeta, changeDetected, stableSizeCount, stableConfirmation);
      RunFrom(p, before, obs, i, events);
      events := events + tickEvents;
      i := i + 1;
    }
  }

  /** A run from the i-th tick is that tick's step followed, while pending,
      by the run from the next one. */
  lemma RunFrom(p: PollSetup, s: PollState, obs: seq<Observation>, i: nat, done: seq<ProgressEvent>)
    requires i < |obs|
    ensures var first := Step(p, s, obs[i]); var here := Run(p, s, obs[i..]);
            && (first.outcome != Pending ==> here.outcome == first.outcome && done + here.events == done + first.events)
            && (first.outcome == Pending ==>
                  here.outcome == Run(p, first.state, obs[i + 1..]).outcome
                  && done + here.events == (done + first.events) + Run(p, first.state, obs[i + 1..]).events)
  {
    assert obs[i..][0] == obs[i] && obs[i..][1..] == obs[i + 1..];
  }

  /** One run of the poll closure over the source's mutable variables. When
      the tick leaves the poll pending the variables hold the next state. */
  method PollTick(p: PollSetup, t: Tick, baseline: ResourceMeta, changeDetected: bool, stableSizeCount: nat, stableConfirmation: bool)
    returns (outcome: PollOutcome, events: seq<ProgressEvent>,
             baseline': ResourceMeta, changeDetected': bool, stableSizeCount': nat, stableConfirmation': bool)
    ensures var step := Step(p, PollState(baseline, changeDetected, stableSizeCount, stableConfirmation), Observe(p, t));
            && outcome == step.outcome && events == step.events
            && step.state == PollState(baseline', changeDetected', stableSizeCount', stableConfirmation')
  {
    ghost var o := Observe(p, t);
    if t.elapsed >= p.timeoutMs {
      baseline', changeDetected', stableSizeCount', stableConfirmation' := baseline, changeDetected, stableSizeCount, stableConfirmation;
      outcome, events := FinalCheck(p, t, PollState(baseline, changeDetected, stableSizeCount, stableConfirmation), o);
    } else {
      var meta := HeadAudio(p.cfg, p.audioUrl, t.stamp, t.rnd, t.probe);
      ghost var kind;
      outcome, events, baseline', changeDetected', stableSizeCount', stableConfirmation', kind :=
        ProbeTick(p, t, meta, baseline, changeDetected, stableSizeCount, stableConfirmation, o);
    }
  }

  /** A tick while the budget lasts, given the snapshot `meta` its HEAD probe
      took: report progress, then download once the file is judged ready. */
  method ProbeTick(p: PollSetup, t: Tick, meta: ResourceMeta,
                   baseline: ResourceMeta, changeDetected: bool, stableSizeCount: nat, stableConfirmation: bool,
                   ghost o: Observation)
    returns (outcome: PollOutcome, events: seq<ProgressEvent>,
             baseline': ResourceMeta, changeDetected': bool, stableSizeCount': nat, stableConfirmation': bool,
             ghost kind: TickKind)
    requires o.elapsed == t.elapsed < p.timeoutMs
    requires o.meta == meta
    requires o.download == DownloadAudio(p.cfg, p.device, p.audioUrl, t.stamp, t.download)
    ensures Classify(p, PollState(baseline, changeDetected, stableSizeCount, stableConfirmation), o)
            == (kind, PollState(baseline', changeDetected', stableSizeCount', stableConfirmation'))
    ensures outcome == OutcomeOf(kind) && events == EventsOf(kind)
  {
    var s := PollState(baseline, changeDetected, stableSizeCount, stableConfirmation);
    baseline', changeDetected', stableSizeCount', stableConfirmation' := baseline, changeDetected, stableSizeCount, stableConfirmation;
    var progress := PollingProgress(t.elapsed, p.timeoutMs);
    events := [ProgressEvent(Polling, progress)];
    outcome := Pending;
    ClassifyBeforeTimeout(p, s, o);
    kind := Unreached(progress);
    if meta.ok {
      var consideredChanged := ConsideredChanged(baseline, meta);
      if consideredChanged && !changeDetected {
        changeDetected' := true;
        baseline' := meta;
        events := events + [ProgressEvent(Polling, progress)];
        kind := FirstChange(progress);
      } else {
        var settled;
        outcome, settled, stableSizeCount', stableConfirmation' := CountAndFetch(p, t, s, meta, o);
        events := events + settled;
        if outcome.Resolved? {
          kind := Fetched(progress, outcome.path);
        } else {
          kind := Waiting(progress);
        }
      }
    }
  }

  /** The branches of Classify while the budget lasts. */
  lemma ClassifyBeforeTimeout(p: PollSetup, s: PollState, o: Observation)
    requires o.elapsed < p.timeoutMs
    ensures var progress := PollingProgress(o.elapsed, p.timeoutMs);
            && (!o.meta.ok ==> Classify(p, s, o) == (Unreached(progress), s))
            && (o.meta.ok && ConsideredChanged(s.baseline, o.meta) && !s.changeDetected ==>
                  Classify(p, s, o) == (FirstChange(progress), PollState(o.meta, true, s.stableSizeCount, s.stableConfirmation)))
            && (o.meta.ok && !(ConsideredChanged(s.baseline, o.meta) && !s.changeDetected) ==>
                  var next := Counted(s, o.meta);
                  Classify(p, s, o) ==
                    (if next.stableConfirmation || o.elapsed > GracePeriodMs then Fetched(progress, FetchedPath(p, o)) else Waiting(progress),
                     next))
  {
  }

  /** An ok snapshot that is not the first change: count stability, then
      download once it is confirmed or the grace period has passed. */
  method CountAndFetch(p: PollSetup, t: Tick, s: PollState, meta: ResourceMeta, ghost o: Observation)
    returns (outcome: PollOutcome, settled: seq<ProgressEvent>, stableSizeCount': nat, stableConfirmation': bool)
    requires meta.ok
    requires o.download == DownloadAudio(p.cfg, p.device, p.audioUrl, t.stamp, t.download)
    ensures PollState(s.baseline, s.changeDetected, stableSizeCount', stableConfirmation') == Counted(s, meta)
    ensures outcome.Resolved? <==> stableConfirmation' || t.elapsed > GracePeriodMs
    ensures outcome.Resolved? ==> outcome.path == FetchedPath(p, o)
    ensures outcome == Pending ==> settled == []
    ensures outcome != Pending ==> outcome.Resolved? && settled == DownloadReports
  {
    stableSizeCount', stableConfirmation' := CountStable(s, meta);
    var allowFallback := t.elapsed > GracePeriodMs;
    settled, outcome := [], Pending;
    if stableConfirmation' || (allowFallback && meta.ok) {
      settled := [ProgressEvent(Downloading, 95.0)];
      var path := FetchOrFallback(p, t, o);
      settled := settled + [ProgressEvent(Ready, 100.0)];
      outcome := Resolved(path);
    }
  }

  /** The stability counter: after a change, one more for a matching truthy
      size, back to zero otherwise; confirmed at two repeats. */
  method CountStable(s: PollState, meta: ResourceMeta) returns (count: nat, confirmed: bool)
    ensures Counted(s, meta) == PollState(s.baseline, s.changeDetected, count, confirmed)
  {
    count, confirmed := s.stableSizeCount, s.stableConfirmation;
    if s.changeDetected {
      if StableSize(s.baseline, meta) {
        count := count + 1;
      } else {
        count := 0;
      }
      if !confirmed && count >= RequiredStableSizeRepeats {
        confirmed := true;
      }
    }
  }

  /** Download, falling back to the URL itself when the download fails. */
  method FetchOrFallback(p: PollSetup, t: Tick, ghost o: Observation) returns (path: string)
    requires o.download == DownloadAudio(p.cfg, p.device, p.audioUrl, t.stamp, t.download)
    ensures path == FetchedPath(p, o)
  {
    var localPath := DownloadAudio(p.cfg, p.device, p.audioUrl, t.stamp, t.download);
    if localPath.Some? {
      path := localPath.value;
    } else {
      path := FallbackUrl(p);
    }
  }

  /** The final optimistic check once the time budget is spent: one more
      readiness probe, then a download that either resolves or rejects. */
  method FinalCheck(p: PollSetup, t: Tick, ghost s: PollState, ghost o: Observation)
    returns (outcome: PollOutcome, events: seq<ProgressEvent>)
    requires o.elapsed == t.elapsed >= p.timeoutMs
    requires o.ready == CheckAudioReady(t.probe)
    requires o.download == DownloadAudio(p.cfg, p.device, p.audioUrl, t.stamp, t.download)
    ensures var step := Step(p, s, o);
            outcome == step.outcome && events == step.events
    ensures outcome != Pending
  {
    events := [];
    var headOk := CheckAudioReady(t.probe);
    if headOk {
      events := [ProgressEvent(Downloading, 95.0)];
      var localPath := DownloadAudio(p.cfg, p.device, p.audioUrl, t.stamp, t.download);
      if localPath.Some? {
        events := events + [ProgressEvent(Ready, 100.0)];
        outcome := Resolved(localPath.value);
      } else {
        outcome := Rejected(TimeoutMessage);
      }
    } else {
      outcome := Rejected(TimeoutMessage);
    }
  }

  // -----------------------------------------------------------------------
  // One tick

  /** No count and no confirmation before a change has been seen. */
  predicate Consistent(s: PollState) {
    !s.changeDetected ==> s.stableSizeCount == 0 && !s.stableConfirmation
  }

  lemma InitialStateConsistent(p: PollSetup, stamp: nat, rnd: string, probe: HeadOutcome)
    ensures Consistent(InitialState(p, stamp, rnd, probe))
    ensures !InitialState(p, stamp, rnd, probe).changeDetected
  {
  }

  lemma StepPreservesConsistency(p: PollSetup, s: PollState, o: Observation)
    requires Consistent(s)
    ensures Consistent(Step(p, s, o).state)
  {
  }

  /** A change once seen, and its baseline, stay; a confirmation is never
      revoked; the baseline is replaced only by the first change. */
  lemma StepMonotone(p: PollSetup, s: PollState, o: Observation)
    ensures s.changeDetected ==> Step(p, s, o).state.changeDetected && Step(p, s, o).state.baseline == s.baseline
    ensures s.stableConfirmation ==> Step(p, s, o).state.stableConfirmation
    ensures Step(p, s, o).state.baseline != s.baseline ==>
              !s.changeDetected && Step(p, s, o).state.changeDetected && Step(p, s, o).state.baseline == o.meta
  {
  }

  /** A tick before the budget is spent: it never rejects; an unreachable
      file leaves everything as it was; the first change only re-baselines;
      after a change the stability counter grows on a matching size and
      resets otherwise; the download happens exactly when the snapshot is ok,
      the tick is not the first change, and stability is confirmed or the
      grace period has passed; a failed download falls back to the URL. */
  lemma StepBeforeTimeout(p: PollSetup, s: PollState, o: Observation)
    requires o.elapsed < p.timeoutMs
    ensures var r := Step(p, s, o); var meta := o.meta;
            && !r.outcome.Rejected?
            && (!meta.ok ==> r.outcome == Pending && r.state == s)
            && (meta.ok && ConsideredChanged(s.baseline, meta) && !s.changeDetected ==>
                  r.outcome == Pending && r.state == PollState(meta, true, s.stableSizeCount, s.stableConfirmation))
            && (meta.ok && s.changeDetected ==>
                  r.state.stableSizeCount == (if StableSize(s.baseline, meta) then s.stableSizeCount + 1 else 0))
            && (r.outcome.Resolved? <==>
                  meta.ok && !(ConsideredChanged(s.baseline, meta) && !s.changeDetected)
                  && (r.state.stableConfirmation || o.elapsed > GracePeriodMs))
            && (r.outcome.Resolved? ==> r.outcome.path == FetchedPath(p, o))
  {
  }

  /** A tick once the budget is spent always settles the promise: it resolves
      exactly when the readiness probe succeeds and the download does too,
      and otherwise rejects with the timeout message. */
  lemma StepAtTimeout(p: PollSetup, s: PollState, o: Observation)
    requires o.elapsed >= p.timeoutMs
    ensures var r := Step(p, s, o);
            && r.outcome != Pending
            && (r.outcome.Resolved? <==> o.ready && o.download.Some?)
            && (r.outcome.Resolved? ==> r.outcome.path == o.download.value)
            && (!r.outcome.Resolved? ==> r.outcome == Rejected(TimeoutMessage))
  {
  }

  /** The percentages the source reports per status. */
  predicate WellReported(e: ProgressEvent) {
    match e.status
    case Polling => 0.0 <= e.pct <= 95.0
    case Downloading => e.pct == 95.0
    case Ready => e.pct == 100.0
  }

  /** "ready" is reported only as the last event of a settled promise, and
      exactly when it resolves. */
  predicate ReadyOnlyAtResolution(events: seq<ProgressEvent>, outcome: PollOutcome) {
    && (forall k | 0 <= k < |events| :: events[k].status == Ready ==> k == |events| - 1)
    && (outcome.Resolved? <==> |events| > 0 && events[|events| - 1].status == Ready)
  }

  /** What every branch reports. Polling progress comes from
      PollingProgress and so lies in [0, 95]. */
  predicate ProgressInRange(k: TickKind) {
    (k.Unreached? || k.FirstChange? || k.Waiting? || k.Fetched?) ==> 0.0 <= k.progress <= 95.0
  }

  lemma KindEvents(k: TickKind)
    requires ProgressInRange(k)
    ensures forall i | 0 <= i < |EventsOf(k)| :: WellReported(EventsOf(k)[i])
    ensures ReadyOnlyAtResolution(EventsOf(k), OutcomeOf(k))
  {
  }

  lemma StepEvents(p: PollSetup, s: PollState, o: Observation)
    ensures forall k | 0 <= k < |Step(p, s, o).events| :: WellReported(Step(p, s, o).events[k])
    ensures ReadyOnlyAtResolution(Step(p, s, o).events, Step(p, s, o).outcome)
  {
    KindEvents(Classify(p, s, o).0);
  }

  // -----------------------------------------------------------------------
  // A whole run

  lemma {:induction false} RunPreservesConsistency(p: PollSetup, s: PollState, obs: seq<Observation>)
    requires Consistent(s)
    ensures Consistent(Run(p, s, obs).state)
    decreases |obs|
  {
    if obs != [] {
      StepPreservesConsistency(p, s, obs[0]);
      RunPreservesConsistency(p, Step(p, s, obs[0]).state, obs[1..]);
    }
  }

  /** Over any number of ticks a detected change keeps its baseline and a
      confirmation stays confirmed. */
  lemma {:induction false} RunMonotone(p: PollSetup, s: PollState, obs: seq<Observation>)
    ensures s.changeDetected ==> Run(p, s, obs).state.changeDetected && Run(p, s, obs).state.baseline == s.baseline
    ensures s.stableConfirmation ==> Run(p, s, obs).state.stableConfirmation
    decreases |obs|
  {
    if obs != [] {
      StepMonotone(p, s, obs[0]);
      RunMonotone(p, Step(p, s, obs[0]).state, obs[1..]);
    }
  }

  /** Every reported percentage lies in its status's range; polling progress
      never exceeds 95. */
  lemma {:induction false} RunEventsWellReported(p: PollSetup, s: PollState, obs: seq<Observation>)
    ensures forall k | 0 <= k < |Run(p, s, obs).events| :: WellReported(Run(p, s, obs).events[k])
    decreases |obs|
  {
    if obs != [] {
      var first := Step(p, s, obs[0]);
      StepEvents(p, s, obs[0]);
      if first.outcome == Pending {
        RunEventsWellReported(p, first.state, obs[1..]);
        var rest := Run(p, first.state, obs[1..]);
        assert Run(p, s, obs).events == first.events + rest.events;
        forall k | 0 <= k < |first.events + rest.events|
          ensures WellReported((first.events + rest.events)[k])
        {
          if k >= |first.events| {
            assert (first.events + rest.events)[k] == rest.events[k - |first.events|];
          }
        }
      }
    }
  }

  /** "ready" (and with it 100%) is reported once, last, and exactly when the
      promise resolves. */
  lemma {:induction false} RunReadyOnlyAtResolution(p: PollSetup, s: PollState, obs: seq<Observation>)
    ensures ReadyOnlyAtResolution(Run(p, s, obs).events, Run(p, s, obs).outcome)
    decreases |obs|
  {
    if obs != [] {
      var first := Step(p, s, obs[0]);
      StepEvents(p, s, obs[0]);
      if first.outcome == Pending {
        RunReadyOnlyAtResolution(p, first.state, obs[1..]);
        var rest := Run(p, first.state, obs[1..]);
        var all := first.events + rest.events;
        assert Run(p, s, obs).events == all;
        assert forall k | 0 <= k < |first.events| :: first.events[k].status != Ready;
        forall k | 0 <= k < |all| && all[k].status == Ready
          ensures k == |all| - 1
        {
          if k >= |first.events| {
            assert all[k] == rest.events[k - |first.events|];
          }
        }
        if |rest.events| == 0 {
          assert all == first.events;
          if |all| > 0 {
            assert all[|all| - 1] == first.events[|first.events| - 1];
          }
        } else {
          assert all[|all| - 1] == rest.events[|rest.events| - 1];
        }
      }
    }
  }

  /** A run rejects only with the timeout message and only on a tick at or
      past the budget; every tick before the one that settles it, and every
      tick of a run still pending, came before the budget was spent. */
  lemma {:induction false} RunRejectsOnlyOnTimeout(p: PollSetup, s: PollState, obs: seq<Observation>)
    ensures var r := Run(p, s, obs);
            && (r.outcome.Rejected? ==>
                  r.outcome.reason == TimeoutMessage && obs[r.ticksUsed - 1].elapsed >= p.timeoutMs)
            && (forall j | 0 <= j < r.ticksUsed - 1 :: obs[j].elapsed < p.timeoutMs)
            && (r.outcome == Pending ==> forall j | 0 <= j < |obs| :: obs[j].elapsed < p.timeoutMs)
    decreases |obs|
  {
    if obs != [] {
      var first := Step(p, s, obs[0]);
      if obs[0].elapsed >= p.timeoutMs {
        StepAtTimeout(p, s, obs[0]);
      } else {
        StepBeforeTimeout(p, s, obs[0]);
        if first.outcome == Pending {
          RunRejectsOnlyOnTimeout(p, first.state, obs[1..]);
          assert forall j | 1 <= j < |obs| :: obs[j] == obs[1..][j - 1];
        }
      }
    }
  }

  /** With the file never reachable, the poll never resolves: it stays
      pending while the budget lasts and rejects with the timeout message on
      the first tick at or past it. */
  lemma {:induction false} UnreachableTimesOut(p: PollSetup, s: PollState, obs: seq<Observation>)
    requires forall j | 0 <= j < |obs| :: !obs[j].meta.ok && !obs[j].ready
    ensures var r := Run(p, s, obs);
            && !r.outcome.Resolved?
            && (r.outcome == Pending <==> forall j | 0 <= j < |obs| :: obs[j].elapsed < p.timeoutMs)
            && (r.outcome != Pending ==>
                  r.outcome == Rejected(TimeoutMessage) && obs[r.ticksUsed - 1].elapsed >= p.timeoutMs
                  && forall j | 0 <= j < r.ticksUsed - 1 :: obs[j].elapsed < p.timeoutMs)
    decreases |obs|
  {
    if obs != [] {
      var first := Step(p, s, obs[0]);
      if obs[0].elapsed >= p.timeoutMs {
        assert first.outcome == Rejected(TimeoutMessage);
      } else {
        assert first.outcome == Pending && first.state == s;
        assert forall j | 0 <= j < |obs[1..]| :: obs[1..][j] == obs[j + 1];
        UnreachableTimesOut(p, s, obs[1..]);
        assert forall j | 1 <= j < |obs| :: obs[j] == obs[1..][j - 1];
      }
    }
  }

  /** A settled run stops at its last used tick: the ticks before it leave
      the poll pending, and the ticks after it play no part. */
  lemma {:induction false} RunStopsAtSettlingTick(p: PollSetup, s: PollState, obs: seq<Observation>)
    ensures var r := Run(p, s, obs);
            r.outcome != Pending ==>
              && Run(p, s, obs[..r.ticksUsed - 1]).outcome == Pending
              && Run(p, s, obs[..r.ticksUsed]) == r
    decreases |obs|
  {
    var r := Run(p, s, obs);
    if obs != [] && r.outcome != Pending {
      var first := Step(p, s, obs[0]);
      if first.outcome != Pending {
        assert obs[..1] == [obs[0]];
        assert obs[..1][1..] == [];
      } else {
        var rest := Run(p, first.state, obs[1..]);
        RunStopsAtSettlingTick(p, first.state, obs[1..]);
        var k := r.ticksUsed;
        assert k == 1 + rest.ticksUsed;
        assert obs[..k][0] == obs[0] && obs[..k][1..] == obs[1..][..rest.ticksUsed];
        assert obs[..k - 1][0] == obs[0] && obs[..k - 1][1..] == obs[1..][..rest.ticksUsed - 1];
      }
    }
  }

  /** After a tick that leaves the poll pending, the run continues from the
      state it left. */
  lemma RunAfterPending(p: PollSetup, s: PollState, o: Observation, rest: seq<Observation>)
    requires Step(p, s, o).outcome == Pending
    ensures Run(p, s, [o] + rest).outcome == Run(p, Step(p, s, o).state, rest).outcome
    ensures Run(p, s, [o] + rest).ticksUsed == 1 + Run(p, Step(p, s, o).state, rest).ticksUsed
  {
    assert ([o] + rest)[0] == o && ([o] + rest)[1..] == rest;
  }

  lemma RunOne(p: PollSetup, s: PollState, o: Observation)
    ensures Run(p, s, [o]).outcome == Step(p, s, o).outcome
    ensures Run(p, s, [o]).ticksUsed == 1
  {
    assert [o][0] == o && [o][1..] == [];
  }

  /** The first change of an unchanged poll only re-baselines. */
  lemma FirstChangeStep(p: PollSetup, s: PollState, o: Observation)
    requires !s.changeDetected && o.elapsed < p.timeoutMs
    requires o.meta.ok && ConsideredChanged(s.baseline, o.meta)
    ensures Step(p, s, o).outcome == Pending
    ensures Step(p, s, o).state == PollState(o.meta, true, s.stableSizeCount, s.stableConfirmation)
  {
  }

  /** After a change, a tick that sees the baseline's truthy size again counts
      one repeat, and settles the poll once that makes two (or past the grace
      period). */
  lemma StableStep(p: PollSetup, s: PollState, o: Observation)
    requires s.changeDetected && o.elapsed < p.timeoutMs
    requires o.meta.ok && StableSize(s.baseline, o.meta)
    ensures Step(p, s, o).state.stableSizeCount == s.stableSizeCount + 1
    ensures Step(p, s, o).outcome.Resolved? <==>
              s.stableConfirmation || s.stableSizeCount + 1 >= RequiredStableSizeRepeats || o.elapsed > GracePeriodMs
    ensures Step(p, s, o).state.baseline == s.baseline && Step(p, s, o).state.changeDetected
  {
  }

  /** After a change, two ticks that see the baseline's truthy size again
      settle the poll on the second of them. */
  lemma TwoStableTicksResolve(p: PollSetup, s: PollState, o2: Observation, o3: Observation)
    requires s.changeDetected && s.stableSizeCount == 0 && !s.stableConfirmation
    requires o2.elapsed <= GracePeriodMs && o2.elapsed < p.timeoutMs && o3.elapsed < p.timeoutMs
    requires o2.meta.ok && StableSize(s.baseline, o2.meta)
    requires o3.meta.ok && StableSize(s.baseline, o3.meta)
    ensures Run(p, s, [o2, o3]).outcome.Resolved?
    ensures Run(p, s, [o2, o3]).ticksUsed == 2
  {
    StableStep(p, s, o2);
    var s2 := Step(p, s, o2).state;
    StableStep(p, s2, o3);
    RunOne(p, s2, o3);
    RunAfterPending(p, s, o2, [o3]);
    assert [o2] + [o3] == [o2, o3];
  }

  /** The intended path: a change, then two ticks that see the same truthy
      size, settle the poll on the third tick even inside the grace period. */
  lemma ChangeThenStableResolves(p: PollSetup, s: PollState, o1: Observation, o2: Observation, o3: Observation)
    requires Consistent(s) && !s.changeDetected
    requires o1.elapsed < p.timeoutMs && o2.elapsed <= GracePeriodMs && o2.elapsed < p.timeoutMs && o3.elapsed < p.timeoutMs
    requires o1.meta.ok && ConsideredChanged(s.baseline, o1.meta)
    requires o2.meta.ok && StableSize(o1.meta, o2.meta)
    requires o3.meta.ok && StableSize(o1.meta, o3.meta)
    ensures Run(p, s, [o1, o2, o3]).outcome.Resolved?
    ensures Run(p, s, [o1, o2, o3]).ticksUsed == 3
  {
    FirstChangeStep(p, s, o1);
    TwoStableTicksResolve(p, Step(p, s, o1).state, o2, o3);
    RunAfterPending(p, s, o1, [o2, o3]);
    assert [o1] + [o2, o3] == [o1, o2, o3];
  }

  /** Within the grace period a change followed by one matching size does not
      settle the poll: the second repeat is still needed. */
  lemma OneStableTickIsNotEnough(p: PollSetup, s: PollState, o1: Observation, o2: Observation)
    requires Consistent(s) && !s.changeDetected
    requires o1.elapsed < p.timeoutMs && o2.elapsed <= GracePeriodMs && o2.elapsed < p.timeoutMs
    requires o1.meta.ok && ConsideredChanged(s.baseline, o1.meta)
    ensures Run(p, s, [o1, o2]).outcome == Pending
  {
    FirstChangeStep(p, s, o1);
    var s1 := Step(p, s, o1).state;
    assert Step(p, s1, o2).outcome == Pending;
    RunOne(p, s1, o2);
    RunAfterPending(p, s, o1, [o2]);
    assert [o1] + [o2] == [o1, o2];
  }
}
