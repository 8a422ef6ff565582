/** The recorder hook: the RecorderState record (isRecording, duration, uri,
    hasPermission), the recording and timer refs, and the transitions the
    hook's callbacks make. The native recorder, the permission request and
    the one-second interval are outside: their results are parameters, and
    each running interval is an id in `liveIntervals` whose firing is the
    method Tick. */
module Recorder {
  import opened Wrappers

  /** A native recording handle; `uri` is what getURI() reports once it has
      stopped. */
  datatype Recording = Recording(uri: Option<string>)

  /** What Audio.requestPermissionsAsync produced. */
  datatype PermissionResponse = Status(status: string) | RequestThrew

  /** What stopRecording settles with: the URI (undefined without a
      recording), or the error rethrown from stopAndUnloadAsync. */
  datatype StopOutcome = Stopped(uri: Option<string>) | StopThrew

  /** The permission flag checkPermissions sets. */
  function PermissionFrom(isWeb: bool, response: PermissionResponse): (r: bool)
    ensures isWeb ==> r
    ensures !isWeb ==> (r <==> response == Status("granted"))
  {
    if isWeb then true
    else match response
      case Status(status) => status == "granted"
      case RequestThrew => false
  }

  class AudioRecorder {
    var isRecording: bool
    var duration: nat
    var uri: Option<string>
    var hasPermission: bool
    var recording: Option<Recording>
    var timer: Option<nat>
    var liveIntervals: set<nat>
    var nextInterval: nat

    /** The record says "recording" exactly while a recording is held; the
        timer ref, when set, names a running interval, and only while
        recording. */
    ghost predicate Valid()
      reads this
    {
      && (isRecording <==> recording.Some?)
      && (timer.Some? ==> isRecording && timer.value in liveIntervals)
      && (forall id | id in liveIntervals :: id < nextInterval)
    }

    /** The initial state of the hook. */
    constructor ()
      ensures Valid()
      ensures !isRecording && duration == 0 && uri == None && !hasPermission
      ensures recording == None && timer == None && liveIntervals == {} && nextInterval == 0
    {
      isRecording, duration, uri, hasPermission := false, 0, None, false;
      recording, timer, liveIntervals, nextInterval := None, None, {}, 0;
    }

    /** checkPermissions: granted on the web, the reported status on a
        device, denied when the request throws; nothing else changes. */
    method CheckPermissions(isWeb: bool, response: PermissionResponse)
      requires Valid()
      modifies this
      ensures Valid()
      ensures hasPermission == PermissionFrom(isWeb, response)
      ensures isRecording == old(isRecording) && duration == old(duration) && uri == old(uri)
      ensures recording == old(recording) && timer == old(timer)
      ensures liveIntervals == old(liveIntervals) && nextInterval == old(nextInterval)
    {
      if isWeb {
        hasPermission := true;
        return;
      }
      match response
      case Status(status) => hasPermission := status == "granted";
      case RequestThrew => hasPermission := false;
    }

    /** startRecording; `created` is the handle createAsync gave, None when it
        threw (and the error is rethrown with nothing changed). On success a
        new one-second interval starts and the timer ref points at it; an
        interval already running is not cleared. */
    method StartRecording(created: Option<Recording>) returns (started: bool)
      requires Valid()
      modifies this
      ensures Valid()
      ensures started <==> created.Some?
      ensures !started ==> unchanged(this)
      ensures started ==>
                && recording == created && isRecording && duration == 0
                && hasPermission == old(hasPermission) && uri == old(uri)
                && timer == Some(old(nextInterval))
                && liveIntervals == old(liveIntervals) + {old(nextInterval)}
                && nextInterval == old(nextInterval) + 1
    {
      if created.None? {
        return false;
      }
      recording := created;
      isRecording, duration := true, 0;
      timer := Some(nextInterval);
      liveIntervals := liveIntervals + {nextInterval};
      nextInterval := nextInterval + 1;
      started := true;
    }

    /** One firing of a running interval: the duration grows by one second
        and nothing else changes. */
    method Tick(id: nat)
      requires Valid() && id in liveIntervals
      modifies this
      ensures Valid()
      ensures duration == old(duration) + 1
      ensures isRecording == old(isRecording) && uri == old(uri) && hasPermission == old(hasPermission)
      ensures recording == old(recording) && timer == old(timer)
      ensures liveIntervals == old(liveIntervals) && nextInterval == old(nextInterval)
    {
      duration := duration + 1;
    }

    /** stopRecording; `stopFails` says whether stopAndUnloadAsync throws.
        Without a recording nothing happens and the result is undefined.
        Otherwise the timer is cleared first; a failed stop rethrows with the
        recording still held; a successful one releases the recording,
        clears isRecording and records and returns the recorder's URI. */
    method StopRecording(stopFails: bool) returns (r: StopOutcome)
      requires Valid()
      modifies this
      ensures Valid()
      ensures old(recording).None? ==> r == Stopped(None) && unchanged(this)
      ensures old(recording).Some? ==>
                && timer == None
                && liveIntervals == (if old(timer).Some? then old(liveIntervals) - {old(timer).value} else old(liveIntervals))
                && duration == old(duration) && hasPermission == old(hasPermission)
                && nextInterval == old(nextInterval)
      ensures old(recording).Some? && stopFails ==>
                r == StopThrew && recording == old(recording) && isRecording && uri == old(uri)
      ensures old(recording).Some? && !stopFails ==>
                && r == Stopped(old(recording).value.uri)
                && recording == None && !isRecording && uri == old(recording).value.uri
    {
      if recording.None? {
        return Stopped(None);
      }
      if timer.Some? {
        liveIntervals := liveIntervals - {timer.value};
        timer := None;
      }
      if stopFails {
        return StopThrew;
      }
      var stoppedUri := recording.value.uri;
      recording := None;
      isRecording, uri := false, stoppedUri;
      r := Stopped(stoppedUri);
    }

    /** resetRecorder: duration back to zero and the URI forgotten;
        recording and permission untouched. */
    method Reset()
      requires Valid()
      modifies this
      ensures Valid()
      ensures duration == 0 && uri == None
      ensures isRecording == old(isRecording) && hasPermission == old(hasPermission)
      ensures recording == old(recording) && timer == old(timer)
      ensures liveIntervals == old(liveIntervals) && nextInterval == old(nextInterval)
    {
      duration, uri := 0, None;
    }

    /** The unmount cleanup: the interval the timer ref names is cleared
        (the ref itself is left as it is). */
    method Unmount()
      requires Valid()
      modifies this
      ensures timer.Some? ==> liveIntervals == old(liveIntervals) - {timer.value}
      ensures timer.None? ==> liveIntervals == old(liveIntervals)
      ensures isRecording == old(isRecording) && duration == old(duration) && uri == old(uri)
      ensures hasPermission == old(hasPermission) && recording == old(recording) && timer == old(timer)
      ensures nextInterval == old(nextInterval)
    {
      if timer.Some? {
        liveIntervals := liveIntervals - {timer.value};
      }
    }
  }

  /** Starting twice without a stop in between leaves the first interval
      running after the stop: it keeps adding to the duration. */
  method DoubleStartLeavesIntervalRunning(handle: Recording) returns (rec: AudioRecorder)
    ensures !rec.isRecording && rec.liveIntervals == {0}
  {
    rec := new AudioRecorder();
    var first := rec.StartRecording(Some(handle));
    var second := rec.StartRecording(Some(handle));
    var stopped := rec.StopRecording(false);
  }

  /** A start, five ticks and a stop: the duration counts the ticks, the URI
      is the recorder's, and no interval is left running. */
  method RecordFiveSeconds(handle: Recording) returns (rec: AudioRecorder, result: StopOutcome)
    ensures result == Stopped(handle.uri) && rec.uri == handle.uri
    ensures rec.duration == 5 && !rec.isRecording && rec.liveIntervals == {}
  {
    rec := new AudioRecorder();
    var started := rec.StartRecording(Some(handle));
    var i := 0;
    while i < 5
      invariant 0 <= i <= 5
      invariant rec.Valid() && rec.timer == Some(0) && rec.liveIntervals == {0}
      invariant rec.duration == i && rec.recording == Some(handle)
    {
      rec.Tick(0);
      i := i + 1;
    }
    result := rec.StopRecording(false);
  }
}
