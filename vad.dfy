/**
 * The voice-activity state machine of `RecordingService`, as values: the
 * service's fields (`Svc`), one function per step of the capture loop and of
 * the control and enrichment paths, and what the steps do over runs.
 *
 * Every clock reading, amplitude sample and recorder outcome arrives as an
 * input. Platform work that the service hands off (saving a segment, writing a
 * transcript or a title, deleting files, the wake lock) is appended to `log`.
 */
module Vad {
  import opened Wrappers
  import RecordingData
  import opened RecordingRepository

  const VOLUME_THRESHOLD: int := 100
  const SILENCE_THRESHOLD_MS: int := 600000
  const MIN_RECORDING_MS: int := 2000
  const CHECK_INTERVAL_MS: int := 200
  /** Elapsed time after which a latched sound opens a real segment. */
  const SUSTAIN_MS: int := 500
  /** Elapsed time after which a silent probe is recycled. */
  const PROBE_RESTART_MS: int := 5000
  const READS_PER_BURST: nat := 10
  /** Timeout passed to `WakeLock.acquire`. */
  const WAKE_LOCK_TIMEOUT_MS: int := 10 * 60 * 1000

  datatype CaptureState = Idle | Monitoring | Recording

  /** `currentOutputFile`: the real segment's path and its last component. */
  datatype SegmentFile = SegmentFile(path: string, name: string)

  /** Work handed to the platform, in the order the service asks for it. */
  datatype Effect =
    | ProbeOpened
    | SegmentOpened(path: string)
    | TempFilesDeleted
    | SegmentDeleted(path: string)
    | SaveHandedOff(fileName: string, durationMs: int, fileSizeBytes: int)
    | WakeLockAcquired(at: int)
    | WakeLockReleased
    | TitleJobCancelled(job: nat)
    | TranscriptWritten(id: int, text: string, at: int)
    | TitleJobLaunched(job: nat, id: int, text: string)
    | TitleWritten(id: int, title: string, at: int)

  /**
   * The service's fields. `recorderOpen` is `mediaRecorder != null`;
   * `wakeLock` holds the time of `acquire` while a lock object exists;
   * `titleJob` is `titleGenerationJob`, jobs being numbered from `nextJob`.
   */
  datatype Svc = Svc(
    state: CaptureState,
    recordingStartTime: int,
    lastSoundTime: int,
    recorderOpen: bool,
    outputFile: Option<SegmentFile>,
    wakeLock: Option<int>,
    titleJob: Option<nat>,
    nextJob: nat,
    log: seq<Effect>)

  const Initial: Svc := Svc(Idle, 0, 0, false, None, None, None, 0, [])

  /** Where `checkAudioAndRecord` stands: at the `when`, or inside the probe loop with its locals. */
  datatype LoopPos = AtBranch | InProbeLoop(startTime: int, soundDetected: bool)

  datatype Next = Next(svc: Svc, pos: LoopPos)

  /** One amplitude read of a recording burst and the clock after it. */
  datatype Read = Read(amplitude: int, at: int)

  /**
   * What the world supplies to one step of the loop: the clock (`now`, and the
   * calendar `local` used for a new segment's path), the recorder's amplitude,
   * whether closing and opening a recorder succeed, the length of the output
   * file, and for a recording burst its reads and the clock after them.
   */
  datatype StepIn = StepIn(
    now: int,
    local: LocalTime,
    amplitude: int,
    closeOk: bool,
    fileSize: int,
    openOk: bool,
    samples: seq<Read>,
    burstEnd: int)

  /**
   * The state is IDLE exactly when no wake-lock object exists, and an idle
   * service has no recorder and no output file.
   */
  ghost predicate Inv(s: Svc) {
    && (s.state == Idle <==> s.wakeLock.None?)
    && (s.state == Idle ==> !s.recorderOpen && s.outputFile.None?)
  }

  lemma InitialInv()
    ensures Inv(Initial) && Initial.state == Idle && Initial.log == []
  {
  }

  // ---------------------------------------------------------------- wake lock

  /** Whether the lock acquired with a ten-minute timeout is still held at `now`. */
  predicate WakeHeld(s: Svc, now: int) {
    s.wakeLock.Some? && now - s.wakeLock.value < WAKE_LOCK_TIMEOUT_MS
  }

  /** `acquireWakeLock`: a new lock only when none exists. */
  function AcquireWakeLock(s: Svc, now: int): (r: Svc)
    ensures r.wakeLock.Some?
    ensures s.wakeLock.Some? ==> r == s
    ensures s.wakeLock.None? ==> WakeHeld(r, now) && r.log == s.log + [WakeLockAcquired(now)]
    ensures r.state == s.state && r.recorderOpen == s.recorderOpen && r.outputFile == s.outputFile
  {
    if s.wakeLock.None? then s.(wakeLock := Some(now), log := s.log + [WakeLockAcquired(now)]) else s
  }

  /** `releaseWakeLock`: released only while still held; the reference is cleared either way. */
  function ReleaseWakeLock(s: Svc, now: int): (r: Svc)
    ensures r.wakeLock.None? && !WakeHeld(r, now)
    ensures |s.log| <= |r.log| && r.log[..|s.log|] == s.log
    ensures r.log[|s.log|..] == (if WakeHeld(s, now) then [WakeLockReleased] else [])
    ensures r.state == s.state && r.recorderOpen == s.recorderOpen && r.outputFile == s.outputFile
    ensures r.titleJob == s.titleJob
  {
    var r := s.(wakeLock := None, log := s.log + (if WakeHeld(s, now) then [WakeLockReleased] else []));
    assert r.log[|s.log|..] == (if WakeHeld(s, now) then [WakeLockReleased] else []);
    r
  }

  /** The ten-minute timeout is never renewed: a lock acquired at `t` lapses at `t + 600000`. */
  lemma WakeLockLapses(s: Svc, now: int)
    requires s.wakeLock.Some? && now >= s.wakeLock.value + WAKE_LOCK_TIMEOUT_MS
    ensures !WakeHeld(s, now)
    ensures StartMonitoring(s, now).wakeLock == s.wakeLock
  {
  }

  // ---------------------------------------------------------------- control

  /** `startMonitoring`: only from IDLE; then MONITORING and a held wake lock. */
  function StartMonitoring(s: Svc, now: int): (r: Svc)
    ensures s.state != Idle ==> r == s
    ensures s.state == Idle ==> r.state == Monitoring && r.wakeLock.Some?
    ensures s.state == Idle && s.wakeLock.None? ==> WakeHeld(r, now)
    ensures s.wakeLock.Some? ==> r.wakeLock == s.wakeLock
  {
    if s.state != Idle then s else AcquireWakeLock(s.(state := Monitoring), now)
  }

  /** Closing a real segment hands it to `saveRecording`: it lasted 2 s or more and its file is not empty. */
  predicate Saves(s: Svc, now: int, closeOk: bool, fileSize: int) {
    s.recorderOpen && closeOk && s.outputFile.Some?
    && now - s.recordingStartTime >= MIN_RECORDING_MS && fileSize > 0
  }

  /**
   * `stopCurrentRecorder`: with no recorder nothing is closed; a failing `stop`
   * is swallowed; a probe (no output file) ends with the temporary files
   * deleted; a real segment is saved or, when too short or empty, deleted. The
   * recorder and the output file are cleared on every path.
   */
  function StopCurrentRecorder(s: Svc, now: int, closeOk: bool, fileSize: int): (r: Svc)
    ensures !r.recorderOpen && r.outputFile.None?
    ensures r == s.(recorderOpen := false, outputFile := None, log := r.log)
    ensures |s.log| <= |r.log| <= |s.log| + 1 && r.log[..|s.log|] == s.log
    ensures (|r.log| > |s.log| && r.log[|s.log|].SaveHandedOff?) <==> Saves(s, now, closeOk, fileSize)
    ensures Saves(s, now, closeOk, fileSize) ==>
              r.log[|s.log|] == SaveHandedOff(s.outputFile.value.name, now - s.recordingStartTime, fileSize)
    ensures s.recorderOpen && closeOk && s.outputFile.None? ==> r.log == s.log + [TempFilesDeleted]
    ensures s.recorderOpen && closeOk && s.outputFile.Some? && !Saves(s, now, closeOk, fileSize) ==>
              r.log == s.log + [SegmentDeleted(s.outputFile.value.path)]
    ensures !s.recorderOpen || !closeOk ==> r.log == s.log
    ensures forall e :: e in r.log[|s.log|..] ==> e == TempFilesDeleted || e.SaveHandedOff? || e.SegmentDeleted?
  {
    var cleared := s.(recorderOpen := false, outputFile := None);
    if !s.recorderOpen || !closeOk then cleared
    else
      match s.outputFile
      case None => cleared.(log := s.log + [TempFilesDeleted])
      case Some(f) =>
        var duration := now - s.recordingStartTime;
        var e := if duration >= MIN_RECORDING_MS && fileSize > 0 then SaveHandedOff(f.name, duration, fileSize)
                 else SegmentDeleted(f.path);
        cleared.(log := s.log + [e])
  }

  /** A probe never produces a save, whatever the clock and the file sizes say. */
  lemma ProbeNeverSaves(s: Svc, now: int, closeOk: bool, fileSize: int)
    requires s.outputFile.None?
    ensures forall e :: e in StopCurrentRecorder(s, now, closeOk, fileSize).log[|s.log|..] ==> !e.SaveHandedOff?
  {
    var r := StopCurrentRecorder(s, now, closeOk, fileSize);
    assert r.log[|s.log|..] == [] || r.log[|s.log|..] == [TempFilesDeleted];
  }

  /**
   * `stopMonitoring`: not from IDLE. Otherwise the last stored title job is
   * cancelled, the recorder is closed as by `stopCurrentRecorder`, the state
   * becomes IDLE and the wake lock is released and cleared.
   */
  function StopMonitoring(s: Svc, now: int, closeOk: bool, fileSize: int): (r: Svc)
    ensures s.state == Idle ==> r == s
    ensures s.state != Idle ==>
      && r.state == Idle && !r.recorderOpen && r.outputFile.None? && r.wakeLock.None? && r.titleJob.None?
      && r.log == s.log + TitleCancel(s) + StopCurrentRecorder(s, now, closeOk, fileSize).log[|s.log|..]
                  + (if WakeHeld(s, now) then [WakeLockReleased] else [])
  {
    if s.state == Idle then s
    else
      var cancelled := s.(titleJob := None, log := s.log + TitleCancel(s));
      var closed := StopCurrentRecorder(cancelled, now, closeOk, fileSize);
      assert closed.log[|cancelled.log|..] == StopCurrentRecorder(s, now, closeOk, fileSize).log[|s.log|..];
      ReleaseWakeLock(closed.(state := Idle), now)
  }

  /** The cancellation `stopMonitoring` issues: the stored title job, if any. */
  function TitleCancel(s: Svc): (c: seq<Effect>)
    ensures |c| <= 1 && (c != [] <==> s.titleJob.Some?)
    ensures forall e :: e in c ==> e == TitleJobCancelled(s.titleJob.value)
  {
    if s.titleJob.Some? then [TitleJobCancelled(s.titleJob.value)] else []
  }

  /** What stopping appends to the log: the cancellation, the recorder's close, the release. */
  lemma StopMonitoringAdded(s: Svc, now: int, closeOk: bool, fileSize: int)
    requires s.state != Idle
    ensures StopMonitoring(s, now, closeOk, fileSize).log[|s.log|..]
         == TitleCancel(s) + StopCurrentRecorder(s, now, closeOk, fileSize).log[|s.log|..]
            + (if WakeHeld(s, now) then [WakeLockReleased] else [])
  {
  }

  /** Stopping releases the wake lock exactly when it is still held. */
  lemma StopMonitoringReleasesHeldLock(s: Svc, now: int, closeOk: bool, fileSize: int)
    requires s.state != Idle
    ensures WakeLockReleased in StopMonitoring(s, now, closeOk, fileSize).log[|s.log|..] <==> WakeHeld(s, now)
  {
    StopMonitoringAdded(s, now, closeOk, fileSize);
    var closing := StopCurrentRecorder(s, now, closeOk, fileSize).log[|s.log|..];
    assert WakeLockReleased !in TitleCancel(s) && WakeLockReleased !in closing;
  }

  /**
   * Stopping closes the segment in progress as `stopCurrentRecorder` does: it
   * is handed to `saveRecording`, for its full length, exactly when it lasted
   * 2 s or more and its file is not empty.
   */
  lemma StopMonitoringSavesSegment(s: Svc, now: int, closeOk: bool, fileSize: int)
    requires s.state != Idle
    ensures var added := StopMonitoring(s, now, closeOk, fileSize).log[|s.log|..];
      && ((exists e :: e in added && e.SaveHandedOff?) <==> Saves(s, now, closeOk, fileSize))
      && (Saves(s, now, closeOk, fileSize) ==>
            SaveHandedOff(s.outputFile.value.name, now - s.recordingStartTime, fileSize) in added)
  {
    if Saves(s, now, closeOk, fileSize) {
      StopMonitoringSaves(s, now, closeOk, fileSize);
    } else {
      StopMonitoringDiscards(s, now, closeOk, fileSize);
    }
  }

  lemma StopMonitoringSaves(s: Svc, now: int, closeOk: bool, fileSize: int)
    requires s.state != Idle && Saves(s, now, closeOk, fileSize)
    ensures SaveHandedOff(s.outputFile.value.name, now - s.recordingStartTime, fileSize)
            in StopMonitoring(s, now, closeOk, fileSize).log[|s.log|..]
  {
    StopMonitoringAdded(s, now, closeOk, fileSize);
    var closed := StopCurrentRecorder(s, now, closeOk, fileSize);
    assert closed.log[|s.log|..] == [closed.log[|s.log|]];
  }

  lemma StopMonitoringDiscards(s: Svc, now: int, closeOk: bool, fileSize: int)
    requires s.state != Idle && !Saves(s, now, closeOk, fileSize)
    ensures forall e :: e in StopMonitoring(s, now, closeOk, fileSize).log[|s.log|..] ==> !e.SaveHandedOff?
  {
    StopMonitoringAdded(s, now, closeOk, fileSize);
    var closing := StopCurrentRecorder(s, now, closeOk, fileSize).log[|s.log|..];
    assert |closing| == 0 || !closing[0].SaveHandedOff?;
    assert forall e :: e in closing ==> !e.SaveHandedOff?;
  }

  /** Only the most recently stored title job is cancelled; an older one is not. */
  lemma StopCancelsOnlyLatestTitleJob(s: Svc, now: int, closeOk: bool, fileSize: int, job: nat)
    requires s.state != Idle
    ensures TitleJobCancelled(job) in StopMonitoring(s, now, closeOk, fileSize).log[|s.log|..]
            <==> s.titleJob == Some(job)
  {
    var cancels := if s.titleJob.Some? then [TitleJobCancelled(s.titleJob.value)] else [];
    var c := s.(titleJob := None, log := s.log + cancels);
    var closed := StopCurrentRecorder(c, now, closeOk, fileSize);
    var stopped := closed.(state := Idle);
    var r := ReleaseWakeLock(stopped, now);
    var closing := closed.log[|c.log|..];
    var releasing := r.log[|stopped.log|..];
    assert closed.log == c.log + closing;
    assert r.log == stopped.log + releasing;
    assert r.log[|s.log|..] == cancels + closing + releasing;
    assert TitleJobCancelled(job) !in closing;
    assert TitleJobCancelled(job) !in releasing;
  }

  // ---------------------------------------------------------------- opening recorders

  /** `startRecordingToTemp`: a failing open leaves the recorder reference as it was. */
  function StartRecordingToTemp(s: Svc, openOk: bool): (r: Svc)
    ensures openOk ==> r.recorderOpen && r.log == s.log + [ProbeOpened]
    ensures !openOk ==> r == s
    ensures r.state == s.state && r.outputFile == s.outputFile && r.wakeLock == s.wakeLock
  {
    if openOk then s.(recorderOpen := true, log := s.log + [ProbeOpened]) else s
  }

  /** The segment file `getNewRecordingFilePath` hands out for the clock reading `t`. */
  function SegmentFor(t: LocalTime): (f: SegmentFile)
    ensures f.path == FileFor(DayFolder(t), HourFolder(t.hour), f.name)
  {
    var name := TimestampToFileName(t) + EXTENSION;
    SegmentFile(FileFor(DayFolder(t), HourFolder(t.hour), name), name)
  }

  /**
   * `startActualRecording`: the output file is set before the recorder is
   * built; on success the segment's start time and last-sound time are `now`;
   * on failure the state falls back to MONITORING and the output file stays set.
   */
  function StartActualRecording(s: Svc, f: SegmentFile, openOk: bool, now: int): (r: Svc)
    ensures r.outputFile == Some(f) && r.wakeLock == s.wakeLock
    ensures openOk ==> r.state == s.state && r.recorderOpen
                       && r.recordingStartTime == now && r.lastSoundTime == now
                       && r.log == s.log + [SegmentOpened(f.path)]
    ensures !openOk ==> r.state == Monitoring && r.recorderOpen == s.recorderOpen && r.log == s.log
                        && r.recordingStartTime == s.recordingStartTime
  {
    var withFile := s.(outputFile := Some(f));
    if openOk then
      withFile.(recorderOpen := true, recordingStartTime := now, lastSoundTime := now,
                log := s.log + [SegmentOpened(f.path)])
    else withFile.(state := Monitoring)
  }

  // ---------------------------------------------------------------- the capture loop

  /** `mediaRecorder?.maxAmplitude ?: 0`. */
  function Volume(s: Svc, amplitude: int): int {
    if s.recorderOpen then amplitude else 0
  }

  /**
   * One pass of the probe loop: the latch `soundDetected` is set by any sample
   * above 100; once it is set and more than 500 ms have passed since the loop
   * began, the probe is closed and a real segment opened (the loop breaks);
   * while it is clear and more than 5000 ms have passed, the probe is closed
   * and reopened. `startTime` is never changed.
   */
  function ProbeTick(s: Svc, startTime: int, soundDetected: bool, t: StepIn): (r: Next)
    ensures r.svc.wakeLock == s.wakeLock && r.svc.titleJob == s.titleJob && r.svc.nextJob == s.nextJob
    ensures r.pos.InProbeLoop? ==>
              && r.pos.startTime == startTime
              && r.pos.soundDetected == (soundDetected || Volume(s, t.amplitude) > VOLUME_THRESHOLD)
              && r.svc.state == s.state
    ensures r.pos.AtBranch? <==> (soundDetected || Volume(s, t.amplitude) > VOLUME_THRESHOLD) && t.now - startTime > SUSTAIN_MS
  {
    var detected := soundDetected || Volume(s, t.amplitude) > VOLUME_THRESHOLD;
    if detected && t.now - startTime > SUSTAIN_MS then
      var closed := StopCurrentRecorder(s, t.now, t.closeOk, t.fileSize);
      Next(StartActualRecording(closed.(state := Recording), SegmentFor(t.local), t.openOk, t.now), AtBranch)
    else if !detected && t.now - startTime > PROBE_RESTART_MS then
      Next(StartRecordingToTemp(StopCurrentRecorder(s, t.now, t.closeOk, t.fileSize), t.openOk),
           InProbeLoop(startTime, detected))
    else Next(s, InProbeLoop(startTime, detected))
  }

  /** `lastSoundTime` after a burst: the time of the last loud read, or the burst's start. */
  function LastSound(s: Svc, start: int, samples: seq<Read>): int
    decreases |samples|
  {
    if samples == [] then start
    else
      var last := samples[|samples| - 1];
      if Volume(s, last.amplitude) > VOLUME_THRESHOLD then last.at else LastSound(s, start, samples[..|samples| - 1])
  }

  /**
   * The stop rule of the RECORDING branch, read at the end of the burst: the
   * segment has lasted 2 s or more and nothing above 100 has been heard for
   * ten minutes.
   */
  predicate SilenceEnds(s: Svc, t: StepIn) {
    && t.burstEnd - s.recordingStartTime >= MIN_RECORDING_MS
    && t.burstEnd - LastSound(s, t.now, t.samples) >= SILENCE_THRESHOLD_MS
  }

  /**
   * One pass of the RECORDING branch: a burst of samples sets `lastSoundTime`;
   * when the stop rule holds the recorder is closed as by `stopCurrentRecorder`
   * and the state returns to MONITORING, otherwise nothing else changes.
   */
  function Burst(s: Svc, t: StepIn): (r: Svc)
    ensures r.wakeLock == s.wakeLock && r.titleJob == s.titleJob && r.nextJob == s.nextJob
    ensures r.state == s.state || r.state == Monitoring
    ensures r.lastSoundTime == LastSound(s, t.now, t.samples)
    ensures SilenceEnds(s, t) ==>
              r.state == Monitoring && !r.recorderOpen && r.outputFile.None?
    ensures !SilenceEnds(s, t) ==> r == s.(lastSoundTime := r.lastSoundTime)
  {
    var heard := s.(lastSoundTime := LastSound(s, t.now, t.samples));
    var recordingDuration := t.burstEnd - heard.recordingStartTime;
    var silenceDuration := t.burstEnd - heard.lastSoundTime;
    if recordingDuration >= MIN_RECORDING_MS && silenceDuration >= SILENCE_THRESHOLD_MS then
      StopCurrentRecorder(heard, t.burstEnd, t.closeOk, t.fileSize).(state := Monitoring)
    else heard
  }

  /**
   * `checkAudioAndRecord` over a finite stretch of inputs: the loop runs while
   * the state is not IDLE; entering MONITORING opens a probe and starts the
   * probe loop, whose passes each take one input; RECORDING takes one input per burst.
   */
  function Run(s: Svc, pos: LoopPos, ins: seq<StepIn>): (r: Svc)
    ensures r.wakeLock == s.wakeLock && r.titleJob == s.titleJob && r.nextJob == s.nextJob
    ensures s.state == Idle ==> r == s
    decreases |ins|, if pos.InProbeLoop? then 1 else 0
  {
    if s.state == Idle then s
    else
      match pos
      case InProbeLoop(startTime, detected) =>
        if s.state != Monitoring then Run(s, AtBranch, ins)
        else if ins == [] then s
        else
          var n := ProbeTick(s, startTime, detected, ins[0]);
          Run(n.svc, n.pos, ins[1..])
      case AtBranch =>
        if ins == [] then s
        else if s.state == Monitoring then
          Run(StartRecordingToTemp(s, ins[0].openOk), InProbeLoop(ins[0].now, false), ins[1..])
        else Run(Burst(s, ins[0]), AtBranch, ins[1..])
  }

  /** One pass from the branch while MONITORING opens a probe and enters the probe loop. */
  lemma RunMonitoringStep(s: Svc, ins: seq<StepIn>)
    requires s.state == Monitoring && ins != []
    ensures Run(s, AtBranch, ins)
         == Run(StartRecordingToTemp(s, ins[0].openOk), InProbeLoop(ins[0].now, false), ins[1..])
  {
  }

  /** One pass from the branch while RECORDING is one burst. */
  lemma RunRecordingStep(s: Svc, ins: seq<StepIn>)
    requires s.state == Recording && ins != []
    ensures Run(s, AtBranch, ins) == Run(Burst(s, ins[0]), AtBranch, ins[1..])
  {
  }

  /** One probe-loop pass while MONITORING. */
  lemma RunProbeStep(s: Svc, startTime: int, detected: bool, ins: seq<StepIn>)
    requires s.state == Monitoring && ins != []
    ensures var n := ProbeTick(s, startTime, detected, ins[0]);
      Run(s, InProbeLoop(startTime, detected), ins) == Run(n.svc, n.pos, ins[1..])
  {
  }

  /** With no inputs left, the loop ends where it is. */
  lemma RunDone(s: Svc, pos: LoopPos)
    ensures Run(s, pos, []) == s
  {
  }

  /** The loop keeps the invariant, never reaches IDLE by itself and never touches the wake lock or title job. */
  lemma {:induction false} RunPreserves(s: Svc, pos: LoopPos, ins: seq<StepIn>)
    requires Inv(s)
    ensures var r := Run(s, pos, ins);
      Inv(r) && r.wakeLock == s.wakeLock && r.titleJob == s.titleJob && r.nextJob == s.nextJob
      && (s.state == Idle <==> r.state == Idle)
    decreases |ins|, if pos.InProbeLoop? then 1 else 0
  {
    if s.state == Idle {
    } else {
      match pos
      case InProbeLoop(startTime, detected) =>
        if s.state != Monitoring {
          RunPreserves(s, AtBranch, ins);
        } else if ins != [] {
          var n := ProbeTick(s, startTime, detected, ins[0]);
          assert n.svc.state != Idle;
          RunPreserves(n.svc, n.pos, ins[1..]);
        }
      case AtBranch =>
        if ins != [] {
          if s.state == Monitoring {
            RunPreserves(StartRecordingToTemp(s, ins[0].openOk), InProbeLoop(ins[0].now, false), ins[1..]);
          } else {
            RunPreserves(Burst(s, ins[0]), AtBranch, ins[1..]);
          }
        }
    }
  }

  // ---------------------------------------------------------------- the latch

  /** A sample that is quiet now still opens a segment when the latch was set earlier and 500 ms have passed. */
  lemma LatchOpensSegmentOnQuietSample(s: Svc, startTime: int, t: StepIn)
    requires t.amplitude <= VOLUME_THRESHOLD && t.now - startTime > SUSTAIN_MS
    ensures var n := ProbeTick(s, startTime, true, t);
      && n.pos == AtBranch
      && n.svc.outputFile == Some(SegmentFor(t.local))
      && (t.openOk ==> n.svc.state == Recording && n.svc.recorderOpen && n.svc.recordingStartTime == t.now)
      && (!t.openOk ==> n.svc.state == Monitoring && !n.svc.recorderOpen)
  {
  }

  /** A loud sample within the first 500 ms only sets the latch. */
  lemma EarlySoundOnlyLatches(s: Svc, startTime: int, t: StepIn)
    requires s.recorderOpen && t.amplitude > VOLUME_THRESHOLD && t.now - startTime <= SUSTAIN_MS
    ensures ProbeTick(s, startTime, false, t) == Next(s, InProbeLoop(startTime, true))
  {
  }

  /** A quiet sample in the first 500 ms changes nothing. */
  lemma QuietEarlyTickKeeps(s: Svc, startTime: int, t: StepIn)
    requires t.amplitude <= VOLUME_THRESHOLD && t.now - startTime <= SUSTAIN_MS
    ensures ProbeTick(s, startTime, false, t) == Next(s, InProbeLoop(startTime, false))
  {
  }

  /**
   * Samples every 200 ms of 0, 0, 0, then 150: the segment opens on the
   * fourth sample (600 ms after the probe loop began), since one loud sample
   * and more than 500 ms are enough.
   */
  lemma FirstLoudSampleAfterHalfSecondSwitches(s: Svc, startTime: int, ins: seq<StepIn>)
    requires s.state == Monitoring && s.recorderOpen
    requires |ins| == 4 && ins[3].openOk
    requires forall k :: 0 <= k < 4 ==> ins[k].now == startTime + CHECK_INTERVAL_MS * k
    requires ins[0].amplitude == 0 && ins[1].amplitude == 0 && ins[2].amplitude == 0 && ins[3].amplitude == 150
    ensures Run(s, InProbeLoop(startTime, false), ins[..3]) == s
    ensures Run(s, InProbeLoop(startTime, false), ins).state == Recording
  {
    var p := InProbeLoop(startTime, false);
    QuietEarlyTickKeeps(s, startTime, ins[0]);
    QuietEarlyTickKeeps(s, startTime, ins[1]);
    QuietEarlyTickKeeps(s, startTime, ins[2]);
    assert ins[1..][1..][1..] == [ins[3]];
    assert ins[..3][1..][1..][1..] == [];
    calc {
      Run(s, p, ins);
      Run(s, p, ins[1..]);
      Run(s, p, ins[1..][1..]);
      Run(s, p, ins[1..][1..][1..]);
    }
    calc {
      Run(s, p, ins[..3]);
      Run(s, p, ins[..3][1..]);
      Run(s, p, ins[..3][1..][1..]);
      Run(s, p, ins[..3][1..][1..][1..]);
    }
    var n := ProbeTick(s, startTime, false, ins[3]);
    assert n.pos == AtBranch && n.svc.state == Recording;
    assert Run(s, p, [ins[3]]) == Run(n.svc, AtBranch, []);
  }

  // ---------------------------------------------------------------- recycling

  /** `count` rounds of closing a probe (temporary files deleted) and opening a new one. */
  function Recycles(count: nat): seq<Effect> {
    if count == 0 then [] else [TempFilesDeleted, ProbeOpened] + Recycles(count - 1)
  }

  ghost predicate QuietLateTick(startTime: int, t: StepIn) {
    t.amplitude <= VOLUME_THRESHOLD && t.now - startTime > PROBE_RESTART_MS && t.closeOk && t.openOk
  }

  /**
   * Because `startTime` is never reset, once 5 s have passed without sound the
   * probe is closed and reopened on every further pass, not once per 5 s.
   */
  lemma {:induction false} SilentProbeRecycledEveryTick(s: Svc, startTime: int, ins: seq<StepIn>)
    requires s.state == Monitoring && s.recorderOpen && s.outputFile.None?
    requires forall k :: 0 <= k < |ins| ==> QuietLateTick(startTime, ins[k])
    ensures Run(s, InProbeLoop(startTime, false), ins) == s.(log := s.log + Recycles(|ins|))
    decreases |ins|
  {
    if ins != [] {
      var n := ProbeTick(s, startTime, false, ins[0]);
      var s1 := s.(log := s.log + [TempFilesDeleted, ProbeOpened]);
      assert QuietLateTick(startTime, ins[0]);
      assert n == Next(s1, InProbeLoop(startTime, false));
      assert forall k :: 0 <= k < |ins[1..]| ==> ins[1..][k] == ins[k + 1];
      SilentProbeRecycledEveryTick(s1, startTime, ins[1..]);
      assert s1.log + Recycles(|ins| - 1) == s.log + Recycles(|ins|);
    }
  }

  // ---------------------------------------------------------------- the silence rule

  ghost predicate BurstWithinTimeout(t: StepIn) {
    && t.burstEnd - t.now < SILENCE_THRESHOLD_MS
    && forall k :: 0 <= k < |t.samples| ==> t.samples[k].at >= t.now
  }

  lemma {:induction false} LastSoundNotBeforeStart(s: Svc, start: int, samples: seq<Read>)
    requires forall k :: 0 <= k < |samples| ==> samples[k].at >= start
    ensures LastSound(s, start, samples) >= start
    decreases |samples|
  {
    if samples != [] {
      var front := samples[..|samples| - 1];
      assert forall k :: 0 <= k < |front| ==> front[k] == samples[k];
      LastSoundNotBeforeStart(s, start, front);
    }
  }

  /**
   * `lastSoundTime` is set to the start of every burst, so the silence measured
   * after a burst never exceeds the burst's own length: a burst shorter than
   * ten minutes never closes the segment.
   */
  lemma BurstNeverCloses(s: Svc, t: StepIn)
    requires BurstWithinTimeout(t)
    ensures var r := Burst(s, t);
      r == s.(lastSoundTime := r.lastSoundTime) && t.now <= r.lastSoundTime
  {
    LastSoundNotBeforeStart(s, t.now, t.samples);
  }

  /** Closing on silence hands the segment on exactly as `stopCurrentRecorder` does at the burst's end. */
  lemma BurstClosesAsStopCurrentRecorder(s: Svc, t: StepIn)
    requires SilenceEnds(s, t)
    ensures Burst(s, t).log == StopCurrentRecorder(s, t.burstEnd, t.closeOk, t.fileSize).log
  {
  }

  /** `lastSoundTime` is the time of the last read above 100; with none it stays at the burst's start. */
  lemma {:induction false} LastSoundIsLastLoudRead(s: Svc, start: int, samples: seq<Read>, k: int)
    requires -1 <= k < |samples|
    requires k >= 0 ==> Volume(s, samples[k].amplitude) > VOLUME_THRESHOLD
    requires forall j :: k < j < |samples| ==> Volume(s, samples[j].amplitude) <= VOLUME_THRESHOLD
    ensures LastSound(s, start, samples) == if k < 0 then start else samples[k].at
    decreases |samples|
  {
    if samples != [] && k < |samples| - 1 {
      var front := samples[..|samples| - 1];
      assert forall j :: k < j < |front| ==> front[j] == samples[j];
      LastSoundIsLastLoudRead(s, start, front, k);
    }
  }

  /**
   * A burst that ends ten minutes after its last loud read, in a segment of
   * 2 s or more, closes the segment and returns to MONITORING: the segment is
   * handed to `saveRecording` when its file is not empty, and deleted otherwise.
   */
  lemma BurstAfterLongSilence(s: Svc, t: StepIn, k: int)
    requires s.state == Recording && s.recorderOpen && s.outputFile.Some? && t.closeOk
    requires -1 <= k < |t.samples|
    requires k >= 0 ==> Volume(s, t.samples[k].amplitude) > VOLUME_THRESHOLD
    requires forall j :: k < j < |t.samples| ==> Volume(s, t.samples[j].amplitude) <= VOLUME_THRESHOLD
    requires t.burstEnd - (if k < 0 then t.now else t.samples[k].at) >= SILENCE_THRESHOLD_MS
    requires t.burstEnd - s.recordingStartTime >= MIN_RECORDING_MS
    ensures var r := Burst(s, t);
      && r.state == Monitoring && !r.recorderOpen && r.outputFile.None?
      && r.log == s.log + [if t.fileSize > 0
                           then SaveHandedOff(s.outputFile.value.name, t.burstEnd - s.recordingStartTime, t.fileSize)
                           else SegmentDeleted(s.outputFile.value.path)]
  {
    LastSoundIsLastLoudRead(s, t.now, t.samples, k);
    BurstClosesAsStopCurrentRecorder(s, t);
  }

  /** Hence the loop never leaves RECORDING by itself: only `stopMonitoring` ends a segment. */
  lemma {:induction false} RecordingNeverEndsBySilence(s: Svc, ins: seq<StepIn>)
    requires s.state == Recording
    requires forall k :: 0 <= k < |ins| ==> BurstWithinTimeout(ins[k])
    ensures var r := Run(s, AtBranch, ins);
      r == s.(lastSoundTime := r.lastSoundTime)
    decreases |ins|
  {
    if ins != [] {
      BurstNeverCloses(s, ins[0]);
      var b := Burst(s, ins[0]);
      assert forall k :: 0 <= k < |ins[1..]| ==> ins[1..][k] == ins[k + 1];
      RecordingNeverEndsBySilence(b, ins[1..]);
    }
  }

  // ---------------------------------------------------------------- a stale output file

  /**
   * After a failed `startActualRecording` the output file stays set, so the
   * next probe is closed as if it were that segment: its temporary files are
   * not deleted, and the failed segment's file is saved or deleted instead.
   */
  lemma ProbeAfterFailedOpenClosedAsSegment(s: Svc, f: SegmentFile, now: int, fileSize: int, openNow: bool)
    requires s.state == Recording && !s.recorderOpen
    ensures var failed := StartActualRecording(s, f, false, now);
      var probing := StartRecordingToTemp(failed, true);
      var closed := StopCurrentRecorder(probing, now, true, fileSize);
      && failed.state == Monitoring && failed.outputFile == Some(f)
      && probing.recorderOpen && probing.outputFile == Some(f)
      && TempFilesDeleted !in closed.log[|probing.log|..]
      && |closed.log| == |probing.log| + 1
      && (closed.log[|probing.log|] == SegmentDeleted(f.path) || closed.log[|probing.log|].SaveHandedOff?)
  {
  }

  // ---------------------------------------------------------------- enrichment

  /**
   * `startAutoTranscription` for a saved recording: nothing when the speech
   * model is not ready or transcription fails; on success the transcript is
   * written and then, only then, a title job is launched and stored.
   */
  function AutoTranscription(s: Svc, recording: RecordingData.Recording, modelReady: bool, result: Result<string>, at: int): (r: Svc)
    ensures !(modelReady && result.Success?) ==> r == s
    ensures modelReady && result.Success? ==>
      && r.titleJob == Some(s.nextJob) && r.nextJob == s.nextJob + 1
      && r.log == s.log + [TranscriptWritten(recording.id, result.value, at),
                           TitleJobLaunched(s.nextJob, recording.id, result.value)]
    ensures r.state == s.state && r.wakeLock == s.wakeLock && r.recorderOpen == s.recorderOpen
  {
    if modelReady && result.Success? then
      GenerateAiTitle(s.(log := s.log + [TranscriptWritten(recording.id, result.value, at)]), recording.id, result.value)
    else s
  }

  /** `generateAiTitle`: launch a job and keep only it in `titleGenerationJob`. */
  function GenerateAiTitle(s: Svc, id: int, text: string): (r: Svc)
    ensures r.titleJob == Some(s.nextJob) && r.nextJob == s.nextJob + 1
    ensures r.log == s.log + [TitleJobLaunched(s.nextJob, id, text)]
    ensures r.state == s.state && r.wakeLock == s.wakeLock && r.recorderOpen == s.recorderOpen
  {
    s.(titleJob := Some(s.nextJob), nextJob := s.nextJob + 1, log := s.log + [TitleJobLaunched(s.nextJob, id, text)])
  }

  /** The end of a title job: the title is written only when one was produced; failures are dropped. */
  function TitleJobDone(s: Svc, id: int, outcome: Result<string>, at: int): (r: Svc)
    ensures outcome.Failure? ==> r == s
    ensures outcome.Success? ==> r == s.(log := s.log + [TitleWritten(id, outcome.value, at)])
  {
    match outcome
    case Success(title) => s.(log := s.log + [TitleWritten(id, title, at)])
    case Failure(_) => s
  }

  /** A title job is launched only right after a transcript was written for the same recording. */
  lemma TitleJobFollowsTranscript(s: Svc, recording: RecordingData.Recording, modelReady: bool, result: Result<string>, at: int)
    ensures var r := AutoTranscription(s, recording, modelReady, result, at);
      forall i :: |s.log| <= i < |r.log| && r.log[i].TitleJobLaunched? ==>
        && i > |s.log|
        && r.log[i - 1] == TranscriptWritten(r.log[i].id, r.log[i].text, at)
  {
  }

  /** Two transcripts in a row leave only the second title job cancellable by `stopMonitoring`. */
  lemma SecondTitleJobHidesFirst(s: Svc, a: RecordingData.Recording, b: RecordingData.Recording, ta: string, tb: string,
                                 at: int, now: int, closeOk: bool, fileSize: int)
    requires s.state != Idle
    ensures var two := AutoTranscription(AutoTranscription(s, a, true, Success(ta), at), b, true, Success(tb), at);
      var stopped := StopMonitoring(two, now, closeOk, fileSize);
      && TitleJobCancelled(s.nextJob + 1) in stopped.log[|two.log|..]
      && TitleJobCancelled(s.nextJob) !in stopped.log[|two.log|..]
  {
    var two := AutoTranscription(AutoTranscription(s, a, true, Success(ta), at), b, true, Success(tb), at);
    assert two.titleJob == Some(s.nextJob + 1) && two.state != Idle;
    StopCancelsOnlyLatestTitleJob(two, now, closeOk, fileSize, s.nextJob + 1);
    StopCancelsOnlyLatestTitleJob(two, now, closeOk, fileSize, s.nextJob);
  }

  // ---------------------------------------------------------------- invariant of the control steps

  lemma ControlPreservesInv(s: Svc, now: int, closeOk: bool, fileSize: int)
    requires Inv(s)
    ensures Inv(StartMonitoring(s, now))
    ensures Inv(StopMonitoring(s, now, closeOk, fileSize))
    ensures StartMonitoring(s, now).state == Monitoring || StartMonitoring(s, now) == s
  {
  }
}
