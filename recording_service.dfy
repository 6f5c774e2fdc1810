/**
 * The `RecordingService` object: the fields its methods update, and one method
 * per operation, each proved to move the fields as the matching step of `Vad`
 * does. `CheckAudioAndRecord` keeps the source's nested loops: the `when` over
 * the state, the probe loop and the ten-read burst.
 *
 * Launching coroutines is not modelled: the capture loop, the save job and the
 * title job are methods a caller runs, with the world's answers as inputs.
 */
module RecordingService {
  import opened Wrappers
  import opened RecordingData
  import opened RecordingDao
  import opened RecordingRepository
  import LlamaService
  import Vad

  class RecordingService {
    var state: Vad.CaptureState
    var recordingStartTime: int
    var lastSoundTime: int
    var recorderOpen: bool
    var outputFile: Option<Vad.SegmentFile>
    var wakeLock: Option<int>
    var titleJob: Option<nat>
    var nextJob: nat
    /** Work handed to the platform, oldest first. */
    var log: seq<Vad.Effect>
    const repository: RecordingRepository

    function Abs(): Vad.Svc
      reads this
    {
      Vad.Svc(state, recordingStartTime, lastSoundTime, recorderOpen, outputFile, wakeLock, titleJob, nextJob, log)
    }

    ghost predicate Valid()
      reads this, repository, repository.dao
    {
      Vad.Inv(Abs()) && repository.Valid()
    }

    /** `onCreate`: an idle service over `repository`. */
    constructor (repository: RecordingRepository)
      requires repository.Valid()
      ensures Valid() && Abs() == Vad.Initial && this.repository == repository
    {
      state := Vad.Idle;
      recordingStartTime := 0;
      lastSoundTime := 0;
      recorderOpen := false;
      outputFile := None;
      wakeLock := None;
      titleJob := None;
      nextJob := 0;
      log := [];
      this.repository := repository;
    }

    method AcquireWakeLock(now: int)
      modifies this
      ensures Abs() == Vad.AcquireWakeLock(old(Abs()), now)
    {
      if wakeLock.None? {
        wakeLock := Some(now);
        log := log + [Vad.WakeLockAcquired(now)];
      }
    }

    method ReleaseWakeLock(now: int)
      modifies this
      ensures Abs() == Vad.ReleaseWakeLock(old(Abs()), now)
    {
      if wakeLock.Some? && now - wakeLock.value < Vad.WAKE_LOCK_TIMEOUT_MS {
        log := log + [Vad.WakeLockReleased];
      }
      wakeLock := None;
    }

    /** `startMonitoring`; the capture loop it launches is `CheckAudioAndRecord`. */
    method StartMonitoring(now: int)
      requires Valid()
      modifies this
      ensures Valid() && Abs() == Vad.StartMonitoring(old(Abs()), now)
    {
      if state != Vad.Idle {
        return;
      }
      state := Vad.Monitoring;
      AcquireWakeLock(now);
      Vad.ControlPreservesInv(old(Abs()), now, true, 0);
    }

    method StopMonitoring(now: int, closeOk: bool, fileSize: int)
      requires Valid()
      modifies this
      ensures Valid() && Abs() == Vad.StopMonitoring(old(Abs()), now, closeOk, fileSize)
    {
      if state == Vad.Idle {
        return;
      }
      ghost var s := Abs();
      if titleJob.Some? {
        log := log + [Vad.TitleJobCancelled(titleJob.value)];
      }
      titleJob := None;
      ghost var cancelled := Abs();
      assert cancelled == s.(titleJob := None,
                             log := s.log + (if s.titleJob.Some? then [Vad.TitleJobCancelled(s.titleJob.value)] else []));
      StopCurrentRecorder(now, closeOk, fileSize);
      state := Vad.Idle;
      assert Abs() == Vad.StopCurrentRecorder(cancelled, now, closeOk, fileSize).(state := Vad.Idle);
      ReleaseWakeLock(now);
      Vad.ControlPreservesInv(s, now, closeOk, fileSize);
    }

    method StopCurrentRecorder(now: int, closeOk: bool, fileSize: int)
      modifies this
      ensures Abs() == Vad.StopCurrentRecorder(old(Abs()), now, closeOk, fileSize)
    {
      if recorderOpen && closeOk {
        match outputFile {
          case None =>
            log := log + [Vad.TempFilesDeleted];
          case Some(f) =>
            var duration := now - recordingStartTime;
            if duration >= Vad.MIN_RECORDING_MS && fileSize > 0 {
              log := log + [Vad.SaveHandedOff(f.name, duration, fileSize)];
            } else {
              log := log + [Vad.SegmentDeleted(f.path)];
            }
        }
      }
      recorderOpen := false;
      outputFile := None;
    }

    method StartRecordingToTemp(openOk: bool)
      modifies this
      ensures Abs() == Vad.StartRecordingToTemp(old(Abs()), openOk)
    {
      if openOk {
        recorderOpen := true;
        log := log + [Vad.ProbeOpened];
      }
    }

    /** `startActualRecording`: the path comes from the repository, which creates its folders. */
    method StartActualRecording(local: LocalTime, openOk: bool, now: int)
      requires ParentsExist(repository.dirs)
      modifies this, repository
      ensures Abs() == Vad.StartActualRecording(old(Abs()), Vad.SegmentFor(local), openOk, now)
      ensures repository.dao == old(repository.dao) && repository.files == old(repository.files)
      ensures old(repository.dirs) <= repository.dirs && ParentsExist(repository.dirs)
    {
      var path := repository.GetNewRecordingFilePath(local);
      outputFile := Some(Vad.SegmentFile(path, TimestampToFileName(local) + EXTENSION));
      if !openOk {
        state := Vad.Monitoring;
        return;
      }
      recorderOpen := true;
      recordingStartTime := now;
      lastSoundTime := recordingStartTime;
      log := log + [Vad.SegmentOpened(path)];
    }

    /** One pass of the probe loop, with its locals passed in and the latch passed back. */
    method ProbeTick(startTime: int, soundDetected: bool, t: Vad.StepIn) returns (detected: bool, stop: bool)
      requires ParentsExist(repository.dirs)
      modifies this, repository
      ensures Vad.Next(Abs(), if stop then Vad.AtBranch else Vad.InProbeLoop(startTime, detected))
           == Vad.ProbeTick(old(Abs()), startTime, soundDetected, t)
      ensures repository.dao == old(repository.dao) && repository.files == old(repository.files)
      ensures old(repository.dirs) <= repository.dirs && ParentsExist(repository.dirs)
    {
      var volume := if recorderOpen then t.amplitude else 0;
      detected := soundDetected;
      if volume > Vad.VOLUME_THRESHOLD {
        detected := true;
      }
      if detected && t.now - startTime > Vad.SUSTAIN_MS {
        StopCurrentRecorder(t.now, t.closeOk, t.fileSize);
        state := Vad.Recording;
        StartActualRecording(t.local, t.openOk, t.now);
        return detected, true;
      }
      if !detected && t.now - startTime > Vad.PROBE_RESTART_MS {
        StopCurrentRecorder(t.now, t.closeOk, t.fileSize);
        StartRecordingToTemp(t.openOk);
      }
      stop := false;
    }

    /** A probe-loop pass on input `i`, as a step of `Vad.Run`. */
    method ProbeStep(startTime: int, soundDetected: bool, ins: seq<Vad.StepIn>, i: nat) returns (detected: bool, stop: bool)
      requires i < |ins| && state == Vad.Monitoring
      requires ParentsExist(repository.dirs)
      modifies this, repository
      ensures Vad.Run(old(Abs()), Vad.InProbeLoop(startTime, soundDetected), ins[i..])
           == Vad.Run(Abs(), if stop then Vad.AtBranch else Vad.InProbeLoop(startTime, detected), ins[i + 1..])
      ensures !stop ==> state == Vad.Monitoring
      ensures repository.dao == old(repository.dao) && repository.files == old(repository.files)
      ensures old(repository.dirs) <= repository.dirs && ParentsExist(repository.dirs)
    {
      Vad.RunProbeStep(Abs(), startTime, soundDetected, ins[i..]);
      assert ins[i..][1..] == ins[i + 1..];
      detected, stop := ProbeTick(startTime, soundDetected, ins[i]);
    }

    /** One pass of the RECORDING branch: `repeat(10)` reads, then the stop rule. */
    method RecordingBurst(t: Vad.StepIn)
      requires |t.samples| == Vad.READS_PER_BURST
      modifies this
      ensures Abs() == Vad.Burst(old(Abs()), t)
    {
      lastSoundTime := t.now;
      for k := 0 to Vad.READS_PER_BURST
        invariant Abs() == old(Abs()).(lastSoundTime := Vad.LastSound(old(Abs()), t.now, t.samples[..k]))
      {
        var volume := if recorderOpen then t.samples[k].amplitude else 0;
        if volume > Vad.VOLUME_THRESHOLD {
          lastSoundTime := t.samples[k].at;
        }
        assert t.samples[..k + 1][..k] == t.samples[..k];
      }
      assert t.samples[..Vad.READS_PER_BURST] == t.samples;
      var recordingDuration := t.burstEnd - recordingStartTime;
      var silenceDuration := t.burstEnd - lastSoundTime;
      if recordingDuration >= Vad.MIN_RECORDING_MS && silenceDuration >= Vad.SILENCE_THRESHOLD_MS {
        StopCurrentRecorder(t.burstEnd, t.closeOk, t.fileSize);
        state := Vad.Monitoring;
      }
    }

    /**
     * `checkAudioAndRecord` over the inputs `ins`, one per step: it runs while
     * the state is not IDLE and inputs remain.
     */
    method CheckAudioAndRecord(ins: seq<Vad.StepIn>)
      requires Valid()
      requires forall k :: 0 <= k < |ins| ==> |ins[k].samples| == Vad.READS_PER_BURST
      modifies this, repository
      ensures Valid() && Abs() == Vad.Run(old(Abs()), Vad.AtBranch, ins)
      ensures repository.dao == old(repository.dao) && repository.files == old(repository.files)
      ensures old(repository.dirs) <= repository.dirs
    {
      Vad.RunPreserves(Abs(), Vad.AtBranch, ins);
      var i := 0;
      while i < |ins| && state != Vad.Idle
        invariant 0 <= i <= |ins|
        invariant Vad.Run(old(Abs()), Vad.AtBranch, ins) == Vad.Run(Abs(), Vad.AtBranch, ins[i..])
        invariant repository.dao == old(repository.dao) && repository.files == old(repository.files)
        invariant old(repository.dirs) <= repository.dirs && ParentsExist(repository.dirs)
      {
        if state == Vad.Monitoring {
          i := MonitorPass(ins, i);
        } else {
          Vad.RunRecordingStep(Abs(), ins[i..]);
          RecordingBurst(ins[i]);
          assert ins[i..][1..] == ins[i + 1..];
          i := i + 1;
        }
      }
    }

    /**
     * The MONITORING branch of `checkAudioAndRecord`: a probe is opened and
     * polled, from input `from` on, until the loop breaks or the inputs run out.
     */
    method MonitorPass(ins: seq<Vad.StepIn>, from: nat) returns (i: nat)
      requires from < |ins| && state == Vad.Monitoring
      requires ParentsExist(repository.dirs)
      modifies this, repository
      ensures from < i <= |ins|
      ensures Vad.Run(old(Abs()), Vad.AtBranch, ins[from..]) == Vad.Run(Abs(), Vad.AtBranch, ins[i..])
      ensures repository.dao == old(repository.dao) && repository.files == old(repository.files)
      ensures old(repository.dirs) <= repository.dirs && ParentsExist(repository.dirs)
    {
      OpenProbe(ins, from);
      i := ProbeLoop(ins[from].now, ins, from + 1);
    }

    /**
     * The probe loop of the MONITORING branch, begun at `startTime`, from input
     * `from` on: it ends when a segment is opened or the inputs run out.
     */
    method ProbeLoop(startTime: int, ins: seq<Vad.StepIn>, from: nat) returns (i: nat)
      requires from <= |ins| && state == Vad.Monitoring
      requires ParentsExist(repository.dirs)
      modifies this, repository
      ensures from <= i <= |ins|
      ensures Vad.Run(old(Abs()), Vad.InProbeLoop(startTime, false), ins[from..]) == Vad.Run(Abs(), Vad.AtBranch, ins[i..])
      ensures repository.dao == old(repository.dao) && repository.files == old(repository.files)
      ensures old(repository.dirs) <= repository.dirs && ParentsExist(repository.dirs)
    {
      var soundDetected := false;
      var stop := false;
      i := from;
      while i < |ins| && !stop
        invariant from <= i <= |ins|
        invariant !stop ==> state == Vad.Monitoring
        invariant Vad.Run(old(Abs()), Vad.InProbeLoop(startTime, false), ins[from..])
               == Vad.Run(Abs(), if stop then Vad.AtBranch else Vad.InProbeLoop(startTime, soundDetected), ins[i..])
        invariant repository.dao == old(repository.dao) && repository.files == old(repository.files)
        invariant old(repository.dirs) <= repository.dirs && ParentsExist(repository.dirs)
      {
        soundDetected, stop := ProbeStep(startTime, soundDetected, ins, i);
        i := i + 1;
      }
      if !stop {
        Vad.RunDone(Abs(), Vad.InProbeLoop(startTime, soundDetected));
        Vad.RunDone(Abs(), Vad.AtBranch);
      }
    }

    /** The probe opened on entering the MONITORING branch with input `from`. */
    method OpenProbe(ins: seq<Vad.StepIn>, from: nat)
      requires from < |ins| && state == Vad.Monitoring
      modifies this
      ensures state == Vad.Monitoring
      ensures Vad.Run(old(Abs()), Vad.AtBranch, ins[from..])
           == Vad.Run(Abs(), Vad.InProbeLoop(ins[from].now, false), ins[from + 1..])
    {
      Vad.RunMonitoringStep(Abs(), ins[from..]);
      assert ins[from..][1..] == ins[from + 1..];
      StartRecordingToTemp(ins[from].openOk);
    }

    /**
     * The save job started by `stopCurrentRecorder`: `saveRecording`, and for a
     * saved row `startAutoTranscription` with the transcriber's answer.
     */
    method SaveAndTranscribe(fileName: string, durationMs: int, fileSizeBytes: int,
                             lookup: LocalTime, rowTime: LocalTime, nowMillis: int,
                             modelReady: bool, result: Result<string>, at: int) returns (saved: Option<Recording>)
      requires Valid()
      modifies this, repository.dao
      ensures Valid()
      ensures saved.None? ==> Abs() == old(Abs()) && repository.dao.rows == old(repository.dao.rows)
      ensures saved.Some? ==>
                && Abs() == Vad.AutoTranscription(old(Abs()), saved.value, modelReady, result, at)
                && repository.dao.rows == old(repository.dao.rows) + [saved.value]
                && saved.value.fileName == fileName && saved.value.durationMs == durationMs
      ensures saved.Some? <==> FileFor(DayFolder(lookup), HourFolder(lookup.hour), fileName) in repository.files
    {
      saved := repository.SaveRecording(fileName, durationMs, fileSizeBytes, lookup, rowTime, nowMillis);
      if saved.Some? {
        StartAutoTranscription(saved.value, modelReady, result, at);
      }
    }

    method StartAutoTranscription(recording: Recording, modelReady: bool, result: Result<string>, at: int)
      modifies this
      ensures Abs() == Vad.AutoTranscription(old(Abs()), recording, modelReady, result, at)
    {
      if !modelReady {
        return;
      }
      match result {
        case Success(text) =>
          log := log + [Vad.TranscriptWritten(recording.id, text, at)];
          GenerateAiTitle(recording.id, text);
        case Failure(_) =>
      }
    }

    method GenerateAiTitle(id: int, text: string)
      modifies this
      ensures Abs() == Vad.GenerateAiTitle(old(Abs()), id, text)
    {
      titleJob := Some(nextJob);
      log := log + [Vad.TitleJobLaunched(nextJob, id, text)];
      nextJob := nextJob + 1;
    }

    /**
     * The title job: a fresh `LlamaService`, its `generateAiTitle`, the title
     * written when there is one, and `release` in every case.
     */
    method RunTitleJob(id: int, text: string, modelReady: bool, copyOk: bool, initCode: Option<int>,
                       generate: string -> Option<string>, cleanupOk: bool, at: int)
      modifies this
      ensures Abs() == Vad.TitleJobDone(old(Abs()), id,
                         LlamaService.TitleOutcome(text, LlamaService.LoadSucceeds(modelReady, copyOk, initCode), generate), at)
    {
      var llama := new LlamaService.LlamaService();
      var outcome := llama.GenerateAiTitle(text, modelReady, copyOk, initCode, generate);
      match outcome.GetOrNull() {
        case Some(title) =>
          log := log + [Vad.TitleWritten(id, title, at)];
        case None =>
      }
      llama.Release(cleanupOk);
    }
  }
}
