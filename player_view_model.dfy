/**
 * The player screen's view model (`PlayerViewModel`): the loaded recording,
 * playback flag, position and duration in seconds, and two formatters.
 */
module PlayerViewModel {
  import opened Wrappers
  import opened Text
  import opened RecordingData
  import opened RecordingDao
  import RecordingRepository
  import RecordingsViewModel

  /** `Long.toInt()`: the low 32 bits, as a signed value. */
  function ToInt(x: int): (r: int)
    ensures -0x8000_0000 <= r < 0x8000_0000
    ensures (r - x) % 0x1_0000_0000 == 0
  {
    var m := x % 0x1_0000_0000;
    if m >= 0x8000_0000 then m - 0x1_0000_0000 else m
  }

  lemma ToIntSmall(x: int)
    requires -0x8000_0000 <= x < 0x8000_0000
    ensures ToInt(x) == x
  {
  }

  /** `formatTime`: `%02d:%02d` of the minutes and the remaining seconds (Kotlin's truncating `/` and `%`). */
  function FormatTime(seconds: int): string {
    FormatPadded(TDiv(seconds, 60), 2) + ":" + FormatPadded(TRem(seconds, 60), 2)
  }

  /** Below 100 minutes the time is `MM:SS`, and minutes and seconds read back to the given count. */
  lemma FormatTimeRoundTrip(seconds: int)
    requires 0 <= seconds < 6000
    ensures var s := FormatTime(seconds);
      && |s| == 5 && s[2] == ':'
      && AllDigits(s[..2]) && AllDigits(s[3..])
      && ParseDigits(s[..2]) * 60 + ParseDigits(s[3..]) == seconds
      && ParseDigits(s[3..]) < 60
  {
    var m, r := seconds / 60, seconds % 60;
    FormatPaddedRoundTrip(m, 2);
    FormatPaddedRoundTrip(r, 2);
    var s := FormatTime(seconds);
    assert s[..2] == FormatPadded(m, 2);
    assert s[3..] == FormatPadded(r, 2);
  }

  /** From 100 minutes on the minutes take more than two digits. */
  lemma FormatTimeLong(seconds: int)
    requires seconds >= 6000
    ensures |FormatTime(seconds)| > 5
  {
    var m := seconds / 60;
    assert m >= 100;
    NatToStringAtLeast3(m);
  }

  lemma NatToStringAtLeast3(n: nat)
    requires n >= 100
    ensures |NatToString(n)| >= 3
  {
    assert NatToString(n) == NatToString(n / 10) + [DigitChar(n % 10)];
    assert NatToString(n / 10) == NatToString(n / 100) + [DigitChar((n / 10) % 10)];
  }

  /** `formatFileSize`, written out again in this view model. */
  function FormatFileSize(bytes: int): string {
    if bytes >= 1024 * 1024 then IntToString(bytes / (1024 * 1024)) + "MB"
    else if bytes >= 1024 then IntToString(bytes / 1024) + "KB"
    else IntToString(bytes) + "B"
  }

  /** The player's copy prints exactly what the list screen's does. */
  lemma FormatFileSizeAgrees(bytes: int)
    ensures FormatFileSize(bytes) == RecordingsViewModel.FormatFileSize(bytes)
  {
  }

  class PlayerViewModel {
    var currentRecording: Option<Recording>
    var isPlaying: bool
    var currentPosition: int
    var duration: int

    constructor ()
      ensures currentRecording.None? && !isPlaying && currentPosition == 0 && duration == 0
    {
      currentRecording := None;
      isPlaying := false;
      currentPosition := 0;
      duration := 0;
    }

    /**
     * `loadRecording`: the row with that id, or nothing; the duration in whole
     * seconds is updated only when a row is found.
     */
    method LoadRecording(rows: seq<Recording>, recordingId: int)
      modifies this
      ensures currentRecording == GetRecordingById(rows, recordingId)
      ensures currentRecording.Some? ==> currentRecording.value in rows && currentRecording.value.id == recordingId
      ensures currentRecording.Some? ==> duration == ToInt(TDiv(currentRecording.value.durationMs, 1000))
      ensures currentRecording.None? ==> duration == old(duration)
      ensures isPlaying == old(isPlaying) && currentPosition == old(currentPosition)
    {
      var recording := GetRecordingById(rows, recordingId);
      currentRecording := recording;
      if recording.Some? {
        duration := ToInt(TDiv(recording.value.durationMs, 1000));
      }
    }

    /** `updatePlayingState` */
    method UpdatePlayingState(playing: bool)
      modifies this
      ensures isPlaying == playing
      ensures currentRecording == old(currentRecording) && currentPosition == old(currentPosition) && duration == old(duration)
    {
      isPlaying := playing;
    }

    /** `updateProgress` */
    method UpdateProgress(position: int)
      modifies this
      ensures currentPosition == position
      ensures currentRecording == old(currentRecording) && isPlaying == old(isPlaying) && duration == old(duration)
    {
      currentPosition := position;
    }

    /**
     * `deleteCurrentRecording`: deletes the loaded recording through the
     * repository; with none loaded nothing happens. The loaded recording stays
     * in `currentRecording` afterwards.
     */
    method DeleteCurrentRecording(repository: RecordingRepository.RecordingRepository)
      requires repository.Valid()
      modifies repository, repository.dao
      ensures repository.Valid() && repository.dao == old(repository.dao)
      ensures currentRecording == old(currentRecording)
      ensures currentRecording.None? ==>
                repository.dao.rows == old(repository.dao.rows) && repository.files == old(repository.files)
                && repository.dirs == old(repository.dirs)
      ensures currentRecording.Some? ==>
                && repository.dao.rows == Where(old(repository.dao.rows), IdIsNot(currentRecording.value.id))
                && repository.files == old(repository.files) - {currentRecording.value.filePath}
                && repository.dirs <= old(repository.dirs)
                && old(repository.dirs) - repository.dirs
                     <= {RecordingRepository.DayDir(currentRecording.value.dayFolder),
                         RecordingRepository.HourDir(currentRecording.value.dayFolder, currentRecording.value.hourFolder)}
                && (forall d :: d in old(repository.dirs) - repository.dirs ==>
                      forall f :: f in repository.files ==> !RecordingRepository.Under(d, f))
    {
      if currentRecording.Some? {
        repository.DeleteRecording(currentRecording.value);
      }
    }
  }
}
