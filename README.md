# voicerec in Dafny

voicerec is an Android app that listens in the background and does the following:

- It detects speech from microphone amplitude and records each utterance as an `.m4a` segment.
- It files the segment under `recordings/<yyyy-MM-dd>/<HH:00-HH:00>/<yyyyMMdd_HHmmss>.m4a` and stores a row in a Room (SQLite) table.
- It transcribes the segment and asks a local language model for a short title.
- It shows the recordings as a day / hour / recording tree.

This project models the core of the app and proves properties of the model:

- **The voice-activity state machine of `RecordingService`.**
  - States IDLE, MONITORING and RECORDING.
  - The throw-away probe recorder and the real segment recorder.
  - The latch that opens a segment, the probe recycling and the ten-read recording burst.
  - The save, transcription and title hand-offs, and the wake lock.
  - It is given twice: as values with one function per step (`Vad`), and as the class `RecordingService.RecordingService`, whose methods and nested loops are proved to move its fields exactly as those functions do.
- **`LlamaService`:** the title pipeline (blank check, 500-character truncation, prompt template, output cleaning) and the `isModelLoaded` flag.
- **`RecordingDao` over an in-memory table of `Recording` rows.** The filters, `ORDER BY` sorts, `DISTINCT` lists, aggregates, insert-or-replace and deletes.
- **`RecordingRepository`.** The folder and file names, and how saving and deleting keep the table and the file tree in step.
- **The screens' logic.**
  - `RecordingsViewModel`: expansion toggles, statistics, duration and size formatting.
  - `PlayerViewModel`.
  - `RecordingsAdapter`: item identity and view types.
  - `RecordingsFragment.updateTreeList`: the tree built from the recordings.
  - `WhisperModel.fromId`.
  - `SettingsViewModel.getSilenceTimeoutIndex`.

How inputs and outputs are modelled:

- The clock, amplitude samples and recorder outcomes are parameters. So are the model-file checks and the answers of the speech and language models.
- Work the service hands to the platform is appended to a log of `Vad.Effect` values.
- Kotlin's truncating `/` and `%`, `Long.toInt()` and `%0Nd` formatting are written out explicitly.
- SQLite's binary string ordering is `Collation.Less`.

Three behaviours of the service, as the code has them:

- **Sustain check.** Sound is sustained once one sample above 100 has been seen and more than 500 ms have passed since the probe loop began. With samples 0, 0, 0, 150 every 200 ms, the segment opens on the fourth sample (`Vad.FirstLoudSampleAfterHalfSecondSwitches`).
- **Silence rule.** The service closes a segment after 600000 ms of silence. It does not use the user's silence-timeout setting. Because `lastSoundTime` is reset at the start of every burst, the rule cannot fire within a burst that is shorter than ten minutes (`Vad.BurstNeverCloses`, `Vad.RecordingNeverEndsBySilence`).
- **Wake lock.** The lock object exists exactly while the state is not IDLE (`Vad.Inv`). It is acquired with a ten-minute timeout that is never renewed, so it stops being held after ten minutes (`Vad.WakeLockLapses`).

## Model

All source paths are under `app/src/main/java/com/example/voicerec/`.

| member | source | states |
|---|---|---|
| Vad.InitialInv | app/src/main/java/com/example/voicerec/service/RecordingService.kt:68-78 | A new service is IDLE, with no recorder, output file or wake lock, and satisfies the invariant |
| Vad.AcquireWakeLock | app/src/main/java/com/example/voicerec/service/RecordingService.kt:408-418 | A lock is created and held for ten minutes only when none exists; an existing lock is left as it is |
| Vad.ReleaseWakeLock | app/src/main/java/com/example/voicerec/service/RecordingService.kt:423-430 | The reference is always cleared; a release is issued exactly when the lock is still held |
| Vad.WakeLockLapses | app/src/main/java/com/example/voicerec/service/RecordingService.kt:105-111 | A lock acquired ten minutes ago is no longer held, and startMonitoring while running does not renew it |
| Vad.StartMonitoring | app/src/main/java/com/example/voicerec/service/RecordingService.kt:104-117 | No-op unless IDLE; from IDLE the state is MONITORING and a wake lock exists (held when newly created); an existing lock is kept |
| Vad.StopCurrentRecorder | app/src/main/java/com/example/voicerec/service/RecordingService.kt:276-326 | Recorder and output file end cleared on every path; a save is handed off iff a real segment is closed with duration >= 2000 and size > 0, with that name, duration and size; otherwise a real segment is deleted and a probe's temporary files are deleted; nothing else changes |
| Vad.ProbeNeverSaves | app/src/main/java/com/example/voicerec/service/RecordingService.kt:280-315 | Closing a recorder with no output file never hands off a save |
| Vad.StopMonitoring | app/src/main/java/com/example/voicerec/service/RecordingService.kt:122-134 | No-op from IDLE; otherwise the state is IDLE, the recorder, output file, wake lock and title job are cleared, and the log gains, in order, the cancellation of the stored title job, exactly what stopCurrentRecorder hands off, and a release exactly when the lock is still held |
| Vad.StopMonitoringReleasesHeldLock | app/src/main/java/com/example/voicerec/service/RecordingService.kt:423-430 | Stopping issues a wake-lock release iff the lock is still held |
| Vad.StopMonitoringSavesSegment | app/src/main/java/com/example/voicerec/service/RecordingService.kt:122-134 | Stopping hands the segment in progress to saveRecording iff it lasted 2000 ms or more and its file is not empty, and then with its full length and size |
| Vad.StopCancelsOnlyLatestTitleJob | app/src/main/java/com/example/voicerec/service/RecordingService.kt:126-127 | stopMonitoring cancels job j iff j is the job currently stored |
| Vad.SecondTitleJobHidesFirst | app/src/main/java/com/example/voicerec/service/RecordingService.kt:384-385 | After two successful transcriptions, stopMonitoring cancels the second title job and not the first |
| Vad.StartRecordingToTemp | app/src/main/java/com/example/voicerec/service/RecordingService.kt:220-238 | A successful open sets the recorder; a failing one changes nothing |
| Vad.SegmentFor | app/src/main/java/com/example/voicerec/service/RecordingService.kt:246-247 | The segment's path is its name under the day and hour folders of the clock reading |
| Vad.StartActualRecording | app/src/main/java/com/example/voicerec/service/RecordingService.kt:243-271 | The output file is set first; on success the recorder is open and start and last-sound times are now; on failure the state is MONITORING and the output file stays set |
| Vad.ProbeTick | app/src/main/java/com/example/voicerec/service/RecordingService.kt:151-172 | The loop breaks iff the latch (set by a sample > 100, a missing recorder reading 0) holds and more than 500 ms have passed; otherwise the state is unchanged and startTime is never reset; wake lock and title job untouched |
| Vad.Burst | app/src/main/java/com/example/voicerec/service/RecordingService.kt:176-208 | lastSoundTime is set from the reads; when the segment has lasted 2000 ms and 600000 ms have passed since the last sound, the recorder and output file are closed and the state is MONITORING; otherwise only lastSoundTime changes; wake lock and title job untouched |
| Vad.BurstClosesAsStopCurrentRecorder | app/src/main/java/com/example/voicerec/service/RecordingService.kt:203-205 | A burst that meets the stop rule hands the segment on exactly as stopCurrentRecorder does at the burst end |
| Vad.LastSoundIsLastLoudRead | app/src/main/java/com/example/voicerec/service/RecordingService.kt:178-190 | lastSoundTime is the time of the last read above 100, or the burst start when there is none |
| Vad.BurstAfterLongSilence | app/src/main/java/com/example/voicerec/service/RecordingService.kt:192-207 | A RECORDING burst ending 600000 ms after the last sound, in a segment of 2000 ms or more, returns to MONITORING and saves the segment with its length and size, or deletes it when its file is empty |
| Vad.RunPreserves | app/src/main/java/com/example/voicerec/service/RecordingService.kt:139-215 | The capture loop keeps the invariant, never reaches or leaves IDLE by itself, and never touches the wake lock or the title job |
| Vad.Run | app/src/main/java/com/example/voicerec/service/RecordingService.kt:139-215 | The capture loop over a stretch of inputs never touches the wake lock or the title job, and does nothing from IDLE |
| Vad.LatchOpensSegmentOnQuietSample | app/src/main/java/com/example/voicerec/service/RecordingService.kt:154-164 | With the latch set earlier, a quiet sample after 500 ms still closes the probe and opens a segment, falling back to MONITORING when opening fails |
| Vad.EarlySoundOnlyLatches | app/src/main/java/com/example/voicerec/service/RecordingService.kt:154-159 | A loud sample in the first 500 ms only sets the latch |
| Vad.QuietEarlyTickKeeps | app/src/main/java/com/example/voicerec/service/RecordingService.kt:151-172 | A quiet sample in the first 500 ms changes nothing |
| Vad.FirstLoudSampleAfterHalfSecondSwitches | app/src/main/java/com/example/voicerec/service/RecordingService.kt:148-164 | Samples 0, 0, 0, 150 every 200 ms: still MONITORING after three, RECORDING after the fourth |
| Vad.SilentProbeRecycledEveryTick | app/src/main/java/com/example/voicerec/service/RecordingService.kt:148-170 | After 5 s without sound, each further quiet pass closes and reopens the probe (n passes, n recycles) |
| Vad.LastSoundNotBeforeStart | app/src/main/java/com/example/voicerec/service/RecordingService.kt:178-190 | With reads timed after the burst start, lastSoundTime is not before the start |
| Vad.BurstNeverCloses | app/src/main/java/com/example/voicerec/service/RecordingService.kt:178-208 | A burst shorter than ten minutes changes only lastSoundTime: the 600000 ms rule does not fire |
| Vad.RecordingNeverEndsBySilence | app/src/main/java/com/example/voicerec/service/RecordingService.kt:176-208 | Any run of such bursts leaves RECORDING, the recorder and the log unchanged |
| Vad.ProbeAfterFailedOpenClosedAsSegment | app/src/main/java/com/example/voicerec/service/RecordingService.kt:243-319 | After a failed segment open, the next probe is closed as that segment: no temporary files deleted, the stale file deleted or saved instead |
| Vad.AutoTranscription | app/src/main/java/com/example/voicerec/service/RecordingService.kt:331-379 | Nothing unless the model is ready and transcription succeeds; then the transcript is written and a title job launched and stored, in that order |
| Vad.GenerateAiTitle | app/src/main/java/com/example/voicerec/service/RecordingService.kt:384-385 | A new job is launched and becomes the stored title job |
| Vad.TitleJobDone | app/src/main/java/com/example/voicerec/service/RecordingService.kt:386-402 | A title is written only for a successful outcome; a failure changes nothing |
| Vad.TitleJobFollowsTranscript | app/src/main/java/com/example/voicerec/service/RecordingService.kt:351-361 | Every launched title job is immediately preceded by the transcript write of the same recording and text |
| Vad.ControlPreservesInv | app/src/main/java/com/example/voicerec/service/RecordingService.kt:104-134 | startMonitoring and stopMonitoring keep the invariant (IDLE iff no lock; idle means no recorder or file) |
| RecordingService.RecordingService.constructor | app/src/main/java/com/example/voicerec/service/RecordingService.kt:68-87 | A new service is the initial IDLE state over the given repository |
| RecordingService.RecordingService.AcquireWakeLock | app/src/main/java/com/example/voicerec/service/RecordingService.kt:408-418 | Moves the fields as Vad.AcquireWakeLock |
| RecordingService.RecordingService.ReleaseWakeLock | app/src/main/java/com/example/voicerec/service/RecordingService.kt:423-430 | Moves the fields as Vad.ReleaseWakeLock |
| RecordingService.RecordingService.StartMonitoring | app/src/main/java/com/example/voicerec/service/RecordingService.kt:104-117 | Moves the fields as Vad.StartMonitoring and keeps the invariant |
| RecordingService.RecordingService.StopMonitoring | app/src/main/java/com/example/voicerec/service/RecordingService.kt:122-134 | Moves the fields as Vad.StopMonitoring (cancel, close as stopCurrentRecorder, release of a held lock, IDLE) and keeps the invariant |
| RecordingService.RecordingService.StopCurrentRecorder | app/src/main/java/com/example/voicerec/service/RecordingService.kt:276-326 | Moves the fields as Vad.StopCurrentRecorder |
| RecordingService.RecordingService.StartRecordingToTemp | app/src/main/java/com/example/voicerec/service/RecordingService.kt:220-238 | Moves the fields as Vad.StartRecordingToTemp |
| RecordingService.RecordingService.StartActualRecording | app/src/main/java/com/example/voicerec/service/RecordingService.kt:243-271 | Takes the path from the repository (which only creates folders) and moves the fields as Vad.StartActualRecording |
| RecordingService.RecordingService.ProbeTick | app/src/main/java/com/example/voicerec/service/RecordingService.kt:151-172 | One probe-loop pass, equal to Vad.ProbeTick including the latch returned and whether the loop breaks |
| RecordingService.RecordingService.RecordingBurst | app/src/main/java/com/example/voicerec/service/RecordingService.kt:176-208 | The repeat(10) loop and the stop rule move the fields as Vad.Burst: closed and back to MONITORING exactly when the stop rule holds, otherwise only lastSoundTime changes |
| RecordingService.RecordingService.CheckAudioAndRecord | app/src/main/java/com/example/voicerec/service/RecordingService.kt:139-215 | The nested capture loops over the inputs end in Vad.Run's state, keep the invariant and only add folders to the file tree |
| RecordingService.RecordingService.MonitorPass | app/src/main/java/com/example/voicerec/service/RecordingService.kt:143-174 | The MONITORING branch: a probe is opened and polled until a segment opens or the inputs run out, as Vad.Run from the branch |
| RecordingService.RecordingService.OpenProbe | app/src/main/java/com/example/voicerec/service/RecordingService.kt:145 | Opening the probe is Vad.Run's first step from the MONITORING branch; the state stays MONITORING |
| RecordingService.RecordingService.ProbeLoop | app/src/main/java/com/example/voicerec/service/RecordingService.kt:148-173 | The inner while loop over the inputs ends where Vad.Run's probe loop ends, and leaves the table and files untouched |
| RecordingService.RecordingService.ProbeStep | app/src/main/java/com/example/voicerec/service/RecordingService.kt:152-172 | One pass of the inner loop is one step of Vad.Run; the state stays MONITORING unless the loop breaks |
| RecordingService.RecordingService.SaveAndTranscribe | app/src/main/java/com/example/voicerec/service/RecordingService.kt:293-304 | saveRecording appends a row iff the file is found; only then is transcription run, as Vad.AutoTranscription |
| RecordingService.RecordingService.StartAutoTranscription | app/src/main/java/com/example/voicerec/service/RecordingService.kt:331-379 | Moves the fields as Vad.AutoTranscription |
| RecordingService.RecordingService.GenerateAiTitle | app/src/main/java/com/example/voicerec/service/RecordingService.kt:384-385 | Moves the fields as Vad.GenerateAiTitle |
| RecordingService.RecordingService.RunTitleJob | app/src/main/java/com/example/voicerec/service/RecordingService.kt:385-402 | A fresh LlamaService's generateAiTitle outcome decides, as Vad.TitleJobDone, whether the title is written |
| LlamaService.BuildPrompt | app/src/main/java/com/example/voicerec/service/LlamaService.kt:119-128 | The prompt is the fixed system block and user opener, the text, and the fixed closer; the text reads back from it |
| LlamaService.BuildPromptInjective | app/src/main/java/com/example/voicerec/service/LlamaService.kt:119-128 | Different texts give different prompts |
| LlamaService.CleanOutput | app/src/main/java/com/example/voicerec/service/LlamaService.kt:133-140 | At most 20 characters, no double quote, only characters of the output, no leading whitespace |
| LlamaService.QuotedTitleUnquoted | app/src/main/java/com/example/voicerec/service/LlamaService.kt:137 | Removing quotes from a quoted title drops exactly the quotes |
| LlamaService.CleanOutputExample | app/src/main/java/com/example/voicerec/service/LlamaService.kt:133-140 | `  "Team Meeting"<|im_end|>` cleans to `Team Meeting` |
| LlamaService.TitleOutcome | app/src/main/java/com/example/voicerec/service/LlamaService.kt:76-114 | Blank input fails with the blank message; an unavailable model fails with the load message; success iff the native answer for the truncated prompt exists and cleans to non-blank text |
| LlamaService.TitleOutcomeSuccess | app/src/main/java/com/example/voicerec/service/LlamaService.kt:76-114 | A success means a non-blank input, an available model and a native answer; the title is its cleaned form, non-blank, short and quote-free |
| LlamaService.TruncationOnlyPrefixMatters | app/src/main/java/com/example/voicerec/service/LlamaService.kt:84-96 | Inputs agreeing on their first 500 characters get the same outcome |
| LlamaService.LlamaService.constructor | app/src/main/java/com/example/voicerec/service/LlamaService.kt:35-36 | A new service has no model loaded and has made no native call |
| LlamaService.LlamaService.LoadModel | app/src/main/java/com/example/voicerec/service/LlamaService.kt:38-71 | initModel is called only with a ready or copied file; the flag becomes initCode == 0 and is untouched when loading throws |
| LlamaService.LlamaService.GenerateAiTitle | app/src/main/java/com/example/voicerec/service/LlamaService.kt:76-114 | The result is the title outcome; a blank input makes no native call; a loaded model is not reloaded |
| LlamaService.LlamaService.Release | app/src/main/java/com/example/voicerec/service/LlamaService.kt:145-155 | cleanup is called only while loaded, and the flag is cleared unless cleanup throws |
| LlamaService.ReleaseTwice | app/src/main/java/com/example/voicerec/service/LlamaService.kt:145-155 | A second release after a successful one calls nothing more |
| WhisperModel.Values | app/src/main/java/com/example/voicerec/service/WhisperModel.kt:6-30 | Every constant, each at its ordinal |
| WhisperModel.Find | app/src/main/java/com/example/voicerec/service/WhisperModel.kt:33 | Finds a model with the id iff one exists |
| WhisperModel.FromId | app/src/main/java/com/example/voicerec/service/WhisperModel.kt:32-34 | A declared id gives a model with that id; an unknown id gives BASE |
| WhisperModel.GetAvailableModels | app/src/main/java/com/example/voicerec/service/WhisperModel.kt:36-38 | All models, in declaration order |
| WhisperModel.FromIdRoundTrip | app/src/main/java/com/example/voicerec/service/WhisperModel.kt:32-34 | fromId of a model's id is that model |
| WhisperModel.FromIdUnknown | app/src/main/java/com/example/voicerec/service/WhisperModel.kt:32-34 | An unknown id gives BASE |
| WhisperModel.IdInjective | app/src/main/java/com/example/voicerec/service/WhisperModel.kt:15-23 | Declared ids are distinct |
| SettingsViewModel.IndexOf | app/src/main/java/com/example/voicerec/ui/settings/SettingsViewModel.kt:59 | The first index holding the value, or -1 exactly when absent |
| SettingsViewModel.CoerceAtLeast | app/src/main/java/com/example/voicerec/ui/settings/SettingsViewModel.kt:59 | At least the minimum, and the value itself when it already is |
| SettingsViewModel.GetSilenceTimeoutIndex | app/src/main/java/com/example/voicerec/ui/settings/SettingsViewModel.kt:54-60 | In 0..2; the index of the stored timeout in [5,10,30], or 0 for a value not in the list |
| SettingsViewModel.MissingValueSelectsDefault | app/src/main/java/com/example/voicerec/ui/settings/SettingsDataStore.kt:27-31 | With nothing stored the default 10 is selected (index 1) |
| RecordingDao.Where | app/src/main/java/com/example/voicerec/data/RecordingDao.kt:30-85 | A WHERE keeps exactly the rows satisfying the condition |
| RecordingDao.WhereAppend | app/src/main/java/com/example/voicerec/data/RecordingDao.kt:30-85 | Filtering a table with one more row adds that row iff it satisfies the condition |
| RecordingDao.DaySplitCounts | app/src/main/java/com/example/voicerec/data/RecordingDao.kt:66-73 | The rows of a day and the rows of other days add up to the table |
| RecordingDao.WhereNone | app/src/main/java/com/example/voicerec/data/RecordingDao.kt:60-67 | A condition no row meets selects nothing |
| RecordingDao.WhereAll | app/src/main/java/com/example/voicerec/data/RecordingDao.kt:60-67 | A condition every row meets selects the table |
| RecordingDao.InsertByTimestamp | app/src/main/java/com/example/voicerec/data/RecordingDao.kt:36 | Inserting into a latest-first list keeps it sorted and a permutation |
| RecordingDao.ConsSorted | app/src/main/java/com/example/voicerec/data/RecordingDao.kt:36 | A row no earlier than the head can lead a sorted list |
| RecordingDao.SortByTimestampDesc | app/src/main/java/com/example/voicerec/data/RecordingDao.kt:36 | ORDER BY timestamp DESC: sorted latest first, same rows |
| RecordingDao.InsertDistinct | app/src/main/java/com/example/voicerec/data/RecordingDao.kt:18 | Inserting into a strictly descending list keeps it so, adding only the value |
| RecordingDao.DistinctDescending | app/src/main/java/com/example/voicerec/data/RecordingDao.kt:18-25 | SELECT DISTINCT ... DESC: strictly descending, same values |
| RecordingDao.DayFolders | app/src/main/java/com/example/voicerec/data/RecordingDao.kt:18 | The day column, row by row |
| RecordingDao.HourFolders | app/src/main/java/com/example/voicerec/data/RecordingDao.kt:24 | The hour column, row by row |
| RecordingDao.SumDurationsAppend | app/src/main/java/com/example/voicerec/data/RecordingDao.kt:78 | SUM(durationMs) grows by the new row's duration |
| RecordingDao.GetAllDays | app/src/main/java/com/example/voicerec/data/RecordingDao.kt:18-19 | Each day of the table once, latest first |
| RecordingDao.GetHoursInDay | app/src/main/java/com/example/voicerec/data/RecordingDao.kt:24-25 | Each hour of that day once, latest first |
| RecordingDao.GetRecordingsInHour | app/src/main/java/com/example/voicerec/data/RecordingDao.kt:30-31 | Exactly the rows of that day and hour, latest first |
| RecordingDao.SameMembers | app/src/main/java/com/example/voicerec/data/RecordingDao.kt:30-31 | Equal multisets have the same members |
| RecordingDao.GetAllRecordings | app/src/main/java/com/example/voicerec/data/RecordingDao.kt:36-37 | Every row, latest first |
| RecordingDao.GetRecordingsByDaySync | app/src/main/java/com/example/voicerec/data/RecordingDao.kt:84-85 | The rows of that day, latest first |
| RecordingDao.GetRecordingById | app/src/main/java/com/example/voicerec/data/RecordingDao.kt:42-43 | A row with that id, or null exactly when none has it |
| RecordingDao.FindById | app/src/main/java/com/example/voicerec/data/RecordingDao.kt:42-43 | With unique ids a row is found by its id |
| RecordingDao.WhereKeepsUniqueIds | app/src/main/java/com/example/voicerec/data/RecordingDao.kt:54-67 | Deleting rows keeps ids unique |
| RecordingDao.Upsert | app/src/main/java/com/example/voicerec/data/RecordingDao.kt:48-49 | REPLACE: the new row is found by its id, other ids find what they found before, ids stay unique |
| RecordingDao.UpsertFacts | app/src/main/java/com/example/voicerec/data/RecordingDao.kt:48-49 | The facts Upsert states, for the rows without the id plus the new row |
| RecordingDao.ByIdSkipsLast | app/src/main/java/com/example/voicerec/data/RecordingDao.kt:42-43 | Appending a row does not change lookups of other ids |
| RecordingDao.ByIdIgnoresOtherIds | app/src/main/java/com/example/voicerec/data/RecordingDao.kt:42-49 | Removing rows of one id does not change lookups of other ids |
| RecordingDao.GetTodayCount | app/src/main/java/com/example/voicerec/data/RecordingDao.kt:72-73 | Between 0 and the table size, and 0 iff no row has that day |
| RecordingDao.GetTodayDuration | app/src/main/java/com/example/voicerec/data/RecordingDao.kt:78-79 | 0 when no row has that day, and never negative when that day's durations are not |
| RecordingDao.InsertFreshRowCounts | app/src/main/java/com/example/voicerec/data/RecordingDao.kt:48-79 | A fresh id only appends: its day's count grows by one and its total by the row's duration |
| RecordingDao.DeleteByDayEffect | app/src/main/java/com/example/voicerec/data/RecordingDao.kt:66-67 | After deleting a day nothing of it remains, other days keep their rows, and the table shrinks by the day's count |
| RecordingDao.WhereOtherDay | app/src/main/java/com/example/voicerec/data/RecordingDao.kt:66-67 | Deleting day d leaves the rows of another day e as they were |
| RecordingDao.RecordingTable.constructor | app/src/main/java/com/example/voicerec/data/RecordingDao.kt:12-13 | An empty table whose generated ids start at 1 |
| RecordingDao.RecordingTable.Insert | app/src/main/java/com/example/voicerec/data/RecordingDao.kt:48-49 | Id 0 takes the next generated id; the row replaces any row with its id; the id is returned and the sequence advances past it |
| RecordingDao.RecordingTable.Delete | app/src/main/java/com/example/voicerec/data/RecordingDao.kt:54-55 | Removes the rows with the entity's id |
| RecordingDao.RecordingTable.DeleteByPath | app/src/main/java/com/example/voicerec/data/RecordingDao.kt:60-61 | Removes the rows with that path |
| RecordingDao.RecordingTable.DeleteByDay | app/src/main/java/com/example/voicerec/data/RecordingDao.kt:66-67 | Removes that day's rows and returns how many there were |
| RecordingRepository.Padded2 | app/src/main/java/com/example/voicerec/data/RecordingRepository.kt:151-166 | A two-digit field reads back as its value |
| RecordingRepository.Padded4 | app/src/main/java/com/example/voicerec/data/RecordingRepository.kt:151-166 | A four-digit field reads back as its value |
| RecordingRepository.DayFolder | app/src/main/java/com/example/voicerec/data/RecordingRepository.kt:151-154 | A day folder name is one path component: it holds no `/` |
| RecordingRepository.DayFolderLayout | app/src/main/java/com/example/voicerec/data/RecordingRepository.kt:151-154 | yyyy-MM-dd: ten characters, dashes at 4 and 7, the date reads back |
| RecordingRepository.DayFolderInjective | app/src/main/java/com/example/voicerec/data/RecordingRepository.kt:151-154 | Same folder iff same date |
| RecordingRepository.DayFolderOrder | app/src/main/java/com/example/voicerec/data/RecordingRepository.kt:151-154 | Folder order (SQLite binary) is calendar order |
| RecordingRepository.DashJoinOrder | app/src/main/java/com/example/voicerec/data/RecordingRepository.kt:151-154 | Dash-joined equal-width fields compare field by field |
| RecordingRepository.HourFolder | app/src/main/java/com/example/voicerec/data/RecordingRepository.kt:156-161 | An hour folder name is one path component: it holds no `/` |
| RecordingRepository.HourFolderLayout | app/src/main/java/com/example/voicerec/data/RecordingRepository.kt:156-161 | HH:00-NN:00: eleven characters, HH the hour and NN the next hour modulo 24 |
| RecordingRepository.LastHourWraps | app/src/main/java/com/example/voicerec/data/RecordingRepository.kt:156-161 | Hour 23 gives 23:00-00:00 |
| RecordingRepository.HourFolderInjective | app/src/main/java/com/example/voicerec/data/RecordingRepository.kt:156-161 | Same folder iff same hour |
| RecordingRepository.HourFolderOrder | app/src/main/java/com/example/voicerec/data/RecordingRepository.kt:156-161 | Folder order is hour order |
| RecordingRepository.FileNameLayout | app/src/main/java/com/example/voicerec/data/RecordingRepository.kt:163-166 | yyyyMMdd_HHmmss: every field reads back from its position |
| RecordingRepository.FileNameInjective | app/src/main/java/com/example/voicerec/data/RecordingRepository.kt:163-166 | Different readings (to the second) give different names |
| RecordingRepository.PrefixOfEqual | app/src/main/java/com/example/voicerec/data/RecordingRepository.kt:145-149 | Equal strings with equally long heads have equal heads and tails |
| RecordingRepository.FileForOtherHour | app/src/main/java/com/example/voicerec/data/RecordingRepository.kt:145-149 | Readings in different hours give different paths |
| RecordingRepository.FileForSplits | app/src/main/java/com/example/voicerec/data/RecordingRepository.kt:145-149 | Equal paths with fixed-width folders have equal hour folders |
| RecordingRepository.FileIsUnderItsHourDir | app/src/main/java/com/example/voicerec/data/RecordingRepository.kt:116-131 | A file lies under its hour folder and its day folder |
| RecordingRepository.RemoveEmptyKeepsParents | app/src/main/java/com/example/voicerec/data/RecordingRepository.kt:172-183 | Deleting an empty folder keeps every remaining day and hour folder inside an existing parent |
| RecordingRepository.RecordingRepository.constructor | app/src/main/java/com/example/voicerec/data/RecordingRepository.kt:15-20 | The recordings folder exists afterwards; files and table unchanged |
| RecordingRepository.RecordingRepository.GetNewRecordingFilePath | app/src/main/java/com/example/voicerec/data/RecordingRepository.kt:116-131 | The path is the file name under the day and hour folders of the reading; mkdirs runs only when the hour folder is missing, and afterwards it and its parents exist; no file is created |
| RecordingRepository.RecordingRepository.SaveRecording | app/src/main/java/com/example/voicerec/data/RecordingRepository.kt:52-78 | A missing file gives null and changes nothing; otherwise one row with the next id is appended and returned |
| RecordingRepository.RecordingRepository.CleanEmptyFolders | app/src/main/java/com/example/voicerec/data/RecordingRepository.kt:172-183 | Only the empty hour folder and then the empty day folder are removed; no removed folder holds a file |
| RecordingRepository.RecordingRepository.DeleteRecording | app/src/main/java/com/example/voicerec/data/RecordingRepository.kt:83-89 | The file and the row are removed; only the recording's own hour and day folders can disappear, and only when empty |
| RecordingRepository.RecordingRepository.DeleteFiles | app/src/main/java/com/example/voicerec/data/RecordingRepository.kt:96 | Each recording's file is deleted |
| RecordingRepository.RecordingRepository.DeleteByDay | app/src/main/java/com/example/voicerec/data/RecordingRepository.kt:94-101 | The day's files and rows are removed, the count returned, and at most the day folder disappears |
| RecordingRepository.PathsOf | app/src/main/java/com/example/voicerec/data/RecordingRepository.kt:96 | The paths of the recordings |
| RecordingRepository.PathsOfAppend | app/src/main/java/com/example/voicerec/data/RecordingRepository.kt:96 | One more recording adds its path |
| RecordingRepository.PathsOfDay | app/src/main/java/com/example/voicerec/data/RecordingRepository.kt:94-96 | The paths of the rows of a day |
| RecordingRepository.PathsOfDayAre | app/src/main/java/com/example/voicerec/data/RecordingRepository.kt:168-170 | The day's recordings, however ordered, have the day's paths |
| RecordingsViewModel.Toggle | app/src/main/java/com/example/voicerec/ui/recordings/RecordingsViewModel.kt:59-80 | The key flips membership and no other key changes |
| RecordingsViewModel.ToggleTwice | app/src/main/java/com/example/voicerec/ui/recordings/RecordingsViewModel.kt:59-67 | Toggling twice restores the set |
| RecordingsViewModel.ToggleCommutes | app/src/main/java/com/example/voicerec/ui/recordings/RecordingsViewModel.kt:59-67 | Toggles of two keys commute |
| RecordingsViewModel.DurationViewMeaning | app/src/main/java/com/example/voicerec/ui/recordings/RecordingsViewModel.kt:110-120 | The form chosen and its numbers are the floor of hours and minutes, minutes and seconds, or seconds of the duration |
| RecordingsViewModel.NegativeDurationShowsSeconds | app/src/main/java/com/example/voicerec/ui/recordings/RecordingsViewModel.kt:110-120 | A negative duration shows seconds truncated toward zero |
| RecordingsViewModel.SizeViewMeaning | app/src/main/java/com/example/voicerec/ui/recordings/RecordingsViewModel.kt:125-131 | The largest unit reaching one is shown, rounded down |
| RecordingsViewModel.RecordingsViewModel.constructor | app/src/main/java/com/example/voicerec/ui/recordings/RecordingsViewModel.kt:23-43 | Stopped, nothing expanded, today's count and duration loaded |
| RecordingsViewModel.RecordingsViewModel.UpdateServiceState | app/src/main/java/com/example/voicerec/ui/recordings/RecordingsViewModel.kt:48-54 | Running iff the flag is set; nothing else changes |
| RecordingsViewModel.RecordingsViewModel.ToggleDayExpansion | app/src/main/java/com/example/voicerec/ui/recordings/RecordingsViewModel.kt:59-67 | The day flips; nothing else changes |
| RecordingsViewModel.RecordingsViewModel.ToggleHourExpansion | app/src/main/java/com/example/voicerec/ui/recordings/RecordingsViewModel.kt:72-80 | The hour key flips; nothing else changes |
| RecordingsViewModel.RecordingsViewModel.UpdateTodayStats | app/src/main/java/com/example/voicerec/ui/recordings/RecordingsViewModel.kt:85-91 | The count and total duration of today's rows; nothing else changes |
| RecordingsViewModel.ToggleDayTwice | app/src/main/java/com/example/voicerec/ui/recordings/RecordingsViewModel.kt:59-67 | Two day toggles leave the expansion sets as they were |
| PlayerViewModel.ToInt | app/src/main/java/com/example/voicerec/ui/player/PlayerViewModel.kt:41 | Long.toInt(): a 32-bit value congruent to the input modulo 2^32 |
| PlayerViewModel.ToIntSmall | app/src/main/java/com/example/voicerec/ui/player/PlayerViewModel.kt:41 | A value that fits is unchanged |
| PlayerViewModel.FormatTimeRoundTrip | app/src/main/java/com/example/voicerec/ui/player/PlayerViewModel.kt:64-68 | Below 100 minutes: MM:SS, reading back to the minutes and seconds |
| PlayerViewModel.FormatTimeLong | app/src/main/java/com/example/voicerec/ui/player/PlayerViewModel.kt:64-68 | From 100 minutes on the text is longer than MM:SS |
| PlayerViewModel.NatToStringAtLeast3 | app/src/main/java/com/example/voicerec/ui/player/PlayerViewModel.kt:66 | A number from 100 on has at least three digits |
| PlayerViewModel.FormatFileSizeAgrees | app/src/main/java/com/example/voicerec/ui/player/PlayerViewModel.kt:73-79 | The player's formatting equals the list screen's |
| PlayerViewModel.PlayerViewModel.constructor | app/src/main/java/com/example/voicerec/ui/player/PlayerViewModel.kt:19-32 | No recording, not playing, position and duration 0 |
| PlayerViewModel.PlayerViewModel.LoadRecording | app/src/main/java/com/example/voicerec/ui/player/PlayerViewModel.kt:37-45 | The recording with that id (or none); when found the duration is its seconds as Int; otherwise the duration stays |
| PlayerViewModel.PlayerViewModel.UpdatePlayingState | app/src/main/java/com/example/voicerec/ui/player/PlayerViewModel.kt:50-52 | Sets the flag only |
| PlayerViewModel.PlayerViewModel.UpdateProgress | app/src/main/java/com/example/voicerec/ui/player/PlayerViewModel.kt:57-59 | Sets the position only |
| PlayerViewModel.PlayerViewModel.DeleteCurrentRecording | app/src/main/java/com/example/voicerec/ui/player/PlayerViewModel.kt:84-88 | With a current recording its row and file are deleted and only its own empty hour and day folders can go; without one nothing changes; the current recording is kept |
| RecordingsAdapter.DiffCallbackConsistent | app/src/main/java/com/example/voicerec/ui/recordings/RecordingsAdapter.kt:45-61 | Item identity is an equivalence, and equal contents imply the same item |
| RecordingsAdapter.ExpansionChangesContentsOnly | app/src/main/java/com/example/voicerec/ui/recordings/RecordingsAdapter.kt:45-61 | Expanding a node keeps the item and changes its contents |
| RecordingsAdapter.ItemViewType | app/src/main/java/com/example/voicerec/ui/recordings/RecordingsAdapter.kt:129-135 | A view type in 0..2 |
| RecordingsAdapter.HolderMatchesItem | app/src/main/java/com/example/voicerec/ui/recordings/RecordingsAdapter.kt:129-158 | Each item gets the holder of its own kind |
| RecordingsAdapter.HourKeyInjective | app/src/main/java/com/example/voicerec/ui/recordings/RecordingsAdapter.kt:94-96 | For days without `_`, the hour key determines day and hour |
| RecordingsAdapter.KeyStartsWithDay | app/src/main/java/com/example/voicerec/ui/recordings/RecordingsAdapter.kt:94-96 | A key of a non-empty day starts differently from a key of the empty day |
| RecordingsAdapter.DayFolderHasNoUnderscore | app/src/main/java/com/example/voicerec/data/RecordingRepository.kt:151-154 | Day folders contain no `_` |
| RecordingsAdapter.HourKeyAmbiguous | app/src/main/java/com/example/voicerec/ui/recordings/RecordingsAdapter.kt:94-96 | Without that, keys collide: (a_b, c) and (a, b_c) |
| RecordingsFragment.KeysFacts | app/src/main/java/com/example/voicerec/ui/recordings/RecordingsFragment.kt:231 | groupBy's keys are distinct and exactly the keys of the recordings |
| RecordingsFragment.GroupMembers | app/src/main/java/com/example/voicerec/ui/recordings/RecordingsFragment.kt:231 | A group holds exactly the recordings with its key |
| RecordingsFragment.GroupOfAbsentKey | app/src/main/java/com/example/voicerec/ui/recordings/RecordingsFragment.kt:231 | A key not present has an empty group |
| RecordingsFragment.GroupStep | app/src/main/java/com/example/voicerec/ui/recordings/RecordingsFragment.kt:231 | One more recording joins the end of its own group only |
| RecordingsFragment.KeysStep | app/src/main/java/com/example/voicerec/ui/recordings/RecordingsFragment.kt:231 | A new key is appended, a known key keeps its place |
| RecordingsFragment.GroupBy | app/src/main/java/com/example/voicerec/ui/recordings/RecordingsFragment.kt:231 | Returns the keys in order of first appearance and the group of each |
| RecordingsFragment.GroupByStep | app/src/main/java/com/example/voicerec/ui/recordings/RecordingsFragment.kt:231 | One loop step of GroupBy keeps its result correct |
| RecordingsFragment.RecordingItems | app/src/main/java/com/example/voicerec/ui/recordings/RecordingsFragment.kt:265-271 | One leaf per recording, in order |
| RecordingsFragment.UpdateTreeList | app/src/main/java/com/example/voicerec/ui/recordings/RecordingsFragment.kt:227-277 | The submitted list is the tree of the recordings and expansion sets |
| RecordingsFragment.AddDay | app/src/main/java/com/example/voicerec/ui/recordings/RecordingsFragment.kt:233-273 | Appends one day's node and, when the day is expanded, its hour blocks |
| RecordingsFragment.AddHours | app/src/main/java/com/example/voicerec/ui/recordings/RecordingsFragment.kt:248-272 | Appends the hour blocks of an expanded day |
| RecordingsFragment.AddHour | app/src/main/java/com/example/voicerec/ui/recordings/RecordingsFragment.kt:251-271 | Appends one hour's node and, when that hour is expanded, its recordings |
| RecordingsFragment.AddRecordings | app/src/main/java/com/example/voicerec/ui/recordings/RecordingsFragment.kt:265-271 | Appends one leaf per recording, in order |
| RecordingsFragment.DaysShownAppend | app/src/main/java/com/example/voicerec/ui/recordings/RecordingsFragment.kt:227-277 | Day nodes of a concatenation concatenate |
| RecordingsFragment.RecordingsShownAppend | app/src/main/java/com/example/voicerec/ui/recordings/RecordingsFragment.kt:227-277 | Leaves of a concatenation concatenate |
| RecordingsFragment.LeavesShowTheirRecordings | app/src/main/java/com/example/voicerec/ui/recordings/RecordingsFragment.kt:265-271 | Leaves show their recordings in order and no day node |
| RecordingsFragment.HourBlocksShowNoDays | app/src/main/java/com/example/voicerec/ui/recordings/RecordingsFragment.kt:249-272 | Hour blocks hold no day node |
| RecordingsFragment.DayBlocksShowDays | app/src/main/java/com/example/voicerec/ui/recordings/RecordingsFragment.kt:233-273 | The day nodes of the day blocks are the days, in order |
| RecordingsFragment.DayBlockShowsItsDay | app/src/main/java/com/example/voicerec/ui/recordings/RecordingsFragment.kt:237-245 | A day block holds one day node, its own |
| RecordingsFragment.TreeDays | app/src/main/java/com/example/voicerec/ui/recordings/RecordingsFragment.kt:231-245 | Day nodes are the days with recordings, each once, in order of first appearance |
| RecordingsFragment.CollapsedTreeHasOnlyDays | app/src/main/java/com/example/voicerec/ui/recordings/RecordingsFragment.kt:234-248 | With no day expanded the list is one day node per day |
| RecordingsFragment.GroupsUnionStep | app/src/main/java/com/example/voicerec/ui/recordings/RecordingsFragment.kt:231 | One more recording adds it to the union of groups of its key |
| RecordingsFragment.GroupsPartition | app/src/main/java/com/example/voicerec/ui/recordings/RecordingsFragment.kt:231 | The groups together hold every recording exactly once |
| RecordingsFragment.NewKeyUnion | app/src/main/java/com/example/voicerec/ui/recordings/RecordingsFragment.kt:231 | A new key's group is the new recording alone |
| RecordingsFragment.HourBlocksShowGroups | app/src/main/java/com/example/voicerec/ui/recordings/RecordingsFragment.kt:249-272 | Expanded hour blocks show exactly their hour groups |
| RecordingsFragment.DayBlocksShowGroups | app/src/main/java/com/example/voicerec/ui/recordings/RecordingsFragment.kt:233-273 | Fully expanded day blocks show exactly their day groups |
| RecordingsFragment.DayBlockShowsGroup | app/src/main/java/com/example/voicerec/ui/recordings/RecordingsFragment.kt:237-272 | A fully expanded day shows exactly its recordings |
| RecordingsFragment.ExpandedTreeShowsEveryRecordingOnce | app/src/main/java/com/example/voicerec/ui/recordings/RecordingsFragment.kt:227-277 | With everything expanded each recording is exactly one leaf |
| RecordingsFragment.HourBlocksFaithful | app/src/main/java/com/example/voicerec/ui/recordings/RecordingsFragment.kt:251-272 | Hour nodes carry their group's count and expansion; leaves belong to an expanded hour |
| RecordingsFragment.DayBlocksFaithful | app/src/main/java/com/example/voicerec/ui/recordings/RecordingsFragment.kt:233-273 | Day nodes carry their count, total duration and expansion |
| RecordingsFragment.TreeFaithful | app/src/main/java/com/example/voicerec/ui/recordings/RecordingsFragment.kt:227-277 | Every node of the list is faithful to the recordings and expansion sets |
| Text.DigitChar | app/src/main/java/com/example/voicerec/data/RecordingRepository.kt:151-166 | The digit character of a value below 10 |
| Text.Pow10 | app/src/main/java/com/example/voicerec/data/RecordingRepository.kt:151-166 | Powers of ten are positive |
| Text.NatToString | app/src/main/java/com/example/voicerec/ui/recordings/RecordingsViewModel.kt:110-131 | Decimal digits, at least one |
| Text.ParseNatToString | app/src/main/java/com/example/voicerec/ui/recordings/RecordingsViewModel.kt:110-131 | Printed numbers read back |
| Text.NatToStringInjective | app/src/main/java/com/example/voicerec/ui/recordings/RecordingsViewModel.kt:110-131 | Different numbers print differently |
| Text.NatToStringLength | app/src/main/java/com/example/voicerec/ui/player/PlayerViewModel.kt:64-68 | A number below 10^k has at most k digits |
| Text.Zeros | app/src/main/java/com/example/voicerec/data/RecordingRepository.kt:151-166 | k zero characters |
| Text.PadZeros | app/src/main/java/com/example/voicerec/data/RecordingRepository.kt:151-166 | Padding reaches the width, never shortens |
| Text.ParseLeadingZeros | app/src/main/java/com/example/voicerec/data/RecordingRepository.kt:151-166 | Leading zeros do not change the value |
| Text.ParseZeros | app/src/main/java/com/example/voicerec/data/RecordingRepository.kt:151-166 | Zeros read as 0 |
| Text.FormatPaddedRoundTrip | app/src/main/java/com/example/voicerec/data/RecordingRepository.kt:151-166 | %0Nd of a fitting number is N digits reading back to it |
| Text.ParseDigitsCons | app/src/main/java/com/example/voicerec/data/RecordingDao.kt:18 | The first digit weighs 10 to the remaining length |
| Text.ParseDigitsBound | app/src/main/java/com/example/voicerec/data/RecordingDao.kt:18 | k digits read below 10^k |
| Text.TDiv | app/src/main/java/com/example/voicerec/ui/recordings/RecordingsViewModel.kt:111-113 | Kotlin division truncates toward zero |
| Text.TRem | app/src/main/java/com/example/voicerec/ui/player/PlayerViewModel.kt:65-66 | Kotlin remainder: quotient times divisor plus remainder, sign of the dividend |
| Text.ReplaceAll | app/src/main/java/com/example/voicerec/service/LlamaService.kt:134-137 | Only characters of the input or replacement remain |
| Text.ReplaceCharRemovesIt | app/src/main/java/com/example/voicerec/service/LlamaService.kt:137 | Deleting a character leaves none |
| Text.ReplaceAbsent | app/src/main/java/com/example/voicerec/service/LlamaService.kt:134-136 | Text without the pattern is unchanged |
| Text.ReplaceTrailing | app/src/main/java/com/example/voicerec/service/LlamaService.kt:134-136 | A trailing pattern is replaced |
| Text.ReplaceCharConcat | app/src/main/java/com/example/voicerec/service/LlamaService.kt:137 | Replacing a character distributes over concatenation |
| Text.TrimStart | app/src/main/java/com/example/voicerec/service/LlamaService.kt:138 | Drops exactly the leading whitespace |
| Text.TrimEnd | app/src/main/java/com/example/voicerec/service/LlamaService.kt:138 | Drops exactly the trailing whitespace |
| Text.Take | app/src/main/java/com/example/voicerec/service/LlamaService.kt:84 | The first n characters, or all |
| Text.TrimLeadingBlank | app/src/main/java/com/example/voicerec/service/LlamaService.kt:138 | Trimming blank text before a word leaves the word |
| Text.TrimProperties | app/src/main/java/com/example/voicerec/service/LlamaService.kt:138 | Trimmed text has only input characters and no whitespace at its ends |
| Text.BlankIffTrimEmpty | app/src/main/java/com/example/voicerec/service/LlamaService.kt:79 | Blank iff trimming leaves nothing |
| Collation.LessConcat | app/src/main/java/com/example/voicerec/data/RecordingDao.kt:18-25 | Equally long heads decide the order, equal heads leave it to the tails |
| Collation.DigitsLess | app/src/main/java/com/example/voicerec/data/RecordingDao.kt:18-25 | Equally long digit strings order as their numbers |
| Collation.LeadingDigitDecides | app/src/main/java/com/example/voicerec/data/RecordingDao.kt:18-25 | A smaller leading digit gives a smaller number |
| Collation.LessIrreflexive | app/src/main/java/com/example/voicerec/data/RecordingDao.kt:18-37 | BINARY ordering is irreflexive |
| Collation.LessTransitive | app/src/main/java/com/example/voicerec/data/RecordingDao.kt:18-37 | and transitive |
| Collation.LessTotal | app/src/main/java/com/example/voicerec/data/RecordingDao.kt:18-37 | and total |
| Collation.LessAsymmetric | app/src/main/java/com/example/voicerec/data/RecordingDao.kt:18-37 | and asymmetric |

## Left out

- Android plumbing is not modelled: notifications and their texts, broadcasts, the binder, the foreground service, intents, status callbacks and permission flows.
- Coroutines and concurrency are not modelled.
  - `volumeCheckJob` and the `delay` calls are not modelled. The capture loop is a method run over a finite sequence of inputs, one per atomic step.
  - A `stopMonitoring` that arrives in the middle of a ten-read burst is not modelled, so the burst's `currentState != STATE_RECORDING` check never applies. A stop between steps is modelled.
  - Cancelling a coroutine is recorded as a `TitleJobCancelled` effect. A cancelled job that still finishes is not prevented from writing.
  - Two capture loops running at once after a quick stop and start are not modelled.
- The clock is a parameter. The source reads `currentTimeMillis` several times within one pass of the probe loop. The model uses one reading per pass, plus a calendar reading for the new segment's path.
- RecordingRepository.RecordingRepository.GetNewRecordingFilePath: the source reads the clock three times, once each for the day folder, the hour folder and the file name. The model uses one `LocalTime`, so the mismatched folders a reading across midnight or the hour can produce are not modelled.
- RecordingRepository.RecordingRepository.SaveRecording: the row's timestamp is a fresh `currentTimeMillis` in the source. It is the parameter `nowMillis` here, unrelated to the lookup reading.
- RecordingRepository.DayFolder: `SimpleDateFormat` with the default locale may print non-ASCII digits. The model prints ASCII digits only, and so do `RecordingRepository.HourFolder` and `RecordingRepository.TimestampToFileName`.
- Text.Take: Kotlin's `take(n)` counts UTF-16 code units and can split a surrogate pair. A Dafny `char` is a Unicode scalar value, so `Take` keeps n whole characters. `LlamaService.CleanOutput` (20 characters), `LlamaService.TitleOutcome` (500 characters) and `LlamaService.TruncationOnlyPrefixMatters` carry this difference for text outside the Basic Multilingual Plane, such as emoji.
- Exceptions thrown by `maxAmplitude`, and the loop's outer `catch`, are not modelled. A failed read is 0 only when there is no recorder.
- `RecordingService.RecordingService.CheckAudioAndRecord` requires exactly ten reads per burst input. The source always makes ten.
- The recorder's encoder settings, the temporary file's name and the cache directory listing are not modelled. Deleting the temporary files is one `TempFilesDeleted` effect.
- `updateRecording` and `updateAiTitle` are called by the service but are declared neither by the repository nor by the DAO, and `Recording` has no transcript or title fields. The model records these writes as `TranscriptWritten` and `TitleWritten` effects.
- The `WhisperModelManager` readiness check and `WhisperService` transcription are not modelled. Their answers are parameters, and the floating-point audio code inside them is not part of this model.
- The native `initModel` / `generateTitle` / `cleanup` library is not modelled, and neither is the model-file copy. Their outcomes are parameters, and exceptions inside `generateAiTitle` become failures.
- `getStorageUsed` and the repository's Flow pass-throughs are not modelled, and neither are the view model's `deleteRecording` / `deleteDay` delegations.
- `RecordingsViewModel.getTodayString` is not modelled; the day string is a parameter.
- Absolute paths under `filesDir` are not modelled. Paths are relative to it.
- A folder is empty when no file or folder path lies under it. `listFiles` returning null is not distinguished.
- The user's silence-timeout and volume-threshold settings are stored but never read by the service. The service uses its own constants, and so does the model.
- `WhisperModel.SMALL` is referenced by the settings screen but is not declared. The model has the two declared constants.
- Vad.WakeLockLapses: the lapse of the ten-minute wake-lock timeout is stated on the acquisition time only. What the operating system does once the lock lapses is not part of this model.
