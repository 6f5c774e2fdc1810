/** The `recordings` table row (`Recording` entity). */
module RecordingData {

  /**
   * One saved recording. `id` is the primary key; an `id` of 0 asks the table to
   * generate one. Folders are the `yyyy-MM-dd` day and `HH:00-HH:00` hour buckets.
   * Kotlin's `Long` fields are unbounded integers here.
   */
  datatype Recording = Recording(
    id: int,
    fileName: string,
    filePath: string,
    dayFolder: string,
    hourFolder: string,
    timestamp: int,
    durationMs: int,
    fileSizeBytes: int)
}
