/**
 * Export bookkeeping that does not touch the scene: the file name of the
 * downloaded image and the progress values an export run reports.
 */
module Export {
  /** `.replace(/[:.]/g, '-')`: every colon and full stop becomes a hyphen, all else is kept. */
  function ReplaceSeparators(s: string): string {
    seq(|s|, i requires 0 <= i < |s| => if s[i] == ':' || s[i] == '.' then '-' else s[i])
  }

  /** `.substring(0, n)`. */
  function Prefix(s: string, n: nat): string {
    if |s| <= n then s else s[..n]
  }

  const FilePrefix: string := "text-behind-image-"
  const FileSuffix: string := ".png"

  /** `text-behind-image-${timestamp}.png` with the timestamp cleaned and cut to its first 19 characters. */
  function ExportFileName(isoTimestamp: string): (name: string)
    ensures |name| == |FilePrefix| + (if |isoTimestamp| < 19 then |isoTimestamp| else 19) + |FileSuffix|
    ensures name[..|FilePrefix|] == FilePrefix && name[|name| - |FileSuffix|..] == FileSuffix
  {
    FilePrefix + Prefix(ReplaceSeparators(isoTimestamp), 19) + FileSuffix
  }

  /**
   * The name is the fixed prefix, then the first (at most 19) characters of the timestamp
   * with every colon and full stop turned into a hyphen, then ".png"; the stamp part holds
   * neither a colon nor a full stop.
   */
  lemma ExportFileNameShape(isoTimestamp: string)
    ensures var name := ExportFileName(isoTimestamp);
            var n := if |isoTimestamp| < 19 then |isoTimestamp| else 19;
            var stamp := name[|FilePrefix|..|FilePrefix| + n];
            |name| == |FilePrefix| + n + |FileSuffix| &&
            name[..|FilePrefix|] == FilePrefix && name[|FilePrefix| + n..] == FileSuffix &&
            (forall i :: 0 <= i < n ==>
               stamp[i] == (if isoTimestamp[i] == ':' || isoTimestamp[i] == '.' then '-' else isoTimestamp[i])) &&
            ':' !in stamp && '.' !in stamp
  {
  }

  /** For `new Date().toISOString()` at 07:08:09.123 on 6 May 2024 the download is named text-behind-image-2024-05-06T07-08-09.png. */
  lemma ExportFileNameExample()
    ensures ExportFileName("2024-05-06T07:08:09.123Z") == "text-behind-image-2024-05-06T07-08-09.png"
  {
    CleanedExampleStamp();
  }

  /** The stamp part of that example: the cleaned timestamp cut to 19 characters. */
  lemma CleanedExampleStamp()
    ensures Prefix(ReplaceSeparators("2024-05-06T07:08:09.123Z"), 19) == "2024-05-06T07-08-09"
  {
    assert ReplaceSeparators("2024-05-06T07:08:09.123Z") == "2024-05-06T07-08-09-123Z";
  }

  /** What the environment does during one export run: the steps that can fail, and the clock. */
  datatype ExportEnv = ExportEnv(
    contextAvailable: bool,   // exportCanvas.getContext('2d') returned a context
    imagesAvailable: bool,    // the photo and the cut-out have been decoded
    blobProduced: bool,       // toBlob delivered a PNG
    isoTimestamp: string)     // new Date().toISOString()

  /** The progress milestones of a successful run, in order. */
  const Milestones: seq<int> := [0, 30, 50, 80, 90]

  /** Did the run fail? It fails at the first unavailable step. */
  predicate ExportFails(env: ExportEnv) {
    !env.contextAvailable || !env.imagesAvailable || !env.blobProduced
  }

  /** How many milestones a run reaches before it succeeds or fails. */
  function MilestonesReached(env: ExportEnv): (k: nat)
    ensures 1 <= k <= |Milestones|
    ensures k == |Milestones| <==> !ExportFails(env)
    ensures env.contextAvailable ==> k >= 2
    ensures env.contextAvailable && env.imagesAvailable ==> k >= 4
  {
    if !env.contextAvailable then 1
    else if !env.imagesAvailable then 3
    else if !env.blobProduced then 4
    else 5
  }

  /**
   * A run's progress values: the milestones it reaches, then a reset to 0 if it fails.
   * Apart from that reset the values strictly increase, and a run ends at 90 exactly
   * when it succeeds.
   */
  lemma ProgressIsMonotone(env: ExportEnv)
    ensures var k := MilestonesReached(env);
            var log := Milestones[..k] + (if ExportFails(env) then [0] else []);
            1 <= k <= 5 && (forall i, j :: 0 <= i < j < k ==> log[i] < log[j]) &&
            (log[|log| - 1] == 90 <==> !ExportFails(env)) &&
            (ExportFails(env) ==> log[|log| - 1] == 0 && k < 5)
  {
  }
}
