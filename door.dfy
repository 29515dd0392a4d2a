/**
 * Door destinations: the `DoorProgress` codes a door carries (as listed in
 * client/elements/Door.js) and the label the client shows for them.
 */
module Doors {
  import opened Common
  import opened Text

  const FORWARD: int := 1
  const BACK: int := -1
  const HOME: int := 0
  const LATEST: int := 10

  predicate IsDoorCode(progress: int)
  {
    progress == FORWARD || progress == BACK || progress == HOME || progress == LATEST
  }

  /** Door.label: the text for a door whose destiny is `progress`; `latestProgress` is the local player's. */
  function Label(progress: int, currentProgress: int, latestProgress: int): string
  {
    if progress == FORWARD then "Forward to " + IntToString(currentProgress + progress)
    else if progress == BACK then "Back to " + IntToString(currentProgress + progress)
    else if progress == HOME then "Back to Lobby"
    else if progress == LATEST then "Continue from " + IntToString(latestProgress)
    else ""
  }

  /** A door has a label exactly when its destiny is one of the four codes. */
  lemma LabelEmptyIffUnknown(progress: int, currentProgress: int, latestProgress: int)
    ensures Label(progress, currentProgress, latestProgress) == "" <==> !IsDoorCode(progress)
  {
    if progress == FORWARD || progress == BACK || progress == LATEST {
      var s := Label(progress, currentProgress, latestProgress);
      assert |s| > 0;
    }
  }

  /** The forward and back labels name the neighbouring depths, and read back as those depths. */
  lemma LabelNamesNeighbour(currentProgress: int, latestProgress: int)
    ensures Label(FORWARD, currentProgress, latestProgress) == "Forward to " + IntToString(currentProgress + 1)
    ensures Label(BACK, currentProgress, latestProgress) == "Back to " + IntToString(currentProgress - 1)
    ensures ParseDecimal(Label(FORWARD, currentProgress, latestProgress)[|"Forward to "|..]) == Some(currentProgress + 1)
    ensures ParseDecimal(Label(BACK, currentProgress, latestProgress)[|"Back to "|..]) == Some(currentProgress - 1)
    ensures Label(LATEST, currentProgress, latestProgress) == "Continue from " + IntToString(latestProgress)
  {
    var f := Label(FORWARD, currentProgress, latestProgress);
    assert f[|"Forward to "|..] == IntToString(currentProgress + 1);
    IntToStringReadsBack(currentProgress + 1);
    var b := Label(BACK, currentProgress, latestProgress);
    assert b[|"Back to "|..] == IntToString(currentProgress - 1);
    IntToStringReadsBack(currentProgress - 1);
  }

  /** Distinct depths get distinct forward labels. */
  lemma ForwardLabelsDistinct(a: int, b: int, latestProgress: int)
    requires a != b
    ensures Label(FORWARD, a, latestProgress) != Label(FORWARD, b, latestProgress)
  {
    var la, lb := Label(FORWARD, a, latestProgress), Label(FORWARD, b, latestProgress);
    if la == lb {
      assert la[|"Forward to "|..] == lb[|"Forward to "|..];
      IntToStringInjective(a + 1, b + 1);
    }
  }
}
