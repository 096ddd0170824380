/**
 * The photo-upload page: the list of chosen files with its cap of twenty,
 * removal by position, and the submit step that uploads every file and
 * collects the storage paths it gets back.
 */
module Upload {
  import opened Wrappers

  /** A chosen file, as far as the page uses it: its name and its MIME type. */
  datatype File = File(name: string, contentType: string)

  /** At most this many photos per order. */
  const MaxFiles: nat := 20

  // ---------------------------------------------------------------------
  // handleFileSelect

  /** What a selection does: the new list, or the "limit exceeded" toast with the list untouched. */
  datatype SelectOutcome = Accepted(files: seq<File>) | LimitExceeded

  /** A selection is accepted exactly when the total stays within the cap; the new files go after the old ones. */
  function SelectFiles(current: seq<File>, picked: seq<File>): (r: SelectOutcome)
    ensures r.LimitExceeded? <==> |current| + |picked| > MaxFiles
    ensures r.Accepted? ==> r.files == current + picked && |r.files| <= MaxFiles
  {
    if |current| + |picked| > 20 then LimitExceeded else Accepted(current + picked)
  }

  /** The list after a selection: the accepted list, or the old one when the selection was refused. */
  function AfterSelect(current: seq<File>, picked: seq<File>): (r: seq<File>)
    ensures |current| + |picked| <= MaxFiles ==> r == current + picked
    ensures |current| + |picked| > MaxFiles ==> r == current
  {
    match SelectFiles(current, picked)
    case Accepted(files) => files
    case LimitExceeded => current
  }

  // ---------------------------------------------------------------------
  // removeFile

  /**
   * `files.filter((_, i) => i !== index)`: walks the list keeping every
   * element whose position differs from `index`.
   */
  function RemoveFile(files: seq<File>, index: int): (r: seq<File>)
    ensures 0 <= index < |files| ==> r == files[..index] + files[index + 1..]
    ensures !(0 <= index < |files|) ==> r == files
    decreases |files|
  {
    if files == [] then []
    else
      var rest := RemoveFile(files[1..], index - 1);
      if index == 0 then rest else [files[0]] + rest
  }

  /** Removing a file shortens the list by one when the index is in range, and never lengthens it. */
  lemma RemoveFileLength(files: seq<File>, index: int)
    ensures |RemoveFile(files, index)| == if 0 <= index < |files| then |files| - 1 else |files|
  {
  }

  // ---------------------------------------------------------------------
  // The list as a state machine

  datatype Event = Select(picked: seq<File>) | Remove(index: int)

  function Step(files: seq<File>, e: Event): (r: seq<File>)
    ensures |files| <= MaxFiles ==> |r| <= MaxFiles
  {
    match e
    case Select(picked) => AfterSelect(files, picked)
    case Remove(index) => RemoveFile(files, index)
  }

  /** The list after a run of events, applied in order. */
  function Run(files: seq<File>, events: seq<Event>): seq<File>
    decreases |events|
  {
    if events == [] then files else Run(Step(files, events[0]), events[1..])
  }

  /** Starting from a list within the cap (such as the empty one), no run of selects and removes exceeds it. */
  lemma {:induction false} NeverOverLimit(files: seq<File>, events: seq<Event>)
    requires |files| <= MaxFiles
    ensures |Run(files, events)| <= MaxFiles
    decreases |events|
  {
    if events != [] {
      NeverOverLimit(Step(files, events[0]), events[1..]);
    }
  }

  /** Running two batches of events one after the other is running them together. */
  lemma {:induction false} RunAppend(files: seq<File>, a: seq<Event>, b: seq<Event>)
    ensures Run(files, a + b) == Run(Run(files, a), b)
    decreases |a|
  {
    if a != [] {
      assert (a + b)[1..] == a[1..] + b;
      RunAppend(Step(files, a[0]), a[1..], b);
    } else {
      assert a + b == b;
    }
  }

  // ---------------------------------------------------------------------
  // handleSubmit

  /**
   * How a submit ends: the "upload photos" warning, every photo uploaded and
   * the order requested with their paths, or the upload-error toast with no
   * order requested.
   */
  datatype SubmitOutcome = NeedPhotos | Uploaded(paths: seq<string>) | Failed

  /**
   * Uploads every file in list order and collects the storage path the
   * signing call returned for it. `upload(i, f)` stands for the signing call
   * and the upload of the `i`-th file: the path on success, none when either
   * request throws. The first failure ends the loop. An empty list is refused
   * before anything is uploaded.
   */
  method HandleSubmit(files: seq<File>, upload: (nat, File) -> Option<string>) returns (r: SubmitOutcome)
    ensures r.NeedPhotos? <==> files == []
    ensures r.Failed? <==> files != [] && exists i :: 0 <= i < |files| && upload(i, files[i]).None?
    ensures r.Uploaded? ==> |r.paths| == |files|
    ensures r.Uploaded? ==> forall i :: 0 <= i < |files| ==> upload(i, files[i]) == Some(r.paths[i])
  {
    if |files| == 0 {
      return NeedPhotos;
    }
    var uploadedPaths: seq<string> := [];
    for i := 0 to |files|
      invariant |uploadedPaths| == i
      invariant forall j :: 0 <= j < i ==> upload(j, files[j]) == Some(uploadedPaths[j])
    {
      var filePath := upload(i, files[i]);
      if filePath.None? {
        return Failed;
      }
      uploadedPaths := uploadedPaths + [filePath.value];
    }
    return Uploaded(uploadedPaths);
  }
}
