/**
 * The returned path of `createTimestampFolder()` (src/utils.ts, and its copy in
 * src/utils/files.ts): `join(RESULTS_PATH, getTimestamp())`, relative to the working directory.
 * Creating the `parsimony` and `likelihood` sub-folders is file-system work outside this model.
 */
module Utils {
  import opened Wrappers
  import opened Builtins
  import opened Constants
  import UtilsTime

  /**
   * The path is two segments: "results", then the whole timestamp, which holds no '/' of its
   * own, so the first '/' of the path separates exactly those two.
   */
  function CreateTimestampFolder(d: UtilsTime.DateFields): (path: string)
    ensures SplitFirst(path, '/') == Some((RESULTS_PATH, UtilsTime.GetTimestamp(d)))
  {
    var ts := UtilsTime.GetTimestamp(d);
    UtilsTime.TimestampAlphabet(d);
    assert '/' !in ts;
    assert ts != "" by {
      assert |ts| >= |UtilsTime.TimePart(d)|;
    }
    SplitFirstAt(RESULTS_PATH, '/', ts);
    Join(RESULTS_PATH, ts)
  }

  /** The folder's name reads back as the date fields it was made from. */
  lemma FolderNamesItsDate(d: UtilsTime.DateFields)
    ensures SplitFirst(CreateTimestampFolder(d), '/').Some?
    ensures UtilsTime.ParseTimestamp(SplitFirst(CreateTimestampFolder(d), '/').value.1) == Some(d)
  {
    UtilsTime.TimestampRoundTrip(d);
  }

  /** Distinct date fields give distinct folders. */
  lemma FoldersDistinct(d: UtilsTime.DateFields, e: UtilsTime.DateFields)
    requires d != e
    ensures CreateTimestampFolder(d) != CreateTimestampFolder(e)
  {
    FolderNamesItsDate(d);
    FolderNamesItsDate(e);
  }
}
