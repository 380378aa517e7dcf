/** The seller's file uploader: the human-readable file size, and the list of
    uploaded files the component keeps, which grows by uploads, shrinks by
    deletes and has its preview flags flipped locally. The server actions'
    answers are parameters. */
module FileUploader {
  import opened Common
  import opened Types

  // ---- formatFileSize ----

  const UNITS: seq<string> := ["B", "KB", "MB", "GB"]

  /** `1024^k`. */
  function Pow1024(k: nat): (r: nat)
    ensures r >= 1
  {
    if k == 0 then 1 else 1024 * Pow1024(k - 1)
  }

  /** A size as displayed: the number, how many decimals it is shown with, and
      the index of its unit in `UNITS`. */
  datatype SizeDisplay = SizeDisplay(size: real, decimals: nat, unit: nat)

  /** `formatFileSize`: a missing or zero size is "0 B"; otherwise the size is
      divided by 1024 while it is at least 1024 and a larger unit exists. The
      unit chosen is the largest one (up to GB) that the byte count reaches,
      and decimals are shown for every unit above bytes. */
  method FormatFileSize(bytes: Option<int>) returns (d: SizeDisplay)
    ensures bytes.None? || bytes.value == 0 ==> d == SizeDisplay(0.0, 0, 0)
    ensures d.unit < |UNITS|
    ensures bytes.Some? && bytes.value != 0 ==>
      && d.size * Pow1024(d.unit) as real == bytes.value as real
      && (d.unit > 0 ==> bytes.value >= Pow1024(d.unit))
      && (d.unit < 3 ==> bytes.value < Pow1024(d.unit + 1))
      && d.decimals == (if d.unit == 0 then 0 else 1)
  {
    if bytes.None? || bytes.value == 0 {
      return SizeDisplay(0.0, 0, 0);
    }
    var b := bytes.value;
    var i := 0;
    var size := b as real;
    while size >= 1024.0 && i < |UNITS| - 1
      invariant 0 <= i <= 3
      invariant size * Pow1024(i) as real == b as real
      invariant i > 0 ==> b >= Pow1024(i)
      decreases 3 - i
    {
      ScaleStep(size, b, i);
      size := size / 1024.0;
      i := i + 1;
    }
    if i < 3 {
      ScaleStep(size, b, i);
    }
    d := SizeDisplay(size, if i == 0 then 0 else 1, i);
  }

  /** Dividing the scaled size by 1024 scales by the next power, and the scaled
      size reaches 1024 exactly when the byte count reaches the next unit. */
  lemma ScaleStep(size: real, b: int, i: nat)
    requires size * Pow1024(i) as real == b as real
    ensures (size / 1024.0) * Pow1024(i + 1) as real == b as real
    ensures size >= 1024.0 <==> b >= Pow1024(i + 1)
  {
    var n := Pow1024(i);
    assert Pow1024(i + 1) == 1024 * n;
    ScaleByPositive(size, n as real, Pow1024(i + 1) as real);
  }

  lemma ScaleByPositive(x: real, p: real, q: real)
    requires p > 0.0 && q == 1024.0 * p
    ensures (x / 1024.0) * q == x * p
    ensures x >= 1024.0 <==> x * p >= q
  {
    if x >= 1024.0 {
      assert (x - 1024.0) * p >= 0.0;
    } else {
      assert (1024.0 - x) * p > 0.0;
    }
  }

  // ---- The uploaded-files list ----

  /** The index of the first failed upload, or the number of uploads when none failed. */
  function FirstFailure(results: seq<ActionResult<ProductFile>>): (n: nat)
    ensures n <= |results|
    ensures forall k :: 0 <= k < n ==> results[k].Data?
    ensures n < |results| ==> results[n].Error?
  {
    if results == [] then 0
    else if results[0].Error? then 0
    else 1 + FirstFailure(results[1..])
  }

  /** The files carried by a run of successful uploads, in order. */
  function Uploaded(results: seq<ActionResult<ProductFile>>): (r: seq<ProductFile>)
    requires forall k :: 0 <= k < |results| ==> results[k].Data?
    ensures |r| == |results| && forall k :: 0 <= k < |r| ==> r[k] == results[k].data
  {
    seq(|results|, k requires 0 <= k < |results| => results[k].data)
  }

  /** The list after a successful delete: every file with that id removed. */
  function Removed(files: seq<ProductFile>, fileId: Id): (r: seq<ProductFile>)
    ensures forall k :: 0 <= k < |r| ==> r[k].id != fileId
    ensures forall f :: f in r <==> f in files && f.id != fileId
  {
    var keep := (f: ProductFile) => f.id != fileId;
    FilterMembers(files, keep);
    Filter(files, keep)
  }

  /** The list with the preview flag of the files with that id flipped. */
  function Flipped(files: seq<ProductFile>, fileId: Id): (r: seq<ProductFile>)
    ensures |r| == |files|
    ensures forall k :: 0 <= k < |r| ==> r[k].(is_preview := files[k].is_preview) == files[k]
    ensures forall k :: 0 <= k < |r| ==> (r[k].is_preview != files[k].is_preview <==> files[k].id == fileId)
  {
    seq(|files|, k requires 0 <= k < |files| =>
      if files[k].id == fileId then files[k].(is_preview := !files[k].is_preview) else files[k])
  }

  /** Flipping the same file twice restores the list. */
  lemma FlippedTwice(files: seq<ProductFile>, fileId: Id)
    ensures Flipped(Flipped(files, fileId), fileId) == files
  {
  }

  /** The component's state: the files shown and the error message, if any. */
  class FileList {
    var files: seq<ProductFile>
    var error: Option<string>

    constructor (files: seq<ProductFile>)
      ensures this.files == files && error.None?
    {
      this.files := files;
      error := None;
    }

    /** `handleUpload`: the uploads are sent one at a time, in order, each as a
        non-preview file; each success is appended, and the first failure is
        shown and ends the run, keeping what was appended before it. */
    method HandleUpload(results: seq<ActionResult<ProductFile>>)
      modifies this
      ensures var n := FirstFailure(results);
        && files == old(files) + Uploaded(results[..n])
        && error == (if n < |results| then Some(results[n].message) else None)
    {
      error := None;
      var i := 0;
      while i < |results|
        invariant 0 <= i <= FirstFailure(results)
        invariant files == old(files) + Uploaded(results[..i])
        invariant error.None?
      {
        if results[i].Error? {
          error := Some(results[i].message);
          break;
        }
        assert results[..i + 1] == results[..i] + [results[i]];
        files := files + [results[i].data];
        i := i + 1;
      }
    }

    /** `handleDelete`: a failed delete shows its error and keeps the list; a
        successful one removes the file from the list. */
    method HandleDelete(fileId: Id, outcome: ActionResult<Done>)
      modifies this
      ensures outcome.Error? ==> files == old(files) && error == Some(outcome.message)
      ensures outcome.Data? ==> files == Removed(old(files), fileId) && error.None?
    {
      error := None;
      if outcome.Error? {
        error := Some(outcome.message);
      } else {
        files := Removed(files, fileId);
      }
    }

    /** `togglePreview`: flips the preview flag of the file locally. */
    method TogglePreview(fileId: Id)
      modifies this
      ensures files == Flipped(old(files), fileId) && error == old(error)
    {
      files := Flipped(files, fileId);
    }
  }

  /** A run of uploads only appends: the old list is a prefix of the new one,
      and exactly the successes before the first failure are added, in order:
      place `|old_files| + k` holds the file of the `k`-th upload. */
  lemma UploadsOnlyAppend(old_files: seq<ProductFile>, results: seq<ActionResult<ProductFile>>)
    ensures var n := FirstFailure(results);
      var r := old_files + Uploaded(results[..n]);
      && r[..|old_files|] == old_files
      && |r| == |old_files| + n
      && (forall k :: 0 <= k < n ==> results[k].Data? && r[|old_files| + k] == results[k].data)
      && ((forall k :: 0 <= k < |results| ==> results[k].Data?) ==> n == |results|)
  {
    var n := FirstFailure(results);
    var r := old_files + Uploaded(results[..n]);
    assert r[..|old_files|] == old_files;
  }
}
