/**
 * The file-list updates of the FileUpload component
 * (src/components/ui/file-upload.tsx): what a drop and a removal make of the
 * `files` state, and what the optional `onFilesChange` listener is handed.
 * Files are of any type F; the component never looks inside them here.
 */
module FileUpload {
  import opened Wrappers

  /**
   * One functional state update: the new `files` list, and the list passed
   * to `onFilesChange` (None when no listener was given).
   */
  datatype Change<F> = Change(files: seq<F>, notified: Option<seq<F>>)

  /** `onFilesChange?.(newFiles)` followed by `return newFiles`. */
  function Publish<F>(newFiles: seq<F>, hasListener: bool): (c: Change<F>)
    ensures c.files == newFiles
    ensures c.notified.Some? <==> hasListener
    ensures c.notified.Some? ==> c.notified.value == c.files
  {
    Change(newFiles, if hasListener then Some(newFiles) else None)
  }

  /**
   * onDrop: with `multiple` set, the accepted files are appended to the
   * previous ones; otherwise (and `multiple` defaults to false) they replace
   * them.
   */
  function OnDrop<F>(prev: seq<F>, accepted: seq<F>, multiple: Option<bool>, hasListener: bool): (c: Change<F>)
    ensures multiple == Some(true) ==>
      |c.files| == |prev| + |accepted| && c.files[..|prev|] == prev && c.files[|prev|..] == accepted
    ensures multiple != Some(true) ==> c.files == accepted
    ensures c.notified.Some? <==> hasListener
    ensures c.notified.Some? ==> c.notified.value == c.files
  {
    var newFiles := if multiple.GetOr(false) then prev + accepted else accepted;
    Publish(newFiles, hasListener)
  }

  /** `prev.filter((_, i) => i !== index)`: keep every element whose position is not `index`. */
  function WithoutIndex<F>(s: seq<F>, index: int): (r: seq<F>)
    ensures |r| == if 0 <= index < |s| then |s| - 1 else |s|
    decreases |s|
  {
    if |s| == 0 then []
    else
      var last := |s| - 1;
      WithoutIndex(s[..last], index) + (if index == last then [] else [s[last]])
  }

  /** With `index` in range, the filter drops exactly that element and keeps the others in order. */
  lemma {:induction false} WithoutIndexInRange<F>(s: seq<F>, index: int)
    requires 0 <= index < |s|
    ensures WithoutIndex(s, index) == s[..index] + s[index + 1..]
    decreases |s|
  {
    var last := |s| - 1;
    if index == last {
      WithoutIndexOutOfRange(s[..last], index);
      assert s[index + 1..] == [];
    } else {
      WithoutIndexInRange(s[..last], index);
      assert s[..last][..index] == s[..index];
      assert s[..last][index + 1..] + [s[last]] == s[index + 1..];
    }
  }

  /** With `index` out of range, the filter keeps the whole list. */
  lemma {:induction false} WithoutIndexOutOfRange<F>(s: seq<F>, index: int)
    requires !(0 <= index < |s|)
    ensures WithoutIndex(s, index) == s
    decreases |s|
  {
    if |s| > 0 {
      var last := |s| - 1;
      WithoutIndexOutOfRange(s[..last], index);
      assert s[..last] + [s[last]] == s;
    }
  }

  /**
   * removeFile: the list without the element at `index` when it is in
   * range, the same list otherwise; the listener gets the new list.
   */
  function RemoveFile<F>(prev: seq<F>, index: int, hasListener: bool): (c: Change<F>)
    ensures 0 <= index < |prev| ==> c.files == prev[..index] + prev[index + 1..]
    ensures !(0 <= index < |prev|) ==> c.files == prev
    ensures c.notified.Some? <==> hasListener
    ensures c.notified.Some? ==> c.notified.value == c.files
  {
    var files := WithoutIndex(prev, index);
    assert 0 <= index < |prev| ==> files == prev[..index] + prev[index + 1..] by {
      if 0 <= index < |prev| { WithoutIndexInRange(prev, index); }
    }
    assert !(0 <= index < |prev|) ==> files == prev by {
      if !(0 <= index < |prev|) { WithoutIndexOutOfRange(prev, index); }
    }
    Publish(files, hasListener)
  }

  /**
   * Removing position i leaves exactly one element fewer, every element before
   * i in place and every element after i one position earlier.
   */
  lemma RemoveFileShifts<F>(prev: seq<F>, i: nat, hasListener: bool)
    requires i < |prev|
    ensures var files := RemoveFile(prev, i, hasListener).files;
            |files| == |prev| - 1 &&
            (forall j :: 0 <= j < i ==> files[j] == prev[j]) &&
            (forall j :: i <= j < |files| ==> files[j] == prev[j + 1])
  {
  }

  /** Dropping one file in multiple mode and then removing it again gives back the old list. */
  lemma DropThenRemoveLast<F>(prev: seq<F>, x: F, hasListener: bool)
    ensures RemoveFile(OnDrop(prev, [x], Some(true), hasListener).files, |prev|, hasListener).files == prev
  {
  }
}
