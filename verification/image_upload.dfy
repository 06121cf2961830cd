/**
 The image-upload list manager: two parallel lists, the selected files and
 one preview handle per file, a per-file check of type and size, a batch add
 capped by count that is all-or-nothing, and removal by index that keeps the
 two lists in lockstep. Every change is reported to an optional parent
 callback with the new file list.

 A preview handle stands for the Blob URL the browser mints for a file; the
 model mints them from a counter, so two handles are equal only if they are
 the same handle.
 */
module ImageUpload {
  import opened Js

  datatype File = File(name: string, mimeType: string, size: nat)

  /** The three messages the component can show. */
  datatype UploadError = UnsupportedType | TooLarge(maxSizeMB: int) | TooMany(maxImages: int)

  /** The `maxImages` and `maxSizeMB` props once their defaults are applied. */
  datatype Limits = Limits(maxImages: int, maxSizeMB: int)

  /** A numeric prop: `undefined` takes the destructuring default; `null` is
      kept and compares and multiplies as 0. */
  function PropValue(f: Field<int>, default: int): int {
    match f
    case Undefined => default
    case Null => 0
    case Present(v) => v
  }

  function ResolveLimits(maxImages: Field<int>, maxSizeMB: Field<int>): (l: Limits)
    ensures maxImages.Undefined? ==> l.maxImages == 3
    ensures maxSizeMB.Undefined? ==> l.maxSizeMB == 10
    ensures maxImages.Present? ==> l.maxImages == maxImages.value
    ensures maxSizeMB.Present? ==> l.maxSizeMB == maxSizeMB.value
    ensures maxImages.Null? ==> l.maxImages == 0
    ensures maxSizeMB.Null? ==> l.maxSizeMB == 0
  {
    Limits(PropValue(maxImages, 3), PropValue(maxSizeMB, 10))
  }

  const AllowedTypes: seq<string> := ["image/jpeg", "image/jpg", "image/png", "image/webp"]

  function MaxSizeBytes(l: Limits): int {
    l.maxSizeMB * 1024 * 1024
  }

  /** The per-file check: the type is checked first, then the size, which may
      equal the limit. */
  function ValidateFile(f: File, l: Limits): (e: Option<UploadError>)
    ensures e.None? <==> f.mimeType in AllowedTypes && f.size <= MaxSizeBytes(l)
    ensures f.mimeType !in AllowedTypes ==> e == Some(UnsupportedType)
    ensures f.mimeType in AllowedTypes && f.size > MaxSizeBytes(l) ==> e == Some(TooLarge(l.maxSizeMB))
  {
    if f.mimeType !in AllowedTypes then Some(UnsupportedType)
    else if f.size > MaxSizeBytes(l) then Some(TooLarge(l.maxSizeMB))
    else None
  }

  /** With the default limits a file of exactly 10 MiB passes and one byte
      more fails; an unsupported type is reported even when the file is also
      too large. */
  lemma DefaultSizeBoundary(name: string)
    ensures ValidateFile(File(name, "image/png", 10485760), ResolveLimits(Undefined, Undefined)).None?
    ensures ValidateFile(File(name, "image/png", 10485761), ResolveLimits(Undefined, Undefined)) == Some(TooLarge(10))
    ensures ValidateFile(File(name, "image/gif", 10485761), ResolveLimits(Undefined, Undefined)) == Some(UnsupportedType)
  {
  }

  /** Every file of the batch passes the per-file check. */
  predicate AllValid(files: seq<File>, l: Limits) {
    forall i :: 0 <= i < |files| ==> ValidateFile(files[i], l).None?
  }

  /** The error of the first file, in order, that fails the check, if any. */
  function FirstInvalid(files: seq<File>, l: Limits): (r: Option<UploadError>)
    ensures r.None? <==> AllValid(files, l)
  {
    if |files| == 0 then None
    else if ValidateFile(files[0], l).Some? then ValidateFile(files[0], l)
    else
      assert forall i :: 1 <= i < |files| ==> files[i] == files[1..][i - 1];
      FirstInvalid(files[1..], l)
  }

  /** A preview handle; the browser's Blob URL. */
  datatype Preview = Preview(id: nat)

  /** Handles start, start + 1, ... for n new files. */
  function Mint(start: nat, n: nat): (ps: seq<Preview>)
    ensures |ps| == n
    ensures forall i :: 0 <= i < n ==> ps[i] == Preview(start + i)
  {
    seq(n, i requires 0 <= i < n => Preview(start + i))
  }

  /** The component state: files and previews, the message on screen, and
      how many handles have been minted so far. */
  datatype State = State(images: seq<File>, previews: seq<Preview>, error: Option<UploadError>, minted: nat)

  const Initial := State([], [], None, 0)

  /** What one handler does besides changing the state: the file list it
      passes to the parent callback, and the handle it revokes. */
  datatype Outcome = Outcome(state: State, notified: Option<seq<File>>, revoked: Option<Preview>)

  /** The lists stay paired; every handle is distinct and already minted. */
  predicate Inv(s: State) {
    && |s.images| == |s.previews|
    && (forall i, j :: 0 <= i < j < |s.previews| ==> s.previews[i] != s.previews[j])
    && (forall i :: 0 <= i < |s.previews| ==> s.previews[i].id < s.minted)
  }

  /** `processFiles`: the count cap first, then each file in order; only a
      batch that passes entirely is appended, with one fresh handle per file. */
  function ProcessFiles(s: State, files: seq<File>, l: Limits, hasCallback: bool): (o: Outcome)
    ensures o.revoked.None?
    ensures |s.images| + |files| > l.maxImages ==>
              o == Outcome(s.(error := Some(TooMany(l.maxImages))), None, None)
    ensures o.state.error.None? <==> |s.images| + |files| <= l.maxImages && AllValid(files, l)
    ensures o.state.error.None? ==>
              && o.state.images == s.images + files
              && o.state.previews == s.previews + Mint(s.minted, |files|)
              && o.state.minted == s.minted + |files|
              && o.notified == (if hasCallback then Some(o.state.images) else None)
    ensures o.state.error.Some? ==> o.state == s.(error := o.state.error) && o.notified.None?
  {
    if |s.images| + |files| > l.maxImages then
      Outcome(s.(error := Some(TooMany(l.maxImages))), None, None)
    else
      match FirstInvalid(files, l)
      case Some(e) => Outcome(s.(error := Some(e)), None, None)
      case None =>
        var s' := State(s.images + files, s.previews + Mint(s.minted, |files|), None, s.minted + |files|);
        Outcome(s', if hasCallback then Some(s'.images) else None, None)
  }

  /** The file input and the drop zone: an empty selection does nothing at
      all; any other goes to `processFiles`. */
  function SelectFiles(s: State, files: seq<File>, l: Limits, hasCallback: bool): (o: Outcome)
    ensures |files| == 0 ==> o == Outcome(s, None, None)
    ensures |files| > 0 ==> o == ProcessFiles(s, files, l, hasCallback)
  {
    if |files| == 0 then Outcome(s, None, None) else ProcessFiles(s, files, l, hasCallback)
  }

  /** `Array.prototype.filter((_, i) => i !== index)`: the element at
      `index` dropped, or the list unchanged when there is none. */
  function DropIndex<T>(xs: seq<T>, index: int): (r: seq<T>)
    ensures 0 <= index < |xs| ==> |r| == |xs| - 1
    ensures !(0 <= index < |xs|) ==> r == xs
    ensures forall i :: 0 <= i < |r| ==> r[i] == xs[if 0 <= index <= i then i + 1 else i]
  {
    if 0 <= index < |xs| then xs[..index] + xs[index + 1..] else xs
  }

  /** `handleRemove`: the file and its handle leave both lists at the same
      index, the handle is revoked, any message is cleared and the parent hears
      the new list. */
  function Remove(s: State, index: int, hasCallback: bool): (o: Outcome)
    ensures o.state.images == DropIndex(s.images, index)
    ensures o.state.previews == DropIndex(s.previews, index)
    ensures o.state.error.None? && o.state.minted == s.minted
    ensures o.revoked == (if 0 <= index < |s.previews| then Some(s.previews[index]) else None)
    ensures o.notified == (if hasCallback then Some(o.state.images) else None)
  {
    var s' := State(DropIndex(s.images, index), DropIndex(s.previews, index), None, s.minted);
    var revoked := if 0 <= index < |s.previews| then Some(s.previews[index]) else None;
    Outcome(s', if hasCallback then Some(s'.images) else None, revoked)
  }

  lemma InitialInv()
    ensures Inv(Initial)
  {
  }

  /** Adding files keeps the lists paired and mints handles no list holds yet. */
  lemma ProcessFilesPreservesInv(s: State, files: seq<File>, l: Limits, hasCallback: bool)
    requires Inv(s)
    ensures Inv(ProcessFiles(s, files, l, hasCallback).state)
  {
  }

  /** Removal keeps the lists paired and the remaining handles distinct. */
  lemma RemovePreservesInv(s: State, index: int, hasCallback: bool)
    requires Inv(s)
    ensures Inv(Remove(s, index, hasCallback).state)
  {
  }

  /** A batch only ever grows the list up to the cap, so a list within the
      cap stays within it. */
  lemma ProcessFilesRespectsCap(s: State, files: seq<File>, l: Limits, hasCallback: bool)
    ensures var s' := ProcessFiles(s, files, l, hasCallback).state;
            |s'.images| == |s.images| || |s'.images| <= l.maxImages
    ensures |s.images| <= l.maxImages ==> |ProcessFiles(s, files, l, hasCallback).state.images| <= l.maxImages
  {
  }

  /** The count check comes before any file is looked at: a batch over the
      cap is refused with the count message even if its files are invalid. */
  lemma CountCheckedFirst(s: State, files: seq<File>, l: Limits, hasCallback: bool)
    requires |s.images| + |files| > l.maxImages
    ensures ProcessFiles(s, files, l, hasCallback).state.error == Some(TooMany(l.maxImages))
  {
  }

  /** When every file before position k passes and the one at k fails, the
      batch's error is that file's. */
  lemma {:induction false} FirstInvalidAt(files: seq<File>, l: Limits, k: int)
    requires 0 <= k < |files| && ValidateFile(files[k], l).Some? && AllValid(files[..k], l)
    ensures FirstInvalid(files, l) == ValidateFile(files[k], l)
  {
    if k > 0 {
      assert files[..k][0] == files[0];
      assert files[1..][..k - 1] == files[..k][1..];
      assert files[1..][k - 1] == files[k];
      FirstInvalidAt(files[1..], l, k - 1);
    }
  }

  /** A refused batch reports the first invalid file's error. */
  lemma {:induction false} RefusedBatchReportsFirstError(s: State, files: seq<File>, l: Limits, hasCallback: bool, k: int)
    requires |s.images| + |files| <= l.maxImages
    requires 0 <= k < |files| && ValidateFile(files[k], l).Some? && AllValid(files[..k], l)
    ensures ProcessFiles(s, files, l, hasCallback).state.error == ValidateFile(files[k], l)
    ensures ProcessFiles(s, files, l, hasCallback).state.images == s.images
  {
    FirstInvalidAt(files, l, k);
  }

  /** Removing the last file straight after adding it as a one-file batch
      restores both lists. */
  lemma RemoveUndoesAdd(s: State, f: File, l: Limits, hasCallback: bool)
    requires |s.images| == |s.previews|
    requires ProcessFiles(s, [f], l, hasCallback).state.error.None?
    ensures var s' := ProcessFiles(s, [f], l, hasCallback).state;
            var s'' := Remove(s', |s.images|, hasCallback).state;
            s''.images == s.images && s''.previews == s.previews
  {
  }
}
