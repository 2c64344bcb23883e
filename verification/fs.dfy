/**
 * `utils.OpenFileAcrossFilesystem` (pkg/utils/fs.go): read a file from the
 * first of several filesystems that has it. A filesystem is what opening
 * the name yields; reading is folded into the opened file.
 */
module Fs {
  import opened Errors

  type Byte = b: int | 0 <= b < 256

  /** What `io.ReadAll` gives on an opened file. */
  datatype ReadOutcome = ReadAll(content: seq<Byte>) | ReadFailed(error: Error)

  /** What `fsys.Open(name)` gives. */
  datatype OpenOutcome =
    | Opened(read: ReadOutcome)  // a file and a nil error
    | OpenedNil                  // a nil file and a nil error
    | NotExist(error: Error)     // an error that `errors.Is(err, fs.ErrNotExist)` accepts
    | OpenFailed(error: Error)   // any other error

  /** An `fs.FS`, seen through `Open`. */
  type FileSystem = string -> OpenOutcome

  const NotFoundMessage: string := "file not found in any filesystem"
  const OpenContext: string := "failed to open file: "
  const ReadContext: string := "failed to read file: "

  /** The `fs.File` half of what `Open` returned (None for a nil file). */
  function FileOf(o: OpenOutcome): (f: Option<ReadOutcome>)
    ensures f.Some? <==> o.Opened?
  {
    if o.Opened? then Some(o.read) else None
  }

  /** The `error` half of what `Open` returned. */
  function ErrorOf(o: OpenOutcome): (e: Option<Error>)
    ensures e.None? <==> (o.Opened? || o.OpenedNil?)
  {
    if o.NotExist? || o.OpenFailed? then Some(o.error) else None
  }

  /** Where the scan stops: the first filesystem whose `Open` did not report NotExist, or |fss|. */
  function FirstNonMissing(fileName: string, fss: seq<FileSystem>): (i: nat)
    ensures i <= |fss|
    ensures forall k :: 0 <= k < i ==> fss[k](fileName).NotExist?
    ensures i < |fss| ==> !fss[i](fileName).NotExist?
    decreases |fss|
  {
    if fss == [] then 0
    else if fss[0](fileName).NotExist? then 1 + FirstNonMissing(fileName, fss[1..])
    else 0
  }

  /** What the lookup returns, decided by the filesystem the scan stops at. */
  function Lookup(fileName: string, fss: seq<FileSystem>): Result<seq<Byte>>
  {
    var i := FirstNonMissing(fileName, fss);
    if i == |fss| then Err(Plain(NotFoundMessage))
    else
      match fss[i](fileName)
      case OpenFailed(e) => Err(Describe(OpenContext, e))
      case Opened(ReadFailed(e)) => Err(Describe(ReadContext, e))
      case Opened(ReadAll(content)) => Ok(content)
      case _ => Err(Plain(NotFoundMessage))
  }

  /**
   * The loop over `fss`: stop at the first `Open` with a nil error, return
   * at once on an error other than NotExist, move on after a NotExist. Then
   * a nil file or a remaining error means the file was found nowhere, and
   * otherwise the opened file is read.
   */
  method OpenFileAcrossFilesystem(fileName: string, fss: seq<FileSystem>) returns (r: Result<seq<Byte>>)
    ensures r == Lookup(fileName, fss)
  {
    var file: Option<ReadOutcome> := None;
    var err: Option<Error> := None;
    var i := 0;
    while i < |fss|
      invariant 0 <= i <= |fss|
      invariant forall k :: 0 <= k < i ==> fss[k](fileName).NotExist?
      invariant file.None?
    {
      var answer := fss[i](fileName);
      file, err := FileOf(answer), ErrorOf(answer);
      if err.None? {
        break;
      }
      if !answer.NotExist? {
        return Err(Describe(OpenContext, err.value));
      }
      i := i + 1;
    }
    FirstNonMissingIs(fileName, fss, i);
    if file.None? || err.Some? {
      return Err(Plain(NotFoundMessage));
    }
    match file.value
    case ReadFailed(e) =>
      r := Err(Describe(ReadContext, e));
    case ReadAll(content) =>
      r := Ok(content);
  }

  /** The scan stops at i exactly when every earlier filesystem reported NotExist and the i-th did not. */
  lemma {:induction false} FirstNonMissingIs(fileName: string, fss: seq<FileSystem>, i: nat)
    requires i <= |fss|
    requires forall k :: 0 <= k < i ==> fss[k](fileName).NotExist?
    requires i < |fss| ==> !fss[i](fileName).NotExist?
    ensures FirstNonMissing(fileName, fss) == i
    decreases i
  {
    if i > 0 {
      assert forall k :: 0 <= k < i - 1 ==> fss[1..][k] == fss[k + 1];
      FirstNonMissingIs(fileName, fss[1..], i - 1);
    }
  }

  /**
   * The contents come from the first filesystem whose `Open` succeeds; every
   * filesystem after it, whatever it holds, makes no difference.
   */
  lemma FirstOpenWins(fileName: string, fss: seq<FileSystem>, i: nat, content: seq<Byte>)
    requires i < |fss|
    requires forall k :: 0 <= k < i ==> fss[k](fileName).NotExist?
    requires fss[i](fileName) == Opened(ReadAll(content))
    ensures Lookup(fileName, fss) == Ok(content)
  {
    FirstNonMissingIs(fileName, fss, i);
  }

  /** Appending filesystems after one that answered other than NotExist changes nothing. */
  lemma {:induction false} LaterFilesystemsIgnored(fileName: string, fss: seq<FileSystem>, rest: seq<FileSystem>)
    requires FirstNonMissing(fileName, fss) < |fss|
    ensures Lookup(fileName, fss + rest) == Lookup(fileName, fss)
  {
    var i := FirstNonMissing(fileName, fss);
    assert forall k :: 0 <= k <= i ==> (fss + rest)[k] == fss[k];
    FirstNonMissingIs(fileName, fss + rest, i);
  }

  /** A filesystem that reports NotExist is passed over. */
  lemma NotExistMovesOn(fileName: string, fsys: FileSystem, fss: seq<FileSystem>)
    requires fsys(fileName).NotExist?
    ensures Lookup(fileName, [fsys] + fss) == Lookup(fileName, fss)
  {
    assert ([fsys] + fss)[1..] == fss;
  }

  /** An error other than NotExist, before any success, ends the lookup with "failed to open file". */
  lemma OtherOpenErrorStops(fileName: string, fss: seq<FileSystem>, i: nat, e: Error)
    requires i < |fss|
    requires forall k :: 0 <= k < i ==> fss[k](fileName).NotExist?
    requires fss[i](fileName) == OpenFailed(e)
    ensures Lookup(fileName, fss) == Err(Plain(OpenContext + e.Message()))
  {
    FirstNonMissingIs(fileName, fss, i);
  }

  /** A read error after a successful open ends the lookup with "failed to read file". */
  lemma ReadErrorReported(fileName: string, fss: seq<FileSystem>, i: nat, e: Error)
    requires i < |fss|
    requires forall k :: 0 <= k < i ==> fss[k](fileName).NotExist?
    requires fss[i](fileName) == Opened(ReadFailed(e))
    ensures Lookup(fileName, fss) == Err(Plain(ReadContext + e.Message()))
  {
    FirstNonMissingIs(fileName, fss, i);
  }

  /**
   * "file not found in any filesystem" comes back exactly when every
   * filesystem reported NotExist (in particular for no filesystem at all),
   * or the first that did not returned a nil file without an error.
   */
  lemma NotFoundExactly(fileName: string, fss: seq<FileSystem>)
    ensures Lookup(fileName, []) == Err(Plain(NotFoundMessage))
    ensures Lookup(fileName, fss) == Err(Plain(NotFoundMessage)) <==>
            (forall k :: 0 <= k < |fss| ==> fss[k](fileName).NotExist?)
            || fss[FirstNonMissing(fileName, fss)](fileName).OpenedNil?
  {
    var i := FirstNonMissing(fileName, fss);
    if i < |fss| {
      assert OpenContext[1] != NotFoundMessage[1] && ReadContext[1] != NotFoundMessage[1];
      assert !fss[i](fileName).NotExist?;
    }
  }
}
