/**
 * The download-and-set flow's surroundings: the outcome of the HTTP fetch,
 * the local file system holding the temporary image, the account whose
 * avatar is set, the failure causes, and the temporary file's name.
 */
module Fetch {
  import opened Session

  type Bytes = seq<bv8>
  type Path = string

  /**
   * What the HTTP GET of the image URL produced: a response with its status
   * and its body (None when reading the body failed part way), or a
   * transport-level fault (timeout, refused connection, bad URL).
   */
  datatype FetchResult =
    | Responded(status: int, body: Option<Bytes>)
    | TransportFault

  /** Why a flow failed; logged, never shown to the user. */
  datatype Cause =
    | BadStatus(status: int)
    | Transport
    | ReadFault
    | WriteFault
    | SetFault

  datatype Outcome = Pass | Fail(cause: Cause)

  /** The flow gets far enough to ask the account to apply the temporary file. */
  predicate ReachesSet(fetch: FetchResult, writeOk: bool)
  {
    fetch.Responded? && fetch.status == 200 && fetch.body.Some? && writeOk
  }

  /**
   * The outcome of one download-and-set flow, given what the fetch, the file
   * write and the avatar call do.
   */
  function FlowOutcome(fetch: FetchResult, writeOk: bool, setOk: bool): (r: Outcome)
    ensures r == Pass <==> ReachesSet(fetch, writeOk) && setOk
    ensures fetch.TransportFault? ==> r == Fail(Transport)
    ensures fetch.Responded? && fetch.status != 200 ==> r == Fail(BadStatus(fetch.status))
    ensures fetch.Responded? && fetch.status == 200 && fetch.body.None? ==> r == Fail(ReadFault)
    ensures fetch.Responded? && fetch.status == 200 && fetch.body.Some? && !writeOk ==> r == Fail(WriteFault)
    ensures ReachesSet(fetch, writeOk) && !setOk ==> r == Fail(SetFault)
    ensures r.Fail? && r.cause == SetFault ==> ReachesSet(fetch, writeOk)
  {
    match fetch
    case TransportFault => Fail(Transport)
    case Responded(status, body) =>
      if status != 200 then Fail(BadStatus(status))
      else if body.None? then Fail(ReadFault)
      else if !writeOk then Fail(WriteFault)
      else if !setOk then Fail(SetFault)
      else Pass
  }

  const TempPrefix := "temp_avatar_"
  const TempSuffix := ".jpg"

  /** The temporary file name for a session: `temp_avatar_<session>.jpg`. */
  function TempName(sid: SessionId): (name: string)
    ensures |name| == |TempPrefix| + |sid| + |TempSuffix|
    ensures name[..|TempPrefix|] == TempPrefix
    ensures name[|TempPrefix|..|TempPrefix| + |sid|] == sid
    ensures name[|TempPrefix| + |sid|..] == TempSuffix
  {
    var name := TempPrefix + sid + TempSuffix;
    assert name[|TempPrefix|..|TempPrefix| + |sid|] == sid;
    name
  }

  /**
   * The temporary file's path inside the plugin's avatar directory, joined
   * with a single separator.
   */
  function TempPath(dir: Path, sid: SessionId): (p: Path)
    ensures |p| == |dir| + 1 + |TempName(sid)|
    ensures p[..|dir| + 1] == dir + "/"
    ensures p[|dir| + 1..] == TempName(sid)
  {
    dir + "/" + TempName(sid)
  }

  /** Distinct sessions never share a temporary path (in the same directory). */
  lemma TempPathInjective(dir: Path, s1: SessionId, s2: SessionId)
    ensures TempPath(dir, s1) == TempPath(dir, s2) <==> s1 == s2
  {
    if TempPath(dir, s1) == TempPath(dir, s2) {
      var p := TempPath(dir, s1);
      var k := |dir| + 1;
      assert p[k..] == TempName(s1);
      assert TempPath(dir, s2)[k..] == TempName(s2);
      assert |s1| == |s2|;
      calc {
        s1;
        TempName(s1)[|TempPrefix|..|TempPrefix| + |s1|];
        TempName(s2)[|TempPrefix|..|TempPrefix| + |s2|];
        s2;
      }
    }
  }

  /** The local file system, as a map from paths to file contents. */
  class FileSystem {
    var files: map<Path, Bytes>

    constructor (files: map<Path, Bytes>)
      ensures this.files == files
    {
      this.files := files;
    }

    /** `Path.exists()`. */
    method Exists(p: Path) returns (b: bool)
      ensures b <==> p in files
    {
      b := p in files;
    }

    /** `open(p, 'wb')`: creates the file, or truncates an existing one. */
    method Create(p: Path)
      modifies this
      ensures files == old(files)[p := []]
    {
      files := files[p := []];
    }

    /**
     * Writes `data` to the open file `p`; when the write fails (`ok` false)
     * the file is left with contents that are not specified.
     */
    method Write(p: Path, data: Bytes, ok: bool) returns (success: bool)
      requires p in files
      modifies this
      ensures success == ok
      ensures files.Keys == old(files).Keys
      ensures forall q :: q in files && q != p ==> files[q] == old(files)[q]
      ensures success ==> files[p] == data
    {
      success := ok;
      if ok {
        files := files[p := data];
      }
    }

    /** `Path.unlink()`: removes an existing file. */
    method Unlink(p: Path)
      requires p in files
      modifies this
      ensures files == old(files) - {p}
    {
      files := files - {p};
    }
  }

  /**
   * The bot account whose avatar the plugin sets. `setRequests` records every
   * file path the account was asked to apply, so that a model of the flow can
   * say whether that step was reached.
   */
  class Account {
    var avatar: Option<Bytes>
    var setRequests: seq<Path>

    constructor (avatar: Option<Bytes>)
      ensures this.avatar == avatar && setRequests == []
    {
      this.avatar := avatar;
      setRequests := [];
    }

    /**
     * `set_qq_avatar(file=path)`: the host applies the file's contents as the
     * avatar; it fails when the host call fails (`ok` false) or the file is
     * missing.
     */
    method SetQqAvatar(fs: FileSystem, file: Path, ok: bool) returns (success: bool)
      modifies this
      ensures setRequests == old(setRequests) + [file]
      ensures success <==> ok && file in fs.files
      ensures avatar == if success then Some(fs.files[file]) else old(avatar)
    {
      setRequests := setRequests + [file];
      success := ok && file in fs.files;
      if success {
        avatar := Some(fs.files[file]);
      }
    }
  }
}
