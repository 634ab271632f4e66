/**
 * The avatar uploader plugin: the per-session "waiting for avatar" registry
 * and the handlers that act on it. Each handler is modelled as the
 * sequential code it is; the expiry timer's firing is the separate
 * operation ClearWaitingStatus, which may be called at any point.
 */
module Plugin {
  import opened Session
  import opened Registry
  import opened Fetch

  const PromptText := "请发送您要设置为头像的图片~"
  const ReminderText := "请发送图片哦~ 如需取消，请等待30秒或发送其他指令"
  const SuccessText := "头像设置成功！"
  const FailureText := "头像设置失败，请稍后重试"

  class AvatarUploaderPlugin {
    /** Sessions waiting for an avatar image; every value stored is `true`. */
    var waitingForAvatar: map<SessionId, bool>
    /** The plugin's data directory for avatars. */
    const avatarDir: Path

    ghost predicate Valid()
      reads this
    {
      forall s :: s in waitingForAvatar ==> waitingForAvatar[s]
    }

    /** The armed sessions: the keys of the waiting dictionary. */
    function Armed(): set<SessionId>
      reads this
    {
      waitingForAvatar.Keys
    }

    constructor (avatarDir: Path)
      ensures Valid() && this.avatarDir == avatarDir
      ensures waitingForAvatar == map[] && Armed() == {}
    {
      this.avatarDir := avatarDir;
      waitingForAvatar := map[];
    }

    /**
     * The upload command (the administrator check has already passed): arms
     * the session and answers with the prompt.
     */
    method UploadAvatar(sid: SessionId) returns (reply: string)
      requires Valid()
      modifies this
      ensures Valid()
      ensures waitingForAvatar == old(waitingForAvatar)[sid := true]
      ensures Armed() == Next(old(Armed()), Command(sid))
      ensures reply == PromptText
    {
      waitingForAvatar := waitingForAvatar[sid := true];
      reply := PromptText;
    }

    /** The expiry timer firing: disarms the session if it is still armed. */
    method ClearWaitingStatus(sid: SessionId)
      requires Valid()
      modifies this
      ensures Valid()
      ensures waitingForAvatar == old(waitingForAvatar) - {sid}
      ensures sid !in old(waitingForAvatar) ==> waitingForAvatar == old(waitingForAvatar)
      ensures Armed() == Next(old(Armed()), Expiry(sid))
    {
      if sid in waitingForAvatar {
        waitingForAvatar := waitingForAvatar - {sid};
      }
    }

    /**
     * The part of the message handler that runs before its first suspension:
     * the gate, the scan for an image, and the disarm. Nothing can interleave
     * with it, so the session is already disarmed when the fetch begins.
     */
    method Dispatch(sid: SessionId, chain: seq<Segment>) returns (d: Decision)
      requires Valid()
      modifies this
      ensures Valid()
      ensures d == Decide(old(Armed()), sid, chain)
      ensures waitingForAvatar == if d.Capture? then old(waitingForAvatar) - {sid} else old(waitingForAvatar)
      ensures Armed() == Next(old(Armed()), Message(sid, chain))
    {
      if sid !in waitingForAvatar {
        return Ignore;
      }
      var imgUrl := ExtractImageUrl(chain);
      if !Usable(imgUrl) {
        return Remind;
      }
      waitingForAvatar := waitingForAvatar - {sid};
      d := Capture(imgUrl.value);
    }

    /**
     * Downloads `url` into the session's temporary file and applies it as
     * the avatar. `fetch` is what the GET of a URL yields, `writeOk` whether
     * writing the file succeeds, `setOk` whether the host's avatar call
     * succeeds. The temporary file is removed on every path. The session is
     * already disarmed when the download begins.
     */
    method DownloadAndSetAvatar(sid: SessionId, url: string, fetch: string -> FetchResult,
                                writeOk: bool, setOk: bool, fs: FileSystem, account: Account)
      returns (outcome: Outcome)
      requires sid !in waitingForAvatar
      modifies fs, account
      ensures outcome == FlowOutcome(fetch(url), writeOk, setOk)
      ensures fs.files == old(fs.files) - {TempPath(avatarDir, sid)}
      ensures account.setRequests
           == old(account.setRequests) + (if ReachesSet(fetch(url), writeOk) then [TempPath(avatarDir, sid)] else [])
      ensures account.avatar == if outcome == Pass then Some(fetch(url).body.value) else old(account.avatar)
    {
      var temp := TempPath(avatarDir, sid);
      outcome := Pass;
      var response := fetch(url);
      match response {
        case TransportFault =>
          outcome := Fail(Transport);
        case Responded(status, body) =>
          if status == 200 {
            fs.Create(temp);
            match body {
              case None =>
                outcome := Fail(ReadFault);
              case Some(data) =>
                var written := fs.Write(temp, data, writeOk);
                if !written {
                  outcome := Fail(WriteFault);
                }
            }
          } else {
            outcome := Fail(BadStatus(status));
          }
      }
      if outcome == Pass {
        var applied := account.SetQqAvatar(fs, temp, setOk);
        if !applied {
          outcome := Fail(SetFault);
        }
      }
      // the `finally` cleanup
      var present := fs.Exists(temp);
      if present {
        fs.Unlink(temp);
      }
    }

    /**
     * The handler every inbound message reaches. Returns the reply sent to
     * the session (None for none) and the failure cause written to the log.
     */
    method HandleImageMessage(sid: SessionId, chain: seq<Segment>, fetch: string -> FetchResult,
                              writeOk: bool, setOk: bool, fs: FileSystem, account: Account)
      returns (reply: Option<string>, logged: Option<Cause>)
      requires Valid()
      modifies this, fs, account
      ensures Valid()
      ensures Armed() == Next(old(Armed()), Message(sid, chain))
      ensures sid !in old(Armed()) ==>
                reply == None && logged == None && waitingForAvatar == old(waitingForAvatar)
                && unchanged(fs, account)
      ensures sid in old(Armed()) && !Usable(FirstImageUrl(chain)) ==>
                reply == Some(ReminderText) && logged == None && waitingForAvatar == old(waitingForAvatar)
                && unchanged(fs, account)
      ensures sid in old(Armed()) && Usable(FirstImageUrl(chain)) ==>
                var o := FlowOutcome(fetch(FirstImageUrl(chain).value), writeOk, setOk);
                && waitingForAvatar == old(waitingForAvatar) - {sid}
                && reply == Some(if o == Pass then SuccessText else FailureText)
                && logged == (if o == Pass then None else Some(o.cause))
                && fs.files == old(fs.files) - {TempPath(avatarDir, sid)}
                && account.avatar == (if o == Pass then Some(fetch(FirstImageUrl(chain).value).body.value)
                                      else old(account.avatar))
    {
      reply, logged := None, None;
      var d := Dispatch(sid, chain);
      match d {
        case Ignore =>
        case Remind =>
          reply := Some(ReminderText);
        case Capture(url) =>
          var outcome := DownloadAndSetAvatar(sid, url, fetch, writeOk, setOk, fs, account);
          if outcome == Pass {
            reply := Some(SuccessText);
          } else {
            logged := Some(outcome.cause);
            reply := Some(FailureText);
          }
      }
    }

    /** Plugin unload: forgets every waiting session. */
    method Terminate()
      modifies this
      ensures Valid()
      ensures waitingForAvatar == map[]
      ensures Armed() == Next(old(Armed()), Teardown)
    {
      waitingForAvatar := map[];
    }
  }
}
