/**
 * Client code that drives the plugin through its typical conversations,
 * using only the handlers' contracts.
 */
module Scenarios {
  import opened Session
  import opened Registry
  import opened Fetch
  import opened Plugin

  /**
   * Upload command, a text message (reminder, still armed), then an image
   * whose download returns 200 and whose avatar call succeeds.
   */
  method UploadRemindCapture(fs: FileSystem, account: Account)
    modifies fs, account
    ensures fs.files == old(fs.files) - {TempPath("avatars", "s1")}
    ensures account.avatar == Some([1, 2, 3])
  {
    var plugin := new AvatarUploaderPlugin("avatars");
    var prompt := plugin.UploadAvatar("s1");
    assert prompt == PromptText && "s1" in plugin.Armed();

    var reply, logged := plugin.HandleImageMessage("s1", [Plain("hello")],
                                                   u => TransportFault, true, true, fs, account);
    assert reply == Some(ReminderText) && logged == None;
    assert "s1" in plugin.Armed();

    var image := [Image(Some("https://x/y.jpg"))];
    assert FirstImageUrl(image) == Some("https://x/y.jpg");
    reply, logged := plugin.HandleImageMessage("s1", image,
                                               u => Responded(200, Some([1, 2, 3])), true, true, fs, account);
    assert reply == Some(SuccessText) && logged == None;
    assert "s1" !in plugin.Armed();
  }

  /** As above, but the download answers 404: generic failure reply, status logged. */
  method CaptureNotFound(fs: FileSystem, account: Account)
    modifies fs, account
    ensures fs.files == old(fs.files) - {TempPath("avatars", "s1")}
    ensures account.avatar == old(account.avatar)
  {
    var plugin := new AvatarUploaderPlugin("avatars");
    var _ := plugin.UploadAvatar("s1");
    var image := [Image(Some("https://x/y.jpg"))];
    assert FirstImageUrl(image) == Some("https://x/y.jpg");
    var reply, logged := plugin.HandleImageMessage("s1", image,
                                                   u => Responded(404, None), true, true, fs, account);
    assert reply == Some(FailureText) && logged == Some(BadStatus(404));
    assert "s1" !in plugin.Armed();
  }

  /** The expiry fires with no message received: the session is silently disarmed. */
  method SilentExpiry() returns (armedBefore: set<SessionId>, armedAfter: set<SessionId>)
    ensures "s2" in armedBefore && "s2" !in armedAfter
  {
    var plugin := new AvatarUploaderPlugin("avatars");
    var _ := plugin.UploadAvatar("s2");
    armedBefore := plugin.Armed();
    plugin.ClearWaitingStatus("s2");
    armedAfter := plugin.Armed();
  }

  /** Teardown while two sessions are armed empties the registry. */
  method TeardownWithTwoArmed() returns (armedBefore: set<SessionId>, armedAfter: set<SessionId>)
    ensures armedBefore == {"s1", "s2"} && armedAfter == {}
  {
    var plugin := new AvatarUploaderPlugin("avatars");
    var _ := plugin.UploadAvatar("s1");
    var _ := plugin.UploadAvatar("s2");
    armedBefore := plugin.Armed();
    plugin.Terminate();
    armedAfter := plugin.Armed();
  }
}
