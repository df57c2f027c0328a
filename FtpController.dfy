/**
 * The caller side: a controller that tracks the session state, packs each public request into a
 * command message for the service (string arguments become a bundle, null values skipped), and
 * dispatches the service's replies to the registered command and download callbacks.
 *
 * Messengers are endpoints by identity; what is delivered to the service is the log `sent`;
 * what the callbacks receive is the logs `callbacks` and `downloads`.
 */
module FtpController {
  import opened Wrappers
  import opened FtpFile
  import opened FtpFiles
  import opened FtpService

  datatype FTPState = SERVICE_STOPPED | SERVICE_STARTED | FTP_CONNECTED | FTP_LOGGED_IN

  /** The state after a reply: four replies move the state, whatever code they carry. */
  function NextState(s: FTPState, what: int): (t: FTPState)
    ensures !ChangesState(what) ==> t == s
    ensures ChangesState(what) ==> t == StateAfter(what)
  {
    if what == WHAT_CONNECT then FTP_CONNECTED
    else if what == WHAT_DISCONNECT then SERVICE_STARTED
    else if what == WHAT_LOGIN then FTP_LOGGED_IN
    else if what == WHAT_LOGOUT then FTP_CONNECTED
    else s
  }

  predicate ChangesState(what: int) {
    what in {WHAT_CONNECT, WHAT_DISCONNECT, WHAT_LOGIN, WHAT_LOGOUT}
  }

  /** The state a state-changing reply leads to. */
  function StateAfter(what: int): FTPState
    requires ChangesState(what)
  {
    match what
    case 3 => FTP_CONNECTED
    case 4 => SERVICE_STARTED
    case 5 => FTP_LOGGED_IN
    case _ => FTP_CONNECTED
  }

  /** The state after a sequence of replies, handled in order. */
  function Replay(s: FTPState, whats: seq<int>): FTPState
    decreases |whats|
  {
    if whats == [] then s else NextState(Replay(s, whats[..|whats| - 1]), whats[|whats| - 1])
  }

  /** Replies that change no state leave it as it was, whatever the codes. */
  lemma {:induction false} ReplayUnchanged(s: FTPState, whats: seq<int>)
    requires forall i :: 0 <= i < |whats| ==> !ChangesState(whats[i])
    ensures Replay(s, whats) == s
    decreases |whats|
  {
    if whats != [] {
      var init := whats[..|whats| - 1];
      assert forall i :: 0 <= i < |init| ==> init[i] == whats[i];
      ReplayUnchanged(s, init);
    }
  }

  /**
   * After any sequence of replies the state is the one the latest state-changing reply leads to,
   * whatever came before it and whatever the codes.
   */
  lemma {:induction false} ReplayFollowsLatest(s: FTPState, whats: seq<int>, i: nat)
    requires i < |whats| && ChangesState(whats[i])
    requires forall j :: i < j < |whats| ==> !ChangesState(whats[j])
    ensures Replay(s, whats) == StateAfter(whats[i])
    decreases |whats|
  {
    var init := whats[..|whats| - 1];
    if i < |whats| - 1 {
      assert forall j :: 0 <= j < |init| ==> init[j] == whats[j];
      ReplayFollowsLatest(s, init, i);
      assert !ChangesState(whats[|whats| - 1]);
    }
  }

  // ---------------------------------------------------------------------------------------------
  // Packing string arguments

  /** The bundle after `putString(key, value)`, which is skipped when either is null. */
  function Put(m: map<string, string>, key: Option<string>, value: Option<string>): map<string, string> {
    if key.Some? && value.Some? then m[key.value := value.value] else m
  }

  /** The bundle built from key/value pairs, in order: a later pair with the same key wins. */
  function Collect(keyvals: seq<Option<string>>): map<string, string>
    requires |keyvals| % 2 == 0
    decreases |keyvals|
  {
    if keyvals == [] then map[]
    else Put(Collect(keyvals[..|keyvals| - 2]), keyvals[|keyvals| - 2], keyvals[|keyvals| - 1])
  }

  /** The data a command carries: the bundle, or none at all when it is empty. */
  function BundleOf(keyvals: seq<Option<string>>): Option<map<string, string>>
    requires |keyvals| % 2 == 0
  {
    var m := Collect(keyvals);
    if m == map[] then None else Some(m)
  }

  function Pairs(keyvals: seq<Option<string>>): nat { |keyvals| / 2 }

  function KeyAt(keyvals: seq<Option<string>>, p: nat): Option<string>
    requires 2 * p + 1 < |keyvals|
  {
    keyvals[2 * p]
  }

  function ValueAt(keyvals: seq<Option<string>>, p: nat): Option<string>
    requires 2 * p + 1 < |keyvals|
  {
    keyvals[2 * p + 1]
  }

  /** Pair p stores `key`: its key is `key` and its value is not null. */
  predicate Stores(keyvals: seq<Option<string>>, p: nat, key: string)
    requires 2 * p + 1 < |keyvals|
  {
    KeyAt(keyvals, p) == Some(key) && ValueAt(keyvals, p).Some?
  }

  /**
   * A key is in the bundle exactly when some pair stores it, and it then maps to the value of
   * the last pair that does.
   */
  lemma {:induction false} CollectLookup(keyvals: seq<Option<string>>, key: string)
    requires |keyvals| % 2 == 0
    ensures key in Collect(keyvals) <==> exists p :: 0 <= p < Pairs(keyvals) && Stores(keyvals, p, key)
    ensures key in Collect(keyvals) ==>
      exists p :: 0 <= p < Pairs(keyvals) && Stores(keyvals, p, key) &&
        Collect(keyvals)[key] == ValueAt(keyvals, p).value &&
        forall q :: p < q < Pairs(keyvals) ==> !Stores(keyvals, q, key)
    decreases |keyvals|
  {
    if keyvals != [] {
      var n := |keyvals|;
      var prefix := keyvals[..n - 2];
      var last := Pairs(prefix);
      assert last == Pairs(keyvals) - 1 && 2 * last == n - 2;
      CollectLookup(prefix, key);
      forall p | 0 <= p < Pairs(prefix)
        ensures Stores(prefix, p, key) == Stores(keyvals, p, key)
        ensures ValueAt(prefix, p) == ValueAt(keyvals, p)
      {
        assert prefix[2 * p] == keyvals[2 * p] && prefix[2 * p + 1] == keyvals[2 * p + 1];
      }
      if Stores(keyvals, last, key) {
        assert Collect(keyvals)[key] == ValueAt(keyvals, last).value;
      } else {
        assert key in Collect(keyvals) <==> key in Collect(prefix);
        if key in Collect(prefix) {
          assert Collect(keyvals)[key] == Collect(prefix)[key];
          var p :| 0 <= p < Pairs(prefix) && Stores(prefix, p, key) &&
            Collect(prefix)[key] == ValueAt(prefix, p).value &&
            forall q :: p < q < Pairs(prefix) ==> !Stores(prefix, q, key);
          assert forall q :: p < q < Pairs(keyvals) ==> !Stores(keyvals, q, key) by {
            forall q | p < q < Pairs(keyvals) ensures !Stores(keyvals, q, key) {
              if q < last { assert !Stores(prefix, q, key); }
            }
          }
        } else {
          forall p | 0 <= p < Pairs(keyvals) ensures !Stores(keyvals, p, key) {
            if p < last { assert !Stores(prefix, p, key); }
          }
        }
      }
    }
  }

  /** The string a single-argument command delivers for its key: the argument, null as absent. */
  lemma OneArgument(key: string, value: Option<string>, msg: Command)
    requires msg.data == BundleOf([Some(key), value])
    ensures GetString(msg, key) == value
  {
    var kv := [Some(key), value];
    assert kv[..0] == [];
    assert Collect(kv) == Put(map[], Some(key), value);
    if value.Some? {
      assert key in Collect(kv);
    }
  }

  /** Each of two distinct keys delivers its own argument, null as absent. */
  lemma TwoArguments(key1: string, value1: Option<string>, key2: string, value2: Option<string>, msg: Command)
    requires key1 != key2
    requires msg.data == BundleOf([Some(key1), value1, Some(key2), value2])
    ensures GetString(msg, key1) == value1
    ensures GetString(msg, key2) == value2
  {
    var kv := [Some(key1), value1, Some(key2), value2];
    assert kv[..2] == [Some(key1), value1];
    assert kv[..2][..0] == [];
    assert Collect(kv[..2]) == Put(map[], Some(key1), value1);
    var m := Collect(kv);
    assert m == Put(Put(map[], Some(key1), value1), Some(key2), value2);
    assert key1 in m <==> value1.Some?;
    assert key2 in m <==> value2.Some?;
    if value1.Some? {
      assert m[key1] == value1.value;
    }
  }

  lemma ArgumentKeysDistinct()
    ensures KEY_USERNAME != KEY_PASSWORD
    ensures KEY_REMOTE_FILE_NAME != KEY_LOCAL_FILE_NAME
  {
  }

  // ---------------------------------------------------------------------------------------------
  // Narrowing the resume offset

  /** The offset check as written: only values above Integer.MAX_VALUE are refused before the cast. */
  function NarrowRestartAsWritten(restartAt: Int64): (r: Option<Int32>)
    ensures r.None? <==> restartAt > INT32_MAX
    ensures r.Some? ==> (r.value - restartAt) % 0x1_0000_0000 == 0
  {
    if restartAt > 2_147_483_647 then None else Some(NarrowToInt(restartAt))
  }

  /**
   * Below Integer.MIN_VALUE the cast wraps: a negative offset reaches the service as a valid one,
   * so the download is queued, from the start for -2^32 and resumed at 2^31 - 1 for -2^31 - 1.
   */
  lemma AsWrittenWrapsNegativeOffsets(remoteFileName: string, localFileName: string, local: Option<Endpoint>)
    ensures NarrowRestartAsWritten(-0x1_0000_0000) == Some(0)
    ensures NarrowRestartAsWritten(-0x8000_0001) == Some(INT32_MAX)
    ensures var msg := Command(WHAT_DOWNLOAD, NarrowRestartAsWritten(-0x1_0000_0000).value, 0, local,
                               BundleOf([Some(KEY_REMOTE_FILE_NAME), Some(remoteFileName), Some(KEY_LOCAL_FILE_NAME), Some(localFileName)]));
      Request(msg).Ready() && DownloadCall(Request(msg)) == ClientCall.Download(remoteFileName, localFileName)
    ensures var msg := Command(WHAT_DOWNLOAD, NarrowRestartAsWritten(-0x8000_0001).value, 0, local,
                               BundleOf([Some(KEY_REMOTE_FILE_NAME), Some(remoteFileName), Some(KEY_LOCAL_FILE_NAME), Some(localFileName)]));
      Request(msg).Ready() && DownloadCall(Request(msg)) == ClientCall.DownloadFrom(remoteFileName, localFileName, INT32_MAX)
  {
    ArgumentKeysDistinct();
    var data := BundleOf([Some(KEY_REMOTE_FILE_NAME), Some(remoteFileName), Some(KEY_LOCAL_FILE_NAME), Some(localFileName)]);
    TwoArguments(KEY_REMOTE_FILE_NAME, Some(remoteFileName), KEY_LOCAL_FILE_NAME, Some(localFileName),
                 Command(WHAT_DOWNLOAD, 0, 0, local, data));
    TwoArguments(KEY_REMOTE_FILE_NAME, Some(remoteFileName), KEY_LOCAL_FILE_NAME, Some(localFileName),
                 Command(WHAT_DOWNLOAD, INT32_MAX, 0, local, data));
  }

  /** The offset check as intended: an offset is sent only when it fits an int. */
  function NarrowRestart(restartAt: Int64): (r: Option<Int32>)
    ensures r.Some? <==> INT32_MIN <= restartAt <= INT32_MAX
    ensures r.Some? ==> r.value == restartAt
  {
    if restartAt < INT32_MIN || restartAt > INT32_MAX then None else Some(restartAt as Int32)
  }

  /** The two checks agree on every offset that is not below Integer.MIN_VALUE. */
  lemma NarrowRestartAgrees(restartAt: Int64)
    ensures restartAt >= INT32_MIN ==> NarrowRestartAsWritten(restartAt) == NarrowRestart(restartAt)
  {
  }

  // ---------------------------------------------------------------------------------------------
  // Callbacks

  /** A call on the registered command callback, with what it receives. */
  datatype CallbackEvent =
    | OnStart
    | OnStop
    | OnConnect(exception: int, message: Option<seq<string>>)
    | OnDisconnect(exception: int)
    | OnLogin(exception: int)
    | OnLogout(exception: int)
    | OnCurrentDirectory(exception: int, path: Option<string>)
    | OnChangeDirectory(exception: int)
    | OnChangeDirectoryUp(exception: int)
    | OnList(exception: int, files: Option<seq<FileInfo>>)
    | OnListNames(exception: int, names: Option<seq<string>>)
    | OnDownload(exception: int)
    | OnAbortCurrentDataTransfer(exception: int)

  /** A call on the registered download callback. */
  datatype DownloadEvent = OnStarted | OnTransferred(length: int) | OnCompleted | OnAborted | OnFailed

  function MessageArray(d: Payload): Option<seq<string>> { if d.Messages? then Some(d.messages) else None }
  function PathString(d: Payload): Option<string> { if d.Path? then Some(d.path) else None }
  function NamesArray(d: Payload): Option<seq<string>> { if d.Names? then Some(d.names) else None }

  /** The entries a LIST reply hands to the callback: the parcelable's beans, or null without one. */
  function ListedFiles(d: Payload): Option<seq<FileInfo>>
    reads if d.Files? then d.files.Repr() else {}
    requires d.Files? ==> d.files.Valid()
  {
    if d.Files? then Some(FromColumns(d.files.Contents())) else None
  }

  /** The command callback a reply below WHAT_COMMAND_MAX triggers; an unsupported one only logs. */
  function CallbackFor(msg: Reply): (cb: seq<CallbackEvent>)
    reads if msg.data.Files? then msg.data.files.Repr() else {}
    requires msg.data.Files? ==> msg.data.files.Valid()
    ensures |cb| == if IsCommand(msg.what) then 1 else 0
  {
    var e := msg.arg1;
    if msg.what == WHAT_START then [OnStart]
    else if msg.what == WHAT_STOP then [OnStop]
    else if msg.what == WHAT_CONNECT then [OnConnect(e, MessageArray(msg.data))]
    else if msg.what == WHAT_DISCONNECT then [OnDisconnect(e)]
    else if msg.what == WHAT_LOGIN then [OnLogin(e)]
    else if msg.what == WHAT_LOGOUT then [OnLogout(e)]
    else if msg.what == WHAT_CURRENT_DIRECTORY then [OnCurrentDirectory(e, PathString(msg.data))]
    else if msg.what == WHAT_CHANGE_DIRECTORY then [OnChangeDirectory(e)]
    else if msg.what == WHAT_CHANGE_DIRECTORY_UP then [OnChangeDirectoryUp(e)]
    else if msg.what == WHAT_LIST then [OnList(e, ListedFiles(msg.data))]
    else if msg.what == WHAT_LIST_NAMES then [OnListNames(e, NamesArray(msg.data))]
    else if msg.what == WHAT_DOWNLOAD then [OnDownload(e)]
    else if msg.what == WHAT_ABORT_CURRENT_DATA_TRANSFER then [OnAbortCurrentDataTransfer(e)]
    else []
  }

  /** The download callback a reply from WHAT_COMMAND_MAX up triggers; the queue depth only logs. */
  function DownloadEventFor(msg: Reply): seq<DownloadEvent> {
    if msg.what == WHAT_DOWNLOAD_STARTED then [OnStarted]
    else if msg.what == WHAT_DOWNLOAD_TRANSFERRED then [OnTransferred(msg.arg2)]
    else if msg.what == WHAT_DOWNLOAD_COMPLETED then [OnCompleted]
    else if msg.what == WHAT_DOWNLOAD_FAILED then [OnFailed]
    else if msg.what == WHAT_DOWNLOAD_ABORTED then [OnAborted]
    else []
  }

  /**
   * Each transfer-listener notification the service forwards reaches the matching download
   * callback, the transferred length intact; the queue-depth reply reaches none.
   */
  lemma NotificationsReachDownloadCallback(e: TransferEvent, code: int, depth: int)
    ensures DownloadEventFor(EventReply(e)) == [match e
      case Started => OnStarted
      case Transferred(length) => OnTransferred(length)
      case Completed => OnCompleted
      case Aborted => OnAborted
      case Failed => OnFailed]
    ensures DownloadEventFor(Reply(WHAT_DOWNLOAD_QUEUE, code, depth, NoData)) == []
  {
  }

  /**
   * A service reply to a client command reaches the command callback of the same command with
   * the same code; a returned value reaches it as the callback's argument.
   */
  lemma ClientRepliesReachCallback(msg: Command, client: ClientOutcomes)
    requires IsClientCommand(msg.what) && msg.what != WHAT_LIST
    ensures |CallbackFor(ClientReply(msg, client))| == 1
    ensures msg.what == WHAT_CONNECT ==>
      CallbackFor(ClientReply(msg, client)) ==
        [OnConnect(ResultCode(client.connect), if client.connect.Ok? then Some(client.connect.value) else None)]
    ensures msg.what == WHAT_CURRENT_DIRECTORY ==>
      CallbackFor(ClientReply(msg, client)) ==
        [OnCurrentDirectory(ResultCode(client.currentDirectory),
                            if client.currentDirectory.Ok? then Some(client.currentDirectory.value) else None)]
    ensures msg.what == WHAT_LIST_NAMES ==>
      CallbackFor(ClientReply(msg, client)) ==
        [OnListNames(ResultCode(client.listNames), if client.listNames.Ok? then Some(client.listNames.value) else None)]
    ensures msg.what == WHAT_DISCONNECT ==> CallbackFor(ClientReply(msg, client)) == [OnDisconnect(ResultCode(client.done))]
    ensures msg.what == WHAT_LOGIN ==> CallbackFor(ClientReply(msg, client)) == [OnLogin(ResultCode(client.done))]
    ensures msg.what == WHAT_LOGOUT ==> CallbackFor(ClientReply(msg, client)) == [OnLogout(ResultCode(client.done))]
    ensures msg.what == WHAT_CHANGE_DIRECTORY ==>
      CallbackFor(ClientReply(msg, client)) == [OnChangeDirectory(ResultCode(client.done))]
    ensures msg.what == WHAT_CHANGE_DIRECTORY_UP ==>
      CallbackFor(ClientReply(msg, client)) == [OnChangeDirectoryUp(ResultCode(client.done))]
    ensures msg.what == WHAT_ABORT_CURRENT_DATA_TRANSFER ==>
      CallbackFor(ClientReply(msg, client)) == [OnAbortCurrentDataTransfer(ResultCode(client.done))]
  {
  }

  /**
   * The service's LIST reply reaches the list callback with the same code and, exactly when the
   * code is OK, with the listed entries rebuilt from the parcelable, field by field.
   */
  lemma ListReplyReachesCallback(r: Reply, outcome: Result<seq<FileInfo>>)
    requires IsListReply(r, outcome)
    ensures CallbackFor(r) == [OnList(ListCode(outcome), if ListCode(outcome) == EXCEPTION_OK then Some(outcome.value) else None)]
  {
    if ListCode(outcome) == EXCEPTION_OK {
      ListRoundTrip(outcome.value);
    }
  }

  // ---------------------------------------------------------------------------------------------
  // The controller

  class FTPController {
    var state: FTPState
    /** The service's messenger; commands can be sent only while it is set. */
    var remote: Option<Endpoint>
    /** The controller's own messenger, the reply target of every command. */
    var local: Option<Endpoint>
    var hasCallback: bool
    var hasDownload: bool
    /** Every message delivered to the service, in order. */
    var sent: seq<Command>
    var callbacks: seq<CallbackEvent>
    var downloads: seq<DownloadEvent>

    /** A new controller: service stopped, no messengers, no callbacks. */
    constructor ()
      ensures state == SERVICE_STOPPED && remote == None && local == None
      ensures !hasCallback && !hasDownload && sent == [] && callbacks == [] && downloads == []
    {
      state, remote, local := SERVICE_STOPPED, None, None;
      hasCallback, hasDownload := false, false;
      sent, callbacks, downloads := [], [], [];
    }

    /** Registers the command and download callbacks (false for null). */
    method SetCallbacks(callback: bool, download: bool)
      modifies this`hasCallback, this`hasDownload
      ensures hasCallback == callback && hasDownload == download
    {
      hasCallback, hasDownload := callback, download;
    }

    /** The current session state. */
    function GetState(): (s: FTPState)
      reads this
      ensures s == state
    {
      state
    }

    method SetState(s: FTPState)
      modifies this`state
      ensures state == s
    {
      state := s;
    }

    /** The message a command with these arguments becomes. */
    function Outgoing(what: int, arg1: Int32, keyvals: seq<Option<string>>): Command
      reads this
      requires |keyvals| % 2 == 0
    {
      Command(what, arg1, 0, local, BundleOf(keyvals))
    }

    /**
     * Packs a command and delivers it to the service: fails, sending nothing, when there is no
     * service messenger; the string arguments come in key/value pairs.
     */
    method SendCommand(what: int, arg1: Int32, arg2: Int32, keyvals: seq<Option<string>>) returns (ok: bool)
      requires |keyvals| % 2 == 0
      modifies this`sent
      ensures ok <==> remote.Some?
      ensures sent == old(sent) + if ok then [Command(what, arg1, arg2, local, BundleOf(keyvals))] else []
    {
      if remote.None? {
        return false;
      }
      var data: map<string, string> := map[];
      var i := 0;
      while i < |keyvals|
        invariant 0 <= i <= |keyvals| && i % 2 == 0
        invariant data == Collect(keyvals[..i])
      {
        var key := keyvals[i];
        var value := keyvals[i + 1];
        if key.Some? && value.Some? {
          data := data[key.value := value.value];
        }
        assert keyvals[..i + 2][..i] == keyvals[..i];
        i := i + 2;
      }
      assert keyvals[..i] == keyvals;
      var bundle := if data == map[] then None else Some(data);
      sent := sent + [Command(what, arg1, arg2, local, bundle)];
      return true;
    }

    /** Connect on the default port; only once the service has started. */
    method Connect(host: Option<string>) returns (ok: bool)
      modifies this`sent
      ensures ok <==> state == SERVICE_STARTED && remote.Some?
      ensures sent == old(sent) + if ok then [Outgoing(WHAT_CONNECT, -1, [Some(KEY_HOST), host])] else []
    {
      if state != SERVICE_STARTED {
        return false;
      }
      ok := SendCommand(WHAT_CONNECT, -1, 0, [Some(KEY_HOST), host]);
    }

    method ConnectPort(host: Option<string>, port: Int32) returns (ok: bool)
      modifies this`sent
      ensures ok <==> state == SERVICE_STARTED && remote.Some?
      ensures sent == old(sent) + if ok then [Outgoing(WHAT_CONNECT, port, [Some(KEY_HOST), host])] else []
    {
      if state != SERVICE_STARTED {
        return false;
      }
      ok := SendCommand(WHAT_CONNECT, port, 0, [Some(KEY_HOST), host]);
    }

    method Disconnect() returns (ok: bool)
      modifies this`sent
      ensures ok <==> remote.Some?
      ensures sent == old(sent) + if ok then [Outgoing(WHAT_DISCONNECT, 0, [])] else []
    {
      ok := SendCommand(WHAT_DISCONNECT, 0, 0, []);
    }

    /** Anonymous login; only while connected and not logged in. */
    method LoginAnonymous() returns (ok: bool)
      modifies this`sent
      ensures ok <==> state == FTP_CONNECTED && remote.Some?
      ensures sent == old(sent) + if ok then [Outgoing(WHAT_LOGIN, 0, [])] else []
    {
      if state != FTP_CONNECTED {
        return false;
      }
      ok := SendCommand(WHAT_LOGIN, 0, 0, []);
    }

    method Login(username: Option<string>, password: Option<string>) returns (ok: bool)
      modifies this`sent
      ensures ok <==> state == FTP_CONNECTED && remote.Some?
      ensures sent == old(sent) +
        if ok then [Outgoing(WHAT_LOGIN, 0, [Some(KEY_USERNAME), username, Some(KEY_PASSWORD), password])] else []
    {
      if state != FTP_CONNECTED {
        return false;
      }
      ok := SendCommand(WHAT_LOGIN, 0, 0, [Some(KEY_USERNAME), username, Some(KEY_PASSWORD), password]);
    }

    /** Logout; only while logged in. */
    method Logout() returns (ok: bool)
      modifies this`sent
      ensures ok <==> state == FTP_LOGGED_IN && remote.Some?
      ensures sent == old(sent) + if ok then [Outgoing(WHAT_LOGOUT, 0, [])] else []
    {
      if state != FTP_LOGGED_IN {
        return false;
      }
      ok := SendCommand(WHAT_LOGOUT, 0, 0, []);
    }

    method CurrentDirectory() returns (ok: bool)
      modifies this`sent
      ensures ok <==> remote.Some?
      ensures sent == old(sent) + if ok then [Outgoing(WHAT_CURRENT_DIRECTORY, 0, [])] else []
    {
      ok := SendCommand(WHAT_CURRENT_DIRECTORY, 0, 0, []);
    }

    method ChangeDirectory(path: Option<string>) returns (ok: bool)
      modifies this`sent
      ensures ok <==> remote.Some?
      ensures sent == old(sent) + if ok then [Outgoing(WHAT_CHANGE_DIRECTORY, 0, [Some(KEY_PATH), path])] else []
    {
      ok := SendCommand(WHAT_CHANGE_DIRECTORY, 0, 0, [Some(KEY_PATH), path]);
    }

    method ChangeDirectoryUp() returns (ok: bool)
      modifies this`sent
      ensures ok <==> remote.Some?
      ensures sent == old(sent) + if ok then [Outgoing(WHAT_CHANGE_DIRECTORY_UP, 0, [])] else []
    {
      ok := SendCommand(WHAT_CHANGE_DIRECTORY_UP, 0, 0, []);
    }

    method List(fileSpec: Option<string>) returns (ok: bool)
      modifies this`sent
      ensures ok <==> remote.Some?
      ensures sent == old(sent) + if ok then [Outgoing(WHAT_LIST, 0, [Some(KEY_FILESPEC), fileSpec])] else []
    {
      ok := SendCommand(WHAT_LIST, 0, 0, [Some(KEY_FILESPEC), fileSpec]);
    }

    method ListAll() returns (ok: bool)
      modifies this`sent
      ensures ok <==> remote.Some?
      ensures sent == old(sent) + if ok then [Outgoing(WHAT_LIST, 0, [])] else []
    {
      ok := SendCommand(WHAT_LIST, 0, 0, []);
    }

    method ListNames() returns (ok: bool)
      modifies this`sent
      ensures ok <==> remote.Some?
      ensures sent == old(sent) + if ok then [Outgoing(WHAT_LIST_NAMES, 0, [])] else []
    {
      ok := SendCommand(WHAT_LIST_NAMES, 0, 0, []);
    }

    method Download(remoteFileName: Option<string>, localFileName: Option<string>) returns (ok: bool)
      modifies this`sent
      ensures ok <==> remote.Some?
      ensures sent == old(sent) + if ok then
        [Outgoing(WHAT_DOWNLOAD, 0, [Some(KEY_REMOTE_FILE_NAME), remoteFileName, Some(KEY_LOCAL_FILE_NAME), localFileName])]
        else []
    {
      ok := SendCommand(WHAT_DOWNLOAD, 0, 0,
                        [Some(KEY_REMOTE_FILE_NAME), remoteFileName, Some(KEY_LOCAL_FILE_NAME), localFileName]);
    }

    /** Download resuming at an offset; an offset that does not fit an int is refused. */
    method DownloadFrom(remoteFileName: Option<string>, localFileName: Option<string>, restartAt: Int64)
      returns (ok: bool)
      modifies this`sent
      ensures ok <==> INT32_MIN <= restartAt <= INT32_MAX && remote.Some?
      ensures sent == old(sent) + if ok then
        [Outgoing(WHAT_DOWNLOAD, restartAt as Int32,
                  [Some(KEY_REMOTE_FILE_NAME), remoteFileName, Some(KEY_LOCAL_FILE_NAME), localFileName])]
        else []
    {
      var offset := NarrowRestart(restartAt);
      if offset.None? {
        return false;
      }
      ok := SendCommand(WHAT_DOWNLOAD, offset.value, 0,
                        [Some(KEY_REMOTE_FILE_NAME), remoteFileName, Some(KEY_LOCAL_FILE_NAME), localFileName]);
    }

    method AbortCurrentDataTransfer() returns (ok: bool)
      modifies this`sent
      ensures ok <==> remote.Some?
      ensures sent == old(sent) + if ok then [Outgoing(WHAT_ABORT_CURRENT_DATA_TRANSFER, 0, [])] else []
    {
      ok := SendCommand(WHAT_ABORT_CURRENT_DATA_TRANSFER, 0, 0, []);
    }

    /**
     * A reply below WHAT_COMMAND_MAX: with a command callback registered, the state moves as the
     * reply says and the matching callback runs; without one nothing happens at all.
     */
    method HandleCallback(msg: Reply)
      requires msg.data.Files? ==> msg.data.files.Valid()
      modifies this`state, this`callbacks
      ensures !hasCallback ==> state == old(state) && callbacks == old(callbacks)
      ensures hasCallback ==>
        state == NextState(old(state), msg.what) && callbacks == old(callbacks) + CallbackFor(msg)
    {
      if !hasCallback {
        return;
      }
      var exception := msg.arg1;
      if msg.what == WHAT_START {
        callbacks := callbacks + [OnStart];
      } else if msg.what == WHAT_STOP {
        callbacks := callbacks + [OnStop];
      } else if msg.what == WHAT_CONNECT {
        SetState(FTP_CONNECTED);
        callbacks := callbacks + [OnConnect(exception, MessageArray(msg.data))];
      } else if msg.what == WHAT_DISCONNECT {
        SetState(SERVICE_STARTED);
        callbacks := callbacks + [OnDisconnect(exception)];
      } else if msg.what == WHAT_LOGIN {
        SetState(FTP_LOGGED_IN);
        callbacks := callbacks + [OnLogin(exception)];
      } else if msg.what == WHAT_LOGOUT {
        SetState(FTP_CONNECTED);
        callbacks := callbacks + [OnLogout(exception)];
      } else if msg.what == WHAT_CURRENT_DIRECTORY {
        callbacks := callbacks + [OnCurrentDirectory(exception, PathString(msg.data))];
      } else if msg.what == WHAT_CHANGE_DIRECTORY {
        callbacks := callbacks + [OnChangeDirectory(exception)];
      } else if msg.what == WHAT_CHANGE_DIRECTORY_UP {
        callbacks := callbacks + [OnChangeDirectoryUp(exception)];
      } else if msg.what == WHAT_LIST {
        var files: Option<seq<FileInfo>> := None;
        if msg.data.Files? {
          var beans := msg.data.files.GetFiles();
          var views := Snapshot(beans);
          assert views == FromColumns(msg.data.files.Contents());
          files := Some(views);
        }
        callbacks := callbacks + [OnList(exception, files)];
      } else if msg.what == WHAT_LIST_NAMES {
        callbacks := callbacks + [OnListNames(exception, NamesArray(msg.data))];
      } else if msg.what == WHAT_DOWNLOAD {
        callbacks := callbacks + [OnDownload(exception)];
      } else if msg.what == WHAT_ABORT_CURRENT_DATA_TRANSFER {
        callbacks := callbacks + [OnAbortCurrentDataTransfer(exception)];
      }
    }

    /** A reply from WHAT_COMMAND_MAX up, passed to the download callback when one is registered. */
    method HandleDownload(msg: Reply)
      modifies this`downloads
      ensures downloads == old(downloads) + if hasDownload then DownloadEventFor(msg) else []
    {
      if !hasDownload {
        return;
      }
      if msg.what == WHAT_DOWNLOAD_STARTED {
        downloads := downloads + [OnStarted];
      } else if msg.what == WHAT_DOWNLOAD_TRANSFERRED {
        downloads := downloads + [OnTransferred(msg.arg2)];
      } else if msg.what == WHAT_DOWNLOAD_COMPLETED {
        downloads := downloads + [OnCompleted];
      } else if msg.what == WHAT_DOWNLOAD_FAILED {
        downloads := downloads + [OnFailed];
      } else if msg.what == WHAT_DOWNLOAD_ABORTED {
        downloads := downloads + [OnAborted];
      }
    }

    /** Routes a reply by its `what`: command replies below WHAT_COMMAND_MAX, download updates above. */
    method HandleMessage(msg: Reply)
      requires msg.data.Files? ==> msg.data.files.Valid()
      modifies this`state, this`callbacks, this`downloads
      ensures msg.what < WHAT_COMMAND_MAX ==>
        && downloads == old(downloads)
        && state == (if hasCallback then NextState(old(state), msg.what) else old(state))
        && callbacks == old(callbacks) + (if hasCallback then CallbackFor(msg) else [])
      ensures msg.what >= WHAT_COMMAND_MAX ==>
        && state == old(state) && callbacks == old(callbacks)
        && downloads == old(downloads) + (if hasDownload then DownloadEventFor(msg) else [])
    {
      if msg.what < WHAT_COMMAND_MAX {
        HandleCallback(msg);
      } else {
        HandleDownload(msg);
      }
    }

    /**
     * The service is bound: both messengers are set, START is sent with the controller's own
     * messenger as its reply target, and the state becomes SERVICE_STARTED.
     */
    method ServiceConnected(service: Endpoint, handler: Endpoint)
      modifies this`local, this`remote, this`sent, this`state
      ensures local == Some(handler) && remote == Some(service) && state == SERVICE_STARTED
      ensures sent == old(sent) + [Command(WHAT_START, 0, 0, Some(handler), None)]
    {
      local := Some(handler);
      remote := Some(service);
      sent := sent + [Command(WHAT_START, 0, 0, local, None)];
      SetState(SERVICE_STARTED);
    }

    /**
     * The service went away: the stop callback runs (when registered), both messengers are
     * cleared and the state becomes SERVICE_STOPPED.
     */
    method ServiceDisconnected()
      modifies this`local, this`remote, this`state, this`callbacks
      ensures local == None && remote == None && state == SERVICE_STOPPED
      ensures callbacks == old(callbacks) + if hasCallback then [OnStop] else []
    {
      HandleCallback(Reply(WHAT_STOP, 0, 0, NoData));
      local := None;
      remote := None;
      SetState(SERVICE_STOPPED);
    }
  }

  // ---------------------------------------------------------------------------------------------
  // The state guards across a reply

  /**
   * A CONNECT reply followed by an anonymous login: the login is sent exactly when a service
   * messenger is set and either a command callback moved the state to FTP_CONNECTED or the
   * controller was connected already; without a callback the reply leaves the guard as it was.
   */
  method LoginAfterConnect(c: FTPController, reply: Reply) returns (ok: bool)
    requires reply.what == WHAT_CONNECT
    requires reply.data.Files? ==> reply.data.files.Valid()
    modifies c`state, c`callbacks, c`downloads, c`sent
    ensures ok <==> c.remote.Some? && (c.hasCallback || old(c.state) == FTP_CONNECTED)
    ensures c.state == if c.hasCallback then FTP_CONNECTED else old(c.state)
    ensures c.sent == old(c.sent) + if ok then [c.Outgoing(WHAT_LOGIN, 0, [])] else []
  {
    c.HandleMessage(reply);
    ok := c.LoginAnonymous();
  }

  /** A LOGIN reply followed by a logout: sent exactly when a callback logged the session in, or it was already. */
  method LogoutAfterLogin(c: FTPController, reply: Reply) returns (ok: bool)
    requires reply.what == WHAT_LOGIN
    requires reply.data.Files? ==> reply.data.files.Valid()
    modifies c`state, c`callbacks, c`downloads, c`sent
    ensures ok <==> c.remote.Some? && (c.hasCallback || old(c.state) == FTP_LOGGED_IN)
    ensures c.state == if c.hasCallback then FTP_LOGGED_IN else old(c.state)
    ensures c.sent == old(c.sent) + if ok then [c.Outgoing(WHAT_LOGOUT, 0, [])] else []
  {
    c.HandleMessage(reply);
    ok := c.Logout();
  }

  /** A DISCONNECT reply followed by a connect: sent exactly when a callback moved the state back to SERVICE_STARTED, or it was there. */
  method ConnectAfterDisconnect(c: FTPController, reply: Reply, host: Option<string>) returns (ok: bool)
    requires reply.what == WHAT_DISCONNECT
    requires reply.data.Files? ==> reply.data.files.Valid()
    modifies c`state, c`callbacks, c`downloads, c`sent
    ensures ok <==> c.remote.Some? && (c.hasCallback || old(c.state) == SERVICE_STARTED)
    ensures c.state == if c.hasCallback then SERVICE_STARTED else old(c.state)
    ensures c.sent == old(c.sent) + if ok then [c.Outgoing(WHAT_CONNECT, -1, [Some(KEY_HOST), host])] else []
  {
    c.HandleMessage(reply);
    ok := c.Connect(host);
  }

  // ---------------------------------------------------------------------------------------------
  // End to end: what the service does with what the controller sends

  /** A null host reaches the service as a missing one, and the service connects to "/". */
  lemma ConnectArrives(host: Option<string>, port: Int32, local: Option<Endpoint>)
    ensures CallFor(Command(WHAT_CONNECT, -1, 0, local, BundleOf([Some(KEY_HOST), host]))) ==
      ClientCall.Connect(host.GetOr("/"))
    ensures port >= 0 ==>
      CallFor(Command(WHAT_CONNECT, port, 0, local, BundleOf([Some(KEY_HOST), host]))) ==
        ClientCall.ConnectPort(host.GetOr("/"), port)
  {
    OneArgument(KEY_HOST, host, Command(WHAT_CONNECT, -1, 0, local, BundleOf([Some(KEY_HOST), host])));
    OneArgument(KEY_HOST, host, Command(WHAT_CONNECT, port, 0, local, BundleOf([Some(KEY_HOST), host])));
  }

  /** Credentials reach the service; an anonymous login or a null credential takes the default. */
  lemma LoginArrives(username: Option<string>, password: Option<string>, local: Option<Endpoint>)
    ensures CallFor(Command(WHAT_LOGIN, 0, 0, local, BundleOf([]))) == ClientCall.Login("anonymous", "")
    ensures CallFor(Command(WHAT_LOGIN, 0, 0, local,
                            BundleOf([Some(KEY_USERNAME), username, Some(KEY_PASSWORD), password]))) ==
      ClientCall.Login(username.GetOr("anonymous"), password.GetOr(""))
  {
    ArgumentKeysDistinct();
    TwoArguments(KEY_USERNAME, username, KEY_PASSWORD, password,
                 Command(WHAT_LOGIN, 0, 0, local, BundleOf([Some(KEY_USERNAME), username, Some(KEY_PASSWORD), password])));
  }

  /**
   * A resumable download the controller accepts is queued by the service exactly when both names
   * are non-null and the offset is non-negative, and then resumes exactly when the offset is positive.
   */
  lemma DownloadFromArrives(remoteFileName: Option<string>, localFileName: Option<string>, restartAt: Int64,
                            local: Option<Endpoint>)
    requires NarrowRestart(restartAt).Some?
    ensures var msg := Command(WHAT_DOWNLOAD, NarrowRestart(restartAt).value, 0, local,
                               BundleOf([Some(KEY_REMOTE_FILE_NAME), remoteFileName, Some(KEY_LOCAL_FILE_NAME), localFileName]));
      && (Request(msg).Ready() <==> remoteFileName.Some? && localFileName.Some? && restartAt >= 0)
      && (Request(msg).Ready() ==> (DownloadCall(Request(msg)).DownloadFrom? <==> restartAt > 0))
  {
    ArgumentKeysDistinct();
    var msg := Command(WHAT_DOWNLOAD, NarrowRestart(restartAt).value, 0, local,
                       BundleOf([Some(KEY_REMOTE_FILE_NAME), remoteFileName, Some(KEY_LOCAL_FILE_NAME), localFileName]));
    TwoArguments(KEY_REMOTE_FILE_NAME, remoteFileName, KEY_LOCAL_FILE_NAME, localFileName, msg);
  }
}
