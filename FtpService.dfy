/**
 * The service side: a message handler that turns each numbered command other than DOWNLOAD into
 * one call on the ftp4j client and replies through the caller's messenger, and a download runner
 * that drains a FIFO queue of the validated download requests one element per invocation.
 *
 * The ftp4j client is an oracle: each handler receives the outcome of the call it makes (a
 * returned value or a thrown object) and records the call, with its arguments, in `calls`.
 * The caller's messenger is the log `replies` of messages sent to it.
 */
module FtpService {
  import opened Wrappers
  import opened FtpFile
  import opened FtpFiles

  // Commands
  const WHAT_START := 1
  const WHAT_STOP := 2
  const WHAT_CONNECT := 3
  const WHAT_DISCONNECT := 4
  const WHAT_LOGIN := 5
  const WHAT_LOGOUT := 6
  const WHAT_CURRENT_DIRECTORY := 7
  const WHAT_CHANGE_DIRECTORY := 8
  const WHAT_CHANGE_DIRECTORY_UP := 9
  const WHAT_LIST := 10
  const WHAT_LIST_NAMES := 11
  const WHAT_DOWNLOAD := 12
  const WHAT_ABORT_CURRENT_DATA_TRANSFER := 13
  const WHAT_COMMAND_MAX := 100
  // Download updates
  const WHAT_DOWNLOAD_STARTED := 101
  const WHAT_DOWNLOAD_TRANSFERRED := 102
  const WHAT_DOWNLOAD_COMPLETED := 103
  const WHAT_DOWNLOAD_ABORTED := 104
  const WHAT_DOWNLOAD_FAILED := 105
  const WHAT_DOWNLOAD_QUEUE := 106
  // Argument keys
  const KEY_HOST := "com.omicronapplications.ftplib.key.HOST"
  const KEY_USERNAME := "com.omicronapplications.ftplib.key.USERNAME"
  const KEY_PASSWORD := "com.omicronapplications.ftplib.key.PASSWORD"
  const KEY_PATH := "com.omicronapplications.ftplib.key.PATH"
  const KEY_FILESPEC := "com.omicronapplications.ftplib.key.FILESPEC"
  const KEY_REMOTE_FILE_NAME := "com.omicronapplications.ftplib.key.REMOTE_FILE_NAME"
  const KEY_LOCAL_FILE_NAME := "com.omicronapplications.ftplib.key.LOCAL_FILE_NAME"
  // Exceptions
  const EXCEPTION_OK := 0
  const EXCEPTION_UNKNOWN := -1
  const EXCEPTION_ILLEGAL_STATE := -2
  const EXCEPTION_FILE_NOT_FOUND := -3
  const EXCEPTION_IO := -4
  const EXCEPTION_FTP_ILLEGAL_REPLY := -5
  const EXCEPTION_FTP := -6
  const EXCEPTION_FTP_DATA_TRANSFER := -7
  const EXCEPTION_FTP_ABORTED := -8
  const EXCEPTION_FTP_LIST_PARSE := -9

  const EXCEPTION_CODES := [EXCEPTION_OK, EXCEPTION_UNKNOWN, EXCEPTION_ILLEGAL_STATE, EXCEPTION_FILE_NOT_FOUND,
    EXCEPTION_IO, EXCEPTION_FTP_ILLEGAL_REPLY, EXCEPTION_FTP, EXCEPTION_FTP_DATA_TRANSFER,
    EXCEPTION_FTP_ABORTED, EXCEPTION_FTP_LIST_PARSE]

  /** The ten reply codes are distinct; OK is zero and every other code is negative. */
  lemma ExceptionCodesDistinct()
    ensures |EXCEPTION_CODES| == 10 && EXCEPTION_CODES[0] == EXCEPTION_OK == 0
    ensures forall i, j :: 0 <= i < j < |EXCEPTION_CODES| ==> EXCEPTION_CODES[i] != EXCEPTION_CODES[j]
    ensures forall i :: 1 <= i < |EXCEPTION_CODES| ==> EXCEPTION_CODES[i] < 0
  {
  }

  // ---------------------------------------------------------------------------------------------
  // Classifying failures

  /** The exception classes the classifier checks for. */
  datatype ExceptionClass =
    | IllegalStateException
    | IOException
    | FTPIllegalReplyException
    | FTPException
    | FTPDataTransferException
    | FTPAbortedException
    | FTPListParseException

  /**
   * A thrown object, described by the checked classes it is an instance of (a
   * `FileNotFoundException` is an instance of `IOException`; a `NullPointerException` of none).
   */
  datatype Throwable = Throwable(classes: set<ExceptionClass>)

  const NULL_POINTER := Throwable({})

  /** The classifier: the code of the first class in its check order that the object belongs to. */
  function WhatException(t: Throwable): (code: int)
    ensures code < 0 && code != EXCEPTION_FILE_NOT_FOUND
    ensures t.classes == {} ==> code == EXCEPTION_UNKNOWN
  {
    if IllegalStateException in t.classes then EXCEPTION_ILLEGAL_STATE
    else if IOException in t.classes then EXCEPTION_IO
    else if FTPIllegalReplyException in t.classes then EXCEPTION_FTP_ILLEGAL_REPLY
    else if FTPException in t.classes then EXCEPTION_FTP
    else if FTPDataTransferException in t.classes then EXCEPTION_FTP_DATA_TRANSFER
    else if FTPAbortedException in t.classes then EXCEPTION_FTP_ABORTED
    else if FTPListParseException in t.classes then EXCEPTION_FTP_LIST_PARSE
    else EXCEPTION_UNKNOWN
  }

  /** The classifier's table: classes in the order they are checked, each with its code. */
  const CLASSIFIER_ORDER: seq<(ExceptionClass, int)> := [
    (IllegalStateException, EXCEPTION_ILLEGAL_STATE),
    (IOException, EXCEPTION_IO),
    (FTPIllegalReplyException, EXCEPTION_FTP_ILLEGAL_REPLY),
    (FTPException, EXCEPTION_FTP),
    (FTPDataTransferException, EXCEPTION_FTP_DATA_TRANSFER),
    (FTPAbortedException, EXCEPTION_FTP_ABORTED),
    (FTPListParseException, EXCEPTION_FTP_LIST_PARSE)]

  /** Reference classifier: search a table from its start, UNKNOWN when nothing matches. */
  function FirstMatch(t: Throwable, table: seq<(ExceptionClass, int)>): int
  {
    if table == [] then EXCEPTION_UNKNOWN
    else if table[0].0 in t.classes then table[0].1
    else FirstMatch(t, table[1..])
  }

  /** The if/else chain agrees with a first-match search of the table, on every thrown object. */
  lemma WhatExceptionIsFirstMatch(t: Throwable)
    ensures WhatException(t) == FirstMatch(t, CLASSIFIER_ORDER)
  {
    var table := CLASSIFIER_ORDER;
    assert table[7..] == [];
    FirstMatchStep(t, table, 6);
    FirstMatchStep(t, table, 5);
    FirstMatchStep(t, table, 4);
    FirstMatchStep(t, table, 3);
    FirstMatchStep(t, table, 2);
    FirstMatchStep(t, table, 1);
    FirstMatchStep(t, table, 0);
    assert table[0..] == table;
  }

  lemma FirstMatchStep(t: Throwable, table: seq<(ExceptionClass, int)>, k: nat)
    requires k < |table|
    ensures FirstMatch(t, table[k..]) == if table[k].0 in t.classes then table[k].1 else FirstMatch(t, table[k + 1..])
  {
  }

  /**
   * The code is table entry k's exactly when the object is an instance of entry k's class and of
   * no class checked before it.
   */
  lemma WhatExceptionOrder(t: Throwable, k: nat)
    requires k < |CLASSIFIER_ORDER|
    ensures WhatException(t) == CLASSIFIER_ORDER[k].1 <==>
      CLASSIFIER_ORDER[k].0 in t.classes && forall j :: 0 <= j < k ==> CLASSIFIER_ORDER[j].0 !in t.classes
  {
    WhatExceptionIsFirstMatch(t);
    FirstMatchOrder(t, CLASSIFIER_ORDER, k);
  }

  /** No two entries of a table share a code, and none is UNKNOWN. */
  predicate DistinctCodes(table: seq<(ExceptionClass, int)>) {
    && (forall i, j :: 0 <= i < j < |table| ==> table[i].1 != table[j].1)
    && (forall i :: 0 <= i < |table| ==> table[i].1 != EXCEPTION_UNKNOWN)
  }

  /** A first-match search returns UNKNOWN or the code of an entry whose class matched. */
  lemma {:induction false} FirstMatchRange(t: Throwable, table: seq<(ExceptionClass, int)>)
    ensures FirstMatch(t, table) == EXCEPTION_UNKNOWN ||
      exists m :: 0 <= m < |table| && FirstMatch(t, table) == table[m].1 && table[m].0 in t.classes
  {
    if table != [] && table[0].0 !in t.classes {
      FirstMatchRange(t, table[1..]);
      if FirstMatch(t, table[1..]) != EXCEPTION_UNKNOWN {
        var m :| 0 <= m < |table[1..]| && FirstMatch(t, table[1..]) == table[1..][m].1 && table[1..][m].0 in t.classes;
        assert table[m + 1] == table[1..][m];
      }
    }
  }

  /** With distinct codes, a first-match search yields entry k's code exactly when entry k is the first match. */
  lemma {:induction false} FirstMatchOrder(t: Throwable, table: seq<(ExceptionClass, int)>, k: nat)
    requires k < |table| && DistinctCodes(table)
    ensures FirstMatch(t, table) == table[k].1 <==>
      table[k].0 in t.classes && forall j :: 0 <= j < k ==> table[j].0 !in t.classes
  {
    if table[0].0 in t.classes {
      if k > 0 {
        assert table[0].1 != table[k].1;
      }
    } else {
      FirstMatchRange(t, table[1..]);
      if k == 0 {
        if FirstMatch(t, table[1..]) != EXCEPTION_UNKNOWN {
          var m :| 0 <= m < |table[1..]| && FirstMatch(t, table[1..]) == table[1..][m].1 && table[1..][m].0 in t.classes;
          assert table[m + 1] == table[1..][m];
        }
      } else {
        var rest := table[1..];
        assert DistinctCodes(rest) by {
          forall i, j | 0 <= i < j < |rest| ensures rest[i].1 != rest[j].1 {
            assert rest[i] == table[i + 1] && rest[j] == table[j + 1];
          }
        }
        FirstMatchOrder(t, rest, k - 1);
        assert rest[k - 1] == table[k];
        if table[k].0 in t.classes && forall j :: 0 <= j < k ==> table[j].0 !in t.classes {
          forall j | 0 <= j < k - 1 ensures rest[j].0 !in t.classes {
            assert rest[j] == table[j + 1];
          }
        }
        if FirstMatch(t, rest) == rest[k - 1].1 {
          forall j | 0 <= j < k ensures table[j].0 !in t.classes {
            if j > 0 { assert table[j] == rest[j - 1]; }
          }
        }
      }
    }
  }

  /** Only an object of none of the checked classes is classified UNKNOWN. */
  lemma UnknownOnlyWhenUnclassified(t: Throwable)
    ensures WhatException(t) == EXCEPTION_UNKNOWN <==> t.classes == {}
  {
    if t.classes != {} {
      var c :| c in t.classes;
      match c
      case IllegalStateException =>
      case IOException =>
      case FTPIllegalReplyException =>
      case FTPException =>
      case FTPDataTransferException =>
      case FTPAbortedException =>
      case FTPListParseException =>
    }
  }

  // ---------------------------------------------------------------------------------------------
  // Messages

  /** A messenger, by identity. */
  type Endpoint = nat

  /** A message sent to the service: the command, two int arguments, its reply target and string data. */
  datatype Command = Command(what: int, arg1: Int32, arg2: Int32, replyTo: Option<Endpoint>,
                             data: Option<map<string, string>>)

  /** `msg.getData().getString(key)`: a message without data has an empty bundle. */
  function GetString(msg: Command, key: string): Option<string>
  {
    if msg.data.Some? && key in msg.data.value then Some(msg.data.value[key]) else None
  }

  /** The bundle a reply carries, by the one key it holds. */
  datatype Payload =
    | NoData
    | Messages(messages: seq<string>)
    | Path(path: string)
    | Files(files: FTPFiles)
    | Names(names: seq<string>)

  /** A message sent to the caller. */
  datatype Reply = Reply(what: int, arg1: int, arg2: int, data: Payload)

  /** What reaches the caller: the replies, when a reply target is set, and nothing otherwise. */
  function Emit(target: Option<Endpoint>, rs: seq<Reply>): seq<Reply>
  {
    if target.Some? then rs else []
  }

  // ---------------------------------------------------------------------------------------------
  // The client oracle

  datatype Result<+T> = Ok(value: T) | Threw(thrown: Throwable)

  /** A call on the ftp4j client, naming the overload used and its arguments. */
  datatype ClientCall =
    | Connect(host: string)
    | ConnectPort(host: string, port: Int32)
    | Disconnect(sendQuitCommand: bool)
    | Login(username: string, password: string)
    | Logout
    | CurrentDirectory
    | ChangeDirectory(path: string)
    | ChangeDirectoryUp
    | List
    | ListSpec(fileSpec: string)
    | ListNames
    | Download(remoteFileName: string, localFile: string)
    | DownloadFrom(remoteFileName: string, localFile: string, restartAt: Int32)
    | AbortCurrentDataTransfer(sendAborCommand: bool)

  /** The outcome of whichever client call a command makes: one entry per shape of result. */
  datatype ClientOutcomes = ClientOutcomes(
    connect: Result<seq<string>>,
    done: Result<()>,
    currentDirectory: Result<string>,
    list: Result<seq<FileInfo>>,
    listNames: Result<seq<string>>)

  /** The code a reply carries for a call's outcome: OK exactly when the call returned. */
  function ResultCode<T>(r: Result<T>): (code: int)
    ensures code == EXCEPTION_OK <==> r.Ok?
    ensures r.Threw? ==> code < 0 && code != EXCEPTION_FILE_NOT_FOUND
  {
    if r.Ok? then EXCEPTION_OK else WhatException(r.thrown)
  }

  // ---------------------------------------------------------------------------------------------
  // Arguments and replies of the control commands

  predicate IsCommand(what: int) {
    WHAT_START <= what <= WHAT_ABORT_CURRENT_DATA_TRANSFER
  }

  /** The commands that make one client call and send one reply carrying their own `what`. */
  predicate IsClientCommand(what: int) {
    WHAT_CONNECT <= what <= WHAT_ABORT_CURRENT_DATA_TRANSFER && what != WHAT_DOWNLOAD
  }

  /**
   * The client call a command makes, after defaults: a missing host is "/", a negative port
   * selects the default-port connect, missing credentials are "anonymous" and "", a missing path
   * is "/", and a missing file spec selects the unfiltered list.
   */
  function CallFor(msg: Command): (call: ClientCall)
    requires IsClientCommand(msg.what)
    ensures msg.what == WHAT_CONNECT ==>
      (call.Connect? <==> msg.arg1 < 0) && (call.Connect? || call.ConnectPort?) &&
      call.host == GetString(msg, KEY_HOST).GetOr("/") && (call.ConnectPort? ==> call.port == msg.arg1)
    ensures msg.what == WHAT_LOGIN ==>
      call == Login(GetString(msg, KEY_USERNAME).GetOr("anonymous"), GetString(msg, KEY_PASSWORD).GetOr(""))
    ensures msg.what == WHAT_CHANGE_DIRECTORY ==> call == ChangeDirectory(GetString(msg, KEY_PATH).GetOr("/"))
    ensures msg.what == WHAT_LIST ==>
      (call.List? <==> GetString(msg, KEY_FILESPEC).None?) &&
      (call.ListSpec? ==> Some(call.fileSpec) == GetString(msg, KEY_FILESPEC)) && (call.List? || call.ListSpec?)
  {
    if msg.what == WHAT_CONNECT then
      var host := GetString(msg, KEY_HOST).GetOr("/");
      if msg.arg1 < 0 then Connect(host) else ConnectPort(host, msg.arg1)
    else if msg.what == WHAT_DISCONNECT then Disconnect(true)
    else if msg.what == WHAT_LOGIN then
      Login(GetString(msg, KEY_USERNAME).GetOr("anonymous"), GetString(msg, KEY_PASSWORD).GetOr(""))
    else if msg.what == WHAT_LOGOUT then Logout
    else if msg.what == WHAT_CURRENT_DIRECTORY then CurrentDirectory
    else if msg.what == WHAT_CHANGE_DIRECTORY then ChangeDirectory(GetString(msg, KEY_PATH).GetOr("/"))
    else if msg.what == WHAT_CHANGE_DIRECTORY_UP then ChangeDirectoryUp
    else if msg.what == WHAT_LIST then
      var spec := GetString(msg, KEY_FILESPEC);
      if spec.None? then List else ListSpec(spec.value)
    else if msg.what == WHAT_LIST_NAMES then ListNames
    else AbortCurrentDataTransfer(true)
  }

  /**
   * The code of a LIST reply: building the parcelable dereferences every entry's date, so a
   * listing with a missing date fails like a thrown NullPointerException.
   */
  function ListCode(r: Result<seq<FileInfo>>): (code: int)
    ensures code == EXCEPTION_OK <==> r.Ok? && AllDated(r.value)
    ensures r.Ok? && !AllDated(r.value) ==> code == EXCEPTION_UNKNOWN
    ensures r.Threw? ==> code == WhatException(r.thrown)
  {
    if r.Threw? then WhatException(r.thrown)
    else if AllDated(r.value) then EXCEPTION_OK
    else WhatException(NULL_POINTER)
  }

  /**
   * The reply to a client command other than LIST: its own `what`, the outcome's code, and the
   * returned value only when the call returned.
   */
  function ClientReply(msg: Command, client: ClientOutcomes): (r: Reply)
    requires IsClientCommand(msg.what) && msg.what != WHAT_LIST
    ensures r.what == msg.what && r.arg2 == 0
    ensures r.arg1 != EXCEPTION_FILE_NOT_FOUND
    ensures msg.what == WHAT_CONNECT ==>
      r.arg1 == ResultCode(client.connect) && (r.data == if client.connect.Ok? then Messages(client.connect.value) else NoData)
    ensures msg.what == WHAT_CURRENT_DIRECTORY ==>
      r.arg1 == ResultCode(client.currentDirectory) &&
      (r.data == if client.currentDirectory.Ok? then Path(client.currentDirectory.value) else NoData)
    ensures msg.what == WHAT_LIST_NAMES ==>
      r.arg1 == ResultCode(client.listNames) && (r.data == if client.listNames.Ok? then Names(client.listNames.value) else NoData)
    ensures msg.what !in {WHAT_CONNECT, WHAT_CURRENT_DIRECTORY, WHAT_LIST_NAMES} ==>
      r.arg1 == ResultCode(client.done) && r.data == NoData
  {
    if msg.what == WHAT_CONNECT then
      Reply(msg.what, ResultCode(client.connect), 0, if client.connect.Ok? then Messages(client.connect.value) else NoData)
    else if msg.what == WHAT_CURRENT_DIRECTORY then
      Reply(msg.what, ResultCode(client.currentDirectory), 0,
            if client.currentDirectory.Ok? then Path(client.currentDirectory.value) else NoData)
    else if msg.what == WHAT_LIST_NAMES then
      Reply(msg.what, ResultCode(client.listNames), 0, if client.listNames.Ok? then Names(client.listNames.value) else NoData)
    else
      Reply(msg.what, ResultCode(client.done), 0, NoData)
  }

  /** A LIST reply: the list code, and a parcelable holding the listing exactly when it is OK. */
  ghost predicate IsListReply(r: Reply, outcome: Result<seq<FileInfo>>)
    reads if r.data.Files? then r.data.files.Repr() else {}
  {
    r.what == WHAT_LIST && r.arg1 == ListCode(outcome) && r.arg2 == 0 &&
    if r.arg1 == EXCEPTION_OK then
      r.data.Files? && r.data.files.Valid() && r.data.files.Contents() == ToColumns(outcome.value)
    else
      r.data == NoData
  }

  // ---------------------------------------------------------------------------------------------
  // Downloads

  /** A queued download request (the local file is kept by its path). */
  datatype DownloadElement = DownloadElement(remoteFileName: Option<string>, localFile: Option<string>, restartAt: Int32)
  {
    /** Both names present and a non-negative restart offset. */
    predicate Ready() {
      remoteFileName.Some? && localFile.Some? && restartAt >= 0
    }
  }

  predicate AllReady(queue: seq<DownloadElement>) {
    forall i :: 0 <= i < |queue| ==> queue[i].Ready()
  }

  /** The request a DOWNLOAD command describes; `Ready()` is the validation the handler applies. */
  function Request(msg: Command): (e: DownloadElement)
    ensures e.Ready() <==>
      GetString(msg, KEY_REMOTE_FILE_NAME).Some? && GetString(msg, KEY_LOCAL_FILE_NAME).Some? && msg.arg1 >= 0
  {
    DownloadElement(GetString(msg, KEY_REMOTE_FILE_NAME), GetString(msg, KEY_LOCAL_FILE_NAME), msg.arg1)
  }

  /** The client download call for a queued element: the resume overload exactly when restartAt > 0. */
  function DownloadCall(e: DownloadElement): (call: ClientCall)
    requires e.Ready()
    ensures call.DownloadFrom? <==> e.restartAt > 0
    ensures call.Download? || call.DownloadFrom?
    ensures call.remoteFileName == e.remoteFileName.value && call.localFile == e.localFile.value
    ensures call.DownloadFrom? ==> call.restartAt == e.restartAt
  {
    if e.restartAt > 0 then DownloadFrom(e.remoteFileName.value, e.localFile.value, e.restartAt)
    else Download(e.remoteFileName.value, e.localFile.value)
  }

  /** A notification the client delivers to the transfer listener during a download. */
  datatype TransferEvent = Started | Transferred(length: Int32) | Completed | Aborted | Failed

  /** What one client download does: the listener notifications it delivers, then its outcome. */
  datatype Transfer = Transfer(events: seq<TransferEvent>, result: Result<()>)

  /** The reply the transfer listener sends for a notification. */
  function EventReply(e: TransferEvent): (r: Reply)
    ensures WHAT_DOWNLOAD_STARTED <= r.what <= WHAT_DOWNLOAD_FAILED
    ensures r.what == WHAT_DOWNLOAD_TRANSFERRED <==> e.Transferred?
    ensures e.Transferred? ==> r.arg2 == e.length
    ensures r.data == NoData
  {
    match e
    case Started => Reply(WHAT_DOWNLOAD_STARTED, 0, 0, NoData)
    case Transferred(length) => Reply(WHAT_DOWNLOAD_TRANSFERRED, EXCEPTION_OK, length, NoData)
    case Completed => Reply(WHAT_DOWNLOAD_COMPLETED, 0, 0, NoData)
    case Aborted => Reply(WHAT_DOWNLOAD_ABORTED, 0, 0, NoData)
    case Failed => Reply(WHAT_DOWNLOAD_FAILED, 0, 0, NoData)
  }

  function EventReplies(es: seq<TransferEvent>): (rs: seq<Reply>)
    ensures |rs| == |es|
    ensures forall i :: 0 <= i < |es| ==> rs[i] == EventReply(es[i])
  {
    if es == [] then [] else [EventReply(es[0])] + EventReplies(es[1..])
  }

  /** The effect of one runner invocation: the queue left, the client calls made, the replies sent. */
  datatype RunnerStep = RunnerStep(queue: seq<DownloadElement>, calls: seq<ClientCall>, replies: seq<Reply>)

  /**
   * One runner invocation. It removes exactly the head. On an empty queue it reports a failed
   * download and a queue depth of 0 with UNKNOWN, and calls nothing; otherwise, after the
   * listener's notifications, it reports the download's code and then the same code with the
   * remaining depth.
   */
  function RunStep(queue: seq<DownloadElement>, transfer: Transfer): (s: RunnerStep)
    requires AllReady(queue)
    ensures AllReady(s.queue)
    ensures queue == [] ==> s == RunnerStep([], [], [Reply(WHAT_DOWNLOAD_FAILED, 0, 0, NoData),
                                                     Reply(WHAT_DOWNLOAD_QUEUE, EXCEPTION_UNKNOWN, 0, NoData)])
    ensures queue != [] ==>
      && s.queue == queue[1..]
      && s.calls == [DownloadCall(queue[0])]
      && var code := ResultCode(transfer.result);
         s.replies == EventReplies(transfer.events) +
           [Reply(WHAT_DOWNLOAD, code, 0, NoData), Reply(WHAT_DOWNLOAD_QUEUE, code, |queue| - 1, NoData)]
  {
    if queue == [] then
      RunnerStep([], [], [Reply(WHAT_DOWNLOAD_FAILED, 0, 0, NoData), Reply(WHAT_DOWNLOAD_QUEUE, EXCEPTION_UNKNOWN, 0, NoData)])
    else
      var code := ResultCode(transfer.result);
      RunnerStep(queue[1..], [DownloadCall(queue[0])],
        EventReplies(transfer.events) +
          [Reply(WHAT_DOWNLOAD, code, 0, NoData), Reply(WHAT_DOWNLOAD_QUEUE, code, |queue| - 1, NoData)])
  }

  /** Successive runner invocations, one per transfer outcome. */
  function Drain(queue: seq<DownloadElement>, transfers: seq<Transfer>): (s: RunnerStep)
    requires AllReady(queue)
    decreases |transfers|
  {
    if transfers == [] then RunnerStep(queue, [], [])
    else
      var first := RunStep(queue, transfers[0]);
      var rest := Drain(first.queue, transfers[1..]);
      RunnerStep(rest.queue, first.calls + rest.calls, first.replies + rest.replies)
  }

  /** The download calls for a queue's elements, head first. */
  function DownloadCalls(queue: seq<DownloadElement>): seq<ClientCall>
    requires AllReady(queue)
  {
    if queue == [] then [] else [DownloadCall(queue[0])] + DownloadCalls(queue[1..])
  }

  /** The depths the queue-depth replies report, in order. */
  function QueueDepths(rs: seq<Reply>): seq<int> {
    if rs == [] then []
    else (if rs[0].what == WHAT_DOWNLOAD_QUEUE then [rs[0].arg2] else []) + QueueDepths(rs[1..])
  }

  /** n - 1, n - 2, ..., 0. */
  function Countdown(n: nat): seq<int> {
    if n == 0 then [] else [n - 1] + Countdown(n - 1)
  }

  lemma {:induction false} QueueDepthsAppend(a: seq<Reply>, b: seq<Reply>)
    ensures QueueDepths(a + b) == QueueDepths(a) + QueueDepths(b)
  {
    if a == [] {
      assert a + b == b;
    } else {
      assert (a + b)[0] == a[0];
      assert (a + b)[1..] == a[1..] + b;
      QueueDepthsAppend(a[1..], b);
    }
  }

  lemma {:induction false} NoDepthsInEvents(es: seq<TransferEvent>)
    ensures QueueDepths(EventReplies(es)) == []
  {
    if es != [] {
      assert EventReplies(es)[1..] == EventReplies(es[1..]);
      NoDepthsInEvents(es[1..]);
    }
  }

  /**
   * Draining a queue of n elements with n runner invocations downloads every element once, in
   * FIFO order, empties the queue, and reports the depths n - 1, ..., 0.
   */
  lemma {:induction false} DrainIsFifo(queue: seq<DownloadElement>, transfers: seq<Transfer>)
    requires AllReady(queue) && |transfers| == |queue|
    ensures Drain(queue, transfers).queue == []
    ensures Drain(queue, transfers).calls == DownloadCalls(queue)
    ensures QueueDepths(Drain(queue, transfers).replies) == Countdown(|queue|)
    decreases |queue|
  {
    if queue != [] {
      var first := RunStep(queue, transfers[0]);
      DrainIsFifo(queue[1..], transfers[1..]);
      var code := ResultCode(transfers[0].result);
      var tail := [Reply(WHAT_DOWNLOAD, code, 0, NoData), Reply(WHAT_DOWNLOAD_QUEUE, code, |queue| - 1, NoData)];
      QueueDepthsAppend(EventReplies(transfers[0].events), tail);
      NoDepthsInEvents(transfers[0].events);
      assert QueueDepths(tail) == [|queue| - 1] by {
        assert tail[1..][1..] == [];
        assert QueueDepths(tail[1..]) == [|queue| - 1] + QueueDepths(tail[1..][1..]);
      }
      QueueDepthsAppend(first.replies, Drain(first.queue, transfers[1..]).replies);
    }
  }

  // ---------------------------------------------------------------------------------------------
  // The service

  class FTPService {
    /** The caller's messenger (`mRemoteMessenger`); replies are sent only while it is set. */
    var target: Option<Endpoint>
    /** Pending downloads (`mDownloadQueue`), head first. */
    var queue: seq<DownloadElement>
    /** Every message sent to the caller, in order. */
    var replies: seq<Reply>
    /** Every call made on the ftp4j client, in order. */
    var calls: seq<ClientCall>
    /** How many times the runner has been posted to the download thread. */
    var posted: nat

    /** Every queued element is downloadable: names present, restartAt non-negative. */
    ghost predicate Valid()
      reads this
    {
      AllReady(queue)
    }

    constructor ()
      ensures Valid()
      ensures target == None && queue == [] && replies == [] && calls == [] && posted == 0
    {
      target, queue, replies, calls, posted := None, [], [], [], 0;
    }

    /** Sends one reply to the reply target, or nothing when there is none. */
    method SendReply(what: int, arg1: int, arg2: int, data: Payload)
      modifies this`replies
      ensures replies == old(replies) + Emit(target, [Reply(what, arg1, arg2, data)])
    {
      if target.None? {
        return;
      }
      replies := replies + [Reply(what, arg1, arg2, data)];
    }

    /** The handler for one incoming message. */
    method HandleMessage(msg: Command, client: ClientOutcomes)
      requires Valid()
      modifies this
      ensures Valid()
      ensures target == if msg.what == WHAT_START then msg.replyTo
                        else if msg.what == WHAT_STOP then None
                        else old(target)
      ensures msg.what == WHAT_START ==> replies == old(replies) + Emit(msg.replyTo, [Reply(WHAT_START, 0, 0, NoData)])
      ensures msg.what == WHAT_STOP ==> replies == old(replies) + Emit(old(target), [Reply(WHAT_STOP, 0, 0, NoData)])
      ensures IsClientCommand(msg.what) ==> calls == old(calls) + [CallFor(msg)]
      ensures !IsClientCommand(msg.what) ==> calls == old(calls)
      ensures IsClientCommand(msg.what) && msg.what != WHAT_LIST ==>
        replies == old(replies) + Emit(target, [ClientReply(msg, client)])
      ensures msg.what == WHAT_LIST ==>
        |replies| == |old(replies)| + |Emit(target, [Reply(WHAT_LIST, 0, 0, NoData)])| &&
        replies[..|old(replies)|] == old(replies)
      ensures msg.what == WHAT_LIST && target.Some? ==> IsListReply(replies[|old(replies)|], client.list)
      ensures msg.what == WHAT_LIST && target.Some? && replies[|old(replies)|].data.Files? ==>
        fresh(replies[|old(replies)|].data.files.Repr())
      ensures msg.what == WHAT_DOWNLOAD && !Request(msg).Ready() ==>
        replies == old(replies) + Emit(target, [Reply(WHAT_DOWNLOAD, EXCEPTION_FILE_NOT_FOUND, 0, NoData)]) &&
        queue == old(queue) && posted == old(posted)
      ensures msg.what == WHAT_DOWNLOAD && Request(msg).Ready() ==>
        queue == old(queue) + [Request(msg)] && posted == old(posted) + 1 &&
        replies == old(replies) + Emit(target, [Reply(WHAT_DOWNLOAD_QUEUE, EXCEPTION_OK, |queue|, NoData)])
      ensures msg.what != WHAT_DOWNLOAD ==> queue == old(queue) && posted == old(posted)
      ensures !IsCommand(msg.what) ==> replies == old(replies)
    {
      if msg.what == WHAT_START {
        target := msg.replyTo;
        SendReply(msg.what, 0, 0, NoData);
      } else if msg.what == WHAT_STOP {
        SendReply(msg.what, 0, 0, NoData);
        target := None;
      } else if msg.what == WHAT_CONNECT {
        Connect(msg, client.connect);
      } else if msg.what == WHAT_DISCONNECT {
        Disconnect(msg, client.done);
      } else if msg.what == WHAT_LOGIN {
        Login(msg, client.done);
      } else if msg.what == WHAT_LOGOUT {
        Logout(msg, client.done);
      } else if msg.what == WHAT_CURRENT_DIRECTORY {
        CurrentDirectory(msg, client.currentDirectory);
      } else if msg.what == WHAT_CHANGE_DIRECTORY {
        ChangeDirectory(msg, client.done);
      } else if msg.what == WHAT_CHANGE_DIRECTORY_UP {
        ChangeDirectoryUp(msg, client.done);
      } else if msg.what == WHAT_LIST {
        List(msg, client.list);
      } else if msg.what == WHAT_LIST_NAMES {
        ListNames(msg, client.listNames);
      } else if msg.what == WHAT_DOWNLOAD {
        Download(msg);
      } else if msg.what == WHAT_ABORT_CURRENT_DATA_TRANSFER {
        AbortCurrentDataTransfer(msg, client.done);
      }
    }

    method Connect(msg: Command, outcome: Result<seq<string>>)
      requires msg.what == WHAT_CONNECT
      modifies this`calls, this`replies
      ensures calls == old(calls) + [CallFor(msg)]
      ensures replies == old(replies) + Emit(target, [ClientReply(msg, ClientOutcomes(outcome, Ok(()), Ok(""), Ok([]), Ok([])))])
    {
      var host := GetString(msg, KEY_HOST);
      var port := msg.arg1;
      if port < 0 {
        calls := calls + [ClientCall.Connect(host.GetOr("/"))];
      } else {
        calls := calls + [ClientCall.ConnectPort(host.GetOr("/"), port)];
      }
      var result := ResultCode(outcome);
      var data := if outcome.Ok? then Messages(outcome.value) else NoData;
      SendReply(msg.what, result, 0, data);
    }

    /** Shared shape of the handlers whose call returns nothing. */
    method CallAndReply(msg: Command, call: ClientCall, outcome: Result<()>)
      modifies this`calls, this`replies
      ensures calls == old(calls) + [call]
      ensures replies == old(replies) + Emit(target, [Reply(msg.what, ResultCode(outcome), 0, NoData)])
    {
      calls := calls + [call];
      SendReply(msg.what, ResultCode(outcome), 0, NoData);
    }

    method Disconnect(msg: Command, outcome: Result<()>)
      requires msg.what == WHAT_DISCONNECT
      modifies this`calls, this`replies
      ensures calls == old(calls) + [CallFor(msg)]
      ensures replies == old(replies) + Emit(target, [ClientReply(msg, ClientOutcomes(Ok([]), outcome, Ok(""), Ok([]), Ok([])))])
    {
      CallAndReply(msg, ClientCall.Disconnect(true), outcome);
    }

    method Login(msg: Command, outcome: Result<()>)
      requires msg.what == WHAT_LOGIN
      modifies this`calls, this`replies
      ensures calls == old(calls) + [CallFor(msg)]
      ensures replies == old(replies) + Emit(target, [ClientReply(msg, ClientOutcomes(Ok([]), outcome, Ok(""), Ok([]), Ok([])))])
    {
      var username := GetString(msg, KEY_USERNAME).GetOr("anonymous");
      var password := GetString(msg, KEY_PASSWORD).GetOr("");
      CallAndReply(msg, ClientCall.Login(username, password), outcome);
    }

    method Logout(msg: Command, outcome: Result<()>)
      requires msg.what == WHAT_LOGOUT
      modifies this`calls, this`replies
      ensures calls == old(calls) + [CallFor(msg)]
      ensures replies == old(replies) + Emit(target, [ClientReply(msg, ClientOutcomes(Ok([]), outcome, Ok(""), Ok([]), Ok([])))])
    {
      CallAndReply(msg, ClientCall.Logout, outcome);
    }

    method CurrentDirectory(msg: Command, outcome: Result<string>)
      requires msg.what == WHAT_CURRENT_DIRECTORY
      modifies this`calls, this`replies
      ensures calls == old(calls) + [CallFor(msg)]
      ensures replies == old(replies) + Emit(target, [ClientReply(msg, ClientOutcomes(Ok([]), Ok(()), outcome, Ok([]), Ok([])))])
    {
      calls := calls + [ClientCall.CurrentDirectory];
      var data := if outcome.Ok? then Path(outcome.value) else NoData;
      SendReply(msg.what, ResultCode(outcome), 0, data);
    }

    method ChangeDirectory(msg: Command, outcome: Result<()>)
      requires msg.what == WHAT_CHANGE_DIRECTORY
      modifies this`calls, this`replies
      ensures calls == old(calls) + [CallFor(msg)]
      ensures replies == old(replies) + Emit(target, [ClientReply(msg, ClientOutcomes(Ok([]), outcome, Ok(""), Ok([]), Ok([])))])
    {
      var path := GetString(msg, KEY_PATH).GetOr("/");
      CallAndReply(msg, ClientCall.ChangeDirectory(path), outcome);
    }

    method ChangeDirectoryUp(msg: Command, outcome: Result<()>)
      requires msg.what == WHAT_CHANGE_DIRECTORY_UP
      modifies this`calls, this`replies
      ensures calls == old(calls) + [CallFor(msg)]
      ensures replies == old(replies) + Emit(target, [ClientReply(msg, ClientOutcomes(Ok([]), outcome, Ok(""), Ok([]), Ok([])))])
    {
      CallAndReply(msg, ClientCall.ChangeDirectoryUp, outcome);
    }

    method List(msg: Command, outcome: Result<seq<FileInfo>>)
      requires msg.what == WHAT_LIST
      modifies this`calls, this`replies
      ensures calls == old(calls) + [CallFor(msg)]
      ensures |replies| == |old(replies)| + |Emit(target, [Reply(WHAT_LIST, 0, 0, NoData)])|
      ensures replies[..|old(replies)|] == old(replies)
      ensures target.Some? ==> IsListReply(replies[|old(replies)|], outcome)
      ensures target.Some? && replies[|old(replies)|].data.Files? ==> fresh(replies[|old(replies)|].data.files.Repr())
    {
      var fileSpec := GetString(msg, KEY_FILESPEC);
      if fileSpec.None? {
        calls := calls + [ClientCall.List];
      } else {
        calls := calls + [ListSpec(fileSpec.value)];
      }
      var result := ListCode(outcome);
      if result == EXCEPTION_OK {
        var parcelable := new FTPFiles.FromFiles(outcome.value);
        SendReply(msg.what, result, 0, Files(parcelable));
      } else {
        SendReply(msg.what, result, 0, NoData);
      }
    }

    method ListNames(msg: Command, outcome: Result<seq<string>>)
      requires msg.what == WHAT_LIST_NAMES
      modifies this`calls, this`replies
      ensures calls == old(calls) + [CallFor(msg)]
      ensures replies == old(replies) + Emit(target, [ClientReply(msg, ClientOutcomes(Ok([]), Ok(()), Ok(""), Ok([]), outcome))])
    {
      calls := calls + [ClientCall.ListNames];
      var data := if outcome.Ok? then Names(outcome.value) else NoData;
      SendReply(msg.what, ResultCode(outcome), 0, data);
    }

    /**
     * Validates a DOWNLOAD: an invalid request is answered at once with FILE_NOT_FOUND; a valid
     * one is queued, answered with the new queue depth, and the runner is posted.
     */
    method Download(msg: Command)
      requires msg.what == WHAT_DOWNLOAD && Valid()
      modifies this`replies, this`queue, this`posted
      ensures Valid()
      ensures !Request(msg).Ready() ==>
        replies == old(replies) + Emit(target, [Reply(WHAT_DOWNLOAD, EXCEPTION_FILE_NOT_FOUND, 0, NoData)]) &&
        queue == old(queue) && posted == old(posted)
      ensures Request(msg).Ready() ==>
        queue == old(queue) + [Request(msg)] && posted == old(posted) + 1 &&
        replies == old(replies) + Emit(target, [Reply(WHAT_DOWNLOAD_QUEUE, EXCEPTION_OK, |queue|, NoData)])
    {
      var remoteFileName := GetString(msg, KEY_REMOTE_FILE_NAME);
      var localFileName := GetString(msg, KEY_LOCAL_FILE_NAME);
      var restartAt := msg.arg1;
      if remoteFileName.None? || localFileName.None? || restartAt < 0 {
        SendReply(msg.what, EXCEPTION_FILE_NOT_FOUND, 0, NoData);
        return;
      }
      queue := queue + [DownloadElement(remoteFileName, localFileName, restartAt)];
      SendReply(WHAT_DOWNLOAD_QUEUE, EXCEPTION_OK, |queue|, NoData);
      posted := posted + 1;
    }

    method AbortCurrentDataTransfer(msg: Command, outcome: Result<()>)
      requires msg.what == WHAT_ABORT_CURRENT_DATA_TRANSFER
      modifies this`calls, this`replies
      ensures calls == old(calls) + [CallFor(msg)]
      ensures replies == old(replies) + Emit(target, [ClientReply(msg, ClientOutcomes(Ok([]), outcome, Ok(""), Ok([]), Ok([])))])
    {
      CallAndReply(msg, ClientCall.AbortCurrentDataTransfer(true), outcome);
    }

    /** The transfer listener: forwards one client notification as a reply. */
    method Notify(event: TransferEvent)
      modifies this`replies
      ensures replies == old(replies) + Emit(target, [EventReply(event)])
    {
      match event
      case Started => SendReply(WHAT_DOWNLOAD_STARTED, 0, 0, NoData);
      case Transferred(length) => SendReply(WHAT_DOWNLOAD_TRANSFERRED, EXCEPTION_OK, length, NoData);
      case Completed => SendReply(WHAT_DOWNLOAD_COMPLETED, 0, 0, NoData);
      case Aborted => SendReply(WHAT_DOWNLOAD_ABORTED, 0, 0, NoData);
      case Failed => SendReply(WHAT_DOWNLOAD_FAILED, 0, 0, NoData);
    }

    /** The notifications the client delivers during one download, forwarded in order. */
    method Forward(events: seq<TransferEvent>)
      modifies this`replies
      ensures replies == old(replies) + Emit(target, EventReplies(events))
    {
      var k := 0;
      while k < |events|
        invariant 0 <= k <= |events|
        invariant replies == old(replies) + Emit(target, EventReplies(events[..k]))
      {
        Notify(events[k]);
        assert events[..k + 1] == events[..k] + [events[k]];
        EventRepliesAppend(events[..k], [events[k]]);
        k := k + 1;
      }
      assert events[..k] == events;
    }

    /** One invocation of the download runner. */
    method RunDownload(transfer: Transfer)
      requires Valid()
      modifies this`queue, this`calls, this`replies
      ensures Valid()
      ensures queue == RunStep(old(queue), transfer).queue
      ensures calls == old(calls) + RunStep(old(queue), transfer).calls
      ensures replies == old(replies) + Emit(target, RunStep(old(queue), transfer).replies)
    {
      if queue == [] {
        Notify(Failed);
        SendReply(WHAT_DOWNLOAD_QUEUE, EXCEPTION_UNKNOWN, |queue|, NoData);
        return;
      }
      var element := queue[0];
      queue := queue[1..];
      if element.remoteFileName.None? || element.localFile.None? || element.restartAt < 0 {
        // Every queued element was validated on entry, so the silent return never happens.
        assert false;
      }
      if element.restartAt > 0 {
        calls := calls + [ClientCall.DownloadFrom(element.remoteFileName.value, element.localFile.value, element.restartAt)];
      } else {
        calls := calls + [ClientCall.Download(element.remoteFileName.value, element.localFile.value)];
      }
      Forward(transfer.events);
      var result := ResultCode(transfer.result);
      SendReply(WHAT_DOWNLOAD, result, 0, NoData);
      SendReply(WHAT_DOWNLOAD_QUEUE, result, |queue|, NoData);
    }
  }

  lemma EventRepliesAppend(a: seq<TransferEvent>, b: seq<TransferEvent>)
    ensures EventReplies(a + b) == EventReplies(a) + EventReplies(b)
  {
  }
}
