# FTP4jAnd in Dafny

A Dafny model of the library part of FTP4jAnd. This Android library runs an ftp4j FTP client inside a
message-passing service. The model covers four pieces:

- **`FtpService`**: the service's message handler.
  - Each numbered command from CONNECT to ABORT_CURRENT_DATA_TRANSFER, except DOWNLOAD, becomes one call on the ftp4j client, with argument defaults applied first. DOWNLOAD is validated and queued; the runner makes its client call later.
  - A failure is classified into one of ten integer codes by an ordered `instanceof` chain.
  - Replies go to the caller's messenger, and only while one is set.
  - Downloads are validated, queued in FIFO order and drained by a runner, one element per invocation.
- **`FtpController`**: the caller-side controller.
  - It tracks a four-state session: SERVICE_STOPPED, SERVICE_STARTED, FTP_CONNECTED, FTP_LOGGED_IN.
  - It guards `connect`, `login` and `logout` by that state.
  - It packs each request into a command message whose string arguments form a bundle.
  - It routes the service's replies to the command callback or the download callback.
- **`FtpFiles`**: the parcelable that carries a directory listing as five parallel arrays. It covers the array constructor, `getFiles`, `writeToParcel` and the parcel constructor, which preallocates three entries.
- **`FtpFile`**: the directory-entry bean, with its defaults, type constants, getters and setters.

`Wrappers` holds `Option` (a Java reference that may be null), Java's `int` and `long` as subset types, and the narrowing cast `(int)`.

Modelling conventions:

- **The ftp4j client is an oracle.**
  - Each service handler receives the outcome of the call it makes: `Ok(value)` or `Threw(throwable)`.
  - It records the call itself in `calls`, as a `ClientCall` naming the overload and the arguments after defaults.
  - A thrown object is described by the set of checked exception classes it is an instance of. A `FileNotFoundException` is in `IOException`; a `NullPointerException` is in none.
- **Messengers are endpoints by identity.**
  - The service's outgoing messages form the log `replies`.
  - The controller's outgoing messages form the log `sent`.
  - What its callbacks receive forms the logs `callbacks` and `downloads`.
- **Runner steps are sequential.** One invocation of the download runner is `RunDownload`, given the transfer the client performs: its listener notifications and its outcome. `RunStep` and `Drain` describe one and several invocations as values.
- **Java values.**
  - A `java.util.Date` is its millisecond value (a `long`).
  - A local `File` is its path.
  - A parcel is a sequence of typed arrays.

## Model

| member | source | states |
|---|---|---|
| Wrappers.NarrowToInt | ftplib/src/main/java/com/omicronapplications/ftplib/FTPController.java:307 | `(int)` on a `long` yields the int congruent to it modulo 2^32, and leaves values that fit unchanged |
| FtpFile.TypeCodesDistinct | ftplib/src/main/java/com/omicronapplications/ftplib/FTPFile.java:6-8 | the three entry-type codes are distinct |
| FtpFile.FTPFile.constructor | ftplib/src/main/java/com/omicronapplications/ftplib/FTPFile.java:10-14 | a new bean has no name, link or date, size -1 and type 0 |
| FtpFile.FTPFile.SetModifiedDate | ftplib/src/main/java/com/omicronapplications/ftplib/FTPFile.java:16-22 | the getter returns the value set; every other field is unchanged |
| FtpFile.FTPFile.SetName | ftplib/src/main/java/com/omicronapplications/ftplib/FTPFile.java:24-30 | the getter returns the value set; every other field is unchanged |
| FtpFile.FTPFile.SetType | ftplib/src/main/java/com/omicronapplications/ftplib/FTPFile.java:32-38 | the getter returns the value set; every other field is unchanged |
| FtpFile.FTPFile.SetSize | ftplib/src/main/java/com/omicronapplications/ftplib/FTPFile.java:40-46 | the getter returns the value set; every other field is unchanged |
| FtpFile.FTPFile.SetLink | ftplib/src/main/java/com/omicronapplications/ftplib/FTPFile.java:48-54 | the getter returns the value set; every other field is unchanged |
| FtpFile.Snapshot | ftplib/src/main/java/com/omicronapplications/ftplib/FTPController.java:396-400 | the field values of each bean in an array of beans, in order, which is what the `list` callback observes |
| FtpFiles.ToColumns | ftplib/src/main/java/com/omicronapplications/ftplib/FTPFiles.java:15-29 | the columns built from a listing are parallel and have the listing's length |
| FtpFiles.FromColumns | ftplib/src/main/java/com/omicronapplications/ftplib/FTPFiles.java:32-45 | the rebuilt entries have the columns' length and every one has a date |
| FtpFiles.ListRoundTrip | ftplib/src/main/java/com/omicronapplications/ftplib/FTPFiles.java:15-45 | rebuilding the entries from the stored columns gives back the listing field by field, in order |
| FtpFiles.ColumnsRoundTrip | ftplib/src/main/java/com/omicronapplications/ftplib/FTPFiles.java:15-45 | storing rebuilt entries gives back the same columns |
| FtpFiles.FTPFiles.FromFiles | ftplib/src/main/java/com/omicronapplications/ftplib/FTPFiles.java:15-30 | five fresh parallel arrays, each of the listing's length, where index i holds entry i's name, link, date millis, size and type |
| FtpFiles.FTPFiles.GetFiles | ftplib/src/main/java/com/omicronapplications/ftplib/FTPFiles.java:32-45 | a fresh array of pairwise distinct fresh beans, one per index, where bean i carries index i's five values and the date is present |
| FtpFiles.NewBean | ftplib/src/main/java/com/omicronapplications/ftplib/FTPFiles.java:37-42 | a new bean filled through its five setters has exactly the given field values |
| FtpFiles.FTPFiles.WriteToParcel | ftplib/src/main/java/com/omicronapplications/ftplib/FTPFiles.java:81-87 | the parcel gets the arrays appended in the order names, links, dates, sizes, types |
| FtpFiles.ReadStringArray | ftplib/src/main/java/com/omicronapplications/ftplib/FTPFiles.java:54-55 | reading into a preallocated array succeeds exactly when the stored entry is a string array of that length, and then copies it; on failure the array is unchanged |
| FtpFiles.ReadLongArray | ftplib/src/main/java/com/omicronapplications/ftplib/FTPFiles.java:56-57 | the same for long arrays |
| FtpFiles.ReadIntArray | ftplib/src/main/java/com/omicronapplications/ftplib/FTPFiles.java:58 | the same for int arrays |
| FtpFiles.Decode | ftplib/src/main/java/com/omicronapplications/ftplib/FTPFiles.java:47-59 | the parcel constructor yields parallel columns of length 3 exactly when the five stored entries have the read order's types and length 3 |
| FtpFiles.CreateFromParcel | ftplib/src/main/java/com/omicronapplications/ftplib/FTPFiles.java:47-65 | the parcel constructor succeeds exactly when `Decode` does, and then holds the decoded columns in fresh arrays |
| FtpFiles.ParcelRoundTrip | ftplib/src/main/java/com/omicronapplications/ftplib/FTPFiles.java:47-87 | decoding what `writeToParcel` wrote restores the columns exactly when there are 3 entries, and fails otherwise |
| FtpFiles.ThroughObject | ftplib/src/main/java/com/omicronapplications/ftplib/FTPFiles.java:15-45 | `getFiles(new FTPFiles(xs))` equals xs field by field |
| FtpFiles.ThroughParcel | ftplib/src/androidTest/java/com/omicronapplications/ftplib/FTPFilesTest.java:44-58 | building, writing, reading back and rebuilding gives xs when xs has 3 entries, and fails otherwise |
| FtpService.ExceptionCodesDistinct | ftplib/src/main/java/com/omicronapplications/ftplib/FTPService.java:67-76 | the ten codes are pairwise distinct; OK is 0 and the others are negative |
| FtpService.WhatException | ftplib/src/main/java/com/omicronapplications/ftplib/FTPService.java:535-562 | a classified failure is negative and never FILE_NOT_FOUND; an object of no checked class is UNKNOWN |
| FtpService.WhatExceptionIsFirstMatch | ftplib/src/main/java/com/omicronapplications/ftplib/FTPService.java:535-562 | the chain equals a first-match search of the table ILLEGAL_STATE, IO, FTP_ILLEGAL_REPLY, FTP, FTP_DATA_TRANSFER, FTP_ABORTED, FTP_LIST_PARSE, with UNKNOWN when nothing matches |
| FtpService.WhatExceptionOrder | ftplib/src/main/java/com/omicronapplications/ftplib/FTPService.java:537-557 | the code is entry k's exactly when the object is of entry k's class and of no class checked earlier |
| FtpService.UnknownOnlyWhenUnclassified | ftplib/src/main/java/com/omicronapplications/ftplib/FTPService.java:558-561 | UNKNOWN exactly when the object is of none of the checked classes |
| FtpService.ResultCode | ftplib/src/main/java/com/omicronapplications/ftplib/FTPService.java:346-353 | a handler's code is OK exactly when the call returned; otherwise it is a negative code other than FILE_NOT_FOUND |
| FtpService.CallFor | ftplib/src/main/java/com/omicronapplications/ftplib/FTPService.java:322-485 | the client call for each command, with defaults: host "/", default-port connect for port < 0, "anonymous"/"", path "/", the unfiltered list without a file spec |
| FtpService.ListCode | ftplib/src/main/java/com/omicronapplications/ftplib/FTPService.java:425-443 | LIST is OK exactly when the listing returned and every entry has a date; an undated entry gives UNKNOWN |
| FtpService.ClientReply | ftplib/src/main/java/com/omicronapplications/ftplib/FTPService.java:322-485 | the reply carries the command's own `what`, the outcome's code, and the returned messages, path or names only on success |
| FtpService.Request | ftplib/src/main/java/com/omicronapplications/ftplib/FTPService.java:458-462 | a DOWNLOAD request is ready exactly when both names are present and restartAt ≥ 0 |
| FtpService.DownloadCall | ftplib/src/main/java/com/omicronapplications/ftplib/FTPService.java:188-193 | the resume overload is used exactly when restartAt > 0, with the element's names and offset |
| FtpService.EventReply | ftplib/src/main/java/com/omicronapplications/ftplib/FTPService.java:488-533 | each listener notification becomes one reply numbered 101–105; only TRANSFERRED carries a length, in arg2 |
| FtpService.EventReplies | ftplib/src/main/java/com/omicronapplications/ftplib/FTPService.java:488-533 | one reply per notification, in order |
| FtpService.RunStep | ftplib/src/main/java/com/omicronapplications/ftplib/FTPService.java:166-203 | on an empty queue: FAILED then QUEUE(UNKNOWN, 0) and no download call. Otherwise: exactly the head is removed and downloaded, then DOWNLOAD(code) and QUEUE(code, remaining size) follow its notifications |
| FtpService.DrainIsFifo | ftplib/src/main/java/com/omicronapplications/ftplib/FTPService.java:166-203 | n runner invocations on n queued elements download each once in FIFO order, empty the queue and report depths n−1, …, 0 |
| FtpService.FTPService.constructor | ftplib/src/main/java/com/omicronapplications/ftplib/FTPService.java:84-88 | no reply target, empty queue, no calls or replies yet |
| FtpService.FTPService.SendReply | ftplib/src/main/java/com/omicronapplications/ftplib/FTPService.java:303-320 | appends the reply when a target is set, else nothing |
| FtpService.FTPService.HandleMessage | ftplib/src/main/java/com/omicronapplications/ftplib/FTPService.java:216-280 | START sets the target then replies; STOP replies then clears it. A client command makes its call and one reply with its own `what`. DOWNLOAD is validated and queued. An unknown `what` changes nothing. Queued elements stay ready |
| FtpService.FTPService.Connect | ftplib/src/main/java/com/omicronapplications/ftplib/FTPService.java:322-343 | the connect call with defaults and its reply |
| FtpService.FTPService.Disconnect | ftplib/src/main/java/com/omicronapplications/ftplib/FTPService.java:345-354 | `disconnect(true)` and its reply |
| FtpService.FTPService.Login | ftplib/src/main/java/com/omicronapplications/ftplib/FTPService.java:356-373 | the login call with default credentials and its reply |
| FtpService.FTPService.Logout | ftplib/src/main/java/com/omicronapplications/ftplib/FTPService.java:375-384 | `logout()` and its reply |
| FtpService.FTPService.CurrentDirectory | ftplib/src/main/java/com/omicronapplications/ftplib/FTPService.java:386-397 | `currentDirectory()` and its reply, with the path only on success |
| FtpService.FTPService.ChangeDirectory | ftplib/src/main/java/com/omicronapplications/ftplib/FTPService.java:399-412 | `changeDirectory` with path default "/" and its reply |
| FtpService.FTPService.ChangeDirectoryUp | ftplib/src/main/java/com/omicronapplications/ftplib/FTPService.java:414-423 | `changeDirectoryUp()` and its reply |
| FtpService.FTPService.List | ftplib/src/main/java/com/omicronapplications/ftplib/FTPService.java:425-443 | the list overload chosen by the file spec. The reply holds a fresh parcelable with the listing's columns exactly when the code is OK |
| FtpService.FTPService.ListNames | ftplib/src/main/java/com/omicronapplications/ftplib/FTPService.java:445-456 | `listNames()` and its reply, with the names only on success |
| FtpService.FTPService.Download | ftplib/src/main/java/com/omicronapplications/ftplib/FTPService.java:458-474 | invalid: one DOWNLOAD(FILE_NOT_FOUND) reply and the queue unchanged. Valid: the element appended at the tail, QUEUE(OK, new size) and one runner posted |
| FtpService.FTPService.AbortCurrentDataTransfer | ftplib/src/main/java/com/omicronapplications/ftplib/FTPService.java:476-485 | `abortCurrentDataTransfer(true)` and its reply |
| FtpService.FTPService.Notify | ftplib/src/main/java/com/omicronapplications/ftplib/FTPService.java:488-533 | the transfer listener sends the notification's reply |
| FtpService.FTPService.Forward | ftplib/src/main/java/com/omicronapplications/ftplib/FTPService.java:188-193 | the notifications delivered during one download are sent in order |
| FtpService.FTPService.RunDownload | ftplib/src/main/java/com/omicronapplications/ftplib/FTPService.java:166-203 | one runner invocation changes the queue, calls and replies as `RunStep` says; the silent return at 184-187 is unreachable |
| FtpController.NextState | ftplib/src/main/java/com/omicronapplications/ftplib/FTPController.java:360-413 | CONNECT, DISCONNECT, LOGIN and LOGOUT replies move to FTP_CONNECTED, SERVICE_STARTED, FTP_LOGGED_IN and FTP_CONNECTED whatever their code; others leave the state (with a command callback registered; see HandleCallback) |
| FtpController.ReplayUnchanged | ftplib/src/main/java/com/omicronapplications/ftplib/FTPController.java:360-413 | a sequence of replies none of which changes state leaves the state as it was (with a command callback registered; see HandleCallback) |
| FtpController.ReplayFollowsLatest | ftplib/src/main/java/com/omicronapplications/ftplib/FTPController.java:360-413 | after any sequence of replies the state is the one the latest state-changing reply leads to (with a command callback registered; see HandleCallback) |
| FtpController.LoginAfterConnect | ftplib/src/main/java/com/omicronapplications/ftplib/FTPController.java:171-177 | after a CONNECT reply, an anonymous login is sent exactly when the service messenger is set and a command callback moved the state to FTP_CONNECTED, or it was there already (FTPController.java:353-356 returns before the state moves when no callback is registered) |
| FtpController.LogoutAfterLogin | ftplib/src/main/java/com/omicronapplications/ftplib/FTPController.java:203-209 | after a LOGIN reply, logout is sent exactly when the messenger is set and a callback moved the state to FTP_LOGGED_IN, or it was there already |
| FtpController.ConnectAfterDisconnect | ftplib/src/main/java/com/omicronapplications/ftplib/FTPController.java:128-134 | after a DISCONNECT reply, connect is sent exactly when the messenger is set and a callback moved the state to SERVICE_STARTED, or it was there already |
| FtpController.CollectLookup | ftplib/src/main/java/com/omicronapplications/ftplib/FTPController.java:524-530 | a key is in the bundle exactly when some pair has that key and a non-null value; it maps to the last such pair's value |
| FtpController.OneArgument | ftplib/src/main/java/com/omicronapplications/ftplib/FTPController.java:523-533 | a single-argument command delivers its argument under its key, null as absent |
| FtpController.TwoArguments | ftplib/src/main/java/com/omicronapplications/ftplib/FTPController.java:523-533 | each of two distinct keys delivers its own argument, null as absent |
| FtpController.ArgumentKeysDistinct | ftplib/src/main/java/com/omicronapplications/ftplib/FTPService.java:56-65 | the two login keys and the two download keys differ |
| FtpController.NarrowRestartAsWritten | ftplib/src/main/java/com/omicronapplications/ftplib/FTPController.java:302-308 | as written: refuses only offsets above Integer.MAX_VALUE, otherwise sends the wrapped int |
| FtpController.AsWrittenWrapsNegativeOffsets | ftplib/src/main/java/com/omicronapplications/ftplib/FTPController.java:302-308 | −4294967296 is sent as 0 and −2147483649 as 2147483647; the message the controller sends for either is accepted by the service and queued, as a download from the start and as a resume at 2147483647 |
| FtpController.NarrowRestart | ftplib/src/main/java/com/omicronapplications/ftplib/FTPController.java:302-308 | corrected: an offset is sent exactly when it fits an int, and then unchanged |
| FtpController.NarrowRestartAgrees | ftplib/src/main/java/com/omicronapplications/ftplib/FTPController.java:302-308 | the two checks agree on every offset not below Integer.MIN_VALUE |
| FtpController.CallbackFor | ftplib/src/main/java/com/omicronapplications/ftplib/FTPController.java:360-413 | each command reply triggers exactly one callback and an unsupported `what` none |
| FtpController.NotificationsReachDownloadCallback | ftplib/src/main/java/com/omicronapplications/ftplib/FTPController.java:427-446 | each forwarded listener notification reaches the matching download callback with the length intact; the queue-depth reply reaches none |
| FtpController.ClientRepliesReachCallback | ftplib/src/main/java/com/omicronapplications/ftplib/FTPController.java:360-413 | a service reply reaches the callback of the same command with the same code and the returned value, for each of CONNECT, DISCONNECT, LOGIN, LOGOUT, CURRENT_DIRECTORY, CHANGE_DIRECTORY, CHANGE_DIRECTORY_UP, LIST_NAMES and ABORT_CURRENT_DATA_TRANSFER |
| FtpController.ListReplyReachesCallback | ftplib/src/main/java/com/omicronapplications/ftplib/FTPController.java:393-402 | the service's LIST reply reaches the list callback with its code, and with the listed entries rebuilt field by field exactly when the code is OK (null otherwise) |
| FtpController.FTPController.constructor | ftplib/src/main/java/com/omicronapplications/ftplib/FTPController.java:70-73 | a new controller is in SERVICE_STOPPED with no messengers and no callbacks |
| FtpController.FTPController.SetCallbacks | ftplib/src/main/java/com/omicronapplications/ftplib/FTPController.java:81-84 | registers both callbacks |
| FtpController.FTPController.GetState | ftplib/src/main/java/com/omicronapplications/ftplib/FTPController.java:330-332 | returns the session state the controller currently holds |
| FtpController.FTPController.SetState | ftplib/src/main/java/com/omicronapplications/ftplib/FTPController.java:334-336 | sets the state |
| FtpController.FTPController.SendCommand | ftplib/src/main/java/com/omicronapplications/ftplib/FTPController.java:513-541 | fails and sends nothing without a service messenger. Otherwise it delivers one message with the controller's messenger as reply target and the bundle of non-null pairs, attached only when non-empty |
| FtpController.FTPController.Connect | ftplib/src/main/java/com/omicronapplications/ftplib/FTPController.java:128-134 | sends CONNECT with port −1 exactly when SERVICE_STARTED and a messenger is set |
| FtpController.FTPController.ConnectPort | ftplib/src/main/java/com/omicronapplications/ftplib/FTPController.java:145-151 | sends CONNECT with the port exactly when SERVICE_STARTED and a messenger is set |
| FtpController.FTPController.Disconnect | ftplib/src/main/java/com/omicronapplications/ftplib/FTPController.java:160-162 | sends DISCONNECT in any state |
| FtpController.FTPController.LoginAnonymous | ftplib/src/main/java/com/omicronapplications/ftplib/FTPController.java:171-177 | sends LOGIN without credentials exactly when FTP_CONNECTED |
| FtpController.FTPController.Login | ftplib/src/main/java/com/omicronapplications/ftplib/FTPController.java:188-194 | sends LOGIN with the credentials exactly when FTP_CONNECTED |
| FtpController.FTPController.Logout | ftplib/src/main/java/com/omicronapplications/ftplib/FTPController.java:203-209 | sends LOGOUT exactly when FTP_LOGGED_IN |
| FtpController.FTPController.CurrentDirectory | ftplib/src/main/java/com/omicronapplications/ftplib/FTPController.java:218-220 | unguarded |
| FtpController.FTPController.ChangeDirectory | ftplib/src/main/java/com/omicronapplications/ftplib/FTPController.java:230-232 | unguarded, with the path |
| FtpController.FTPController.ChangeDirectoryUp | ftplib/src/main/java/com/omicronapplications/ftplib/FTPController.java:241-243 | unguarded |
| FtpController.FTPController.List | ftplib/src/main/java/com/omicronapplications/ftplib/FTPController.java:253-255 | unguarded, with the file spec |
| FtpController.FTPController.ListAll | ftplib/src/main/java/com/omicronapplications/ftplib/FTPController.java:264-266 | unguarded |
| FtpController.FTPController.ListNames | ftplib/src/main/java/com/omicronapplications/ftplib/FTPController.java:275-277 | unguarded |
| FtpController.FTPController.Download | ftplib/src/main/java/com/omicronapplications/ftplib/FTPController.java:288-290 | unguarded, with both names and offset 0 |
| FtpController.FTPController.DownloadFrom | ftplib/src/main/java/com/omicronapplications/ftplib/FTPController.java:302-308 | sends exactly when the offset fits an int (corrected check, see Findings), the offset unchanged as arg1 |
| FtpController.FTPController.AbortCurrentDataTransfer | ftplib/src/main/java/com/omicronapplications/ftplib/FTPController.java:317-319 | unguarded |
| FtpController.FTPController.HandleCallback | ftplib/src/main/java/com/omicronapplications/ftplib/FTPController.java:348-415 | without a command callback nothing changes; with one, the state moves as `NextState` says and the callback `CallbackFor` names runs. A LIST callback gets the parcelable's rebuilt beans |
| FtpController.FTPController.HandleDownload | ftplib/src/main/java/com/omicronapplications/ftplib/FTPController.java:417-446 | with a download callback, each notification reaches it; otherwise nothing |
| FtpController.FTPController.HandleMessage | ftplib/src/main/java/com/omicronapplications/ftplib/FTPController.java:449-455 | `what` < 100 goes to the command side only, everything else to the download side only |
| FtpController.FTPController.ServiceConnected | ftplib/src/main/java/com/omicronapplications/ftplib/FTPController.java:470-487 | both messengers set, START sent with the controller's messenger as reply target, state SERVICE_STARTED |
| FtpController.FTPController.ServiceDisconnected | ftplib/src/main/java/com/omicronapplications/ftplib/FTPController.java:490-502 | the stop callback (when registered), both messengers cleared, state SERVICE_STOPPED |
| FtpController.ConnectArrives | ftplib/src/main/java/com/omicronapplications/ftplib/FTPService.java:322-336 | the controller's connect reaches the service as `connect(host)`, or `connect(host, port)` for a non-negative port, with a null host as "/" |
| FtpController.LoginArrives | ftplib/src/main/java/com/omicronapplications/ftplib/FTPService.java:356-364 | an anonymous login reaches the service as `login("anonymous", "")`; null credentials take the same defaults |
| FtpController.DownloadFromArrives | ftplib/src/main/java/com/omicronapplications/ftplib/FTPService.java:458-468 | an accepted resumable download is queued exactly when both names are non-null and the offset is non-negative, and resumes exactly when it is positive |

## Left out

- Android plumbing is not modelled: the service lifecycle (`onCreate`, `onDestroy`, `onBind`, the handler threads), binding (`FTPController.start` and `stop`), and `Binder`/`Messenger` transport. The model starts from a running service with its client, listener and download handler in place.
- `RemoteException` from `Messenger.send` is not modelled. Every send is assumed to be delivered, so `SendCommand` never fails after a messenger is set. The only failure kept is the missing remote messenger.
- `WeakReference` clearing is not modelled: the controller is always reachable from its handler and connection.
- Concurrency between the message thread and the download thread is not modelled, and neither is the thread-safety of the concurrent queue. Runner invocations are discrete steps between messages.
- A reply's parcelable is handed to the controller as the same object. The parcel the object would cross a process boundary in is modelled separately, by `WriteToParcel`, `CreateFromParcel` and `ThroughParcel`.
- The FTP protocol, listing parsing and socket transfer belong to the ftp4j client, which is an oracle here. A client that hands back a null array or a null path is not modelled.
- Logging is not modelled. Neither is `data.clear()` after a callback, which no later step observes.
- `java.util.Date` is its millisecond value; `new Date(ms)` and `getTime()` are the identity.
- FtpService.FTPService.Download: the local file is kept as the raw path string. `new File(localFileName)` (FTPService.java:466) normalizes the path, for example by dropping duplicate and trailing separators, and the model does not; two names that name the same file stay distinct here.
- FtpFiles.FTPFiles.FromFiles: requires every entry to have a date. The Java constructor dereferences each date and throws a NullPointerException on a missing one. The service's `List` checks first and replies UNKNOWN, which is what the caught exception yields.
- The UI (activity and adapters) and the instrumentation tests are not part of this model.

## Findings

| source | as written | input that shows it | evidently intended | confidence | as-written member | corrected member |
|---|---|---|---|---|---|---|
| ftplib/src/main/java/com/omicronapplications/ftplib/FTPController.java:303-307 | `download(remote, local, long restartAt)` refuses only offsets above 2147483647, then casts with `(int)`, which keeps the low 32 bits | `restartAt = -4294967296` is sent as 0, so the service queues a download from the start. `restartAt = -2147483649` is sent as 2147483647, so the service resumes at about 2 GB. A negative offset should have been refused, or reach the service as negative and get FILE_NOT_FOUND | an offset is sent only when it fits an int, and then unchanged, so the service's own `restartAt < 0` check applies | not executed | FtpController.NarrowRestartAsWritten, FtpController.AsWrittenWrapsNegativeOffsets | FtpController.NarrowRestart, FtpController.FTPController.DownloadFrom, FtpController.DownloadFromArrives |
