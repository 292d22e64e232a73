# A verified model of ftpsrv

ftpsrv is a small single-threaded FTP server for consoles.  It serves up to 128 sessions
from one poll loop, keeps all of their state in one global table, and moves every byte
through one buffer that all sessions share.  This project models the session state machine,
the transfer engine, the path handling, the Switch file back end and the device table of
that program, and proves what it promises over every run: for every order of events, every
pattern of short, blocked and failed calls, and every text a client may send.

## How the model is laid out

| module | content |
|---|---|
| `CText` | C strings: NUL, CRLF, `%[^\r\n]` scanning, `strncasecmp` |
| `Pathname` | `remove_slashes` in place, `build_fullpath`, and the algebra of path components behind them |
| `NxFile` | the Switch back end on values: both write strategies, open, seek, close, with a fault for any call |
| `NxHandle` | the same handle as the program keeps it: a class with fields and a write buffer updated in place |
| `HostPort` | the host-port text of PORT and PASV, `scanf` numbers, the port counter |
| `Session` | a session, the world it lives in, every command handler and every step of the transfer engine |
| `CommandLines` | the command table is unambiguous, and what a line of a name and an argument leads to |
| `Monitor` | automata that watch a session's log: handles, listeners, the dialogue of lines and replies, the login |
| `Conduct` | the invariant of a session, kept by every event |
| `Frames` | what an event leaves alone: other descriptors, and everything while a transfer runs |
| `Transfers` | what a step of a download or upload does to the bytes owed, sent, received and stored |
| `Engine` | what one call of the transfer engine comes to, by the answers of the calls it makes |
| `Sockets` | every open descriptor accounted for, over every run |
| `Server` | the session table, runs of events, safety of every reachable state, isolation, exit |
| `Deliveries` | exact downloads and uploads over whole runs, and the round trip |
| `Completion` | downloads and uploads come to their end, and the runs the other results speak of exist |
| `Dialogues` | whole dialogues, line by line: announcing a connection, asking for a transfer, calling it off |
| `Answers` | what every control line is answered with, by the literal names of the commands |
| `Starts` | which transfer commands start a transfer, with any argument, and how the others are refused |
| `Listings` | what a client gets to see of a directory, line by line |
| `Records` | the lines, ports and announcements that logs record, over every run |
| `Loop` | a pass of the poll loop as a list of events: line splitting, accepting, order of service |
| `Polls` | what a pass makes of what poll reports, slot by slot |
| `Addresses` | accepted connections, and the addresses announced on them, over every run |
| `Receives` | texts that arrive in two receives |
| `Readiness` | control lines served before the data connection, and poll results that are out of date |
| `Endings` | however a transfer ends: at its end, on a failure, called off, or with its client gone |
| `Walkthrough` | from the start of the server to a file sent there and back |
| `FtpServer` | the program's own form: `g_ftp` and its sessions as classes whose methods update them in place |
| `Devices` | the device table, mounting, and the translation of paths |
| `Limits` | where a promise is not kept: the exact condition, and an input that breaks it |
| `Commands` | what single commands and pairs of commands achieve |

An event is a slot and what happens on it: a connection, a readable control line, a ready data
connection, a hang-up.  It carries the answers (`Io`) of every call the program makes while
handling it: descriptors, sends, receives, reads, writes, closes, directory entries.  `Step`
is one event on one session, `Run` any number of events on the table, `PassEvents` the events
of one turn of the loop.  Every session keeps a log of what it took from and did to the
outside world (lines, replies, bytes, handles, sockets, changes to the file tree); results
about whole runs are stated over that log, by automata and by counting, not over the fields
of the session.

The functions of `Session` and `NxFile` are the specification; the methods of `FtpServer` and
`NxHandle` are the program's own imperative form and are proved to do exactly what those
functions say, so that a pass of `Ftp.Pass` shows the run of its events and every theorem
about runs holds of it.  What those functions promise is stated in terms of its own: path
components, bytes owed and stored, literal command names and reply codes, and the answers of
the system calls.

## Model

| member | source | states |
|---|---|---|
| Pathname.RemoveSlashes | src/ftpsrv.c:242-269 | The in-place loop with memmove leaves in the buffer the normal form of the text it found, defined on path components alone; it terminates and stays inside the buffer |
| Pathname.ScanOne | src/ftpsrv.c:247-264 | One turn of that loop reads one more character and keeps what has been written equal to the collapsed form of what has been read |
| Pathname.TrimEnd | src/ftpsrv.c:266-268 | The dangling separator, and no other, is cut off; the root keeps its slash |
| Pathname.MoveDown | src/ftpsrv.c:254-255 | The move within the buffer shifts exactly the named bytes by one; the bytes in front of them and behind the place where they stood last stay as they were |
| Pathname.NormaliseCanonical | src/ftpsrv.c:242-269 | A normalised path is non-empty, has no backslash, no empty component and no dangling slash, keeps its components and leading slash, and is left alone by a second clean-up |
| Pathname.NormaliseFixpoint | src/ftpsrv.c:242-269 | Normalising leaves every canonical path as it is |
| Pathname.CanonicalIsRender | src/ftpsrv.c:242-269 | A canonical path is the rendering of its own components: two canonical spellings of one place are equal |
| Pathname.CompsRender | src/ftpsrv.c:271-306 | Rendering a list of components and splitting the text again gives the list back, so components determine a canonical path |
| Pathname.CompsConcat | src/ftpsrv.c:290-301 | Joining two texts at a separator joins their component lists |
| Pathname.BuildFullpathMeaning | src/ftpsrv.c:271-306 | A path argument resolves to replace, drop-last or append on component lists; it is refused if and only if the rendered result does not fit, and then the buffer holds its cut prefix |
| Pathname.FullPath | src/ftpsrv.c:271-306 | On a buffer of 4096 bytes: the argument is copied, cleaned up in place, and replaced, cut at its last slash or appended, with the outcome of the specified resolution |
| Pathname.BuildFullpathCanonical | src/ftpsrv.c:271-306 | From a canonical absolute directory every argument, relative or absolute, leads to a canonical absolute path that fits |
| Pathname.DownThenUp | src/ftpsrv.c:678-721 | One named component down and `..` up lead back to the very same text |
| NxFile.FlushKeeps | src/platform/nx/vfs_nx.c:344-350 | A flush, failed or not, loses nothing of what was stored; if it succeeds the file is exactly that |
| NxFile.BufferedAppends | src/platform/nx/vfs_nx.c:441-464 | A write of any size through the write-behind buffer appends its bytes; if it fails a prefix of them has been stored; without faults it succeeds |
| NxFile.FillAndFlushKeeps | src/platform/nx/vfs_nx.c:444-456 | Filling the buffer to the brim and flushing it stores exactly the bytes that fitted |
| NxFile.ChunkedAppends | src/platform/nx/vfs_nx.c:466-478 | A write of the chunked build appends all of its bytes or none, whatever earlier failures left behind |
| NxFile.OneChunkSuffices | src/platform/nx/vfs_nx.c:466-471 | One growth step is enough exactly for the writes that need at most one chunk more |
| NxFile.FailedGrowthSticks | src/platform/nx/vfs_nx.c:466-471 | A growth that fails is not tried again: writes into that part fail although the device works again |
| NxFile.OpenedForWriting | src/platform/nx/vfs_nx.c:383-425 | A handle opened for writing starts from nothing, or from the old contents when appending, in both builds |
| NxFile.OpenExact | src/platform/nx/vfs_nx.c:383-425 | Opening succeeds if and only if the file is there or may be made, and each call it needs goes through; when it fails the contents are left alone |
| NxFile.BlockedUploadSeek | src/platform/nx/vfs_nx.c:482-485 | The seek that follows a blocked receive leaves what was stored alone if and only if the handle stands there already, whatever the number it goes to |
| NxFile.CloseExact | src/platform/nx/vfs_nx.c:491-512 | Closing a writer leaves exactly what was stored if and only if its calls turn out so: buffered, a set-size went through or the file has its length already, and behind the longest part written the file holds the buffer's bytes already; chunked, the shrink goes through or there is nothing to shrink |
| NxFile.CloseSpares | src/platform/nx/vfs_nx.c:491-512 | However the calls of a close turn out, what is in the file in front of the position stays |
| NxFile.LandedTwice | src/platform/nx/vfs_nx.c:491-512 | Two flushes of one buffer come to one: the size is set if either sets it, and the longer of the two written prefixes is in the file |
| NxFile.FlushAgain | src/platform/nx/vfs_nx.c:491-512 | The second flush of a close changes nothing once the first has landed, whether or not its own calls succeed |
| NxFile.ChunkedCloseExact | src/platform/nx/vfs_nx.c:504-506 | A chunked file is exact after its close if and only if the shrink succeeds or there is nothing to shrink |
| NxFile.CloseReader | src/platform/nx/vfs_nx.c:491-512 | A handle opened for reading never changes the file |
| NxFile.ChunkedRun | src/platform/nx/vfs_nx.c:466-478 | After any run of writes with any faults the chunked build stores exactly the chunks whose write reported success, in order |
| NxFile.FaultFreeRun | src/platform/nx/vfs_nx.c:438-480 | Without faults both builds accept every chunk of at most the growth step and store all of them in order |
| NxFile.BuildsAgree | src/platform/nx/vfs_nx.c:383-512 | Open, any writes, close without faults: the two builds leave the same file, the initial contents followed by the chunks |
| NxFile.ReadCount | src/platform/nx/vfs_nx.c:427-436 | A read returns at least one byte and at most what is asked for and left, and 0 only at the end |
| NxHandle.FtpVfsFile.Open | src/platform/nx/vfs_nx.c:383-425 | The handle updated in place, whatever it was used for before, ends on success and on every failure in the state of the specified open |
| NxHandle.FtpVfsFile.FlushBufferedWrite | src/platform/nx/vfs_nx.c:344-350 | Set size, then write, on the real buffer: same file, same outcome as the specified flush |
| NxHandle.FtpVfsFile.WriteBuffered | src/platform/nx/vfs_nx.c:441-464 | The copy-and-flush loop over the array buffer terminates, also when a full buffer gives a copy of no bytes, and equals the specified write |
| NxHandle.FtpVfsFile.WriteChunked | src/platform/nx/vfs_nx.c:466-478 | Growing by at most one chunk and writing equals the specified write |
| NxHandle.FtpVfsFile.Read | src/platform/nx/vfs_nx.c:427-436 | The bytes placed in the destination are the file's at the position, which moves past them |
| NxHandle.FtpVfsFile.Seek | src/platform/nx/vfs_nx.c:482-485 | The position is set and nothing else, the bytes waiting in the buffer included |
| NxHandle.FtpVfsFile.Close | src/platform/nx/vfs_nx.c:491-512 | Both flushes, or the shrink, in their order: same file as the specified close, and the handle is invalid |
| HostPort.PortUndoesPasv | src/ftpsrv.c:739-803 | For every IPv4 address and 16-bit port, PORT reads the text PASV prints as that same address and port (RFC 959, sections 4.1.2 and 5.3.2) |
| HostPort.ScanPrintedFields | src/ftpsrv.c:743-743 | Printed numbers separated by commas are read back in order, none of them running into the next |
| HostPort.PortNumbers | src/ftpsrv.c:743-757 | Six numbers of up to three digits: the first four are the host if each is a byte, and otherwise the old host stays; the others are the bytes of the port, cut to 16 bits |
| HostPort.TooFewNumbers | src/ftpsrv.c:743-747 | Fewer numbers are no address |
| HostPort.TextForm | src/ftpsrv.c:782-793 | The text of a 227 is made of the bytes of the host and then those of the port, the more significant first |
| HostPort.FieldsForm | src/ftpsrv.c:782-793 | Numbers are printed with single commas between them |
| HostPort.PrintDigits | src/ftpsrv.c:782-793 | Each in decimal digits |
| HostPort.PickClosedForm | src/ftpsrv.c:234-239 | The k-th port picked is 49152 plus k modulo 16384 |
| HostPort.PicksDistinct | src/ftpsrv.c:234-239 | Any 16384 consecutive picks are distinct, and all lie in the dynamic range |
| Records.PortsArePicks | src/ftpsrv.c:234-239 | Over every run, on whatever slots: the ports listened on are the picks of the counter, each once, in order |
| CText.FindCrlf | src/ftpsrv.c:1389-1395 | The first CRLF of a text, or its end when there is none |
| CText.ScanLineLocal | src/ftpsrv.c:1328-1375 | Scanning an argument never looks beyond the end of its line |
| Loop.SplitExact | src/ftpsrv.c:1377-1402 | Lines and remainder give back the received text, a line has its only CRLF at its end, the remainder has none |
| Loop.ServeTextIsRun | src/ftpsrv.c:1377-1402 | Serving a received text is the run of one command event for each of its lines, on that slot alone |
| Polls.ReceivedExact | src/ftpsrv.c:1377-1388 | What has come in is taken up to its first NUL, and no more of it than 65535 bytes |
| Polls.SlotDealtWith | src/ftpsrv.c:1494-1511 | In every pass, for every slot active at the poll, by what poll reported: one whose client is gone is blank and hung up; otherwise its lines grow by exactly those of the text that came in, busy or not, and the engine is called if and only if poll said so, a transfer ran at the poll, and one runs after the lines |
| Addresses.FreeSlot | src/ftpsrv.c:1485-1511 | In every pass, for every slot free at the poll: the first of them takes a waiting connection, and nothing happens to the others |
| Addresses.BrokenPass | src/ftpsrv.c:1479-1484 | A failed poll or a broken server socket ends the pass before anything is done |
| Addresses.Welcomed | src/ftpsrv.c:1289-1315 | An accepted connection makes a new session, with the root as its directory, not logged in, and the local address that getsockname gave; it is greeted with a 220, and nothing else happens |
| Addresses.HostKept | src/ftpsrv.c:1304-1306 | Over every run a session keeps the local address of the connection last accepted on its slot |
| Addresses.EveryAnnouncement | src/ftpsrv.c:764-803 | Over every run, PORT reads each 227 that a slot has sent as the local address of the connection it had accepted, and the port of the listener opened before it |
| Receives.DividedLines | src/ftpsrv.c:1377-1402 | A text divided in two has the lines of its parts if and only if the division is at the end of a line, or the line it divides is not completed by the second part |
| Receives.TwoReceives | src/ftpsrv.c:1377-1402 | The lines a session reads from two receives are those of the text as it was sent under exactly that condition |
| Receives.DividedNoop | src/ftpsrv.c:1377-1402 | NOOP that arrives as NO and OP is answered with a 500 |
| Receives.WholeNoop | src/ftpsrv.c:1377-1402 | In one piece it is answered with a 200 |
| Readiness.DataTurn | src/ftpsrv.c:1494-1511 | A session that was busy at the poll has its control lines served first.  The transfer runs on through them if and only if none is an ABOR without argument, and then the session is as it was; what poll said is about another transfer than the one that runs afterwards if and only if there is such a line and a transfer does run, and then a line behind it has the verb of a transfer |
| Readiness.SlotTurn | src/ftpsrv.c:1494-1511 | In the turn of a slot that is ready on both sockets the engine is called exactly if a transfer runs after the lines, and on an outdated answer exactly if one of them has called the old transfer off as well |
| Readiness.OutdatedCall | src/ftpsrv.c:1494-1511 | ABOR, PASV and RETR in one text on a busy slot leave a download that poll was not asked about, and the engine is called for it |
| Session.VerbInsideLine | src/ftpsrv.c:1328-1375 | The name of the command lies inside its line, so the length of the rest never goes negative |
| Commands.LookupFirst | src/ftpsrv.c:1336-1343 | The verb of a line is the first of the command table that the line begins with, and there is none exactly if no name matches |
| CommandLines.VerbDecided | src/ftpsrv.c:1244-1287 | The table is unambiguous: the search gives a command if and only if the line begins with its name in whatever case, so the order of the entries does not matter |
| CommandLines.PrefixFree | src/ftpsrv.c:1244-1287 | No name of a command begins another, in whatever case |
| CommandLines.SpokenStep | src/ftpsrv.c:1328-1375 | A line of a name, a space and an argument that passes the gates is the execution of that command on that argument |
| CommandLines.SpokenThen | src/ftpsrv.c:1328-1375 | With more text behind that line it is the same, but the handler sees what follows as well |
| Answers.Refusals | src/ftpsrv.c:1346-1370 | Before the login, every command but USER, PASS, ACCT, REIN, QUIT, ABOR, SYST, HELP, NOOP and FEAT gets a 530; while a transfer runs every one but ABOR gets a 501; an argument too many or missing gets a 501; a refusal changes nothing |
| Answers.Unknown | src/ftpsrv.c:1328-1345 | A line that begins with no command's name, in whatever case, gets a 500 and changes nothing |
| Answers.PlainAnswers | src/ftpsrv.c:673-1219 | QUIT, SYST, HELP, FEAT, NOOP, ALLO, ACCT, SMNT, REIN, SITE and STAT only answer, each with its code |
| Answers.CodeAnswers | src/ftpsrv.c:806-851 | TYPE A and I, STRU F and MODE S get a 200, and everything else a 504 |
| Answers.UserAnswers | src/ftpsrv.c:634-653 | USER: the one right name gets in or is asked for its password, any other gets a 530 and changes nothing |
| Answers.PassAnswers | src/ftpsrv.c:656-670 | PASS: a 503 without the name before it, a 530 for a wrong password, and a 230 and the login for the right one |
| Answers.CwdAnswers | src/ftpsrv.c:678-712 | CWD with any argument: the new directory is where the components lead, if that has room and is the root or a directory, and otherwise a 550 changes nothing |
| Answers.CdupAnswers | src/ftpsrv.c:715-721 | CDUP is refused in the root, and otherwise goes one component up, if that is the root or a directory |
| Answers.PwdAnswers | src/ftpsrv.c:1093-1095 | PWD gets a 257 with the first 4088 characters of the directory |
| Answers.TreeAnswers | src/ftpsrv.c:1037-1091 | DELE, RMD and MKD with any argument ask the file system for exactly their change, at the place where the components lead, and answer what it says |
| Answers.SizeAnswers | src/ftpsrv.c:1221-1242 | SIZE: a 501 for a name that has no room, a 550 for what is missing, and a 213 otherwise |
| Answers.RnfrAnswers | src/ftpsrv.c:975-989 | RNFR remembers where the components lead, cut off with a 550 if that has no room |
| Answers.RntoAnswers | src/ftpsrv.c:992-1018 | RNTO asks for the rename of the remembered path, with a 250, 553 or 503, and forgets it in any case |
| Answers.RestAnswers | src/ftpsrv.c:962-972 | REST takes every number up to 2147483647 as the restart marker |
| Answers.RestRefuses | src/ftpsrv.c:962-972 | A negative number, or none, gets a 501 and changes nothing |
| Session.SendCount | src/ftpsrv.c:503-515 | A send of k > 0 bytes that goes through takes between 1 and k of them |
| Conduct.LineLocal | src/ftpsrv.c:1328-1375 | The verb of a line and its argument, read as text, are the same with and without what follows the line in the buffer; numbers are another matter |
| Conduct.ArgLocal | src/ftpsrv.c:1356-1370 | An argument is cut at the end of its own line; what follows in the buffer never becomes part of a name or path |
| HostPort.IntLocal | src/ftpsrv.c:964-964 | The number of REST is read from its own line, whatever follows, if and only if there is more than white space in it; otherwise a number in the next line is taken |
| HostPort.PortLocal | src/ftpsrv.c:743-743 | The address of PORT is read from its own line, whatever follows, if and only if the reading does not come to the end of the line where a number should begin |
| Limits.RestLocal | src/ftpsrv.c:962-972 | What a REST does depends on its own line alone if and only if there is more than white space behind its name |
| Limits.RestReadsOn | src/ftpsrv.c:962-972 | The line `REST ` changes nothing by itself, and sets a marker of 7 when a line `7` follows it in the buffer |
| Limits.PortLocal | src/ftpsrv.c:739-761 | What a PORT does depends on its own line alone if and only if the line does not end where a number should begin |
| Conduct.StepGood | src/ftpsrv.c:1289-1402 | Every event with every answer of the environment keeps the session invariant: descriptors distinct and open, listener if and only if passive, handles as the mode says, directory canonical, dialogue and login as its automata say |
| Conduct.DispatchGood | src/ftpsrv.c:1328-1375 | Through all gates and every handler a line gets exactly one immediate answer, a 150 is followed by its completion or its refusal, and afterwards a completion is owed exactly if a transfer runs |
| Conduct.RetrGood | src/ftpsrv.c:854-900 | On every path through RETR, failed opens, seeks and connections included, what was opened is closed or belongs to the running transfer |
| Starts.RetrAnswers | src/ftpsrv.c:854-900 | RETR with any argument starts if and only if the place where the components lead has room and a file that can be opened, measured and put to the marker, and a connection was announced and can be had; otherwise a 501, a 550, or a 425 behind its 150 refuses it, and no file changes |
| Conduct.StorGood | src/ftpsrv.c:903-936 | The same for STOR and APPE |
| Starts.StorAnswers | src/ftpsrv.c:903-954 | The same for STOR and APPE, with a 551; refused with a 425 a STOR has emptied its file already |
| Conduct.ListGood | src/ftpsrv.c:1098-1174 | The same for LIST and NLST, for devices, directories and single files |
| Starts.ListAnswers | src/ftpsrv.c:1098-1184 | LIST and NLST with any argument: none, -a and -la mean the working directory; any other is refused with a 501 if and only if the place where its components lead has no room; exactly that place is opened and listed, the devices stand in for the root, and a single file is listed by LIST alone |
| Listings.ListingShown | src/ftpsrv.c:492-572 | A client that asks for a listing with any argument and reads to the 226 gets exactly that: no entry for the directory or its parent, names for NLST and long lines for LIST, in the order of the directory |
| Conduct.PasvGood | src/ftpsrv.c:764-803 | Repeated PASV, bind and listen failures included, leaves exactly the one listener of passive mode or none |
| Conduct.PortGood | src/ftpsrv.c:739-761 | PORT after PASV closes the listener; the line is answered once |
| Starts.PortAnswers | src/ftpsrv.c:739-761 | PORT clears away what was announced and left over before, and then takes an address that can be read with a 200, and refuses any other with a 501 |
| Starts.PasvAnswers | src/ftpsrv.c:764-803 | PASV clears away the same, and then listens on the next port and announces it with a 227, if and only if socket, bind and listen work |
| Conduct.AborGood | src/ftpsrv.c:1021-1034 | ABOR keeps the invariant: every handle and socket of the transfer is closed, and no completion is owed afterwards |
| Starts.AborAnswers | src/ftpsrv.c:1021-1034 | After ABOR nothing is announced, open or running; it gets 426 and 226, 226 alone, or 225 |
| Dialogues.AbortSpoken | src/ftpsrv.c:1021-1034 | The line ABOR is answered with 426 and then 226 if a transfer runs, with 226 alone if no connection was announced, and with 225 otherwise; no transfer runs afterwards |
| Conduct.ProgressGood | src/ftpsrv.c:574-631 | A step of any transfer keeps the invariant and completes at most once |
| Conduct.ListStepGood | src/ftpsrv.c:492-572 | The listing loop terminates and keeps the invariant for every pattern of sends and entries |
| Conduct.DisconnectGood | src/ftpsrv.c:1317-1325 | Closing a session in any state closes every handle and socket it holds |
| Frames.BusyGate | src/ftpsrv.c:1352-1355 | While a transfer runs a line other than ABOR is refused with one reply and changes no field of the session and nothing in the world |
| Frames.StepFrame | src/ftpsrv.c:1440-1515 | No event closes a descriptor of another session or makes one its own |
| Transfers.RetrOwes | src/ftpsrv.c:854-900 | A RETR that gets its connection owes the file from the restart marker on, and the marker is used up |
| Transfers.RetrDelivers | src/ftpsrv.c:574-620 | One RETR step through the shared buffer, with any short or blocked send: sent plus owed stays the same and the file stands at the offset sent so far; 226 means all, 426 a prefix |
| Transfers.ListDelivers | src/ftpsrv.c:492-572 | One call of the listing engine: bytes sent, pending and yet to be rendered add up, entry by entry in order; 226 means all |
| Transfers.ProgressDelivers | src/ftpsrv.c:622-631 | Every step of every download delivers in that sense |
| Engine.RetrCall | src/ftpsrv.c:574-620 | One call for a RETR reads at most 65536 bytes and sends as many of them as the client takes.  A send that would block leaves session, file and log exactly as they were; a 426 comes if and only if the read or the send fails, and the last byte brings the 226; then everything but the control connection is closed |
| Engine.ListingCall | src/ftpsrv.c:492-572 | One call for a listing sends the texts of its lines one after the other until a send blocks or is short: a 426 if and only if a send fails, a 226 if and only if the last text is out; a client that takes nothing is waited for and owed as much as before |
| Engine.TextsOwed | src/ftpsrv.c:492-572 | Those texts together are what the listing owes |
| Engine.StorCall | src/ftpsrv.c:595-619 | One call for a STOR takes at most 65536 bytes and stores them; it ends the upload if and only if the receive failed, the stream has ended, or the back end has refused the bytes: with a 426, a 226, a 426 |
| Transfers.ListOwes | src/ftpsrv.c:1098-1174 | A listing of a directory or of the devices owes what an earlier transfer left pending and then its lines, the first from the left-over offset on; that is the listing if and only if nothing is pending and the offset does no harm |
| Transfers.ListFileOwes | src/ftpsrv.c:1154-1167 | The listing of one file owes its line if and only if a left-over offset does no harm to it |
| Transfers.StreamExact | src/ftpsrv.c:492-572 | When a left-over offset does no harm: it is 0, or no line is rendered, or it lies behind the first rendered line and the buffer happens to hold that line's bytes there |
| Transfers.FailedRetrLeavesSize | src/ftpsrv.c:875-889 | A RETR that fails once the file is open leaves its size, and the offset, behind in an idle session |
| Transfers.PrintedExact | src/ftpsrv.c:396-402 | A rendered line is sent unchanged if and only if it is shorter than the line buffer |
| Transfers.StorStarts | src/ftpsrv.c:903-936 | An upload that gets its connection starts from nothing, or from the old contents when appending |
| Transfers.ChunkStored | src/ftpsrv.c:595-619 | A chunk that arrives and is written is stored behind all earlier ones, in both builds |
| Transfers.UploadCompletes | src/ftpsrv.c:602-619 | The end of the stream gives a 226, and the file then holds exactly what was stored if and only if the calls of the close turn out well; no other file changes |
| Transfers.BlockedUpload | src/ftpsrv.c:602-606 | A receive that would block keeps what was stored, and then the whole session, if and only if the handle stands at the transfer's offset |
| Transfers.FinishFiles | src/ftpsrv.c:469-490 | The end of a transfer writes to no file but the one its handle has open |
| Transfers.TransferEndIdle | src/ftpsrv.c:469-490 | Whatever state a transfer was in, its end leaves the session idle |
| Server.BootGood | src/ftpsrv.c:1404-1437 | The freshly started server satisfies the invariant of the whole table |
| Server.AtGood | src/ftpsrv.c:1440-1515 | Every event on any slot keeps it: each slot in order, no descriptor held twice, the count right |
| Server.RunGood | src/ftpsrv.c:1440-1515 | So does every run |
| Server.ReachableConduct | src/ftpsrv.c:634-670 | In every reachable state, by each slot's own log: no handle opened or closed twice or left behind, open listeners exactly that of passive mode, every line answered and a 150 owed a completion exactly while a transfer runs (RFC 959, section 5.4), nothing opened before login, and logged in only after the right name and password |
| Server.ReachableDirectory | src/ftpsrv.c:678-721 | In every reachable state the working directory of an active session is absolute, canonical and fits its buffer, and a free slot is all zero |
| Server.ReachableTable | src/ftpsrv.c:1289-1325 | In every reachable state the session count is the number of active slots and at most 128, and no descriptor has two owners |
| Server.Isolation | src/ftpsrv.c:1494-1511 | No event on one slot changes a field or the log of another, or closes one of its sockets |
| Server.ExitLeavesNothing | src/ftpsrv.c:1599-1612 | After the exit no session is left, every handle and listener has been closed by its own log, and the count is 0 |
| Sockets.StepForeign | src/ftpsrv.c:426-490 | Conservation of descriptors: for every event and every answer, what is open without being the session's stays exactly as it was, plus the socket of a refused active connection if a transfer command replaces it |
| Sockets.DialsForeign | src/ftpsrv.c:439-467 | Opening a data connection loses exactly that lingering socket, and only if it is replaced |
| Sockets.AtAccounted | src/ftpsrv.c:1440-1515 | An event on one slot keeps the account of the whole server: each open descriptor is held by a session or set apart, never both |
| Sockets.ReachableSockets | src/ftpsrv.c:1440-1515 | In every reachable state the open descriptors are the server's socket, those the sessions hold, and those overwritten on the way, and nothing else |
| Sockets.ExitClosesSockets | src/ftpsrv.c:1599-1612 | After any run and the exit nothing is open but the descriptors overwritten on the way, and the server's own socket is not among them |
| Deliveries.DownloadExact | src/ftpsrv.c:574-631 | Over any run of the whole server, other sessions using the shared buffer included, a download has sent exactly what it owed less what it still owes; 226 means all of it, 426 a prefix |
| Deliveries.UploadExact | src/ftpsrv.c:574-631 | Over any such run in which no receive blocks harmfully: while an upload is on, what arrived is stored in order; when it is over the last reply is a 226 or a 426, and the file holds what it started from and all that arrived, less the chunk that was refused (all of it in the chunked build, all but a prefix in the buffered one), if and only if the calls of the close turn out well |
| Endings.UploadOver | src/ftpsrv.c:469-490 | The same by whatever event an upload ends, a hang-up and an ABOR in the middle included, with the replies the client gets for it: 226, 426, 426 and 226, or none |
| Endings.DownloadOver | src/ftpsrv.c:469-490 | By whatever event a download ends, the bytes sent are a prefix of those owed, with the same replies, and all of them if it was the 226 of the engine |
| Deliveries.StorCommand | src/ftpsrv.c:903-954 | A line after which a session is uploading was a STOR or an APPE, and the upload starts from nothing, or from the old contents for APPE and after a bad one |
| Deliveries.RetrCommand | src/ftpsrv.c:854-900 | A line after which a session is downloading was a RETR, and it owes the file from the restart marker on |
| Deliveries.StartsItsOwn | src/ftpsrv.c:854-1184 | Of all commands only RETR, STOR, APPE, LIST and NLST start a transfer, each of its own kind |
| Deliveries.UploadedFile | src/ftpsrv.c:903-954 | After the 226 of an upload the file is the initial contents (none for STOR) followed by all bytes received, if and only if the calls of the close turned out well |
| Deliveries.DownloadedFile | src/ftpsrv.c:854-900 | After the 226 of a download the client has been sent exactly what the command owed |
| Deliveries.RoundTrip | src/ftpsrv.c:854-936 | STOR or APPE to its 226 and a close that turns out well, anything that leaves the file alone, RETR of the same path to its 226, on any two slots: the bytes sent are the old contents if the upload appended, then the bytes received, from the restart marker on, in both builds |
| Completion.ProgressAdvances | src/ftpsrv.c:492-631 | One call of either download engine whose calls do not fail: no more bytes are owed afterwards, and strictly fewer if the client takes at least one, or it is over with a 226 |
| Completion.DownloadEnds | src/ftpsrv.c:492-631 | Every download ends: over any run of the whole server, with sends that block as often as they like, it is over with a 226 after at most one call with something taken per byte owed, and one more |
| Completion.DownloadRuns | src/ftpsrv.c:492-631 | Such a run exists from every state with a download in order |
| Completion.StorStartsUpload | src/ftpsrv.c:903-936 | STOR of a path that resolves starts an upload whenever a connection was announced and can be had and the device works |
| Completion.RetrStartsDownload | src/ftpsrv.c:854-900 | RETR of a file that is there starts a download under the same conditions |
| Completion.UploadStartsSturdy | src/ftpsrv.c:903-954 | Whatever control line starts an upload, its handle is one that accepts every further chunk |
| Completion.UploadThrives | src/ftpsrv.c:595-619 | No upload is refused by a device that works: over any run of the whole server it goes on until the client closes, and is then answered with a 226 |
| Completion.UploadRuns | src/ftpsrv.c:595-619 | Any list of chunks can be sent to the end: a peaceful run exists with one 226, after which the file is what was there followed by all of them |
| Completion.RoundTripRuns | src/ftpsrv.c:854-936 | Any chunks sent by an upload come back byte for byte, behind what the upload started from and from the restart marker on, in a run that exists and ends with a 226 |
| Walkthrough.LogIn | src/ftpsrv.c:634-670 | Anyone whom the configuration lets in can get in on any free slot, with the replies 220, 331, 230 (or 220, 230) |
| Walkthrough.Uploads | src/ftpsrv.c:903-936 | Any client that has logged in can store any chunks under any name that resolves, with the replies 227, 150, 226, and is left logged in |
| Walkthrough.Downloads | src/ftpsrv.c:854-900 | Any client that has logged in can fetch any file that is there, whole, with the same replies |
| Walkthrough.ThereAndBack | src/ftpsrv.c:634-936 | From the start of the server, with any files: a run exists in which a client logs in, sends any chunks under any name, fetches the file, gets exactly these bytes back, and hears exactly these replies and no others |
| Loop.AcceptedUnserved | src/ftpsrv.c:1485-1511 | A new connection takes the first free slot, and is not served in the same pass on stale poll results: it has been greeted and nothing more |
| Loop.FullTableWaits | src/ftpsrv.c:1485-1492 | With every slot taken a pending connection is left waiting and no session is overwritten |
| Loop.TurnUnchanged | src/ftpsrv.c:1494-1511 | A slot that was active at the poll is served in the state it had then, whatever was served before it |
| Loop.AcceptKeeps | src/ftpsrv.c:1485-1492 | Accepting a connection touches no slot in use |
| Loop.PassesGood | src/ftpsrv.c:1440-1515 | Any number of passes of the loop keeps the invariant of the whole table |
| FtpServer.Ftp.constructor | src/ftpsrv.c:1404-1437 | The global state after initialisation shows the freshly started server |
| FtpServer.Ftp.Pass | src/ftpsrv.c:1440-1515 | One pass over the mutable table shows the run of the pass's events; it asks for a restart exactly on a failed poll or a broken server socket |
| FtpServer.Ftp.FillFds | src/ftpsrv.c:1448-1477 | Each slot's two entries of the poll array, at their own indexes, are its control socket if it is active and its data socket if it is busy, and -1 otherwise |
| FtpServer.Ftp.Accept | src/ftpsrv.c:1485-1492 | The search for a free slot and the accept show the accept events of the pass |
| FtpServer.Ftp.Serve | src/ftpsrv.c:1494-1511 | The service loop shows the serve events of the pass, in slot order, control connection before data connection |
| FtpServer.Ftp.Turn | src/ftpsrv.c:1494-1511 | One turn of that loop, judged by the poll array filled before any slot was served, shows the events of that slot |
| FtpServer.Ftp.SessionPoll | src/ftpsrv.c:1377-1402 | Receiving into the shared buffer and the splitting loop show the service of the received text, although handlers change the world between lines |
| FtpServer.Ftp.RecvControl | src/ftpsrv.c:1378-1380 | After clearing and receiving, the buffer's text is what was received, cut at the buffer's size and the first NUL |
| FtpServer.Ftp.ProgressLine | src/ftpsrv.c:1328-1375 | The gates and the handler in place do to session and world what the specified line step does |
| FtpServer.Ftp.FindCommand | src/ftpsrv.c:1336-1343 | The search loop finds the first entry of the table that matches |
| FtpServer.Ftp.RetrProgress | src/ftpsrv.c:574-620 | Reading into the shared buffer, sending from it and seeking back equals the specified step, whatever the buffer held before |
| FtpServer.Ftp.StorProgress | src/ftpsrv.c:595-619 | Receiving into the shared buffer and writing from it equals the specified step |
| FtpServer.Ftp.DirProgress | src/ftpsrv.c:492-572 | The listing loop with its pending line equals the specified step |
| FtpServer.Ftp.DataOpen | src/ftpsrv.c:439-467 | In place: 150, then a socket of the connection's kind or the specified failure |
| FtpServer.Ftp.TransferEnd | src/ftpsrv.c:469-490 | In place: sockets, handles and marks end as specified |
| FtpServer.Ftp.CmdRetr | src/ftpsrv.c:854-900 | In place, on every path, the specified RETR |
| FtpServer.Ftp.CmdStor | src/ftpsrv.c:903-936 | In place, on every path, the specified STOR |
| FtpServer.Ftp.CmdList | src/ftpsrv.c:1098-1174 | In place, on every path, the specified LIST and NLST |
| FtpServer.Ftp.CmdPasv | src/ftpsrv.c:764-803 | In place, on every path, the specified PASV |
| FtpServer.Ftp.CmdPort | src/ftpsrv.c:739-761 | In place, on every path, the specified PORT |
| FtpServer.Ftp.CmdAbor | src/ftpsrv.c:1021-1034 | In place, the specified ABOR |
| FtpServer.Ftp.BuildFullpath | src/ftpsrv.c:271-306 | The session's directory and the argument, resolved on a path buffer by the in-place clean-up, give the specified resolution |
| FtpServer.Ftp.SessionInit | src/ftpsrv.c:1289-1315 | An accepted connection gets a cleared slot, the root as its directory, and a greeting; the count goes up by one exactly then |
| FtpServer.Ftp.SessionClose | src/ftpsrv.c:1317-1325 | An active slot is closed and cleared and the count goes down by one; an inactive one is left alone |
| FtpServer.Ftp.Exit | src/ftpsrv.c:1599-1612 | The exit loop shows the run in which every slot hangs up, then the server's socket is closed, and the server is no longer initialised; without initialisation nothing happens |
| Devices.FindIsLookup | src/platform/nx/utils.c:22-31 | The linear prefix search is a lookup of the exact device name in a map, for all paths, if and only if every mounted name with a colon stands behind a slot that is named like the part before the colon |
| Devices.ColonCollides | src/platform/nx/utils.c:22-31 | With a device mounted as `aa:b` and after it one as `aa`, the path `aa:b` is found on the first and belongs to the second |
| Devices.NamesMeaning | src/platform/nx/utils.c:22-31 | A name is in that map if and only if a slot has it, and leads to the first that does |
| Devices.MountRefinesMap | src/platform/nx/utils.c:166-185 | Mounting refines a first-come map: a name taken stays with its first slot, and a full table refuses |
| Devices.DevicePathsAgree | src/ftpsrv.c:312-323 | For every canonical absolute path, translating it directly and after the leading slash has been stripped lead to the same device and path, the same error, or the same overflow |
| Devices.OverflowExact | src/platform/nx/utils.c:107-128 | The unchecked copy of a canonical absolute path runs past its buffer if and only if the path has a colon and more than 769 characters |
| Devices.DoubledSlashDisagrees | src/ftpsrv.c:312-323 | For a path that is not canonical the two ways part |
| Devices.ShortcutComponents | src/platform/nx/utils.c:146-161 | With a shortcut the components of the result are those of the shortcut followed by those of the remainder, when it fits |
| Devices.PlainPathOnSdCard | src/platform/nx/utils.c:107-164 | A plain absolute path is too long from 764 characters on, and otherwise on the SD card if that is mounted, with its own components behind those of a shortcut; it never overflows |
| Devices.TranslateExact | src/platform/nx/utils.c:107-164 | The whole translation of a canonical absolute path that fits, with a device in it or without: the slot that owns the name, or none, and the text behind the colon with the shortcut in front |
| Devices.DeviceTable.FindEntry | src/platform/nx/utils.c:22-31 | The search loop over the array finds the first matching slot |
| Devices.DeviceTable.MountDevice | src/platform/nx/utils.c:166-185 | In place, the specified mount: one slot changes or none |
| Devices.DeviceTable.TranslatePath | src/platform/nx/utils.c:107-164 | The translation on the array of slots equals the specified one, for paths of any length |
| Limits.SettledKept | src/ftpsrv.c:854-1174 | Only a RETR, or a LIST of one file, that does not get its transfer going can leave an offset or size behind |
| Limits.StaleListing | src/ftpsrv.c:875-889 | PORT, a RETR of a non-empty file whose connection is refused with a 425, LIST: a run exists in which the client is sent as many stray bytes as the file is long, then the listing, and a 226 |
| Limits.ListingExact | src/ftpsrv.c:492-572 | A listing of a directory or of the devices, over any run to its 226: the client has been sent what was left pending and the lines of all listed entries in order; that is the listing if and only if nothing was left pending and a left-over offset does no harm |
| Limits.LongLineCut | src/ftpsrv.c:326-405 | NLST of a directory whose one entry has a name of 1022 characters: a run exists in which the client gets the name, CR and a NUL instead of LF, and then a 226 |
| Limits.BlockedAppend | src/ftpsrv.c:602-606 | APPE to a file, a first receive that would block, and the client closes: the contents the file was opened with are forgotten, the replies are 150 and 226, and in the chunked build the file is empty |
| Limits.LeftoverStor | src/ftpsrv.c:602-606 | A RETR from a restart marker that is refused, then STOR and a receive that would block: as many zeros as the marker says stand in front of the upload |
| Limits.CloseCanLose | src/platform/nx/vfs_nx.c:491-512 | STOR, a chunk, and the client closes: the replies are 150 and 226, both flushes of the close fail, and the file is empty |
| Limits.DataSocketStrays | src/ftpsrv.c:439-467 | Opening a data connection loses a descriptor if and only if one is left from an active connection that was refused |
| Limits.SocketLost | src/ftpsrv.c:439-467 | PORT, a RETR whose connection is refused, LIST: the socket of the refused connection is open afterwards, held by no session, and among those the account calls overwritten |
| Walkthrough.SocketsGetLost | src/ftpsrv.c:439-467 | Such a run exists from the start of the server, whatever the name of a file there |
| Limits.BadAppend | src/ftpsrv.c:903-954 | The line `APPE ` is refused with a 501, and the STOR after it starts from the old contents of its file |
| Limits.LongDelete | src/ftpsrv.c:1037-1062 | DELE of a canonical path with a colon and more than 769 characters names to the device table a path that overflows its buffer |
| Limits.LongArgument | src/platform/nx/utils.c:107-128 | There are such paths, of every length up to that of a path argument |
| Limits.LongDirectory | src/ftpsrv.c:407-421 | CWD by a canonical path of more than 4088 characters and PWD: the 257 shows the first 4088 of them |
| Commands.LoginAdmits | src/ftpsrv.c:634-670 | The right name followed by the right password logs in |
| Commands.PassNeedsName | src/ftpsrv.c:656-670 | A password is taken only after the right name, and a wrong one changes nothing |
| Commands.CwdMeaning | src/ftpsrv.c:678-712 | CWD succeeds if and only if the path its components lead to fits and is the root or a directory; then that is the new directory, otherwise nothing changes |
| Commands.CwdThenCdup | src/ftpsrv.c:703-721 | CWD into one named directory and CDUP lead back when both succeed |
| Commands.PwdTells | src/ftpsrv.c:407-421 | PWD tells a prefix of the working directory and changes nothing; it tells all of it if and only if that has at most 4088 characters |
| Commands.RenamePair | src/ftpsrv.c:975-1018 | RNFR is answered with a 350 if and only if its path resolves, and a 550 otherwise; RNTO then renames the path RNFR came to, whole or cut off, if and only if its own path resolves and the file system agrees; the path is forgotten in any case |
| Commands.CutRename | src/ftpsrv.c:975-1018 | In the root, RNFR of a name of 4095 characters is refused with a 550, and the next RNTO renames the path that is left of it, with a 250 |
| Commands.RenameOnce | src/ftpsrv.c:992-1018 | A second RNTO is out of sequence |
| Commands.RntoInSequence | src/ftpsrv.c:992-1018 | RNTO is in sequence if and only if a path is remembered |
| Commands.RefusedListThenRename | src/ftpsrv.c:1104-1113 | A refused LIST leaves a path that the next RNTO takes as its source, without any RNFR |
| Commands.DeleteAndRenameAgree | src/ftpsrv.c:992-1057 | What DELE removes and what a rename calls by the same argument are one place on one device, or fail or overflow alike, although only DELE strips the slash |
| Commands.PasvAnnounces | src/ftpsrv.c:764-803 | A 227 announces the session's local address and the port that is listened on, in words PORT understands; that the address is the right one is `Addresses.EveryAnnouncement` |
| Commands.PortDialsAnnounced | src/ftpsrv.c:739-761 | A PORT with the text of a 227 makes the next active connection go to the announced address |
| Commands.AppendMarker | src/ftpsrv.c:951-954 | The append marker outlives its APPE if and only if the command had no path to act on |

## Where the code and expectation differ

The model follows the code.  For each of these there is the exact condition under which the
code does what one expects, and an input on which it does not:

- A transfer that fails before it starts can leave an offset and a size behind, and the next
  listing then sends bytes that are in no line (`Limits.ListingExact`, `Transfers.StreamExact`;
  `Limits.StaleListing`).  A size as large as the refused file is taken from a line buffer of
  1024 bytes, so for a longer file the send reads memory behind it.
- A blocked receive during an upload seeks without regard to the initial length, to the bytes
  still in the write buffer, or to an offset left over (`Transfers.BlockedUpload`;
  `Limits.BlockedAppend`, `Limits.LeftoverStor`).
- The 226 of an upload is sent before the file is closed, so a close that fails comes too late
  (`Transfers.UploadCompletes`, `NxFile.CloseExact`; `Limits.CloseCanLose`).
- A line of exactly 1024 rendered characters passes the size check and loses its last one
  (`Transfers.PrintedExact`; `Limits.LongLineCut`).
- A control line that arrives in two pieces is not put together: what is behind the last CRLF
  is overwritten by the next receive (`Receives.TwoReceives`; `Receives.DividedNoop`).
- A RNFR that is refused because its path is too long leaves the cut path to the next RNTO
  (`Commands.RenamePair`; `Commands.CutRename`).
- LIST writes the path that RNTO reads (`Commands.RntoInSequence`;
  `Commands.RefusedListThenRename`), and an APPE without a path leaves its marker
  (`Commands.AppendMarker`; `Limits.BadAppend`).
- After an active connection has been refused, its socket is overwritten by the next
  (`Limits.DataSocketStrays`; `Limits.SocketLost`, `Walkthrough.SocketsGetLost`); that is the
  only way a descriptor is ever lost (`Sockets.StepForeign`, `Sockets.ReachableSockets`).
- After an ABOR the engine can be called for a new transfer on what poll said about the socket
  of the old one (`Readiness.DataTurn`, `Readiness.SlotTurn`; `Readiness.OutdatedCall`).
- The numbers of REST and PORT are read across the end of their line if it ends where one should
  begin (`Limits.RestLocal`, `Limits.PortLocal`; `Limits.RestReadsOn`).
- A path that names a device is copied to a buffer of 769 bytes without a check
  (`Devices.OverflowExact`; `Limits.LongDelete`, `Limits.LongArgument`), and a device whose name
  has a colon can be found where another one should be (`Devices.FindIsLookup`;
  `Devices.ColonCollides`).
- A working directory of more than 4088 characters is cut in the reply to PWD
  (`Commands.PwdTells`; `Limits.LongDirectory`).

## What the environment is

Calls into the system are answered by the event that makes them; the answers are arbitrary
within these bounds:

- A descriptor is granted only if it is positive and not open; any other answer counts as a refusal.
- A send of k > 0 bytes fails, would block, or takes between 1 and k bytes.  A receive fails,
  would block, or gives bytes, and none mean the end of the stream.
- A read fails or gives at least one byte short of the end.  Every call of the device (create,
  open, size, write, shrink) may fail, and a write that fails may still have stored a prefix.
- `getsockname` returns the port that was bound.
- What DELE, RMD, MKD and RNTO do to the files of the tree is part of the answer.  That they were
  asked for, with which paths, is in the log.

## Left out

- Deliveries.UploadExact: assumes that no receive blocks unless the handle stands where the engine will put it, because a blocked receive otherwise damages the upload (`Transfers.BlockedUpload`), and that nobody else changes the file while it is written; an ABOR is the subject of `Endings.UploadOver`.
- Deliveries.DownloadExact: assumes that nobody else changes the file while it is read, and that the client does not abort (`Endings.DownloadOver` takes that up); no claim is made about a file that changes underneath.
- Deliveries.RoundTrip: the second path is required to be the same file after resolution; two spellings of one file are the subject of `Pathname.BuildFullpathMeaning` and `Devices.DevicePathsAgree`.
- Files are kept under the paths that reach the back end, before the device table translates them, so two spellings of one place on a device (`/a` and `sdmc:/a`) are two keys; what `ReadInPeace`, `WrittenInPeace` and `Deliveries.RoundTrip` say of a file is said of its key.
- HostPort.ScanInt: a REST value beyond what an int can hold counts as no number; the C conversion is undefined there.
- HostPort.ParsePort: a host that inet_aton rejects leaves the previous address in place, as the code does; inet_aton itself is reduced to four numbers of at most 255.
- Session.ListBytes: memory behind the line buffer reads as NUL; the source reads what is there when a left-over offset or size reaches behind the 1024 bytes.
- Session.Terminated: what is listed of the line buffer is what has been written to it since the slot was cleared; the rest is NUL.
- Devices.Translate: what a copy past its buffer does is not modelled beyond `Overflows`; `Commands` and `Session` name paths, not the outcome of their translation.
- The results of poll are three answers a slot (error, readable, ready); which of the masks are asked for, and that an upload is polled for reading and a download for writing, is not modelled.
- Session.CmdCode: only the replies of TYPE, STRU and MODE are modelled; the stored values are never read.
- Session.CmdSize: the number in the 213 reply is not modelled.
- FtpServer.Ftp.VfsOpen: a session holds its file handle as a value inside its transfer; the handle updated in place, with its array buffer, is the subject of `NxHandle` and is not aliased into the session.
- The select variant of the loop (src/ftpsrv.c:1517-1596): the same pass with another way of asking for readiness.
- The rendering of directory lines (permissions, dates, owners, symbolic link targets): a rendered line is a text with a length; only NLST lines and device lines are spelled out.
- Entries whose reading fails cannot be told from the end of the directory, in the model as in the code.
- The sendfile branch of RETR, socket options, logging, the LED, consoles, threads and the mains of the platforms.
- The unistd and stdio back ends: thin wrappers over system calls.
- libnx error codes, time stamps, directory iteration inside libnx; `fsdev_wrapUnmountAll`.
- The argument parser (src/args/args.c), the log file and the configuration file: independent of the server's state.
- Concurrency: the program has none; signals and process death in the middle of an event are not modelled.
- Bytes are characters: the program compares, copies and counts them, and does arithmetic only on decimal digits.
