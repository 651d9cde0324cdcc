# Shells, servers and proxies: a verified model

This project models the shell family, the HTTP server and the SOCKS proxy of the repository in Dafny,
and proves what they are for.

**Numbered pipes.** A command ending in a numbered pipe feeds the n-th later command, across lines, and
several writers may share one pipe. The shell keeps an unordered vector of relative countdowns, edited
in place. `PipeSchedule` gives the absolute schedule (command index to pipe) and shows the vector refines
it; `ShellSyntax`, `ShellModel`, `ShellDescriptors` and `ShellWiring` carry that through the words of a
line, the descriptor table (lowest free descriptor, `pipe`, `open`, `dup2`, `close`) and the forked
children; `Shell` is the code, statement by statement, proved against that model.

**The multi-user server.** One process multiplexes all clients through one shell object: an id table, a
client table, watched descriptors, numbered pipes, user pipes and settings per client. `ServerModel` has
the steps (login, line, leaving), `ServerInvariant` and `ServerLeaving` the invariant of its tables.
`UserPipes` and `UserPipeHistory` show that the vectors are a partial map from (source, target) to pipes
and what its past must have been; `PipeOwnership` that a pipe is read once, by the login it was made for;
`ServerLines` reads back every line however it is written; `Handover` and `PipeFlow` show that a command is
handed the files and user pipes its words name, so that what one user sends is what the other reads;
`UserPipeChecks` which redirections of a command fail, `PipesAtRest` when a taken pipe is left behind by
that, and `HeldPipe` a run in which one is; `ServerWiring` that each login's numbered pipes follow
the schedule of its own commands; `ServerEnvironment` that one process environment serves as one for each
client. `ServerRuns`, `NonInterference` and `ServedAlone` state this for whole runs. A login number tells
apart the clients that have had one id; a pipe is its place in the list of pipes made. `Server` is the code.

**The multi-process server's FIFO table.** `FifoCells` takes each function and the signal handler as one
step of any schedule; each process also remembers a check it has made and not yet acted on, and the source
whose pipe its command is reading. `FifoDelivery` follows one pipe through any schedule, from its making to
the descriptor its reader is handed.

**The HTTP request parser.** `HttpSyntax` is the grammar of the code itself, `HttpProgress` and
`HttpLanguage` the positions in it and the reading of a text, `HttpParser` the state machine. The grammar
resembles sections 2.2, 3.1, 4.2 and 5.1 of RFC 1945 with the code's own choices: exactly one space after
a header's colon, blanks before a folded part dropped, an empty URI allowed, characters above 127 allowed
in URIs and values.

**Codecs and relay.** `Escape` is the HTML escaping of the console, `Socks` the CONNECT request of the
SOCKS 4 protocol memo between console and proxy, `Relay` the proxy's two directions.

Where the code does not do what it is meant to, the exact condition is proved: number zero
(`PipeSchedule.WiredIffNoZero`), end of file (`ServerLeaving.EndOfFileKeepsIff`), a pipe taken before a
refusal (`PipesAtRest.LineRestsIff`, `ServerRuns.ClosedAgainIff`), leading zeros of a version
(`HttpSyntax.ProtocolEchoesVersion`), and the check before `mkfifo` (`FifoCells.CreateFailsIff`,
`FifoCells.CreatedTwiceFromTheStart`, `FifoDelivery.CreatedWhileRead`).

What the code demands of its input, and does not check, is a precondition (`Safe`, `SafeLine`): pipe words
of at most five characters and user words of at most three, which fit the buffers; user numbers from 1 to
30, which are slots of the table; a file name after a redirection sign; and the arguments that the built-in
commands take. `SafeLine` looks at the whole line, also at words after a command that is refused.

Characters stand for bytes; those above 127 are the negative ones of a signed `char`, which no test of the
parser tells apart from one another.

## Model

| member | source | states |
|---|---|---|
| `PipeSchedule.CountdownRefinesSchedule` | 0750730_np_project1/shell.h:403-474 | the vector of relative countdowns, edited command by command, wires every command as the absolute schedule (command index to pipe) does, and stands for that schedule after any number of commands |
| `PipeSchedule.PlanIsSound` | 0750730_np_project1/shell.h:403-474 | without pipe number zero, the schedule gives command j the pipe that exactly the commands i with i + n = j write, and two writers one pipe exactly when they name one reader that has not run in between |
| `PipeSchedule.ZeroReadsItself` | 0750730_np_project1/shell.h:167-196 | a command that names pipe number zero is handed the pipe it writes as its input |
| `PipeSchedule.WiredIffNoZero` | 0750730_np_project1/shell.h:290-301 | the vector meets the promised wiring exactly when no pipe number is zero |
| `PipeSchedule.PendingBound` | 0750730_np_project1/shell.h:403-460 | between commands the counts are distinct and below the largest number used, so the vector is never longer than that number |
| `ShellSyntax.WordsOfSpaced` | 0750730_np_project1/shell.h:120-126 | splitting words written with any white space around them gives the words back |
| `ShellSyntax.ArgumentIs` | 0750730_np_project1/shell.h:167-289 | a word after the program is an argument exactly if it has no pipe sign and no exclamation mark and is none of the three redirections |
| `ShellSyntax.PipeWord` | 0750730_np_project1/shell.h:170-185 | a printed number after a pipe sign is one spelling of a numbered sink |
| `ShellSyntax.SignIsRead` | 0750730_np_project1/shell.h:170-215 | every spelling of a numbered sink, a numeral with or without leading zeros or the sign alone for one, fits the five-character buffer and is decoded to its number |
| `ShellSyntax.ParseOfRender` | 0750730_np_project1/shell.h:139-303 | any list of well-formed commands, written as words with any spelling of their sinks, is parsed back to the same list: arguments, sinks, numbers, file names, and the line ending only with the last command |
| `ShellSyntax.CommandLineRoundTrip` | 0750730_np_project1/shell.h:120-303 | the same for the written line, with any spelling and any spacing |
| `ShellSyntax.ParseConcat` | 0750730_np_project1/shell.h:139-303 | words after a line that ends with a sink are parsed on their own |
| `ShellDescriptors.CreatePipeKeeps` | 0750730_np_project1/shell.h:403-434 | opening a numbered pipe keeps every entry backed by two open ends of its own pipe, with counts and pipes distinct, and no other pipe descriptor open |
| `ShellDescriptors.DueIsClosedOnce` | 0750730_np_project1/shell.h:446-474 | with distinct counts one entry is due; closing it a second time after its write end was claimed closes exactly its two descriptors and no live one |
| `ShellDescriptors.ExecKeepsInv` | 0750730_np_project1/shell.h:290-301 | one command of any kind keeps the descriptor discipline |
| `ShellDescriptors.DescriptorsConserved` | 0750730_np_project1/shell.h:139-303 | over any run, while the shell is up, its open pipe descriptors are exactly those of the vector |
| `ShellWiring.ExecPromised` | 0750730_np_project1/shell.h:289-296 | each command is given the file of the pipe that is due, or the shell's input, and the file its sink names (pipe number zero gets a closed descriptor), whatever files or `open` failures are involved |
| `ShellWiring.ConnectedGives` | 0750730_np_project1/shell.h:476-490 | the child's 0, 1 and 2 are the intended files, including out and err being one descriptor, and nothing else of the table is disturbed |
| `ShellWiring.ExecConnects` | 0750730_np_project1/shell.h:346-350 | in the child of every command the input pipe's write end is open nowhere, so its reader can reach end of file |
| `ShellWiring.RanPrefix` | 0750730_np_project1/shell.h:332-336 | what a run executes is its commands up to the first `exit` |
| `ShellWiring.NumberedPipesFollowSchedule` | 0750730_np_project1/shell.h:139-303 | over any run of built-in, unknown and external commands, the files behind the descriptors follow the absolute schedule exactly when no executed command said pipe number zero |
| `ShellWiring.NumberFeeds` | 0750730_np_project1/shell.h:403-474 | a command ending in number n writes the pipe that the n-th command after it reads |
| `ShellWiring.LonePipeFeedsNext` | 0750730_np_project1/shell.h:173-176 | a command ending in a lone pipe sign feeds the next one |
| `ShellWiring.RunsAsWritten` | 0750730_np_project1/shell.h:139-303 | every command of a line, however it is spelled, runs with its words and the files it names, in the shell, in a child or ending the shell by its name, and is waited for exactly if it is the last and does not write to a pipe |
| `ShellWiring.PendingPipesBounded` | 0750730_np_project1/shell.h:403-460 | a running shell never holds more pipes than the largest number used so far |
| `ShellWiring.LineEndIsInvisible` | 0750730_np_project1/shell.h:367-377 | where a line ends makes no difference to a command that writes to a pipe |
| `ShellWiring.SplittingALine` | 0750730_np_project1/shell.h:139-303 | two word lists run as one line or as two give the same commands, wiring, waiting and pending pipes, if the first ends with a pipe |
| `Shell.ConnectPipeFd` | 0750730_np_project1/shell.h:476-490 | the sequence of `dup2` and `close` calls yields the child table specified above |
| `Shell.ReadWords` | 0750730_np_project1/shell.h:120-126 | the reading loop collects the words of the line |
| `Shell.Shell.DecodePipe` | 0750730_np_project1/shell.h:170-185 | the buffer loop decodes the number of a pipe word of at most five characters |
| `Shell.Shell.CreatePipe` | 0750730_np_project1/shell.h:403-434 | the search loop reuses the last pipe with this count or opens one on the lowest free descriptors |
| `Shell.Shell.CountdownPipeVector` | 0750730_np_project1/shell.h:436-444 | every count goes down by one, in place |
| `Shell.Shell.ErasePipeVector` | 0750730_np_project1/shell.h:446-460 | erasing while iterating leaves exactly the pending entries, in order, and closes the ends of all others |
| `Shell.Shell.GetPipeFd` | 0750730_np_project1/shell.h:462-474 | closes the write ends that are due and yields the last one's read end |
| `Shell.Shell.ExecCmd` | 0750730_np_project1/shell.h:311-378 | built-ins run in the shell, `exit` ends it, anything else gets a child with its own table, awaited only at a line's end without a pipe |
| `Shell.Shell.Execute` | 0750730_np_project1/shell.h:289-301 | running one command is one step of the specified run |
| `Shell.Shell.TakeSink` | 0750730_np_project1/shell.h:167-277 | the words of a sink open what they spell and are taken off the queue |
| `Shell.Shell.ReadWord` | 0750730_np_project1/shell.h:148-288 | one word moves the loop's flags on exactly as the grammar reads it |
| `Shell.Shell.ExecCmds` | 0750730_np_project1/shell.h:139-303 | the flag-driven loop executes exactly the commands the words spell, in order, and empties the queue |
| `HttpSyntax.ProtocolEchoesVersion` | 0750730_np_project3/http_server.cpp:301-305 | the rebuilt protocol string is the version text that was read exactly when neither number has leading zeros |
| `HttpSyntax.TokenChars` | 0750730_np_project3/http_server.cpp:191-211 | the characters of methods and header names are exactly the letters, the digits and fifteen marks |
| `HttpSyntax.Classes` | 0750730_np_project3/http_server.cpp:191-211 | a token is a non-empty text of those, a value a text of codes 32 to 126 or above 127, a URI the same without spaces |
| `HttpProgress.NextWrites` | 0750730_np_project3/http_server.cpp:217-380 | one character accepted extends the text the position stands for by exactly that character; the last one completes a rendered request |
| `HttpLanguage.ReadIsFaithful` | 0750730_np_project3/http_server.cpp:178-189 | what has been read at any position is exactly the characters taken, and what is left is untouched |
| `HttpLanguage.ReadConcat` | 0750730_np_project3/http_server.cpp:160-189 | reading a text in two parts is reading it whole |
| `HttpLanguage.ReadOfRender` | 0750730_np_project3/http_server.cpp:217-380 | every well-formed request, rendered, is accepted as itself, and exactly its characters are taken |
| `HttpLanguage.AcceptsExactlyTheLanguage` | 0750730_np_project3/http_server.cpp:178-380 | the parser says good exactly for texts that begin with a request of the grammar |
| `HttpLanguage.CompletionCompletes` | 0750730_np_project3/http_server.cpp:217-380 | every position short of the end has a continuation that is accepted |
| `HttpLanguage.RejectsExactlyTheHopeless` | 0750730_np_project3/http_server.cpp:178-380 | the parser says bad exactly when no continuation of what it has read is accepted |
| `HttpLanguage.GivesUpAtOnce` | 0750730_np_project3/http_server.cpp:178-189 | the parser says bad at the first character after which nothing can help: of a rejected text, a beginning is hopeless exactly if it is at least as long as what was taken |
| `HttpParser.HttpSession.ConsumeTarget` | 0750730_np_project3/http_server.cpp:221-245 | the method and URI states move as the grammar does and collect exactly those characters |
| `HttpParser.HttpSession.ConsumeProtocol` | 0750730_np_project3/http_server.cpp:246-277 | the five protocol characters are demanded in order |
| `HttpParser.HttpSession.ConsumeMajor` | 0750730_np_project3/http_server.cpp:278-293 | the major digits are collected as a number |
| `HttpParser.HttpSession.ConsumeMinor` | 0750730_np_project3/http_server.cpp:294-316 | the minor digits are collected as a number, and the protocol string is rebuilt |
| `HttpParser.HttpSession.ConsumeLineStart` | 0750730_np_project3/http_server.cpp:317-330 | a line starts a header, a folded continuation if there is a header, or the end |
| `HttpParser.HttpSession.ConsumeHeaderName` | 0750730_np_project3/http_server.cpp:343-357 | a header name is collected up to its colon, and one space is demanded |
| `HttpParser.HttpSession.ConsumeLws` | 0750730_np_project3/http_server.cpp:331-342 | leading blanks of a continuation are dropped, whatever their number |
| `HttpParser.HttpSession.ConsumeHeaderValue` | 0750730_np_project3/http_server.cpp:358-368 | a value is collected; at its end a header named Host sets the host |
| `HttpParser.HttpSession.ConsumeLineEnd` | 0750730_np_project3/http_server.cpp:369-376 | the two newline states |
| `HttpParser.HttpSession.Consume` | 0750730_np_project3/http_server.cpp:217-380 | in every state, one character moves the session as the grammar moves its position, and the request stays the meaning of what was read |
| `HttpParser.HttpSession.Parse` | 0750730_np_project3/http_server.cpp:178-189 | one read leaves the session where the grammar's reading ends, stops at the first good or bad, and says how much it took; at the start of a header line the request holds the headers of the text taken, and their last Host for host |
| `HttpParser.HttpSession.DoRead` | 0750730_np_project3/http_server.cpp:160-176 | reads are repeated while the result is indeterminate, and yield what one reading of all chunks yields; headers and host at a line start as for one read, of all chunks together |
| `HttpParser.ChunksDoNotMatter` | 0750730_np_project3/http_server.cpp:160-189 | any partition of the bytes into reads gives the result and request of the whole |
| `HttpParser.HttpSession.HostAtEachLine` | 0750730_np_project3/http_server.cpp:317-374 | read from the start, the session is at the start of a header line exactly if the text is a request line and complete header lines; its own request then has the headers of that text, folded parts included, and for host the value of the last one named Host |
| `HttpParser.RequestRoundTrip` | 0750730_np_project3/http_server.cpp:217-380 | a request written in the usual form, of characters given by their codes and with or without continuation lines, is parsed good with the same method, URI, version and protocol string, each header's lines run together, and the last Host as host, taking exactly its text |
| `Environment.JoinOfSplit` | 0750730_np_project2/np_single_proc.h:180-192 | splitting at a separator and joining with it gives the text back, and no part contains it |
| `Environment.SplitOfJoin` | 0750730_np_project2/np_single_proc.h:180-192 | joining parts without the separator and splitting gives the parts back |
| `Environment.SplitLoop` | 0750730_np_project2/np_single_proc.h:180-192 | the `find` and `substr` loop computes the split |
| `Environment.SetKeepsUnique` | 0750730_np_project2/np_single_proc.h:626-634 | `setenv` keeps a client's keys unique and loses no other setting |
| `Environment.SetIsPut` | 0750730_np_project2/np_single_proc.h:626-634 | setting a variable in a client's list is setting it in the environment the list builds, also for names that `setenv` refuses |
| `Environment.SetTakesIff` | 0750730_np_project2/np_single_proc.h:151-161 | a variable that has been set has its value exactly if its name is not empty and has no equals sign |
| `ServerInvariant.AcceptKeeps` | 0750730_np_project2/np_single_proc.cpp:55-93 | a login keeps: ids distinct and exactly the occupied slots, descriptors distinct and exactly the watched ones besides the listening socket, user pipes at their source with a live target and unique pairs, unique keys and a PATH in every list |
| `ServerInvariant.OpenNumberedKeeps` | 0750730_np_project2/np_single_proc.h:739-770 | a numbered pipe is made for its client's login, with a count of its own |
| `ServerInvariant.OpenSharedKeeps` | 0750730_np_project2/np_single_proc.h:842-859 | a new user pipe sits in its source's vector, with a live target, made for the two logins |
| `ServerInvariant.MarkKeeps` | 0750730_np_project2/np_single_proc.h:861-877 | taking a user pipe moves nothing |
| `ServerInvariant.BuiltInKeeps` | 0750730_np_project2/np_single_proc.h:620-668 | built-in commands keep everything in place, and chosen names unique |
| `ServerInvariant.SweepKeeps` | 0750730_np_project2/np_single_proc.h:879-895 | removing the taken pipes keeps everything else in place |
| `ServerInvariant.PerformKeeps` | 0750730_np_project2/np_single_proc.h:549-599 | executing a command keeps the invariant and the people |
| `ServerInvariant.RunLineKeeps` | 0750730_np_project2/np_single_proc.h:117-139 | a whole line, refused or not, keeps the invariant |
| `ServerInvariant.ExecuteNames` | 0750730_np_project2/np_single_proc.h:239-253 | `name` gives its client a name that nobody has; nothing else gives or takes a name |
| `ServerLeaving.EraseOne` | 0750730_np_project2/np_single_proc.h:983-1011 | the erasing loops drop exactly the client with the id, and from the others exactly the user pipes that lead to it |
| `ServerLeaving.ExitKeeps` | 0750730_np_project2/np_single_proc.cpp:123-135 | leaving by `exit` keeps the invariant |
| `ServerLeaving.EndOfFileKeepsIff` | 0750730_np_project2/np_single_proc.cpp:102-114 | at end of file, where the code erases by descriptor, the invariant is kept exactly when the client's descriptor equals its id |
| `ServerLeaving.EndOfFileExample` | 0750730_np_project2/np_single_proc.cpp:102-114 | the first client, on descriptor 4 with id 1, stays in the table after hanging up |
| `ServerLines.ArgumentIs` | 0750730_np_project2/np_single_proc.h:325-548 | a word after the program is an argument exactly if it has no pipe sign, exclamation mark or angle bracket |
| `ServerLines.ParseOfRender` | 0750730_np_project2/np_single_proc.h:277-602 | any commands with arguments and redirections in any order, `> f`, `< f`, `>n`, `<n`, and numbered sinks, or `tell` and `yell` with the rest of the line, written with any spelling, are read back as they were meant |
| `ServerLines.LineRoundTrip` | 0750730_np_project2/np_single_proc.h:277-602 | the same for the line with any spacing, which is one the code can take |
| `UserPipes.OpenSharedLinked` | 0750730_np_project2/np_single_proc.h:450-467 | a user pipe is created only where the map from (source, target) to pipe has none, and enters it |
| `UserPipes.MarkLinked` | 0750730_np_project2/np_single_proc.h:507-520 | a user pipe is taken only where the map has one |
| `UserPipes.SweepLinked` | 0750730_np_project2/np_single_proc.h:879-895 | a sweep removes exactly the source's taken pipes from vector and map alike |
| `UserPipes.LeftLinked` | 0750730_np_project2/np_single_proc.h:983-1011 | whoever logs out takes all pipes from and to him out of both |
| `UserPipes.AcceptLinked` | 0750730_np_project2/np_single_proc.h:942-953 | a new login finds no pipe from or to its id |
| `UserPipes.RunLineLinked` | 0750730_np_project2/np_single_proc.h:277-602 | over a whole line of any client the vectors and the map hold the same pipes, and every event is lawful |
| `UserPipeHistory.LinkedIffStanding` | 0750730_np_project2/np_single_proc.h:842-895 | the map has a pipe for a pair exactly when a creation of it has not come to its end: no logout of either user, not taken and swept |
| `UserPipeHistory.CreationsAlternate` | 0750730_np_project2/np_single_proc.h:842-895 | between two creations for one pair the first pipe has come to its end |
| `UserPipeHistory.TakenWasCreated` | 0750730_np_project2/np_single_proc.h:861-877 | a pipe that is taken was created and had not come to its end |
| `UserPipeHistory.LoginStartsAfresh` | 0750730_np_project2/np_single_proc.h:983-1011 | when an id is given to a new login, every earlier pipe from or to that id has come to its end |
| `UserPipeHistory.MarkedIffTaken` | 0750730_np_project2/np_single_proc.h:861-895 | a pipe is marked exactly when a taking of it has not been followed by a sweep of its source or a logout of one of its users |
| `PipeOwnership.PrepareGives` | 0750730_np_project2/np_single_proc.h:297-548 | a command is handed only pipes made for its own login, whatever it asks for |
| `PipeOwnership.ReadIsGone` | 0750730_np_project2/np_single_proc.h:571-598 | the pipe a command reads is held before it and in no vector after it |
| `PipeOwnership.RunLineKeepsOwners` | 0750730_np_project2/np_single_proc.h:277-602 | over a line: only the login's own pipes are used and no pipe is read by a second command |
| `Handover.PrepareHands` | 0750730_np_project2/np_single_proc.h:385-538 | on tables and words: a command that is not refused has for output, unless a numbered sink takes its place, what its last output redirection says, for `>n` the pipe it has just made for that user; and for input what its last input redirection says, for `<n` the pipe there was from that user |
| `Handover.CommandAsSaid` | 0750730_np_project2/np_single_proc.h:539-599 | the same of the command as it runs, where a numbered pipe that is due takes the place of the input |
| `UserPipeChecks.ApplyAllTracks` | 0750730_np_project2/np_single_proc.h:425-538 | the redirections of a command are refused exactly if one of them fails, judged by the tables before the command and its words: the user absent, a pipe to him already there or made by an earlier word, no pipe from him |
| `PipesAtRest.PrepareRefusedIff` | 0750730_np_project2/np_single_proc.h:425-538 | a command is refused exactly if one of its redirections fails, and has taken a pipe by then exactly if a `<n` stands before the first that fails |
| `PipesAtRest.ExecuteRestsIff` | 0750730_np_project2/np_single_proc.h:481-538 | from tables at rest, a command leaves a taken pipe behind exactly if a `<n` of it stands before the first of its redirections that fails |
| `PipesAtRest.ExecutePairs` | 0750730_np_project2/np_single_proc.h:549-598 | a command that is not refused adds a pipe for each pair it sends to and removes the pipe of each pair it receives from |
| `PipesAtRest.LineRestsIff` | 0750730_np_project2/np_single_proc.h:277-602 | the same for a line, with the pairs each of its commands finds told from the tables before the line and its words |
| `PipesAtRest.TakenAgainIff` | 0750730_np_project2/np_single_proc.h:861-877 | from tables at rest, a `<n` takes a pipe that is marked already, whose write end it closes once more, exactly if the same word stands before it in the command |
| `HeldPipe.TakenInVainExample` | 0750730_np_project2/np_single_proc.h:495-503 | two clients log in, the second says `ls >1`, the first `cat <2 <9` with no user 9: the pipe taken stays in the tables |
| `ServerWiring.CommandSteps` | 0750730_np_project2/np_single_proc.h:549-582 | one command moves its client's vector as the schedule's countdown moves, is wired as the schedule wires it, and touches no other client's vector or settings |
| `ServerWiring.RunLineScheduled` | 0750730_np_project2/np_single_proc.h:277-602 | over a line of any client every client's vector and every login's wiring follow the schedule of that login's own commands |
| `ServerWiring.LoginWiredIffNoZero` | 0750730_np_project2/np_single_proc.h:739-812 | a login's commands are wired as promised exactly when none asked for number zero |
| `ServerWiring.WiringIsOwn` | 0750730_np_project2/np_single_proc.h:739-812 | a run's wiring is, up to the identities of pipes, determined by the numbers after the pipe signs alone |
| `ServerEnvironment.LoadServes` | 0750730_np_project2/np_single_proc.h:126-161 | loading a client's settings gives the process the environment of that client's own history and a search path that is its PATH, split |
| `ServerEnvironment.ExecuteAllInService` | 0750730_np_project2/np_single_proc.h:277-602 | before and after every command of the line the process environment is that of the speaking client's `setenv` history |
| `ServerEnvironment.RunLineServes` | 0750730_np_project2/np_single_proc.h:117-175 | after a line every client's list still builds the environment of its own history |
| `ServerRuns.EveryRunIsGood` | 0750730_np_project2/np_single_proc.cpp:30-139 | every state reachable by any interleaving of logins, lines and exits satisfies all the invariants above |
| `ServerRuns.UserPipesAlternate` | 0750730_np_project2/np_single_proc.h:842-895 | in every run a pair's user pipes are created and come to their end by turns |
| `ServerRuns.VectorsHoldWhatStands` | 0750730_np_project2/np_single_proc.h:842-895 | in every run the vectors hold a pipe for a pair exactly when a creation stands |
| `ServerRuns.ClosedAgainIff` | 0750730_np_project2/np_single_proc.h:861-877 | in every run a pipe in a vector is one whose write end the next taking closes again exactly when a taking of it has not been followed by a sweep of its source or a logout of one of its users |
| `ServerRuns.PipesHaveOneReader` | 0750730_np_project2/np_single_proc.h:571-598 | in every run a pipe is read by at most one command, of the login it was made for, so a reused id never sees a predecessor's pipe |
| `ServerRuns.EveryLoginIsWired` | 0750730_np_project2/np_single_proc.h:739-812 | in every run each login's commands are wired as promised, exactly when none of them said zero |
| `ServerRuns.LineFindsItsEnvironment` | 0750730_np_project2/np_single_proc.h:126-161 | in every run a client's line starts in the environment its own `setenv` commands made |
| `PipeFlow.RunsAsSaid` | 0750730_np_project2/np_single_proc.h:277-602 | in every run each command that is not refused has run as it was said: its words, its sink, and the files and user pipes it names for output and input |
| `PipeFlow.SentIsReceived` | 0750730_np_project2/np_single_proc.h:842-877 | the pipe that a command ending with `>n` writes is the one that the other user's `<n` reads, unless it has come to its end by then or a numbered pipe is due |
| `PipeFlow.ReceivedWasSent` | 0750730_np_project2/np_single_proc.h:842-877 | the pipe a command reads with `<n` is the output of the command that made it, if that ends with `>n` for the reader |
| `PipeFlow.UserPipesCarry` | 0750730_np_project2/np_single_proc.h:842-877 | in every run what one user's command sends is what the other user's command reads |
| `NonInterference.PlainRuns` | 0750730_np_project2/np_single_proc.h:297-548 | a command without user pipes is never refused and runs as written |
| `NonInterference.RunsItsOwnLines` | 0750730_np_project2/np_single_proc.h:117-139 | in every run a login whose lines use no user pipes has run exactly the commands of its own lines, in order and as written |
| `NonInterference.SameLinesSameWiring` | 0750730_np_project2/np_single_proc.h:739-812 | in any two runs, two logins that say the same run the same commands, wired alike up to the identities of pipes |
| `ServedAlone.LeavesIff` | 0750730_np_project2/np_single_proc.cpp:121-135 | a line without user pipes ends the connection exactly when its last command is `exit` |
| `ServedAlone.LeavesUnlessRefused` | 0750730_np_project2/np_single_proc.h:277-602 | any line ends the connection exactly when none of its commands is refused and its last is `exit` |
| `ServedAlone.ServedAsIfAlone` | 0750730_np_project2/np_single_proc.cpp:30-139 | for every run and every client without user pipes, the run in which that client connects alone and says the same is possible and serves it the same |
| `Server.Server.constructor` | 0750730_np_project2/np_single_proc.cpp:19-27 | the tables before anyone has logged in |
| `Server.Server.GetAvaliableID` | 0750730_np_project2/np_single_proc.h:942-953 | takes the first free slot, or reports that there is none and changes nothing |
| `Server.Server.GetClientByFd` | 0750730_np_project2/np_single_proc.h:955-967 | the first client with this descriptor |
| `Server.Server.GetClientByID` | 0750730_np_project2/np_single_proc.h:969-981 | the first client with this id |
| `Server.Server.AcceptClient` | 0750730_np_project2/np_single_proc.cpp:55-93 | the accepting branch is the specified login step |
| `Server.Server.EraseUserPipesTo` | 0750730_np_project2/np_single_proc.h:988-999 | erasing while iterating leaves exactly the user pipes that lead elsewhere |
| `Server.Server.EraseClientVector` | 0750730_np_project2/np_single_proc.h:983-1011 | the nested in-place erase loops equal the two-level filter |
| `Server.Server.Logout` | 0750730_np_project2/np_single_proc.cpp:123-135 | the leaving branches, with the number that `EraseClientVector` is given |
| `Server.Server.SetEnv` | 0750730_np_project2/np_single_proc.h:151-161 | the process environment and, for PATH, the search path |
| `Server.Server.SetAllEnv` | 0750730_np_project2/np_single_proc.h:126-149 | clearing and reloading builds the client's environment and path |
| `Server.Server.EraseEnv` | 0750730_np_project2/np_single_proc.h:163-175 | erases the first setting of the variable |
| `Server.Server.Name` | 0750730_np_project2/np_single_proc.h:239-253 | a name is given only if nobody has it |
| `Server.Server.CreatePipe` | 0750730_np_project2/np_single_proc.h:739-770 | reuses the last pipe with this count or makes one for the login |
| `Server.Server.GetPipeFd` | 0750730_np_project2/np_single_proc.h:798-812 | the first pipe that is due |
| `Server.Server.ErasePipeVector` | 0750730_np_project2/np_single_proc.h:782-796 | erasing while iterating leaves exactly the pending entries |
| `Server.Server.CountdownPipeVector` | 0750730_np_project2/np_single_proc.h:772-780 | every count goes down by one |
| `Server.Server.CreateUserPipe` | 0750730_np_project2/np_single_proc.h:842-859 | a new entry at the end of the source's vector |
| `Server.Server.GetUserPipeFd` | 0750730_np_project2/np_single_proc.h:861-877 | marks the source's pipe to this client as taken and yields it, or finds none |
| `Server.Server.EraseUserPipeVector` | 0750730_np_project2/np_single_proc.h:879-895 | erasing while iterating leaves exactly the pipes not taken |
| `Server.Server.SweepSources` | 0750730_np_project2/np_single_proc.h:587-598 | the sources noted by the command are swept, in order |
| `Server.Server.ExecCmd` | 0750730_np_project2/np_single_proc.h:610-669 | the built-in commands that change the server, and the status of `exit` |
| `Server.Server.Execute` | 0750730_np_project2/np_single_proc.h:549-599 | executing a prepared command is the specified step |
| `Server.Server.DecodeUser` | 0750730_np_project2/np_single_proc.h:428-437 | the buffer loop decodes the number of a user word of at most three characters |
| `Server.Server.SendTo` | 0750730_np_project2/np_single_proc.h:425-480 | the checks and the effect of `>n` |
| `Server.Server.ReceiveFrom` | 0750730_np_project2/np_single_proc.h:481-538 | the checks and the effect of `<n` |
| `Server.Server.Redirect` | 0750730_np_project2/np_single_proc.h:385-538 | the four redirections; a failed check empties the queue |
| `Server.Server.TakePipe` | 0750730_np_project2/np_single_proc.h:326-384 | the two kinds of pipe word |
| `Server.Server.ReadWord` | 0750730_np_project2/np_single_proc.h:297-548 | one word moves the loop's flags on exactly as the grammar reads it, or refuses the line |
| `Server.Server.ExecCmds` | 0750730_np_project2/np_single_proc.h:277-602 | the flag-driven loop executes the commands up to the first refused one, and the queue is empty after every return path |
| `Server.Server.ClientExec` | 0750730_np_project2/np_single_proc.h:117-139 | one line of one client: environment, words, commands, status |
| `Server.Server.Serve` | 0750730_np_project2/np_single_proc.cpp:115-136 | a line from a socket is the specified step and keeps the invariant |
| `Server.Server.HangUp` | 0750730_np_project2/np_single_proc.cpp:101-114 | end of file is the specified step; the invariant survives exactly when descriptor and id agree |
| `FifoCells.PathInjective` | 0750730_np_project2/np_multi_proc.h:812-815 | different cells have different FIFO paths |
| `FifoCells.StepKeeps` | 0750730_np_project2/np_multi_proc.h:812-869 | every atomic step keeps: an open read descriptor has a recorded name, a used pipe an open read descriptor, and the FIFOs on disk are exactly the recorded names |
| `FifoCells.EveryScheduleKeeps` | 0750730_np_project2/np_multi_proc.h:1178-1191 | the same under any schedule of all clients' functions, handlers and exits, commands that both read and write user pipes included |
| `FifoCells.TakenIsOpen` | 0750730_np_project2/np_multi_proc.h:500-515 | between the check of a pipe and its use nothing can close it, so the descriptor used is open; and the pipe a command reads stays marked and open until that command erases it |
| `FifoCells.CreateFailsIff` | 0750730_np_project2/np_multi_proc.h:812-821 | `mkfifo` fails, and ends the process, exactly when the cell still has a name |
| `FifoCells.CreatedTwice` | 0750730_np_project2/np_multi_proc.h:448-461 | the check before it looks at another field: a second `>n` that comes before the writer has opened passes the check and ends the process |
| `FifoCells.CreatedTwiceFromTheStart` | 0750730_np_project2/np_multi_proc.h:448-461 | two clients log in and the first says `>2` twice: the second check passes and the process ends |
| `FifoCells.ReadsAndWrites` | 0750730_np_project2/np_multi_proc.h:448-578 | one command `cat <2 >3` is a possible schedule of its process, after which the pipe read is gone and the pipe written is there |
| `FifoCells.Memory.CreateUserPipe` | 0750730_np_project2/np_multi_proc.h:812-830 | the cell and file effects of the function |
| `FifoCells.Memory.SetUserPipeOut` | 0750730_np_project2/np_multi_proc.h:831-843 | the write descriptor is recorded |
| `FifoCells.Memory.OpenFifos` | 0750730_np_project2/np_multi_proc.h:1182-1189 | the loop opens exactly the named cells of the column that are not open |
| `FifoCells.Memory.SigHandler` | 0750730_np_project2/np_multi_proc.h:1178-1191 | the handler is the specified step |
| `FifoCells.Memory.GetUserPipeFd` | 0750730_np_project2/np_multi_proc.h:844-856 | the read descriptor handed out is open |
| `FifoCells.Memory.EraseUserPipe` | 0750730_np_project2/np_multi_proc.h:857-869 | a used cell is cleared and its FIFO unlinked |
| `FifoCells.Memory.ClearFifos` | 0750730_np_project2/np_multi_proc.cpp:65-78 | the loop clears exactly the open cells of the column and unlinks their FIFOs |
| `FifoCells.Memory.ClientExit` | 0750730_np_project2/np_multi_proc.cpp:56-84 | leaving is the specified step |
| `FifoDelivery.SignalOpens` | 0750730_np_project2/np_multi_proc.h:1178-1191 | the handler gives every FIFO of its column that is not open the descriptor `open` gave for it, and changes nothing else |
| `FifoDelivery.TraceOf` | 0750730_np_project2/np_multi_proc.h:1178-1191 | every schedule goes through states, from the empty memory to where it ends, each led to the next by its step |
| `FifoDelivery.SignalMakesReadable` | 0750730_np_project2/np_multi_proc.h:1178-1191 | over any schedule: after a pipe is made, the first signal of its reader whose `open` succeeds makes it readable with that descriptor, until the reader clears it |
| `FifoDelivery.ReadableIff` | 0750730_np_project2/np_multi_proc.h:500-515 | the check of `<n` passes exactly if the pipe is open |
| `FifoDelivery.SentIsHandedOut` | 0750730_np_project2/np_multi_proc.h:844-856 | over any schedule: the reader then passes the check and is handed the descriptor that `open` gave |
| `FifoDelivery.RefusedOnceOpened` | 0750730_np_project2/np_multi_proc.h:831-843 | once the writer's child has opened the FIFO, and only then, a second `>n` is refused |
| `FifoDelivery.CreatedWhileRead` | 0750730_np_project2/np_multi_proc.h:844-856 | while a pipe is being read, the writer's next `>n` for that reader passes the check and ends its process |
| `FifoDelivery.LeavesNothing` | 0750730_np_project2/np_multi_proc.cpp:56-84 | who leaves clears just the pipes it could read; the next client in the slot is told that there is none |
| `FifoDelivery.ReadFromTheStart` | 0750730_np_project2/np_multi_proc.h:448-578 | client 0 says `ls >2`, client 1 is signalled and `open` gives 7: its `cat <1 >3` is handed 7 and leaves its own pipe behind |
| `Escape.EncodeLoop` | 0750730_np_project3/console.cpp:97-113 | the loop computes the escaping of the whole text |
| `Escape.EncodeConcat` | 0750730_np_project3/console.cpp:97-121 | escaping distributes over concatenation |
| `Escape.ChunksDoNotMatter` | 0750730_np_project3/console.cpp:114-121 | however the output is cut into chunks, the page is sent the same |
| `Escape.DecodeOfEncode` | 0750730_np_project3/console.cpp:97-113 | decoding the escaped text gives the text without carriage returns |
| `Escape.EncodedAlikeIff` | 0750730_np_project3/console.cpp:97-113 | two texts are escaped alike exactly when they differ in carriage returns only |
| `Escape.EncodedIsInert` | 0750730_np_project3/console.cpp:97-113 | no angle bracket, quote or line end is left |
| `Socks.ReadAddress` | 0750730_np_project4/console.cpp:302-307 | the loop that eats the dotted address from the front fills in its numbers |
| `Socks.HandleConnect` | 0750730_np_project4/console.cpp:297-315 | the eight cells of the message |
| `Socks.AddressOfDotted` | 0750730_np_project4/console.cpp:302-307 | the loop recovers every address from its dotted form |
| `Socks.RequestUnderstood` | 0750730_np_project4/socks_server.cpp:44-49 | for every address and port, the proxy prints the address text and the port that were asked for |
| `Socks.UnderstoodIsRequest` | 0750730_np_project4/console.cpp:308-315 | every CONNECT message is the one the console writes for what the proxy makes of it |
| `Socks.RequestLayout` | 0750730_np_project4/console.cpp:297-315 | version 4, command 1, the port in network order, the numbers of the address in the order in which they are written |
| `Relay.CompleteIsOrderly` | 0750730_np_project4/socks_server.cpp:106-182 | the completion of any operation keeps one operation per direction, and the buffer intact during a send |
| `Relay.RelayIsFaithful` | 0750730_np_project4/socks_server.cpp:84-182 | for all interleavings of completions the destination gets a prefix of what the client sent, and the client nothing, or the grant and a prefix of what the destination sent |
| `Relay.WaitingMeansAllSent` | 0750730_np_project4/socks_server.cpp:106-182 | a direction that waits to read has passed on all it has read |
| `Relay.ReadIsPassedOn` | 0750730_np_project4/socks_server.cpp:106-182 | a read is followed by the send of just what was read, and that by the next read, with everything read sent |
| `Relay.NeverStalls` | 0750730_np_project4/socks_server.cpp:84-182 | once granted, a direction has a read or a send pending as long as none of its own operations fails or meets the end of file, whatever the other does |
| `Relay.Channel.Fill` | 0750730_np_project4/socks_server.cpp:106-132 | a read replaces the front of the buffer only |
| `Relay.Channel.OnComplete` | 0750730_np_project4/socks_server.cpp:106-182 | the handlers of one direction are the specified step |

## Left out

- ServerRuns.EveryRunIsGood: an end of file is a step only where the client's descriptor equals its id; for all others the code erases by the wrong number and `ServerLeaving.EndOfFileKeepsIff` shows the invariant broken.
- Server.Server.Serve: descriptors behind pipes, the copies of the socket on 1 and 2 and the closing of pipe ends are not modelled in the server, where a pipe is an identity; descriptor numbers are modelled in the first shell.
- Server.Server.GetPipeFd: the closing of the write end that is due.
- Server.Server.ErasePipeVector: the closing of both ends of the erased pipes.
- Server.Server.GetUserPipeFd: the closing of the write end; `PipesAtRest.TakenAgainIff` and `ServerRuns.ClosedAgainIff` say when it is closed a second time, but not what has that number by then.
- Server.Server.EraseUserPipeVector: the closing of the read end of the erased pipes.
- Server.Server.EraseUserPipesTo: the closing of both ends of the erased pipes.
- Server.Server.EraseClientVector: the closing of the ends of the erased pipes.
- Server.Server.Logout: the closing of the socket and the restoring of 1 and 2.
- Server.Server.HangUp: the closing of the socket.
- Server.Server.Redirect: what `open` gives to a redirection, and whether it fails; the first shell has that.
- Server.Server.Execute: the closing of the input descriptor after the command.
- Server.Server.ExecCmd: the child with its descriptors and the wait for it, which the first shell has. `printenv`, `who`, `tell` and `yell` only print or send, and appear in the log but have no other effect.
- Server.Server.AcceptClient: the accepted socket that is left open when all ids are taken is not tracked.
- Shell.Shell.ExecCmd: PATH, `IsExecutable` and the environment of the first shell are not modelled; an unknown command is a child like any other, as in the code.
- Shell.Shell.CreatePipe: `pipe` and `fork` always succeed in the end.
- ShellWiring.NumberedPipesFollowSchedule: two writers that name one reader share a pipe unless that reader has run between them, which only a number below one can bring about.
- NonInterference.SameLinesSameWiring: file redirections are compared by name, not by what other clients did to the files.
- HttpParser.RequestRoundTrip: version numbers are unbounded, where the code's `int` could overflow.
- HttpParser.HttpSession.Consume: the state variable is one global shared by all sessions; one session's run is modelled.
- FifoCells.EveryScheduleKeeps: each function is one step, the directory of FIFOs is empty at first, and the rows of a client that has left are not promised anything, nor does the code clear them.
- Relay.RelayIsFaithful: a send that completes has transferred its whole buffer; `async_send` may transfer less.
- Socks.HandleConnect: the user id and the terminating zero of the memo's request are not sent by the code, and not modelled.
- Broadcasts, welcome and error texts, prompts.
- CGI launching, query-string splitting and the variables set for a CGI program, HTML pages and panel scripts, name resolution, the rules of `socks.conf`.
- `BindMode`, whose partial-send arithmetic gives no usable specification.
- The client table and messages in shared memory, and races finer than a function.
- The second copy of parser and escaper in 0750730_np_project3/main.cpp, and of the shell in 0750730_np_project2/shell.h, which adds `clearenv` at its start.
- The `commands` programs.
