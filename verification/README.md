# POP-C++: a verified model of the stub compiler and the runtime

POP-C++ compiles parallel classes ("parclasses") into client stubs and brokers, and runs the
objects behind them on other nodes. This project models seven parts of it in Dafny and proves
what they are for. `dafny verify dfyconfig.toml` verifies the whole project.

**Stub compiler and wire codec** (`Types`, `Emit`, `Emitter`, `Machine`, `Scopes`, `Codec`,
`CodecRead`, `Capture`, `Names`, `Survival`, `Rebuild`, `Accepted`, `Rpc`, `RpcProof`, `RemoteCall`,
`Hazards`). `Emit` is the code the compiler emits, as instructions: pack and unpack n items, loops
with their loop variables, declared sizes, `Push`/`Pop`. `Machine` executes it on variables and a message; loop variables
live in the same environment as everything else, so a captured name shows. `Emitter.Generator`
emits by appending to one output and counting in one counter, as the compiler does. The
independent reference is `Types.Wire`, the data a value contributes to a message, in order.
`RemoteCall.RemoteCallIsLocalCall` is the whole promise: client stub and broker wrapper together
amount to a local call with copy-in and copy-out. `Accepted.SurvivesIff` says for which of all types
the codec keeps its promise.

**POPFile** (`Layout`, `PopFile`, `PopFileProof`, `PopFileLoss`, `PopStream`, `PopRead`,
`PopHistory`). A byte stream dealt in blocks over strips. `Layout.Dealt` says byte by byte what
each strip should hold. `PopStream` and `PopRead` are the objects with their fields, proved
against functions on values; the lemmas say what these functions keep over any number of
sessions, and exactly when a byte is lost.

**Broker scheduler** (`Broker`, `BrokerInvariant`, `BrokerOrder`, `BrokerFifo`, `BrokerRuns`,
`BrokerProgress`, `BrokerQueue`). One serving loop, any number of receive threads and invocation
threads, as a machine whose steps are what one thread does under one lock.

**Type and class graphs** (`Marking`, `Depiction`, `BaseClasses`, `Dispatch`, `PureVirtual`). The
marking search of `CanMarshal` on cyclic type graphs, the worklist of `FindAllBaseClass`, method
numbers and the chain of brokers, and the pure virtual methods a class is left with.

**MPI interconnector** (`Interconnector`, `Waiting`). Requests and responses redirected between
nodes, as a machine over channels that keep their order per tag, as section 3.5 of MPI 3.1 has it.

**Array declarators** (`Cardinal`) and **message buffers** (`CStrings`, `Buffers`). The size of an
array from its text, and strings and exceptions through a buffer. `Sequences` holds what several
parts need about sequences.

## What the code does not do

Some natural claims are false of the code. For each there is a lemma with a witness and the exact
condition under which the claim holds.

- A loop over an array of non-standard elements takes its counter only after the code of its body
  was generated, so a directly nested loop of the same kind captures its variable
  (`Hazards.NestedCaptured`). This is the only way two names of the emitted code clash
  (`Names.NamesDistinctIffCaptureFree`), and `Capture.MarshalsIffCaptureFree` shows that every clash
  is fatal.
- A result that is a sized pointer passes the check, but the stub reads it into a block of its own
  that is freed as it returns (`Hazards.SizedResultLost`). `RemoteCall.ResultArrivesIff`: a result
  arrives if and only if it is no sized pointer or its size is 0.
- A container of pointers passes `CanMarshal`, but reading allocates nothing for the elements
  (`Hazards.PointerElementsNotRebuilt`); a sized `void *` passes, but only its size is sent
  (`Hazards.VoidPointerSendsNoData`). `Accepted.SurvivesIff` and `Accepted.BlocksSurviveIff` say of
  which types, and of which sized blocks, every value comes back: those without pointers, `void`
  and capture, and no others.
- A write to a POPFile whose overflow is the text `FULL` loses it, because `buffer_add` returns
  the same text as a signal (`PopFileLoss.FullVanishes`); a NUL cuts a block short
  (`PopFileLoss.NulVanishes`). `PopFileLoss.SessionsHoldIffSafe` gives the exact condition over
  whole histories.
- A read of a POPFile that ends inside a block does not move the position to its end. The next read
  is right for every content and length if and only if the first one ended at a block boundary
  (`PopRead.ConsecutiveIff`); a read of one byte and then one of a block, from several strips, waits
  for ever (`PopRead.PartialThenBlockHangs`). What every read inside the file returns is in the
  contract of `PopRead.ReadStream.Read`; when a request that reaches past the end of a strip waits
  for ever is in that of `PopRead.RequestAndCollect`.
- `concPendings` is not always the number of queued concurrent requests, because `RegisterRequest`
  counts a queued request only after it has released the queue's lock
  (`BrokerRuns.PendingsDrift`, exact condition in `BrokerInvariant.PendingsExact`).
- Concurrent requests are not always first-in first-out, because one that arrives while no mutex
  request is pending starts at once, past those that still wait in the queue
  (`BrokerRuns.ConcurrentOvertaken`). They are in order in just those runs in which this never
  happens (`BrokerFifo.ConcurrentsInOrderIff`). The field comments in include/core/pop_broker.h
  describe neither of the two.
- A request that arrives while the broker waits for its last invocations is never served, and the
  broker then never exits (`BrokerRuns.HangReached`, `BrokerRuns.DrainingHangs`): a draining broker
  can still exit if and only if nothing is queued (`BrokerRuns.DrainingExits`).
- A broker that stops can leave a request behind that it has accepted. The guard of the exit sees
  neither a request that a receive thread has still to queue, which is then never
  started (`BrokerRuns.ExitLoses`), nor a concurrent one between its admission and its count, which
  then runs in a broker that has stopped (`BrokerRuns.ExitWhileStarting`). Nothing is left behind if
  and only if no receive thread holds a request at that moment (`BrokerRuns.DrainedExit`).
- The virtual-only mode of `FindAllBaseClass` misses a virtual base that is first named by a class
  that does not inherit it virtually (`BaseClasses.BothWaysMissed`, exact condition in
  `BaseClasses.VirtualModeExact`).
- MPI nodes that forward requests to each other in a ring, or to themselves, wait for each other
  for ever (`Waiting.RingBlocks`, `Waiting.MutualRequestsBlock`). A node that asks can go on if and
  only if the chain of nodes it waits for ends at one that does not ask (`Waiting.AskingWakesIff`).
- The scan of array declarators steps over the end of a text that ends inside an escape, and only
  then (`Cardinal.GetCardinalSize`).

## Model

| member | source | states |
|---|---|---|
| RemoteCall.RemoteCallIsLocalCall | parser/classmember.cc:959-1033 | for every synchronous method in scope, running the client stub against the broker wrapper leaves the object in the state of a local call on the caller's arguments, sets exactly the out-parameters and the result, changes no other variable and leaves no datum unread; only a result that is a sized pointer with a size above 0 points to nothing then |
| RemoteCall.CallerFinds | parser/classmember.cc:68-79 | what the caller's variable holds after a call, by how the parameter is declared: const, marked [in] alone, or by value, it keeps its value; marked [out] and not const, or unmarked and a reference, pointer or array, it holds what the callee left; every method that is no constructor and not void hands out a result |
| RemoteCall.CalleeGiven | parser/classmember.cc:58-66 | the callee gets the caller's data for every parameter that is not marked [out] alone, and a new object or block for one that is and is not const |
| RemoteCall.ReferenceComesBack | parser/classmember.cc:68-79 | after `inc(x)` with an unmarked reference x that held 1 and was set to 2, the caller's variable holds 2 |
| RemoteCall.ResultArrivesIff | parser/classmember.cc:1009-1033 | the caller gets the result, or as many elements of it as its size says, if and only if it is no sized pointer or the size is 0 |
| RemoteCall.Served | parser/classmember.cc:1281-1378 | the broker wrapper, given the client's message, runs the body on the caller's arguments and replies with the out-parameters and the result in the order the client expects |
| RemoteCall.ArgumentsRebuilt | parser/classmember.cc:1281-1325 | unpacking the in-parameters and making the out-only ones rebuilds for the callee exactly what a local call would pass |
| RemoteCall.Answered | parser/classmember.cc:998-1033 | unpacking the reply assigns every out-parameter what the callee left there, and the result what the stub can still hand out of it |
| RemoteCall.SomeSent | parser/classmember.cc:959-968 | packing a parameter list writes the declared data of the travelling parameters in order and touches no program variable |
| RemoteCall.SomeTaken | parser/classmember.cc:998-1007 | unpacking a parameter list consumes exactly that data and assigns exactly those parameters |
| RpcProof.ParamSent | parser/classmember.cc:236-283 | one parameter of any kind, sized or not, is sent as its size (if any) and its data: the elements counted by the size of a pointer or an array, all of it otherwise |
| RpcProof.ParamTaken | parser/classmember.cc:285-351 | a variable just declared is filled from that data: a block is allocated for a sized pointer, an array keeps its own elements behind those sent |
| RpcProof.ParamReturned | parser/classmember.cc:285-351 | the client puts one returned parameter back into its variable, the elements of a block or an array in place |
| Rpc.CheckMarshal | parser/classmember.cc:686-715 | 0 if and only if the method is not public, or is hidden, or the result and every parameter are accepted; -1 exactly for an open method with an unacceptable result; otherwise the number of the first unacceptable parameter; never 0 for an open method with a parallel object passed by value |
| Hazards.RefusedIff | parser/typestruct.cc:22-38 | a type is refused if and only if a pointer to pointers or a struct with an attribute of a pointer type occurs anywhere in it, and needs a size if and only if it is not refused and is a pointer or an array of pointers |
| Hazards.SupportedAccepted | parser/classmember.cc:686-715 | every method the main result covers passes the compiler's own check |
| Hazards.SizedResultLost | parser/classmember.cc:1009-1033 | a method that returns a sized pointer is accepted, and a call with size 1 returns a block that is gone |
| Hazards.NestedCaptured | parser/typearray.cc:71-113 | an array of structs that hold an array of structs is accepted, and marshalling it fails |
| Hazards.PointerElementsNotRebuilt | parser/typetemplate.cc:149-237 | a vector, list or deque of pointers to a standard type is accepted, and reading any non-empty one into an empty one fails |
| Accepted.SurvivesIff | parser/typetemplate.cc:149-237 | for every type, with pointers or without: each value whose pointers are set comes back from demarshalling its marshalled form, over any earlier content, if and only if the type has no pointer and no `void` and no loop variable of its code captures another; the same if the earlier content is that of a new variable, as in the broker |
| Accepted.BlocksSurviveIff | parser/classmember.cc:236-351 | each block behind a sized pointer parameter arrives whole in the broker's new variable if and only if its element type meets the same condition |
| Rebuild.ReadBare | parser/typeptr.cc:96-124 | reading code for any type, run on any message over a target whose pointers are unset, either fails or leaves them unset |
| Hazards.VoidPointerSendsNoData | parser/typeptr.cc:66-94 | a sized void pointer is accepted, and only its size reaches the message |
| Capture.RoundTrip | parser/typetemplate.cc:66-237 | for every pointer-free capture-free type, demarshalling the output of marshalling restores the value over any earlier content, consumes exactly what was written and leaves what follows |
| Capture.MarshalsIffCaptureFree | parser/typearray.cc:71-113 | the emitted code marshals every value of a type if and only if no array loop directly encloses the counter of another array loop |
| Codec.MarshalWrites | parser/type.cc:59-80 | the code emitted for any capture-free type, at any place and counter, appends exactly the wire data of the value there and keeps all older variables |
| Codec.MarshalArrayWrites | parser/typearray.cc:71-113 | the same for arrays, as one block or element by element |
| Codec.MarshalFieldsWrites | parser/typestruct.cc:40-56 | the same for the attributes of a struct, in order |
| Codec.MarshalContainerWrites | parser/typetemplate.cc:66-147 | the same for vector, list, deque and map: the size, then block or elements |
| CodecRead.DeMarshalReads | parser/type.cc:82-102 | the code emitted to read any capture-free type assigns the value whose wire data is next, whatever was there, and consumes just that |
| CodecRead.DeMarshalArrayReads | parser/typearray.cc:115-157 | the same for arrays |
| CodecRead.DeMarshalFieldsReads | parser/typestruct.cc:58-74 | the same for structs |
| CodecRead.DeMarshalListReads | parser/typetemplate.cc:149-237 | the same for vector, list and deque, resized to the size read |
| CodecRead.DeMarshalMapReads | parser/typetemplate.cc:149-237 | the same for maps, rebuilt by insertion of the pairs read |
| Names.NamesDistinctIffCaptureFree | parser/typearray.cc:71-157 | among all names bound anywhere in the writing or the reading code of a type, loop bodies included, no two are the same if and only if no array loop directly encloses the counter of another; not listed are the `i` of map loops and the counters of array loops, which share the number of the loop's pointer |
| Names.TemplateNamesDistinct | parser/typetemplate.cc:66-237 | for every nesting of templates, structs and typedefs the size, iterator, key and value names are pairwise distinct |
| CodecRead.LocalsNewer | parser/typetemplate.cc:149-237 | the names that reading code declares outside its loops carry counters not yet in use around it |
| Codec.Counters | parser/typetemplate.cc:66-147 | generating reading and writing code advances the counter alike, by the number of loops in the type |
| Emitter.Generator.Marshal | parser/typeptr.cc:66-94 | the generator appends to its output exactly the code the codec results are about and moves the counter with it |
| Emitter.Generator.DeMarshal | parser/typeptr.cc:96-124 | the same for reading code |
| Emitter.Generator.MarshalAttributes | parser/typestruct.cc:40-56 | the loop over attributes appends the code of all attributes in order |
| Emitter.Generator.DeMarshalAttributes | parser/typestruct.cc:58-74 | the same for reading code |
| PopFileLoss.SessionsHoldIffSafe | dev/popfile/popfile.cpp:680-714 | after any history of sessions the strips hold exactly the concatenated writes dealt round robin, and the metadata says where the next byte goes, if and only if no write holds a NUL or ends in FULL at the start of a block |
| PopFileProof.SessionsHold | dev/popfile/popfile.cpp:391-408 | the positive half: safe histories keep the layout through every close and reopen |
| PopFileProof.WritePlaced | dev/popfile/popfile.cpp:680-703 | a write from any placed state extends the layout by exactly the bytes it stores |
| PopFile.StoredWhole | dev/popfile/popfile.cpp:690-702 | a write is stored whole unless it ends in FULL at the start of a block, and then exactly four bytes are lost |
| PopFileLoss.Reopened | dev/popfile/popfile.cpp:264-270 | after reopening the current strip and the room in its block are (p / B) mod N and B - p mod B |
| PopFileLoss.EndPointerCounts | dev/popfile/popfile.cpp:687-687 | the stored length counts every byte passed to a write, stored or lost |
| PopFileLoss.FullVanishes | dev/popfile/popfile.cpp:691-695 | the four letters FULL right behind a filled block are counted and not stored |
| PopFileLoss.NulVanishes | dev/popfile/popfilebuffer.cpp:65-85 | a NUL written to a file is counted and nothing is stored for it |
| PopFileLoss.SettledTotal | dev/popfile/popfilebuffer.cpp:43-85 | no write puts more on the strips than it stores, and less if it holds a NUL: what is lost is never made up |
| Layout.BlockInStrip | dev/popfile/popfile.cpp:264-270 | block k of the stream is contiguous in strip k mod N at offset (k / N) * B |
| Layout.HomeIsRoundRobin | dev/popfile/popfile.cpp:709-714 | stepping round robin through the buffers deals block k to strip k mod N |
| PopStream.OutputBuffer.Flush | dev/popfile/popfilebuffer.cpp:65-85 | a flush appends the C string in a used buffer to its strip and empties the buffer, and does nothing to an unused one |
| PopStream.OutputBuffer.Add | dev/popfile/popfilebuffer.cpp:43-59 | new buffer, new strip and what is handed back, in both branches |
| PopStream.Stream.constructor | dev/popfile/popfile.cpp:241-283 | opening gives every strip a fresh buffer and takes position and room from the metadata |
| PopStream.Stream.Write | dev/popfile/popfile.cpp:680-714 | the loop over buffers computes the new state the layout results are about |
| PopStream.Stream.Close | dev/popfile/popfile.cpp:391-412 | closing flushes every buffer and saves length and current strip |
| PopRead.ReadStream.ReadInBackground | dev/popfile/popfile.cpp:544-617 | the readers are left holding what is asked for in pieces, dealt from the current reader on: after a read that ended inside a block, and for a block or more, first as many bytes as that one left of its block, then whole blocks, then the rest; position, read pointer and grip say where it went on |
| PopRead.ReadStream.GetRead | dev/popfile/popfile.cpp:624-666 | a grip used in order yields its first piece and the rest and drains the readers, or waits for ever when both are asked of one reader that has only the first; out of order it yields nothing and sets the bad flag |
| PopRead.ReadStream.Read | dev/popfile/popfile.cpp:532-536 | what a read of any size returns from any position and read pointer, where it waits for ever, and where the next one starts |
| PopRead.ReadTwice | dev/popfile/popfile.cpp:544-605 | of two reads in a row the first returns the bytes at the position, the second what `SecondRead` says |
| PopRead.ConsecutiveIff | dev/popfile/popfile.cpp:576-605 | the second read returns the bytes behind the first, for every content and length, if and only if the first ends at a block boundary |
| PopRead.RequestAndCollect | dev/popfile/popfilereader.cc:59-87 | a request that may reach past the end of its strip waits for ever if and only if it begins there or a NUL is among what the memory holds after it, and yields that otherwise |
| PopRead.PartialThenBlockHangs | dev/popfile/popfile.cpp:576-584 | after a read of one byte, a read of one block from several strips waits for ever |
| PopRead.ReadStream.Gather | dev/popfile/popfile.cpp:327-352 | gathering a reopened file yields its whole content |
| PopRead.Reader.ReadCurrentBuffer | dev/popfile/popfilereader.cc:73-87 | the asked-for prefix of the reader's buffer is removed and handed out as a C string, or the call waits for ever because fewer bytes are there and none is under way |
| PopRead.Reader.ReadInStrip | dev/popfile/popfilereader.cc:59-66 | the bytes of the strip, cut where the strip ends, are put into the reader's buffer at its write position |
| PopHistory.WriteAndGather | dev/popfile/popfile.cpp:327-352 | creating a file, writing it in any number of safe sessions and gathering it yields the concatenation of all writes |
| BrokerOrder.OvertakingIsRare | lib/core/broker_serve.cc:76-115 | in every run a request starts before one that arrived earlier only if it is concurrent, the earlier one is not a mutex request, and, if the earlier one is concurrent too, the later one was started on arrival |
| BrokerFifo.ConcurrentsInOrderIff | lib/dynamic/broker_receive.cc:150-156 | in every run the concurrent requests start in order of arrival if and only if none arrives, with no mutex request pending, while another concurrent one waits in the queue |
| BrokerRuns.ConcurrentOvertaken | lib/dynamic/broker_receive.cc:150-156 | a run in which a queued concurrent request is overtaken by a later one |
| BrokerRuns.PendingsDrift | lib/dynamic/broker_receive.cc:163-174 | a run after which concPendings is 1 while the queue is empty and no thread is under way |
| BrokerOrder.TakeLogged | lib/core/broker_serve.cc:87-105 | taking a request keeps the queue equal to the arrived, not started requests in order of arrival, and overtakes only what may be overtaken |
| BrokerInvariant.RunInv | lib/core/broker_serve.cc:76-161 | in every reachable state the counters equal what they count, each thread holds the kind of request its path is for, mutex exclusion holds and every registered request is in one place |
| BrokerInvariant.MutexRunsAlone | lib/core/broker_serve.cc:107-161 | in every run the serving loop executes one request at a time that is not concurrent, and the threads concurrent ones; while it executes a mutex request or constructor no concurrent invocation is live or being started, and one that arrives has to queue |
| BrokerInvariant.PendingsExact | lib/core/broker_serve.cc:88-102 | in every run concPendings equals the queued concurrent requests if and only if one pushed and not yet counted and one taken uncounted are both present or both absent |
| BrokerInvariant.FrontPopTakesConcurrent | lib/core/broker_serve.cc:104-105 | the pop from the front takes a concurrent request if and only if one is at the front and concPendings is 0; that is only between its push and its count, when it is the only one queued, and at most once in a run |
| BrokerInvariant.OnePlace | lib/core/broker_serve.cc:117-161 | every registered request is queued, in one thread's hands, executing or finished, and only one of these, also when thread creation fails |
| BrokerRuns.DrainedExit | lib/core/broker.cc:210-219 | when a broker with an object stops, whatever is registered is posted to it but not yet queued, in a receive thread's hands, or finished; all of it is finished if and only if nothing is posted and no receive thread holds a request |
| BrokerRuns.ExitLoses | lib/dynamic/broker_receive.cc:158-174 | what is posted, has to queue or is queued when the broker stops is never started |
| BrokerRuns.ExitWhileStarting | lib/dynamic/broker_receive.cc:150-156 | a run to a stopped broker in which an invocation is live, its receive thread having passed the test for mutex requests before the stop |
| BrokerInvariant.InstancesCounted | lib/core/broker_serve.cc:50-70 | in every run instanceCount is exactly the live invocations and the threads being created, and mutexCount is 0 exactly when no mutex request is queued, on its way there, or unfinished |
| BrokerRuns.HangReached | lib/core/broker.cc:210-217 | a run to a draining broker with a queued request |
| BrokerRuns.DrainingHangs | lib/core/broker.cc:210-217 | a request that is queued while the broker drains is never taken and the broker never exits |
| BrokerRuns.DrainingExits | lib/core/broker.cc:210-217 | from a reachable state in which the broker drains, some continuation exits if and only if nothing is queued |
| BrokerQueue.Queue.GetRequest | lib/core/broker_serve.cc:76-105 | if requests are counted as pending and some concurrent one is preceded by no mutex request, the first such one is taken and counted off, whatever is in front of it; else the front is taken and nothing counted off |
| Broker.TakesFirstThatMayPass | lib/core/broker_serve.cc:87-115 | the same for the serving loop's step, with the rest of the queue unchanged and in order |
| BrokerProgress.QueuedCanStart | lib/core/broker_serve.cc:76-161 | in every reachable state of a running broker a queued request is started in some continuation if and only if the broker does not drain and its constructor call has not failed |
| BrokerProgress.StopsWhenTold | lib/core/broker.cc:170-219 | from every reachable state in which the broker has been told to stop and does not drain, some continuation exits |
| Marking.CanMarshal | parser/typestruct.cc:22-38 | whatever is marked on the way, the search terminates, answers what the inductive definition says, and clears or keeps the marks |
| Marking.IsMarshallable | parser/typearray.cc:60-69 | from a graph without marks the answer is the inductive one and no mark is left |
| Marking.MeaningFixed | parser/typeequal.cc:10-19 | the inductive definition gives every type the answer its parts make |
| Marking.CyclicMeansNo | parser/typeptr.cc:52-64 | a type that reaches itself along examined edges has no derivation |
| Depiction.MeaningIsCanMarshal | parser/typetemplate.cc:46-64 | on a type graph that is a tree the inductive meaning is the answer the stub compiler's check gives the type |
| Marking.AttributesCanMarshal | parser/typestruct.cc:29-34 | the loop over attributes answers 1 if and only if all of them answer 1 |
| Marking.TemplateCanMarshal | parser/typetemplate.cc:46-64 | the loop over template elements answers 1 if and only if the template is known, not empty and no element answers 0 |
| BaseClasses.FindAllBaseClass | parser/codefile.cc:99-153 | the loop terminates on every graph, cyclic or not, and computes the two closures below |
| BaseClasses.ClosureExact | parser/codefile.cc:99-153 | full mode: the start list first, then exactly the ancestors of it and of the class, each once |
| BaseClasses.ClosureInOrder | parser/codefile.cc:99-153 | behind the start list, classes are in the order in which they are first named, looking at the class, then at the members of the list in order, and at the bases of each as declared |
| BaseClasses.VirtualClosureIs | parser/codefile.cc:118-145 | virtual-only mode: the start list and what is first named virtually among its ancestors, each once |
| BaseClasses.VirtualModeExact | parser/classmember.cc:1538-1545 | it is the start list and all virtually inherited ancestors if and only if each of these outside the start list is first named virtually |
| BaseClasses.ConsistentIsEnough | parser/classmember.cc:1538-1545 | it is, when every class is inherited always virtually or never |
| BaseClasses.BothWaysMissed | parser/codefile.cc:127-140 | a graph of four classes in which a virtual base is missed |
| Dispatch.StubReachesWrapper | parser/class.cc:1053-1113 | every pair (class number, method number) a stub of a class or a base of it sends reaches, through the brokers, the wrapper of that method |
| Dispatch.WrapperOnlyFromStub | parser/class.cc:1053-1113 | conversely a wrapper is reached only by the pair of its own stub |
| Dispatch.MethodInBaseIff | parser/class.cc:271-286 | a method is in a base class if and only if a chain of at least one public inheritance step leads to a class that declares it |
| Dispatch.StubForms | parser/class.cc:1055-1065 | a member has a stub, and a case in the broker, if and only if it is public, not hidden, no destructor, no constructor of an abstract core class, and not a virtual method to whose declaration such a chain leads |
| Dispatch.CoreReached | parser/class.cc:1096-1113 | a number below 10 is a core call if and only if a chain of bases leads to a class without bases past no class with the call's class number, and is refused otherwise |
| Dispatch.ImplicitReached | parser/class.cc:1083-1094 | number 10 reaches the constructor nobody wrote if and only if the class declares no constructor and is not abstract |
| Dispatch.NumbersDiffer | parser/class.cc:202-217 | no two methods of a class have the same number, and none is below 10 |
| Dispatch.Builder.AddMember | parser/class.cc:202-217 | a member gets 10 if it is the default constructor and the next number otherwise |
| Dispatch.OverrideKeepsFirst | parser/class.cc:259-286 | a virtual method whose declaration a public chain of any length leads to has no pair of its own when declared again; such a chain ends at a class that declares it with none above |
| PureVirtual.FindPureVirtual | parser/class.cc:288-315 | the updated list is what the traversal of the public bases and then the class makes of the old one; the flag says that there is no public base |
| PureVirtual.PureMethods | parser/class.cc:288-315 | what makes a class abstract: along a line of single public inheritance exactly what is declared pure and not implemented behind that or further down; in any class its own open methods and inherited ones that it does not implement, all declared pure by it or a public ancestor, and every one of these that none of them implements; other bases play no part |
| PureVirtual.AbstractIs | parser/class.cc:291-312 | for any class and any number of bases: its own open methods, and what a public base leaves if no later public base nor a class above that implements it, and the class does not either |
| PureVirtual.ListUpdated | parser/class.cc:301-312 | a list handed in loses what the class or a public ancestor implements and gains what they leave of an empty list |
| PureVirtual.OpenIs | parser/class.cc:301-312 | exactly the pure methods with no equal implementation later in the traversal remain |
| PureVirtual.StillPure | parser/class.cc:288-315 | from an empty list `FindPureVirtual` yields exactly the pure methods of the class and its public bases that no later declaration implements |
| PureVirtual.Erase | parser/class.cc:309-309 | exactly the equal methods are removed, the others keep their order |
| Cardinal.GetCardinalSize | parser/typearray.cc:18-58 | the scan writes the conversion of the text, brackets inside string literals and escapes left alone, and leaves the text if and only if that ends inside an escape |
| Cardinal.CardinalIsProduct | parser/typearray.cc:18-58 | for k balanced dimensions the result is their product in parentheses, k - 1 characters longer than the declarator |
| Cardinal.WrittenDimensions | parser/typearray.cc:18-58 | every dimension made of characters, string literals with escapes, and nested brackets goes into the product as it is written |
| Buffers.Rethrow | lib/core/buffer.cc:150-314 | an exception sent and checked is thrown with the same kind and value if and only if its text holds no NUL |
| Buffers.Buffer.UnPackStrings | lib/core/buffer.cc:113-130 | from a buffer that begins with n packed strings, whatever follows, exactly these are consumed and each comes out as a C string |
| Buffers.Buffer.PackStrings | lib/core/buffer.cc:100-111 | every string is appended as its length with the closing NUL and its characters |
| Buffers.CStrsWhole | lib/core/buffer.cc:113-130 | what comes out is what went in if and only if no string holds a NUL |
| Buffers.Buffer.CheckAndThrow | lib/core/buffer.cc:230-314 | a reply throws nothing, any other message throws what was sent and is read to its end |
| Interconnector.ResponsesComeBack | interconnector/popc_mpi_interconnector.cpp:183-231 | in every run every response is written to the local connection that issued the request, and answers that request |
| Interconnector.CallsAnsweredOnce | interconnector/popc_mpi_interconnector.cpp:183-231 | in every run the answer to each call that is over was written exactly once, to the connection that issued it, nothing was written for a call under way, and nothing else ever |
| Interconnector.ForwardedAnsweredOnce | interconnector/popc_mpi_interconnector.cpp:1189-1230 | every request forwarded in a run is such a call, whatever happens later |
| Waiting.AnswerArrives | interconnector/popc_mpi_interconnector.cpp:217-224 | a request from any node to any other goes through and its answer is written to the caller's connection |
| Interconnector.RunInv | interconnector/popc_mpi_interconnector.cpp:1044-1076 | in every run each channel carries one whole request or one whole response or nothing, and the maps of both nodes agree on the call |
| Interconnector.TagsAreNew | interconnector/popc_mpi_interconnector.cpp:1189-1230 | no node gives out a tag twice or one of the tags used for other messages |
| Waiting.AskingWakesIff | interconnector/popc_mpi_interconnector.cpp:1209-1222 | in every reachable state a node that waits for its request to be taken can go on in some continuation if and only if following the nodes waited for leads to one that does not ask |
| Waiting.AnsweringWakes | interconnector/popc_mpi_interconnector.cpp:1044-1076 | a node that waits for its response to be taken can always go on |
| Waiting.RingBlocks | interconnector/popc_mpi_interconnector.cpp:1209-1222 | the nodes of a ring of requests, of any length, stay blocked in every continuation |
| Waiting.MutualRequestsBlock | interconnector/popc_mpi_interconnector.cpp:1209-1222 | two nodes that forward requests to each other, or one to itself, before either is received stay blocked in every continuation |

## Left out

- RemoteCall.RemoteCallIsLocalCall: covers synchronous methods with distinct parameters, pointer-free capture-free types and sized pointers to such types, sizes that depend on unsized in-parameters and do not exceed what is there (1 for a scalar), and bodies that leave those parameters alone; no asynchronous calls, exceptions or `marshalProc`.
- Capture.MarshalsIffCaptureFree: for types without pointers and with arrays of at least one element; `Accepted.SurvivesIff` covers pointers.
- Accepted.SurvivesIff: map elements are pairs and only these are, containers hold no `void`, arrays have at least one element, as C++ has it.
- Codec.MarshalWrites: generated names do not clash with user names; a parameter called like a generated variable would.
- Types: a parallel object reference is one opaque datum, and a sequential class that serialises itself is not modelled apart; `vector<bool>` is left out; a map element is its pair type.
- Byte encodings (raw, XDR), message headers and `#line` output: the message is a sequence of scalars and strings.
- Collective groups (POG) and asynchronous allocation (APOA): the same generators under other names.
- PopRead.ReadStream.Read: the bytes asked for lie in the file; past its end what is read depends on uninitialised memory, which `PopRead.RequestAndCollect` has as a parameter.
- PopRead.ReadStream.GetRead: one outstanding grip at a time.
- PopStream.Stream.Write: no `flush` by the user inside a block, which would restore the full capacity; calls to the file managers are carried out in order, though they are declared concurrent.
- The write and the read side of POPFStream are two classes here, sharing the strips; `seekg`, `eof`, `scatter`, creation failures and standard files are not modelled. `gather` needs the block size that only reopening sets.
- The XML form of the POPFile metadata.
- BrokerQueue.Queue.GetRequest: the waits before and after taking a request are steps of the machine in `Broker`.
- Broker and Interconnector are step machines on values: a step is one critical section or one message, and the fields and global maps the threads share are parts of one state, not objects.
- RemoteCall.SomeSent: the loops of the generators over parameters are recursive functions that yield the emitted code; only the generators of the types are objects (`Emitter.Generator`).
- Broker: fairness (that a thread which can go on does), the slow-down of receive threads on long queues and the reference-count calls are environment steps or left out; increments of counters are atomic.
- Marking.CanMarshal: the answer of a sequential class is given, so the search through its base classes is not modelled; template nesting is finite.
- BaseClasses.FindAllBaseClass: direct-base lists name no class twice.
- Dispatch.StubReachesWrapper: class numbers are distinct, which `IDFromString` does not guarantee, and there is at most one default constructor in a class; inheritance is acyclic.
- PureVirtual.FindPureVirtual: method equality is equality of the compared parts, types by their expanded names.
- Interconnector.ResponsesComeBack: with `--multiple-connection`; without it a connection to an object is shared by all callers of a node, and a second request on it makes the first one's response go astray. A message's three parts are received together, and allocation, object groups and termination are not modelled.
- Buffers.Buffer.CheckAndThrow: an interface sent as an exception is left out, and scalar values are integers whatever their kind.
- Object descriptions, event queues, the XML and logging libraries, demos and services.
