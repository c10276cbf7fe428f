# Fern-Night: the kernel's memory, processes and streams

Fern-Night is a small x86-64 kernel for several processors. This project models what it keeps in
memory as one state, with the kernel's operations as methods on it, and proves what those operations
promise together: frames of physical memory and the map of free frames (`Bitmap`, `Memory`), four-level
paging tables built of them (`Spaces`, `Reshaping`, `Pages`, `Paging`, `Sharing`, `Merging`,
`Teardown`), a process's own memory (`UserMemory`, `Allotments`, `Connecting`, `Failing`), the task
table and the life of a task from `kernel_exec` to the collector (`Lifecycle`, `Ownership`, `Births`, `Tasks`,
`Processes`, `Execution`, `Launching`, `Reclaiming`), start-up (`Boot`, `Startup`), whole runs from power-on
(`Serving`), the scheduler as a step machine over several processors
(`Scheduling`), ring streams (`Streams`) and the mailbox (`Mailbox`). Four parts stand by themselves:
the line (`Lines`), the package writer and reader (`Packages`), the run-length decoder (`Pictures`) and
the JSON compactor and walker (`Json`).

## How the state is modelled

Physical memory is a sequence of frames of 512 words (`Layout.Page`); a word is a frame number and
twelve flag bits. A `Spaces.World` is memory, the set of free frames, and two ghost maps: which frame
is handed out as what (`own`: the table or page of a space at a position, or a frame held for a space),
and how each space came about (`kind`: its own, linked to a process as its thread, or severed after
the process is gone). `Spaces.Look` is the walk of the tables; `Paging.Grants` says, bit by bit, what a processor
lets pass on it: bit 0 that an entry is there, bit 1 that it may be written, bit 2 that programs may use it. `Spaces.Inv` says that owners and tables
agree: no frame has two owners, free frames are blank, every flagged entry points at the frame its
flags claim, and nothing owned hangs loose. The process flag of an entry is then proved to say exactly
who gives the frame back (`Teardown.FlagIsOwnership`).

`Processes.System` is the kernel with its task table and streams. `System.Valid` is the invariant over
whole runs: `Start` establishes it, and every operation that succeeds keeps it (`Exec`, `Thread`,
`Exit`, `Take`, `Leave`, `Switch`, `MemoryAlloc`, `MemoryRelease`, `MemoryShare`, `Reclaim`, and `Store`
for what a program writes to its own pages). `Serving.Serve` takes any list of these, in any order and number,
each a request of any task that a processor runs, and gives the log of all states between them. Where an operation keeps it
under a condition only, its contract states the condition over the state before the call, and that it
is kept if and only if the condition holds. The invariant contains `Inv`, the agreement of every
process's memory map with its tables, that no table keeps a program from its memory, the count of references to every stream, the tree of parents, and
conservation: free and owned frames together are always the frames the system started with.

## Premises

- Page counts are at least 1 (the source counts down before it tests), and frame 0 is never free.
- A search of a memory map ends inside it: the map reaches as far as the search reads ahead, or a clear
  bit ends it, or the pages are there (`Bitmap.Bounded`; `Allotments.Session` and `Serving.Serve`
  take the first of these for each request). For the kernel's own map this is proved: it has a bit for its limit exactly when `Boot.MapCovers` says so.
- The memory map the boot loader hands over has page-aligned regions that do not overlap, and its
  largest usable region has room for the kernel's data and the map.
- The kernel has no table under top-level entry 0, where processes live. `Startup.MapKernel` proves
  that mapping at the kernel's addresses keeps this so.
- The collector takes a closed task only when no processor executes it. The source checks that for
  descendants (daemon/gc.d.c:32) and not for the task itself; `Scheduling.ClosedIsNotLeft` gives the
  state in which a closed task is still executed, and `Scheduling.ReapingIsSafe` proves that this is needed.
- A new task is activated before it can be closed: `Scheduling.ActivationIsSafe` proves that this is
  needed, and `Scheduling.LateActivationBreaks` gives the run that goes wrong without it. While its
  children are being closed a task starts no other.
- The records of a package's header are blank before they are filled. The source clears only the first
  one and sets nothing of the last but its offset (vfs.c:88-90, 159); what reads the package stops at a
  last record of length 0.
- The arguments of a new process, which are its user stack, take at most the 512 GiB under that stack's
  top-level entry.
- In `Serving.Serve` a task shares memory that is mapped, with a task that is not closed, and gives back managed
  pages that are not shared.
- The flags of a kernel mapping say that its pages are present.
- Counts of bytes are far from 2^64, where rounding them up to whole pages would wrap around.
- Addresses a program passes lie where its map reaches and its tables are there.

## What was found on the way

- `kernel_stream_in` loses the stream exactly when it was filled to the last byte from a place other
  than the first: the markers meet and nothing is read. A session is first in, first out if and only if
  no drain meets such a ring (`Streams.FirstInFirstOut`); one byte in and out and then 4096 more is such
  a session (`Streams.OverrunLoses`).
- `kernel_service_memory_share` checks neither the search nor the sharing. Map and tables of the target
  agree afterwards if and only if a place fits and the free frames suffice for the tables missing over
  it, or no place fits and they do not suffice for the tables over page 0 either (`Connecting.UserShare`).
  A process with a page among its first 512 is always left in disagreement when no place fits
  (`Connecting.NoPlaceBreaks`). Both failures are given as states (`Failing.NoFrame`, `Failing.NoPlace`).
  Whether it went well shows afterwards: the last page of the block is mapped, or without a place page 0 is
  not (`Connecting.DoneTells`).
- `kernel_service_memory_release` frees the place of a shared page in the map and leaves the page mapped:
  map and tables agree afterwards if and only if no page given back is shared, or lies below the managed
  ones (`UserMemory.UserRelease`). `Failing.SharedReturned` gives a state that meets the call's premises
  and fails the condition.
- `kernel_service_memory_release` counts as many pages as the bytes alone need, from the page the address lies in
  (kernel/service.c:171-174): from an address inside a page all bytes are given back if the last of them lies in
  the last of these pages (`UserMemory.AllReturned`), and otherwise its page stays as it was (`UserMemory.LastKept`).
- The states of `Failing` satisfy the invariant of tables and owners, the agreement of map and tables, and
  the premises of the call; tasks and streams are no part of them, and no run from the start to them is given.
- `kernel_exec` activates its task whether or not it was closed meanwhile (kernel/exec.c:183). If it was,
  the collector can take it down while a processor runs it: from every safe state, some run after the
  activation of a closed task takes it down and has a processor take it up (`Scheduling.ClosedIsTakenUp`),
  and no run does if and only if it is not closed (`Scheduling.ActivationDecides`);
  `Scheduling.LateActivationBreaks` is such a run from the start.
- `kernel_exec` and `kernel_service_thread` join the mirror's address to that of the top table before they
  test it (kernel/exec.c:44, kernel/service.c:303), so they never notice that no frame was free; nor does
  `kernel_exec` test its later requests (kernel/exec.c:71, 85, 109, 127, 133, 142, 171). The model
  answers false there.
- `kernel_page_clang` answers true when the range runs over the end of the address space, where
  `kernel_page_map` answers false (`Sharing.Clang`, `Paging.Map`).
- `lib_json` on an empty object looks for a key behind the end of the text: there is one to find if and
  only if the object has members (`Json.KeyEnds`).
- The map of physical memory has no bit for the limit when the whole bytes of the map fill its last
  page (`Boot.MapCovers`).

## Model

| member | source | states |
|---|---|---|
| `Bitmap.Acquire` | kernel/memory.c:83-117 | the skipping search finds the lowest place below the limit where n pages are free, takes exactly those, and changes nothing and answers 0 when there is none |
| `Bitmap.Dispose` | kernel/memory.c:119-122 | exactly the n pages become free |
| `Bitmap.LowestFirst` | kernel/memory.c:92-92 | in a word of the map the lowest bit is the first page's |
| `Bitmap.AcquireDispose` | kernel/memory.c:83-122 | giving back what a search took restores the map |
| `Memory.Kernel.Clean` | kernel/page.c:214-221 | every word of the n frames is empty, every other frame is untouched |
| `Memory.Kernel.AllocPages` | kernel/memory.c:62-81 | first fit among the free frames, which are blank; the counter goes down with the map; on failure nothing changes |
| `Memory.Kernel.AllocPage` | kernel/memory.c:57-60 | a free frame leaves the free ones; 0 exactly when there is none |
| `Memory.Kernel.Release` | kernel/memory.c:45-55 | the frames are blank and free, nothing else changes, and counter and map still agree |
| `Memory.Kernel.ReleasePage` | kernel/memory.c:38-43 | the same for one frame |
| `Spaces.Locate` | kernel/page.c:5-13 | a walk that reaches a table reaches one that is owned, at its own place, by the space, its process or the kernel |
| `Spaces.TableKeepsInv` | kernel/page.c:350-362 | linking a blank free frame into an empty entry keeps owners and tables in agreement |
| `Spaces.TableWalk` | kernel/page.c:350-362 | a new table changes no walk of any space except at its own place, where nothing was |
| `Spaces.LeafKeepsInv` | kernel/page.c:405-408 | writing a leaf keeps owners and tables in agreement |
| `Spaces.LeafWalk` | kernel/page.c:405-408 | a written leaf shows at its own place in the spaces whose walk comes to that table, and nowhere else |
| `Paging.Locate4` | kernel/page.c:340-343 | the four entries are the base-512 digits of the page's number |
| `Paging.Address` | kernel/page.c:5-13 | the frame that a walk to the page finds |
| `Paging.Map` | kernel/page.c:335-431 | page target+i shows frame source+i for every i mapped, through all carries; other pages of all spaces are as before unless they share the table; new tables were free frames; false exactly when not every page was mapped, for want of frames or of address space; every new table entry has the flags asked for and may be written through, and a mapped page grants presence, writing and use by programs where its flags do and the tables there before do |
| `Paging.TaggedGrants` | kernel/page.c:350-408 | where the tables that were there let pass and so do the flags of the new ones, the walk to a page of the range grants what its own entry does |
| `Paging.Alloc` | kernel/page.c:15-114 | in a process's space or the kernel's: pages already mapped stay, every other one has a frame of its own that was free and blank, owned there or held by the kernel; true if and only if the range lies in the address space and the free frames suffice for the missing pages and tables; the counter goes down by exactly the tables and pages filled; on failure the pages before are backed and nothing else has changed; every new table entry has the flags asked for, and a page grants what they say wherever the tables there before do |
| `Paging.Remove` | kernel/page.c:498-514 | exactly this page is gone, in exactly the spaces that share its table, and its frame is nobody's; a shared page stays and the answer is 0 |
| `Sharing.Clang` | kernel/page.c:116-211 | page target+i of one space shows the frame that page source+i of another had at the start; nothing owned is lost where nothing was mapped; it goes exactly as far as the free frames suffice for the tables that are missing; false only when they do not; past the end of the address space the run is cut off and answers true; new table entries have the flags asked for |
| `Sharing.SourceSteady` | kernel/page.c:186-191 | no page is read after the run wrote it, unless, within one process, the target begins inside the source behind its first page |
| `Sharing.Flags` | kernel/page.c:288-333 | exactly the pages of the range get the flags, all keep their frames, and no owner changes |
| `Merging.LinkWalk` | kernel/page.c:433-453 | below a shared entry the target reads what the source reads |
| `Merging.LinkElsewhere` | kernel/page.c:433-453 | a space that does not use the table sees nothing of it |
| `Merging.Merge` | kernel/page.c:433-496 | every page of the target is its own if it has one, else the source's, but for the two reserved entries; no owner changes, and no other space reads anything else; its own tables stay what they were |
| `Teardown.FlagIsOwnership` | kernel/page.c:223-286 | in a process's tables the process flag is set exactly on what the space owns |
| `Teardown.CutWalk` | kernel/page.c:254-281 | clearing an entry of one space is not seen by any other space |
| `Teardown.Deconstruct` | kernel/page.c:223-286 | every page, table and the top table that belongs to the space is free and blank, each once; nothing else is, and every other space reads what it read |
| `UserMemory.LinkedPage` | kernel/service.c:348-349 | under entry 0 a thread reads page for page what its process reads |
| `UserMemory.NotShared` | kernel/page.c:433-496 | two processes never walk one and the same table of a process |
| `UserMemory.LowGrants` | kernel/page.c:15-114 | in a sound system a program may read and write every page under entry 0 whose own entry says so: no table is in its way |
| `UserMemory.PagesHold` | kernel/service.c:142-142 | page x is needed for so many bytes if and only if 4096 x is less than their number |
| `UserMemory.UserAlloc` | kernel/service.c:137-164 | every byte from the address answered on lies in a page that was not there and now has a blank frame of its own, which the program may read and write; every page that changed holds one of these bytes; the pages are the first fit in the process's map; map and tables agree before and after; other processes read what they read; 0 exactly when nothing is asked for or no place below the limit has so many bytes free; it halts exactly when the free frames do not suffice |
| `UserMemory.UserRelease` | kernel/service.c:166-190 | exactly the pages of the range become free in the map; those not shared are unmapped, and their frames free and blank; map and tables agree afterwards if and only if none of them is shared or below the managed pages; in bytes: every byte that lies in one of as many pages as the bytes need, from the page of the address on, is given back, and no page changes that is not one of these |
| `UserMemory.AllReturned` | kernel/service.c:171-174 | all bytes are given back if the last lies in the last page counted |
| `UserMemory.LastKept` | kernel/service.c:171-174 | and otherwise the page of the last byte is as it was |
| `Connecting.UserShare` | kernel/service.c:192-206 | the first fit in the target's map shows the source's frames; map and tables of the target agree afterwards if and only if, before the call, a place fits and the free frames suffice for the tables missing over it, or none fits and they do not suffice for those over page 0; every byte of the block shows the byte as far behind the beginning of the source's page, for the target to read and write, and no page changes that holds none of them |
| `Connecting.DoneTells` | kernel/page.c:116-211 | of all pages of the block the last one tells whether all were shown |
| `Connecting.NoPlaceBreaks` | kernel/service.c:199-203 | for a target with a page among its first 512, no place to fit always means disagreement |
| `Connecting.Stranded` | kernel/service.c:200-203 | when frames run out on the way, the map has a page taken that is not there |
| `Connecting.Misplaced` | kernel/service.c:200-203 | when no place was found, what is shown lies below the managed pages |
| `Failing.NoFrame` | kernel/service.c:200-203 | a sound state in which the pages fit, a table is missing and no frame is free: sharing breaks the agreement |
| `Failing.NoPlace` | kernel/service.c:200-203 | a sound state in which no page of the target is free: sharing breaks the agreement |
| `Failing.SharedReturned` | kernel/service.c:166-190 | a sound state in which a shared page may be given back: giving it back breaks the agreement |
| `Processes.System.Exit` | kernel/service.c:14-24 | the task is closed and inactive, every other entry is as it was, the system stays sound |
| `Processes.System.Take` | kernel/task.c:148-148 | marking an active task that nobody executes keeps the system sound |
| `Processes.System.Leave` | kernel/task.c:14-14 | clearing the mark keeps the system sound |
| `Processes.System.MemoryAlloc` | kernel/service.c:137-164 | a sound system stays sound, with every process's map in agreement with its tables, and no other process is touched; it halts exactly when the frames do not suffice; every byte has fresh memory, and 0 only where no place has so many bytes free |
| `Processes.System.MemoryRelease` | kernel/service.c:166-190 | the system is sound afterwards if and only if no page given back is shared or below the managed ones; no other process is touched |
| `Allotments.LiveAreApart` | kernel/service.c:137-190 | over every run of allocations and releases what is handed out is what nobody has: live allocations never overlap, and every managed page is free or live |
| `Allotments.NumberIsItsAllocation` | kernel/service.c:137-190 | a live page belongs to an allocation of the run that covered it |
| `Allotments.FirstIsFirst` | kernel/exec.c:136-139 | on the map of a new process the first search answers the first page |
| `Allotments.LiveIsMapped` | kernel/service.c:137-190 | where map and tables agree, live is what is mapped |
| `Allotments.AllottedIsDeal` | kernel/service.c:137-164 | what the allocating call promises is a step of such a run |
| `Allotments.EmptiedIsDeal` | kernel/service.c:166-190 | what the releasing call promises is a step of such a run |
| `Allotments.ConnectedIsDeal` | kernel/service.c:192-207 | what the sharing call promises is, in the target's map, a step of such a run |
| `Allotments.Session` | kernel/service.c:137-190 | a program that gives back only what it has may call in any order: the machine halts only at a request, with no frame left, and otherwise the system is sound at the end; the calls are such a run over the map's own books, each block handed out is apart from all blocks the program had then, those it still has are mapped and its own, and a request is refused only when it asks for nothing or no place fits |
| `Allotments.HasFromTo` | kernel/service.c:137-190 | a program has a block from the call that handed it out to the one that gives it back |
| `Processes.System.MemoryShare` | kernel/service.c:192-206 | the system is sound afterwards if and only if the condition of `Connecting.UserShare` held before, and if and only if the last page of the block, or without a place not page 0, is mapped after; no other process is touched then |
| `Tasks.ChildDescends` | daemon/gc.d.c:24-26 | what comes from a child of a task comes from the task |
| `Tasks.CountedStep` | kernel/stream.c:39-48 | when an entry changes its references and the counts follow, every count equals its references again |
| `Tasks.ReferredInUse` | kernel/stream.c:39-48 | no task in use refers to a freed slot |
| `Tasks.SlotLeft` | kernel/stream.c:9-12 | while some task has not both its streams there is a free slot: `kernel_stream` cannot run out of slots |
| `Execution.NewMap` | kernel/exec.c:132-139 | the map of a new process: exactly the pages from the first one on are free, but for those of the program |
| `Execution.Furnish` | kernel/exec.c:43-133 | just the pages of its context stack, of a user stack as long as the arguments, and of its program are in the new space, with the flags each has, and the frames of its map are held; all of these frames were free; every other space is as it was; it fails only where one of its requests for frames cannot be met |
| `Execution.Finish` | kernel/exec.c:173-180 | the new space reads the kernel's pages wherever it has none of its own, but for the entries of the stacks, where there is nothing else; the pages of program and stacks are its own; the frames the file was read to are free and blank |
| `Execution.MergedComplete` | kernel/page.c:433-496 | merging gives a new space its own pages and, elsewhere, those of the space merged into it |
| `Execution.FurnishThread` | kernel/service.c:302-336 | just the two pages of its context stack and the page of its user stack are in the new space; it fails only where no frame is free |
| `Execution.Attach` | kernel/service.c:348-349 | the thread's stack pages are its own, everywhere else it reads what its creator reads, and under the stacks' entries nothing; it counts as a thread of the creator's process; each may be used as its own entry says |
| `Launching.AddTask` | kernel/task.c:70-113 | the first free entry, a new identifier larger than its parent's, nothing else changed; no entry only when none is free; of its flags only the claim is set |
| `Launching.OpenStream` | kernel/stream.c:5-37 | the first free slot, one user, a buffer of its own |
| `Launching.Connect` | kernel/exec.c:141-171 | a new input; the output is the creator's input if the flow says so and it has one, or where the creator writes if the flow says so and that is set, or a second new stream if not, or the new input itself; one user more for each; counts stay exact; it fails for want of frames only |
| `Launching.Exec` | kernel/exec.c:5-187 | a sound system stays sound; every page of the new process is determined: the pages of program, user stack and context stack are its own with their flags, elsewhere it reads the kernel's pages; each own page can be reached, written and used by the program exactly as its flags say, through all its tables; in all other spaces nothing changes, and its output is as `Launching.Connect` says; it fails only where the table has no free entry or one of its requests for frames cannot be met |
| `Launching.Thread` | kernel/service.c:297-355 | a sound system stays sound; every page of the thread is determined: the pages of its two stacks are its own, and everywhere else it reads what its creator reads; it uses the creator's map and adds a user to its streams; it fails only where the table has no free entry or no frame is free |
| `Reclaiming.Child` | daemon/gc.d.c:20-38 | it ends, because identifiers grow from parent to child; every task in use that comes from p is inactive and closed, no other entry has changed |
| `Reclaiming.ReleaseStream` | kernel/stream.c:39-48 | one user less; with the last one the buffer is free and the slot is |
| `Reclaiming.LinkedIsBare` | daemon/gc.d.c:54-60 | a thread owns nothing under the entries it shares |
| `Reclaiming.Scrub` | daemon/gc.d.c:54-60 | a thread's top table keeps the reserved entries only, and nothing is freed by that |
| `Reclaiming.ThreadDescends` | daemon/gc.d.c:48-48 | a thread that is not yet about to go comes from its process, so the process never goes first |
| `Reclaiming.TakeDown` | daemon/gc.d.c:54-66 | exactly what the space owns, and the frames of a process's map, are freed |
| `Reclaiming.Reclaim` | daemon/gc.d.c:46-72 | a sound system stays sound; descendants are closed, the entry is free, its streams have a user less each; exactly what the task owned is free, and everything other spaces read stays; no flag of the entry is set |
| `Ownership.OneOwner` | kernel/page.c:223-286 | a frame that is some process's own shows at one position only, in that process and its threads, and on a stack in one of them only |
| `Ownership.OwnedIsNotFree` | kernel/page.c:223-286 | and it is not free |
| `Processes.ProcessesApart` | kernel/exec.c:43-139 | in a sound system no frame is the own page of two processes |
| `Boot.MapCovers` | kernel/init/memory.c:66-69 | the map has a bit for the limit, to stop every search, if and only if its whole bytes do not fill its last page |
| `Boot.FramesAreBytes` | kernel/init/memory.c:55-56 | a frame counts to a region if and only if all its bytes lie in it |
| `Boot.LimitIsReached` | kernel/init/memory.c:48-48 | no region of RAM ends behind the limit, and one ends there |
| `Boot.InitMemory` | kernel/init/memory.c:5-79 | free are exactly the usable frames but those of the kernel's data and the map, all blank; the counter is ahead by exactly the reclaimable frames |
| `Boot.AdmitAll` | kernel/init/free.c:28-39 | every registered area becomes free and blank |
| `Boot.InitFree` | kernel/init/free.c:5-46 | from here on the number of set bits is the counter, and every free frame is blank; nothing in use was touched; it fails exactly when its list of areas finds no room, and then changes nothing |
| `Startup.KernelSpace` | kernel/init/page.c:6-7 | the kernel's top table is a blank frame that was free |
| `Startup.MapKernel` | kernel/init/page.c:40-41 | mapping at the kernel's addresses shows the frames asked for, leaves top-level entry 0 to processes and takes nothing from anyone; and keeps every table of the kernel passable |
| `Startup.MapAll` | kernel/init/page.c:9-51 | any list of such mappings: all show at the end if they do not overlap and nothing ran out |
| `Startup.KernelReaches` | kernel/init/page.c:9-51 | from power-on on, the kernel may read a page that is there and write it if its own entry says so: none of its tables is in the way |
| `Startup.KernelStack` | kernel/init/page.c:44-45 | the kernel's context stack has fresh blank frames the kernel holds, if and only if the free frames suffice |
| `Startup.InitPage` | kernel/init/page.c:5-55 | the kernel's space after all its mappings: owners and tables agree, and every frame is free or on the kernel's books; unless no frame is left, mappings that do not overlap and lie in the address space all show, and the context stack, where no mapping took it, has frames the kernel holds |
| `Startup.NullStream` | kernel/init/stream.c:9-18 | the buffer of the kernel's stream is a frame that was free |
| `Startup.FirstSystem` | kernel/init/task.c:15-24 | the system with the kernel's entry and its null stream only is sound; entry 0 has the top table and the stream |
| `Startup.Start` | kernel/init/free.c:5-46 | base case of all runs, after any list of kernel mappings: the first system is sound, every frame of RAM but the kernel's data and map is free or owned, the counter counts the free ones, mappings that do not overlap and lie in the address space all show, and the kernel has its context stack; it fails only where a request for frames cannot be met, and then the usable frames but the kernel's are free or owned |
| `Serving.Serve` | kernel/service.c:5-355 | any list of task starts, exits, switches, memory calls, writes and collections, of any tasks: each request that may be made does what its operation promises, any other nothing, and the system is sound after each, up to the first that fails for want of an entry, of frames, or of what sharing needs |
| `Serving.ServeOne` | kernel/service.c:5-355 | one request: a sound system stays sound or the failure is one of the named ones; an allocation and a sharing fail if and only if the state before is one in which they must |
| `Serving.MayIsRightful` | kernel/service.c:5-355 | just those requests may be made whose operation's premises hold |
| `Serving.Isolated` | kernel/service.c:137-207 | over every run, whatever all others do, a process and its threads can read just the frames they could read, at the same addresses, until a request changes the memory of that process or takes it down |
| `Serving.PowerOn` | kernel/init/free.c:5-46 | over every run from power-on in which no request fails the system is sound, every frame of RAM but the kernel's data and map is free or has its owner, and the counter counts the free ones |
| `Scheduling.StartIsSafe` | kernel/init/ap.c:61-62 | the start, every processor on entry 0, is safe |
| `Scheduling.NextIsSafe` | kernel/task.c:5-20 | every step of every processor, of task creation, of exit and of the collector keeps it safe |
| `Scheduling.RunIsSafe` | kernel/task.c:134-164 | every state of every run is safe |
| `Scheduling.MutualExclusion` | kernel/task.c:8-20 | in every interleaving a task other than entry 0 is on at most one processor, its exec flag is set exactly while it is on one, and no task is taken down while it is on one |
| `Scheduling.Closer` | kernel/task.c:138-163 | while a task stays ready the distance from a processor's place to it never grows, and drops at each selection |
| `Scheduling.Bypassed` | kernel/task.c:17-17 | while a task stays ready and is not taken up, a processor selects fewer tasks than the table has entries |
| `Scheduling.TakenUpAwake` | kernel/task.c:145-145 | in every run of the step machine a task that is taken up is active, on no processor and awake, and one passed over is not |
| `Scheduling.ClosedIsNotLeft` | kernel/service.c:18-20 | a run from the start leads to a state where a task is closed and its processor still executes it |
| `Scheduling.ReapingIsSafe` | daemon/gc.d.c:46-72 | taking down a closed task keeps the state safe if and only if no processor executes it |
| `Scheduling.ActivationIsSafe` | kernel/exec.c:182-183 | activating a task on no processor keeps the state safe if and only if the task is not closed |
| `Scheduling.ClosedIsTakenUp` | kernel/exec.c:182-183 | from every safe state with a processor, activating a closed task that is on no processor leads to a state where it is taken down while a processor has it |
| `Scheduling.ActivationDecides` | kernel/exec.c:182-183 | in no run from there on is the task taken down while held, if and only if it is not closed when it is activated |
| `Scheduling.LateActivationBreaks` | kernel/exec.c:182-183 | activating a task closed meanwhile leads to a state where it is taken down while a processor has it |
| `Scheduling.Select` | kernel/task.c:134-164 | the entry marked was active, on no processor, and its sleep had run out; every entry nearer around the table was inactive, executed or asleep; no other entry changes |
| `Scheduling.Switch` | kernel/task.c:5-20 | the task's mark is cleared, and the entry marked then is the nearest after it, itself last, that was active, on no processor and awake; no other entry changes |
| `Streams.Ring.Out` | kernel/stream.c:50-91 | a write is taken whole at the end of what is pending, or dropped whole, exactly when it does not fit or the stream is closed or null |
| `Streams.Ring.In` | kernel/stream.c:133-167 | a drain takes everything pending, in order, and leaves the stream empty; it reads nothing exactly when the stream is empty, closed, or was filled to the last byte from a place other than the first |
| `Streams.Ring.SetMeta` | kernel/stream.c:194-219 | the description is replaced exactly when the markers meet |
| `Streams.Session` | kernel/stream.c:50-167 | whatever the calls, the ring takes and hands out what the session of calls determines from its first state |
| `Streams.FirstInFirstOut` | kernel/stream.c:50-167 | over every session, what is drained and what is pending are what was accepted, in order, if and only if no drain meets a ring filled to its last byte from a place other than the first |
| `Streams.OverrunLoses` | kernel/stream.c:154-160 | a session in which 4096 accepted bytes never come out |
| `Mailbox.SentOne` | kernel/service.c:56-88 | overwriting a slot whose time has run out keeps every live message in one slot exactly |
| `Mailbox.ReceivedOne` | kernel/service.c:90-135 | a live message in a slot is one that was sent and not yet received; taking it leaves no second copy |
| `Mailbox.Later` | kernel/service.c:56-135 | time passing keeps slots and messages in agreement |
| `Mailbox.Box.Send` | kernel/service.c:56-88 | the sender finds a slot no later than the clock has gone on by more than a message's life; the message is sent with its data, no live message is overwritten |
| `Mailbox.Box.Receive` | kernel/service.c:90-135 | what is received was sent, unchanged, to this task, of this kind, in its time, and never received before; nothing is answered only when there is no such message; the clock is read anew at each slot |
| `Lines.StepIsClose` | library/shared/rgl.c:107-110 | one step keeps the pixel within half a pixel of the line and goes on along the longer side |
| `Lines.CloseIsInside` | library/shared/rgl.c:102-111 | a pixel that close stays between the ends, and the last one is the end |
| `Lines.Line` | library/shared/rgl.c:87-112 | exactly max(dx,dy)+1 pixels between the clamped ends, each nearest to the line, each next to the one before, all inside the picture, and no other pixel changes |
| `Packages.DecodeEncode` | vfs.c:34-41 | a record reads back from its bytes in the layout of the structure |
| `Packages.RecordBytes` | vfs.c:34-41 | which byte of a record says what, the lowest first |
| `Packages.FillHeader` | vfs.c:107-174 | links, names, sizes and offsets of all records |
| `Packages.AppendFile` | vfs.c:185-205 | the write position is the offset the header says |
| `Packages.Pack` | vfs.c:83-222 | the package has the header's records, every file at its offset, whole words and the magic word last |
| `Packages.Check` | library/vfs.c:14-23 | accepts exactly when the last whole word is the bytes 23 56 46 53 |
| `Packages.Init` | library/vfs.c:35-43 | every record up to the blank one has its offset from the package's address; the files and everything else in the header are as they were |
| `Packages.Find` | library/vfs.c:25-33 | the record of the name; none exactly when no record has it; the empty name is the last record's |
| `Packages.Read` | library/vfs.c:45-50 | the file's bytes |
| `Packages.RoundTrip` | vfs.c:83-222 | for every directory with distinct names of 1 to 42 bytes and every address: the package holds every file at its offset and is accepted, and once installed every file is found and comes back byte for byte |
| `Pictures.Unpack` | library/shared/image.c:66-110 | packets, which may cross rows, fill exactly the cells of the picture, row by row from either end |
| `Pictures.PaintedAll` | library/shared/image.c:90-110 | cell (r,c) shows pixel (h-1-r or r)*w+c of the expansion |
| `Pictures.Parse` | library/shared/image.c:35-116 | the decoding for run-length types 9 and 10; a refused file leaves the target untouched |
| `Pictures.ParseEncoded` | library/shared/image.c:35-116 | whatever picture is written, cut into raw and run packets in any way, as blue, green, red and alpha or as numbers of colours in a map: every cell becomes the word whose four bytes are its pixel's alpha, red, green and blue, in the row order the header gives, and nothing else changes |
| `Pictures.EncodedReads` | library/shared/image.c:66-110 | packets written from pixels expand to the words of these pixels' colours |
| `Json.CompactOfSpread` | library/shared/json.c:15-52 | whatever blanks lie between the tokens, closing up leaves the tokens |
| `Json.CompactOfFlat` | library/shared/json.c:15-52 | closing up again changes nothing |
| `Json.Cohesion` | library/shared/json.c:15-52 | the text before the zero is closed up in place, and nothing behind the old end changes |
| `Json.Cohesive` | library/shared/json.c:15-52 | any spacing of any value closes up to its compact form, which closes up to itself |
| `Json.TokensAreText` | library/shared/json.c:15-52 | the compact form is its tokens in a row |
| `Json.ValueIsNested` | library/shared/json.c:54-101 | braces of a compact form are balanced, so that counting them finds its end |
| `Json.Parse` | library/shared/json.c:54-101 | key, type, place and length of one member, and where the next one starts |
| `Json.Walk` | library/shared/json.c:120-149 | walking the members of any object that has members gives exactly its keys and values, in order |
| `Json.KeyEnds` | library/shared/json.c:54-57 | in the text of an object there is a quotation mark to end the first key at if and only if the object has members |

## Left out

- Serving.Serve: locks and the interleaving of two requests, each of which is one step; streams, messages and sleep.
- Serving.Isolated: the frames a process reads, not what is in them.
- Launching.Exec: when it fails, what it allocated before is not accounted for; the source returns early without undoing it.
- Launching.Thread: the same.
- Execution.Furnish: reading the file, its ELF headers, libraries and links are not modelled; the program is a number of pages, and what exec writes to them and to the stacks is not stated.
- Processes.System.MemoryShare: the frame may be freed by its owner while the target still shows it, so the program's writes (`Processes.System.Store`) go to its own pages only.
- Sharing.Clang: a target that begins inside the source, behind its first page and in the same process, is excluded; pages read there would be the ones just written.
- Sharing.Flags: for pages of the kernel only, the one use the source makes of it (kernel/library.c:217).
- Reclaiming.Child: one step as far as the creation of tasks goes; a task that is still executed could start another one behind the scan.
- Reclaiming.Reclaim: waits are modelled as the wait's end; the guard that nobody executes the task is a precondition.
- Scheduling.NextIsSafe: each flag update is one step; the source's read-modify-write of the flags word is not atomic.
- Boot.InitMemory: some usable region is large enough for the kernel's data and the map; the halt without a memory map is not modelled.
- Startup.Start: tables of tasks and streams are values, not frames, and the mappings are a list of which each lies among the kernel's addresses.
- Pictures.Parse: image types 1 and 2, a non-empty identification field, packets that do not expand to the picture, and sizes whose product leaves 32 bits.
- Packages.Pack: directories, paths and the growth of the buffers; the list of names and contents is the input.
- Packages.Read: reading the two links, whose size is the directory's in whole pages.
- Json.Walk: arrays, escapes and malformed text; `lib_json_key` and the conversion of numbers.
- Json.Cohesion: text with a backslash, or that begins with a quotation mark, which is compared with the character before it.
- Mailbox.Box.Send: the clock is a parameter that never goes back.
- A process's memory map is an array beside the frames that are held for it.
- Locks are steps of the scheduler's machine or taken for granted elsewhere.
- `kernel_memory_share` and the framebuffer, page counters of tasks, `kernel_task_by_id`, libraries and symbols, daemons, storage.
- Registers, stacks' contents, interrupts, timers, drivers and everything else that is an effect on hardware.
- Window manager, terminal, fonts, shell and programs; floating-point code; string and sorting helpers.
