# Verified model of gofra and its build runner

gofra carries IPv4 packets between a TUN device and peers over several UDP paths. It cuts one
TCP super-packet into segments, rewrites their headers, recomputes checksums, stripes the
segments over the paths that seem alive, and on the far side splits what the kernel has
coalesced back into packets. Its `build` program scans includes, orders link lines, schedules a
dependency graph on this machine and on remote hosts, and keeps every output in a
content-addressed cache.

This project models those parts in Dafny and proves what they are for. Methods and classes follow
the loops and the state of the program; each is proved against a function or predicate on values,
and the lemmas are about those. `dafny verify dfyconfig.toml` checks everything.

| files | what they model |
|---|---|
| `Options`, `Bytes`, `Congruence`, `Arith`, `Seqs`, `Graph` | optional values, bytes, sums modulo 65535, division, joined sequences, reachability in graphs |
| `Csum`, `Fields` | `csum.cpp`, and storing a sum in a field of what is summed |
| `Gso`, `GsoProof`, `Stream` | `gso.cpp`: segmentation in place, what the segments are, and what a TCP receiver makes of them |
| `Plane`, `PlaneProof`, `TunReader` | `plane.cpp`: `sendUso`, `udpReader`, the TCP branch of `tunReader`, and datagrams from end to end |
| `Conn`, `ConnTable`, `Tickets`, `Mirror`, `MirrorTable` | `conn.cpp` and the liveness store: picking a slot, slot layout and index, threads taking tickets, two nodes |
| `Step`, `StepExists`, `Redundancy` | `dev/redundancy.patch`: the step search, when it succeeds, and the K copies |
| `Link`, `Includes`, `IncludeCycles`, `IncludeLater`, `BuildGraph` | `build`: link order, include closure, cycle check, needed nodes |
| `Schedule`, `Scheduler`, `BuildOrder` | `build`: the scheduler, its bookkeeping on values, its loops and the order it gives a build |
| `Artifacts`, `Uids`, `Cache`, `RemoteRun`, `Builds`, `BuildRoot`, `Losses` | `build`: uids, the cache, remote nodes, whole histories of builds over one build root of links, blobs that are lost or spoilt |
| `Dist`, `DistWake`, `DistToken`, `DistHome`, `DistBlobs`, `DistLedger`, `DistAnswers`, `DistStable`, `DistBehind`, `DistRuns`, `DistDeliver`, `DistThreat`, `DistPolluted`, `DistForgotten` | `build`: the protocol between controller and remote host, as a machine over its steps |

What the model takes as given: a little-endian host; hashes (MD5, SHA-256) without collisions, so
a digest is its content; commands that are deterministic, read only their declared sources and the
outputs of their direct dependencies, and leave file trees; sources that do not change while a
build runs; IPv4 endpoints, at least one per peer, with distinct addresses; UDP_SEGMENT as chopping
by one size and GRO as grouping of datagrams of one path. Commands may write into the files they
are given, which are hard links to the blobs of the cache: executing a node and running a build say
exactly what then becomes of the cache, and histories (`Builds.Live`, `Builds.BuildTwice`) and remote
hosts are about commands that leave those files as they are. Clocks, the choice of what finishes or
fails next, lost connections and lost files are parameters or free choices of the model, so each
statement is about all of them.

Where the code does not meet an expected property, the model keeps the code and states when it
does:

- Chaining checksums over an odd-length first part is right exactly when the second part sums to
  a multiple of 257 (`Csum.ChecksumChainsOdd`); a checksum field at an odd offset validates under
  the same kind of condition (`Gso.GsoNoneChecksum`). Even lengths and offsets are always right.
- Three folds of a 64-bit sum are not enough (`Csum.ThreeFoldsAreNotEnough`); four are.
- A segment longer than the IPv4 length field can say is not accepted by a receiver; all others are
  (`GsoProof.SegmentAccepted`).
- A round robin over all live slots repeats or skips across a wrap of the 64-bit ticket counter
  unless the number of slots divides 2^64 (`Tickets.RotationAcrossWrap`).
- A TCP receiver gets its stream back from the segments if and only if the header length of the
  virtio header agrees with the TCP data offset, or there is only one segment
  (`Stream.StreamComesBackIff`).
- Segments fit the 2048-byte buffers of `tunReader` exactly when the header length plus the smaller of
  `gsoSize` and the payload is at most 2048 (`Gso.BuffersHoldIff`). The code does not check it and
  `tun_mtu` is read without a bound; with 9000 the kernel can hand over a packet that does not fit
  (`TunReader.JumboSegmentsDoNotFit`).
- A build puts links to the outputs into the build root and removes nothing else, so what an earlier
  build left below an output directory stays, and the links lead nowhere when their blobs are lost. The
  outputs of a requested node read as its clean build if and only if the build root held nothing below
  them that the clean build neither has nor replaces, and all its blobs are in the store when they are
  read (`BuildRoot.RootIsExactIff`), also after later events that do not write there
  (`BuildRoot.LaterReadsIff`); until the next build, if and only if none of its blobs has been lost
  (`BuildRoot.ReadsUntilLost`). An edit that makes one file fewer is an input for which something is left
  over (`BuildRoot.OldFileStays`). A later build finds and repairs losses only for what it is asked for.
- A command that writes into a file of its work tree writes into the blob: a sound cache stays sound if
  and only if what is written is what was there (`Cache.Cache.Execute`); a node and a reader that writes
  into its file are an input for which it does not (`Losses.WriteSpoilsBlob`).
- `_restore` does not notice a missing blob: the outer `except` never sees it, because a failing
  hard link falls back to a symbolic link. Blobs lost while a build runs are harmless exactly when
  none is of the manifest being restored (`Losses.LossWithinBuildIff`), and otherwise a wrong
  manifest can be stored (`Losses.LossSpoilsBuild`).
- A remote host puts the files of all dependencies into an empty tree in sorted order, where a local
  run lays them over each other one dependency after the other. With a file of one dependency where
  another has a directory the host fails; a local run fails exactly when it is the earlier one that has
  the file (`RemoteRun.LocalFailsIff`), so that is when both agree again (`RemoteRun.WorkTreesAgreeIff`,
  `RemoteRun.HostRefusesWhatLocalTakes`).
- The comment that `sent` is what the host holds is not true of every reachable state. A thread that
  took up a lost connection can enter its blobs into the ledger of the next one
  (`DistPolluted.LedgerCanBeWrong`), another job can draw a missing answer for it
  (`DistPolluted.MissingCanBeDrawn`), and then a second one for its retry
  (`DistPolluted.MissingCanBeDrawnTwice`). And on the only connection there has ever been, a host that
  loses a blob once can draw two missing answers for one job, since a thread may yet take a result that
  names the blob (`DistForgotten.LostBlobIsMissedTwice`). While a connection holds and the host keeps
  what it has, the ledger stays right for a job if and only if it is right now and neither a blob that a
  thread of an older connection has yet to claim nor one that a result on its way names can be entered
  without being on the host or on its way there (`DistThreat.LedgerStaysRightIff`, for a new connection
  `DistThreat.NewLedgerStaysRightIff`). That is also exactly when no later attempt of the job misses a
  blob (`DistThreat.NeverMissesIff`, after a missing answer `DistThreat.OneRetrySufficesIff`). If the
  host has never lost anything, results are no threat and only older threads are
  (`DistThreat.OneRetryWithoutLosses`).
- Files that include each other: the first query of a list of roots finds everything
  (`Includes.IncludeScanner.FirstClosure`), a later one can answer with a closure cached below another
  file and miss some (`IncludeCycles.LaterQueryMisses`). What it finds are the cached closures of the
  known files it comes upon and all files up to there (`IncludeLater.LaterFinds`), and it is exact if
  and only if these cover what can be reached from those known files (`IncludeLater.LaterIsExactIff`).
- The wait for a remote host in `_run` (build:2720-2724) is never entered: with at least one local
  job slot something always runs after the hand-out loop (`Scheduler.Runner.Fill`).

## Model

| member | source | states |
|---|---|---|
| Csum.ChecksumNoFold | csum.cpp:25-61 | The unrolled native-endian 128-bit sum with its one fold and byte swaps stands for the initial value plus the sum of big-endian 16-bit words modulo 65535, and tells zero from 65535; for every buffer, odd length and initial value. |
| Csum.Bswap64Is256 | csum.cpp:27 | Reversing the bytes of a 64-bit value multiplies it by 256 modulo 65535, and only zero gives zero. |
| Csum.Fold128KeepsSum | csum.cpp:52-58 | Folding 128 bits to 64 with the carry added back loses nothing modulo 65535, and only zero gives zero. |
| Csum.NoFoldMeaning | csum.cpp:25-61 | The unfolded value and the plain word sum have the same canonical 16-bit value. |
| Csum.Checksum | csum.cpp:63-72 | `checksum` is the end-around-carry sum of big-endian 16-bit words of section 1 of RFC 1071, including which of 0 and 0xFFFF comes out. |
| Csum.Rfc1071IsCanon | csum.cpp:63-72 | The word-by-word end-around-carry sum equals the remainder modulo 65535 that is zero only for an all-zero sum. |
| Csum.SumOfExample | csum.cpp:63-72 | The numerical example of section 3 of RFC 1071, and an odd last byte, give what they should. |
| Csum.FourFoldsSuffice | csum.cpp:66-71 | Four folds bring every 64-bit sum to its canonical 16-bit value. |
| Csum.ThreeFoldsAreNotEnough | csum.cpp:66-69 | Eight 0xFF bytes make an unfolded sum that still exceeds 16 bits after three folds. |
| Csum.ChecksumChains | csum.cpp:74-83 | Summing a buffer onto the unfolded sum of an even-length one is summing the two joined. |
| Csum.ChecksumChainsOdd | csum.cpp:74-83 | After an odd-length part, chaining is right if and only if the word sum of the second part is a multiple of 257. |
| Csum.PseudoHeaderChecksumNoFold | csum.cpp:74-83 | Three chained partial sums stand for the whole pseudo-header, each address filled up to whole words. |
| Fields.StoredComplementValidates | gso.cpp:50-57 | A complement stored in a zeroed field makes the region sum to 0xFFFF if and only if the field is at an even offset or the sum is a multiple of 257. |
| Gso.GsoNoneChecksum | gso.cpp:46-58 | Only the two checksum bytes change, and the L4 region with the parked pseudo-header sum then gives 0xFFFF, always for an even offset and exactly when the sum is a multiple of 257 for an odd one. |
| Gso.GsoSplit | gso.cpp:60-146 | Returns the ceiling of payload over `gsoSize`, or -1 exactly when more than `maxSegs` segments are needed or the type is not 1, TCPv4; the input changes only in its four checksum bytes; buffer i and size i hold segment i. |
| Gso.BuffersHoldIff | gso.cpp:91-102 | Buffers of a size hold every segment if and only if they hold the header and the smaller of `gsoSize` and the payload. |
| Gso.PutIpHeader | gso.cpp:104-115 | Copying, numbering and summing in place give the specified IPv4 header of the segment. |
| Gso.PutTcpHeader | gso.cpp:117-126 | The TCP header gets the sequence number advanced by `i * gsoSize` with 32-bit wrap-around and loses FIN and PSH unless last. |
| GsoProof.SegmentAccepted | gso.cpp:97-139 | For a packet of protocol 6, a receiver that checks the IPv4 total length, the header checksum (section 3.1 of RFC 791) and the TCP checksum with its own pseudo-header of addresses, 6 and length (section 3.1 of RFC 9293) accepts each segment exactly when its length fits in 16 bits. |
| GsoProof.SegmentFields | gso.cpp:97-139 | Segment i has the packet's bytes except IP length and identification (`id + i`), sequence number (`seq + i * gsoSize`), the two flags and the checksums. |
| GsoProof.PayloadIs | gso.cpp:86-103 | Segment i carries the bytes from `hdrLen + i * gsoSize` on, `gsoSize` of them or what is left, and counts as last exactly when nothing is left behind it. |
| GsoProof.WithoutFinPshIs | gso.cpp:123-126 | The mask clears FIN and PSH and leaves the other six flags alone. |
| GsoProof.ReassemblyIsIdentity | gso.cpp:86-145 | The first header with the last segment's flags and all payloads joined is the original packet up to the length and checksum fields. |
| Stream.StreamComesBackIff | gso.cpp:86-145 | By sequence number and data offset a TCP receiver puts together what it would have taken from the packet, if and only if the header length agrees with the data offset or there is one segment. |
| Plane.ChopFlatten | plane.cpp:117-161 | Cutting joined pieces by one size gives the pieces back when all but the last have that size and the last is no longer. |
| Plane.PartFits | plane.cpp:114-118 | Parts of `(segs + 7) / 8` segments are no longer than so many buffers, which is what keeps a message under what one send takes. |
| Plane.TunReaderScratch.Gather | plane.cpp:131-142 | The io vectors of a message name exactly its segments, in order. |
| Plane.TunReaderScratch.SendPart | plane.cpp:125-154 | One message carries segments i to end joined, tagged with the size, through the slot that the scan from its ticket settles on. |
| Plane.TunReaderScratch.SendUso | plane.cpp:117-162 | Message k is exactly the k-th part of `(segs + 7) / 8` segments, there are as many messages as that takes and never more than eight, each through the slot of its own ticket; chopped by the size of the first segment they give back exactly the segments. |
| Plane.UdpReaderScratch.WriteOut | plane.cpp:261-297 | The loop writes what stands behind the ten header bytes of the buffer, datagram by datagram and in order. |
| Plane.FramedPackets | plane.cpp:261-297 | Nothing is written of a payload below 20 bytes; an uncoalesced one is written whole behind ten zero bytes; of a coalesced one, frame k is ten zero bytes and the k-th piece, and together the frames are all of it. |
| Plane.UdpReaderScratch.StoreLastSeen | plane.cpp:242-246 | Exactly the slot found for the receiving socket and the sender's address is stamped. |
| Plane.UdpReaderScratch.ReadBatch | plane.cpp:227-299 | A batch writes the packets of all its messages in order and stamps exactly the slots that were heard. |
| TunReader.ForwardTcp | plane.cpp:210-221 | Split and sent: message k carries the k-th part of an eighth of the segments, and with up to 64 buffers of 2048 bytes no message exceeds 16384 bytes; what the kernel cuts from the messages is exactly the segments of the packet as it was read, in order; with too many segments nothing is sent and no ticket taken. |
| TunReader.JumboSegmentsDoNotFit | plane.cpp:31 | A packet of a device with an MTU of 9000 whose segments are longer than the buffers. |
| PlaneProof.SegmentsAreUniform | gso.cpp:86-143 | The segments of one packet all have the size of the first, but for a shorter last one, and none is below 20 bytes. |
| PlaneProof.GroupComesBack | plane.cpp:261-297 | Every legal coalescing of consecutive datagrams is split back into them. |
| PlaneProof.WrittenIsData | plane.cpp:261-297 | For every grouping, what is written to the TUN is the data datagrams that arrived, without the probes. |
| PlaneProof.SamePathsSameMultiset | plane.cpp:117-161 | Streams that agree path by path carry the same datagrams, counted with repetition. |
| PlaneProof.DeliveredAreTheSegments | plane.cpp:117-297 | End to end: whatever the paths, the interleaving and the grouping, the packets written are the segments as a multiset. |
| PlaneProof.ReadRounds | plane.cpp:226-298 | However groups are spread over the rounds of the loop, which reuses its buffers, the TUN gets what all groups come to, one after the other. |
| PlaneProof.ReadGroups | plane.cpp:238-298 | A batch whose buffers hold groups as the kernel delivers them puts on the TUN exactly what the groups come to. |
| Conn.LiveMeans | conn.cpp:85 | The unsigned age test is the plain one up to `now`, and a stamp after `now` is dead unless the wrapped age still fits in the timeout. |
| Conn.Conn.Next | conn.cpp:76-92 | Bumps the counter with 64-bit wrap-around and returns the first live slot at or after the ticket's base, or the base when none is live. |
| Conn.DeadOnlyIfAllDead | conn.cpp:81-91 | A dead slot is returned only when every slot is dead. |
| Conn.SettlesMeans | conn.cpp:76-92 | The slot the scan settles on is the base when all slots are dead, and otherwise a live one with no live slot nearer ahead of the base. |
| Tickets.EveryPickIsJustified | conn.cpp:76-92 | With any interleaving of calls and stamps, each returned slot was live when read, or is the base after all slots were read dead in that scan. |
| Tickets.PickSaw | conn.cpp:76-92 | Each look of a returned call is what some state between its ticket and its return held for that slot, and the time it is judged by is the one read at its ticket. |
| Tickets.RoundRobin | conn.cpp:76-92 | Any n consecutive tickets over n live slots use each slot exactly once across all threads, without a wrap in the window. |
| Tickets.RotationAcrossWrap | conn.cpp:78-79 | The slot after the counter wraps follows the one before it if and only if the number of slots divides 2^64. |
| ConnTable.ConnTable.constructor | conn.cpp:94-137 | A connection with the timeout for every peer but self, its slots with the source fast and the destination slow, stamped with the start time; all slots are those of the connections joined, with both indexes built. |
| ConnTable.ConnTable.AddPeer | conn.cpp:115-135 | One peer's connection gets its timeout and its n times m slots in order; the table gets just these, and the index. |
| ConnTable.ConnTable.AddSlot | conn.cpp:120-130 | A slot is appended and entered under its key, and the index stays in agreement. |
| ConnTable.EntryKeyInjective | conn.cpp:24-27 | Source index and address make a key that no other pair makes. |
| ConnTable.IndexAgreesWithScan | conn.cpp:145-149 | The keyed lookup gives what a scan of all slots for the last match gives, for every key. |
| ConnTable.LayoutSound | conn.cpp:108-132 | Every position of the layout is a slot between existing endpoints of another peer. |
| ConnTable.LayoutComplete | conn.cpp:108-132 | Every pair of endpoints with every other peer has a position. |
| Mirror.MirrorIsFound | plane.cpp:242-246 | A datagram sent through slot (i, j) is looked up by the other side as its slot (j, i), and mirroring twice is the identity. |
| Mirror.LookupIs | conn.cpp:145-149 | A slot is found exactly for its own socket and the IP address it sends to, whatever the port. |
| Mirror.StrangerIsNotFound | conn.cpp:145-149 | An address of no peer, or of the node itself, finds no slot. |
| Mirror.LastSeenIsMirrorTraffic | plane.cpp:236-246 | Over all runs, a slot's stamp is its start time or the receive time of the last datagram that came to its socket from the address it sends to: through its mirror slot, or under another port, which the key ignores. |
| Mirror.WorkingPathStaysLive | plane.cpp:302-323 | Probed every P and delivered within D with P + D within the timeout, a slot is live at every decision that is not before its stamp. |
| MirrorTable.Store | plane.cpp:244-246 | Stamping a node's table does to the times of its slots exactly what receiving does on values. |
| MirrorTable.HandleAll | plane.cpp:236-246 | Whatever arrives at whichever nodes, the tables of all nodes show what the run on values has come to, so what is proved of that run is true of them. |
| MirrorTable.NewCluster | conn.cpp:94-149 | The tables the nodes start with have separate slots, all of them, with the start time. |
| Step.GcdN | dev/redundancy.patch:136-144 | The loop computes the greatest common divisor. |
| Step.Bezout | dev/redundancy.patch:136-144 | The divisor is an integer combination of both numbers. |
| Step.VisitsAllIffCoprime | dev/redundancy.patch:151-153 | Stepping by s modulo N*M visits all slots if and only if s is coprime to N*M. |
| Step.SourceChangesIff | dev/redundancy.patch:155-157 | Each step changes the source at every slot if and only if N does not divide s. |
| Step.DestinationChangesIff | dev/redundancy.patch:159-167 | Each step changes the destination at every slot if and only if neither s/N nor s/N + 1 is a multiple of M. |
| Step.PassesIffGood | dev/redundancy.patch:150-169 | The tests of the search accept exactly the steps that visit all slots and change both ends every time. |
| Step.GoodStepNeeds | dev/redundancy.patch:150 | A good step is at least N + 1, and needs two sources and three destinations. |
| Step.FindStep | dev/redundancy.patch:146-173 | The search returns the least good step, and 0 exactly when there is none. |
| StepExists.GoodStepExistsIff | dev/redundancy.patch:146-173 | There is a good step if and only if there are two or more sources and three or more destinations, and not just two and three. |
| Redundancy.Configure | dev/redundancy.patch:291-358 | A redundancy beyond N*M is refused, and one above one exactly for the grids without a good step; else the step is the least good one, and the strict re-check never fires. |
| Redundancy.RedundantConn.NextAfter | dev/redundancy.patch:256-270 | From the current slot, the first live one along the step, or the next along the step when none is live. |
| Redundancy.RedundantConn.SendOne | dev/redundancy.patch:451-460 | K copies form a chain of such picks that starts with an ordinary one. |
| Redundancy.CopiesUseLiveSlots | dev/redundancy.patch:256-270 | With L live slots, L at least one, K copies use min(K, L) different slots, all live. |
| Redundancy.CopiesStepRound | dev/redundancy.patch:256-270 | With no slot live, or all, the copies step round the grid. |
| Redundancy.CopiesAreDiverse | dev/redundancy.patch:256-270 | Then K copies use K different slots, and with a good step consecutive ones differ in source and destination. |
| Redundancy.SlotsAreLaid | conn.cpp:108-132 | Slot i of a connection goes from the local endpoint that the step search calls its source to the peer's endpoint that it calls its destination. |
| Link.LinkLine.Walk | build:1335-1343 | The walk leaves the old list without what the target reaches, followed by the libraries it reaches, each before those it depends on. |
| Link.LinkLine.LinkLibraries | build:1333-1346 | Exactly the libraries reachable through enabled targets, none twice, each before every library it transitively depends on. |
| Link.LibrariesAre | build:1333-1346 | The libraries of a target are those that some path from it leads to over enabled targets only. |
| Includes.Resolver.Table | build:1580-1594 | The table merged from the roots in reverse answers as a first-match search through the roots. |
| Includes.Resolver.Resolve | build:1557-1594 | A lookup, memoised or not, gives the meaning of its query, which the three lemmas below say. |
| Includes.UnquotedIsOfFirstRoot | build:1580-1594 | A name in angle brackets gives the entry of the first root that has it, whatever lies next to the including file. |
| Includes.QuotedIsNextToIt | build:1557-1579 | A quoted name gives the indexed end of path for the directory of the including file, else the known file at the joined path, else that file on disk, else the entry of the first root. |
| Includes.NextIsBehindHome | build:1557-1594 | `include_next` gives the entry of the first root strictly behind the including file's home root, and of all roots when it has none. |
| Includes.DirectivesAre | build:1517-1526 | A file leads on to exactly the files its directives resolve to that are not in the store, and needs exactly the producers they resolve to. |
| Includes.IncludeScanner.ClosureOf | build:1507-1529 | On any include graph the memoised closure stays within what can be reached and contains all that was cached meanwhile; on an acyclic one it is exactly the reachable files and their producers, cut at the store, whatever was scanned before. On every graph, from every cache, the answer and the new cache are those of the walk defined on values, cyclic includes and later queries included. |
| Includes.IncludeScanner.FirstClosure | build:1507-1529 | The first query on a list of roots is exact on every graph, cyclic ones included. |
| IncludeCycles.LaterQueryMisses | build:1507-1529 | Two files that include each other and a third: the query for one is exact, the next one for the other misses the third. |
| IncludeLater.LaterFinds | build:1507-1529 | On any graph a query finds exactly the cached closures of the known files it comes upon without going through another known one, and the files up to there with what they need made. |
| IncludeLater.LaterIsExactIff | build:1507-1529 | It is exact if and only if that covers whatever can be reached from those known files. |
| Includes.IncludeScanner.ScanNode | build:1495-1505 | The inputs that are sources give exactly the files reachable from them; their producers join the dependencies, each once, behind the ones there were. |
| BuildGraph.Validator.Visit | build:1372-1381 | A raised error means a cycle, and a finished node comes after all it depends on. |
| BuildGraph.Validator.ValidateGraph | build:1370-1383 | No error is raised if and only if the graph has no cycle. |
| BuildGraph.NeededNodes | build:2766-2776 | Exactly the nodes reachable from the roots. |
| Schedule.TellKeepsInv | build:2746-2756 | Telling one consumer keeps the counts, the places and the causes, and never counts below zero. |
| Schedule.CompleteKeepsInv | build:2729-2745 | So does the end of a node, with its consumers still to be told. |
| Schedule.RequeueKeepsInv | build:2734-2736 | And putting a node back at the front. |
| Schedule.EndIsExact | build:2701-2759 | With nothing ready or running, the successes are exactly the nodes that no failing node is under, and there are errors if and only if a failing node was needed. |
| Scheduler.Runner.BestRemote | build:2783-2784 | The first host with the most free slots. |
| Scheduler.Runner.Pick | build:2778-2796 | The first ready node some allowed worker has a slot for, with the worker of most free slots, this machine first; this machine runs fewer than its jobs then, a host fewer than twice its cores and nothing that has to run here; nothing only when no node can be placed. |
| Scheduler.Runner.StartOne | build:2705-2719 | A started node has all dependencies succeeded and takes a slot that was free; with it, the jobs of its worker are no more than this machine's or twice the host's cores. |
| Scheduler.Runner.Fill | build:2704-2727 | After the hand-out loop something is running, so the run never stalls. |
| Scheduler.Runner.Settle | build:2729-2756 | One done future: when its host was lost its node goes back to the front and nothing counts as ended; otherwise it ends well or badly, raised exactly when it failed without keep-going, else counted once and its consumers told. |
| Scheduler.Prepare | build:2682-2688 | Consumers mirror dependencies with multiplicity and the counts are right. |
| Scheduler.Run | build:2677-2765 | Whatever workers do: no node starts or ends before all its dependencies ended well, none ends twice, and one that has to run here never starts on a host; the ends and losses in the log are exactly the outcomes heard, in order, so every end comes from an outcome whose host was not lost; at the end the successes are exactly the needed nodes that no failing node is under; it ends when each turn completes a node. |
| Scheduler.EndedWasHeard | build:2729-2749 | An outcome that says its host was lost ends no node. |
| BuildOrder.ScheduleIsRequest | build:2677-2765 | The nodes of a run that goes on to restore, in the order they ended, are exactly the needed ones, each once and behind its dependencies: an order in which a build can execute them. |
| BuildOrder.Scheduled | build:2677-2765 | Every run of the scheduler that restores gives such a request, and none of its nodes is a failing one. |
| Uids.HashInputs | build:1425-1436 | Every declared source is hashed, in order, with its own content; an error exactly when one is missing. |
| Uids.UidTable.Calc | build:1443-1461 | Memoised uids are the uids of the definition, and an error is raised exactly when a declared source at or below the node is missing. |
| Uids.CalculateUids | build:1438-1463 | Every node at or below the roots gets its uid, or an error exactly when a source is missing. |
| Uids.UidStaysIff | build:1443-1461 | After an edit the uid of a node is the same if and only if no source that it or anything below it declares has changed. |
| Artifacts.MeaningIsClean | build:1453-1459 | A uid determines the clean build, whose commands read the declared sources themselves: nodes with equal uids have equal outputs. |
| Artifacts.ThawOfSeal | build:3098-3157 | Restoring what was stored is the identity, with all blobs present. |
| Artifacts.ThawIsRightIff | build:3136-3157 | And only with all blobs present. |
| Artifacts.OutputsAre | build:3098-3110 | An output is there when some path is at it or below it at any depth, and all such paths are stored, each as it is. |
| Artifacts.LayIs | build:3136-3157 | Laid over a tree, the paths of a manifest stand and of the rest what is not below a file of it; that fails exactly when a file of the tree is above a path of the manifest, and leaves no path that leads through a file. |
| Cache.Cache.Cached | build:3063-3076 | A hit exactly when the manifest and all its blobs are there; otherwise the manifest is dropped. |
| Cache.Cache.Store | build:3078-3131 | Exactly the files at or below a declared output, at any depth, become blobs and the manifest; with a missing output nothing is recorded. |
| Cache.Cache.Restore | build:3136-3157 | The manifest is laid over the tree, replacing directories in its way: with `symlink` as links to the blobs, otherwise as the blobs, with links for missing ones; an unknown uid, or a file where a directory is needed, is an error and drops the manifest. |
| Cache.Cache.WriteThrough | build:3149-3154 | What a command writes into restored files is written into their blobs, and into no others. |
| Cache.Cache.Execute | build:2798-2834 | A hit runs nothing. On a miss the commands see the restored dependencies, and a manifest is stored exactly when they and their outputs succeed. From a sound cache it is what a clean build makes, and the cache stays sound if and only if the commands leave the files they were given as they were. |
| Cache.FilesMean | build:2816-2820 | In a sound cache the restored dependencies are their clean builds laid over each other. |
| Cache.HonestIffSpared | build:3149-3154 | Blobs stay what their digests say if and only if what is written into them is what was there. |
| Artifacts.LinkedReadsIff | build:3146-3148 | Through links to its blobs a tree reads as itself exactly when all of them are in the store. |
| Builds.Run | build:2655-2765 | A whole build, with nodes run here and remotely, and any commands: no node is tried before its dependencies were with success, none that could be tried is passed over, and without keep-going nothing is tried behind a failure. The cache is sound all the time if and only if the commands run here left the files they were given alone. Then success puts links to the clean build of every requested node into the build root, with their blobs in the store, needs every needed node to build, and is certain when they all do, hosts answer and no old file is in the way; a warm cache runs no command. |
| Builds.ExecuteNode | build:2704-2749 | Lost hosts put a node back, at last it runs here; it succeeds when it builds and an answering host could place its dependencies and sent its blobs; what had succeeded stays, and a sound cache stays sound exactly when its commands are not run here or spare their files. |
| Builds.Live | build:2655-2765 | Over every history of builds on one build root, with edits, failures, lost hosts and lost blobs in between: each successful build puts links to exactly what a build from nothing of the sources as they are makes into what the build root was, and their blobs are there; only losses take blobs away, and they leave the links. |
| BuildRoot.RootIsExactIff | build:3136-3157 | After a successful build the outputs of a requested node read as its clean build if and only if the build root held nothing below them that the clean build neither has nor replaces, and all blobs of the clean build are in the store, no other requested node writing there. |
| BuildRoot.LaterReadsIff | build:3146-3148 | The same at any later moment of a history in which every build in between succeeds and writes elsewhere. |
| BuildRoot.ReadsUntilLost | build:3146-3148 | Until the next build the outputs read as the clean build if and only if nothing was left over and none of its blobs has been lost. |
| BuildRoot.OldFileStays | build:3136-3157 | Two builds around an edit after which an output directory holds a file its clean build does not have, whatever is in the store. |
| Builds.BuildTwice | build:2801-2804 | Building again with nothing changed runs no command, and with the clean builds in place changes nothing. |
| Losses.LossWithinBuildIff | build:3146-3154 | Losing blobs within a build leaves the restored tree right exactly when none of its blobs is lost. |
| Losses.LossSpoilsBuild | build:2798-2834 | Two nodes executed with the blob of the first lost in between: the second's manifest is in the cache, intact, and not its clean build. |
| Losses.WriteSpoilsBlob | build:2798-2834 | Two nodes executed, the second writing into the file it was given: the first's manifest is right and intact and restores something else than its clean build. |
| RemoteRun.Place | build:2273-2283 | The host's loop fails exactly when a file is above another, and otherwise leaves the blobs at their paths. |
| RemoteRun.LocalFailsIff | build:3136-3157 | A local run fails to lay its dependencies over each other exactly when a file of one is above a path of a later one. |
| RemoteRun.WorkTreesAgreeIff | build:2273-2283 | The host and a local run agree exactly when no file is above another, or a file of one dependency is above a path of a later one and both fail. |
| RemoteRun.HostRefusesWhatLocalTakes | build:2273-2283 | A dependency that makes a directory and a later one that makes the file: a local run replaces the one by the other, the host fails. |
| RemoteRun.RemoteWorkIsLocalWork | build:2893-2901 | With all blobs on the host and no dependency's file in another's way, the remote work tree is the clean builds of the dependencies laid over each other. |
| RemoteRun.ExecuteRemote | build:2880-2950 | A node run remotely keeps the cache sound and what was intact; on a miss it is requeued exactly when all manifests of its dependencies are there and its host is lost, and from a sound cache succeeds exactly when they are, the host answers and can place its files, it builds, and all its blobs are here then. |
| DistWake.StepInv | build:2527-2587 | Every step of every thread keeps: no pending reply without a host, pending replies belong to threads on the current connection, one lock holder, no reply forgotten. |
| DistToken.EveryReplyIsCaredFor | build:2527-2587 | In every reachable state an unsignalled reply is pending for the current connection or held by a thread about to signal it. |
| DistToken.StepTokens | build:2159-2169 | While a pending thread waits on a live connection, its job or its answer is on the way. |
| DistHome.NoLostWakeupInRuns | build:2554-2587 | In every reachable state each thread in `execute` can be taken on by a step of the program that serves it and brings it nearer to the end of its attempt. |
| DistHome.AttemptComesToAnEnd | build:2554-2587 | Finitely many such steps end the attempt: the thread wakes to its answer or has left. |
| DistBlobs.OutputsAreLocal | build:2335-2351 | A thread woken by a result finds every blob it names in the local cache. |
| DistBlobs.RunningHasItsBlobs | build:2266-2283 | In every reachable state each running job was started, by a step that took this job from the host's queue, with all its blobs in the host's cache, and still has them if the host lost nothing since. |
| DistBehind.RunKeepsFrames | build:2554-2604 | In every reachable state only the current connection can be up, and as long as the host loses nothing all answers on their way are in accord with its cache. |
| DistAnswers.NoneByStep | build:2504-2604 | No step but a claim or a new connection brings within reach of a thread a result naming what the host lacks: not an answer read, signalled, sent or made, nor a reply registered or lost. |
| DistStable.SteadyStep | build:2568-2604 | On a connection that holds, with a host that keeps what it has, every step keeps the ledger right for a job that neither a thread of an older connection nor a result on its way threatens, and brings no threat. |
| DistStable.NoMissingWhileRight | build:2568-2604 | There, no attempt of a job for which the ledger was right, and which nothing threatened, finds a blob missing, in any interleaving. |
| DistRuns.UpIsOnLine | build:2504-2552 | Every reachable state whose current connection is up, whatever the host has lost, is one of which the following theorems speak. |
| DistDeliver.ResultSpoils | build:2504-2604 | Every result on its way that is not safe can come to its thread, by reading, signalling, restarting and waking alone, and puts a blob the host lacks into the ledger. |
| DistThreat.LedgerStaysRightIff | build:2566-2604 | While a connection holds and the host keeps what it has, the ledger is right for a job in every state of every run if and only if it is now, and each blob of the job that a thread of an older connection has yet to claim or a result on its way names is on the host, on its way, or will be before that thread can claim or take it. |
| DistThreat.NewLedgerStaysRightIff | build:2470-2493 | On a new connection this is so for every job if and only if the host still has what it said it kept, what threads of older connections have yet to claim, and what results still to be taken name, but for what their takers claim themselves first. |
| DistStable.MissingSetsRight | build:2590-2596 | Dealing with a missing answer that still names all that the host lacks of a job makes the ledger right for it. |
| DistThreat.NeverMissesIff | build:2566-2604 | No later attempt of a job that has nothing under way misses a blob, in any such run, under exactly the condition of LedgerStaysRightIff. |
| DistThreat.OneRetrySufficesIff | build:2590-2604 | After a missing answer one retry is enough, in every run while the connection holds, if and only if the answer named what the ledger wrongly names of the job, and then neither an older thread nor a result on its way threatens it. |
| DistThreat.OneRetryWithoutLosses | build:2590-2604 | In every run in which the host has lost nothing so far, if and only if no thread of an older connection threatens the job then. |
| DistStable.OneRetrySuffices | build:2590-2604 | Along whole runs from the start: no attempt after a missing answer draws another if that answer named all that the host lacked when it was dealt with, and nothing threatens the job then. |
| DistPolluted.LedgerCanBeWrong | build:2568-2572 | A run, without any loss at the host, to a state whose connection is up with nothing in flight and whose ledger names a blob the host lacks. |
| DistPolluted.MissingCanBeDrawn | build:2568-2587 | The run goes on to a missing answer for another job, over the connection that holds. |
| DistPolluted.MissingCanBeDrawnTwice | build:2566-2596 | It goes on to a second missing answer for the retry of that job, the connection holding from the first one on. |
| DistForgotten.LostBlobIsMissedTwice | build:2590-2604 | A run on one connection in which the host loses a blob once, before the first missing answer, and the retry draws a second one, although the ledger was right in between and no older thread existed. |

## Left out

- System calls, sockets, the TUN device, cmsg layout, privilege dropping, thread creation; errors of `read`, `write` and `sendmsg` only print in the program and are not modelled.
- `dstFromIPv4`, the lookup of the peer and the other branches of `tunReader`: dispatch only.
- Configuration parsing, command line, progress output, `publish`, pkg-config, strace, garbage collection, ssh options: no hard property.
- IPv6 endpoints and big-endian hosts, for which `entryKey` and `checksumNoFold` are not written.
- Gso.GsoSplit: asks for header fields within the packet, as the kernel gives them, and for buffers that hold the longest segment, as gso.h:31 does.
- TunReader.ForwardTcp: says nothing for packets whose longest segment exceeds the 2048-byte buffers, where the program has no defined behaviour; `Gso.BuffersHoldIff` and `TunReader.JumboSegmentsDoNotFit` say which.
- Bounds of `size_t`: buffers are shorter than 2^48 bytes and a node has fewer than 2^32 slots; Redundancy indexes are unbounded.
- UDP's special treatment of a zero checksum and CWR on the first segment, which the code does not do.
- PlaneProof.DeliveredAreTheSegments: says nothing about datagrams the network loses or reorders within a path.
- Includes.IncludeScanner.ClosureOf: the text scan for directives is not part of the model.
- Link.LinkLine.LinkLibraries: only on acyclic target graphs, as the order is not defined on others.
- Uids.UidTable.Calc: on acyclic graphs only, where its own cycle check cannot fire; the cycle check is BuildGraph.Validator.ValidateGraph.
- Scheduler.Run: the count of failed roots in the final message, which the code does not compute exactly because blocking does not spread all the way down.
- Builds.Run: nodes are executed one after the other in the order they ended, since each holds the lock of its uid and different uids touch different manifests; empty directories as outputs, and links to directories in the way of a path, are not modelled.
- BuildOrder.ScheduleIsRequest: for runs that restore; a failing run delivers nothing, and its order is any.
- Builds.Live: histories of commands that leave the files they are given alone; for others Builds.Run says of each build when the cache stays sound.
- RemoteRun.ExecuteRemote: sources reach the host as blobs too, the model passes them as declared inputs; the host's cache is taken to be honest, so commands that write into their files there are not covered.
- DistHome.NoLostWakeupInRuns: fairness of the thread scheduler is not modelled, so it says that steps can be taken, not that they are.
- `Dist`: the threads of `RemoteHost` and `ExecService` interleave, so both are one machine on values with a step for what a thread does between two points where another can come in; their fields are not a class.
- DistWake.StepInv: `close` and the bye frame and frames that cannot be parsed are not steps of the machine; a loss takes both directions of a connection at once.
