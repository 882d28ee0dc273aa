# RTL8821CE driver: verified models

Models of the parts of the RTL8821CE Wi-Fi driver (a port of Linux rtw88) that keep state across
interleavings or interpret data, with proofs about every run or every input. One module per part:

- `TxRing`, `RxInterrupt`, `DeepPowerSave`: the PCIe rings, the interrupt and NAPI protocol, and power
  saving over the rings. What each lock makes atomic is one step; a run is any sequence of steps of
  the driver's threads and the device.
- `RsvdPage`, `FifoDump`, `H2cMailbox`: the firmware side: reserved pages, the windowed FIFO dump and
  the four-box command mailbox.
- `PhyTable`, `TxPowerLimit`, `TxPowerRate`, `Dig`: the conditional register tables, the transmit power
  tables with their base-relative form, and the gain controller.
- `Efuse`: the log-structured EFUSE format, decoder and encoder.
- `Coex`, `CoexTables`: the Bluetooth coexistence decisions, and what they put on an 8821C.
- `Beamformee`: the beamformee slot allocator.
- `Wrappers`: the option type they share.

Each module has the state and the operations as functions, what is proved about them as lemmas, and
the driver's in-place form as a class or method whose postcondition ties it to those functions.
Names ending in `Iff` state the exact condition of something the code does not do in general.

Verify with `dafny verify dfyconfig.toml`.

Register reads, polls, timing and what other parts of the driver or mac80211 do are parameters: the
model lets them take any value. Integer widths are written out where they matter: the `u8` page
counters and loop counters, the `u16` dump index, the `s8` power tables, the `u8` gain index.

Of the PCIe device `RxInterrupt` assumes that a status bit is latched while it is masked and that a
latched, unmasked bit keeps the interrupt asserted. The comment at RTL8821CE/pci.c:1148-1155 can be
read as saying that masking also keeps status bits from being raised; with such a device a frame
received while everything is masked would have no status to tell of it.

Where the source's words and its code differ, the model follows the code:

- The comment at RTL8821CE/coex.c:1073 says that a table is written again after a slot-toggling
  pattern; the code tests the reason of the run instead. Either way the registers end up the same.
- The message at RTL8821CE/ps.c:218 says that LPS comes before deep power save; RTL8821CE/wow.c:638-645
  sets the deep flag without it. `DeepPowerSave.WowNoLinkSafeIff` says when that is safe.
- The worldwide domain is kept as the least of all domains, but rows of its own and the cross
  reference can break that; `TxPowerLimit.TrueMinimumIff` and `TxPowerLimit.ParsedBelowIff` give the
  exact conditions.

## Model

| member | source | states |
|---|---|---|
| TxRing.RingSafety | RTL8821CE/pci.c:772-1013 | From an empty ring, over every interleaving of producer, kick-off, device and interrupt handler: frames retire in the order they were queued, each once, and the rest is still queued; queue length equals (wp - rp) mod len and is at most len - 1; a drained ring longer than 6 is not stopped; with no kick due, the doorbell shows everything queued; slot (rp + k) mod len covers the mapped bytes of the k-th queued frame |
| TxRing.StepKeeps | RTL8821CE/pci.c:799-1013 | Each single event (descriptor write, commit under the lock, stop test, clearing of tx_queued, kick-off, device progress, interrupt handler) keeps the whole ring invariant, including that slot (rp + k) mod len describes the k-th queued frame and that a stop flag means at least len - 6 frames are outstanding |
| TxRing.RunKeeps | RTL8821CE/pci.c:799-1013 | The invariant holds after every run of events |
| TxRing.IsrKeeps | RTL8821CE/pci.c:940-1013 | The interrupt handler's drain, with the wake-up at more than 4 free descriptors, keeps the invariant |
| TxRing.NeverFailsToDequeue | RTL8821CE/pci.c:959-970 | The handler's count never exceeds the queue, so the "failed to dequeue" branch is unreachable |
| TxRing.LiveDescriptorsUntouched | RTL8821CE/pci.c:806-845 | No event rewrites the descriptor of a frame that is still queued |
| TxRing.DeviceReadsTheQueue | RTL8821CE/pci.c:814-845 | Whatever the device may consume next, up to the doorbell, are the descriptors of the queued frames it has not finished, in order; the two segments of each start at the frame's mapping and cover descriptor and frame without gap or overlap |
| TxRing.DescribeCovers | RTL8821CE/pci.c:831-840 | A written descriptor: the first segment is the transmit descriptor at the mapped address, the second starts where the first ends, together they are exactly the mapped bytes, and psb_len is the least number of 128-byte blocks for them |
| TxRing.NeverStrandsIffOneQueue | RTL8821CE/pci.c:916-1013 | A drained ring leaves no mac80211 queue stopped, over all runs, if and only if all frames of the ring come from one mac80211 queue; the management and multicast rings take frames of any queue (tx.c:731-750), so they do not meet this |
| TxRing.FillWithStrands | RTL8821CE/pci.c:929-935 | The failing run itself: a ring filled from one queue except for its last frame, then drained, leaves the last frame's queue stopped |
| TxRing.StopsWhenAlmostFull | RTL8821CE/pci.c:930-935 | The stop test stops the ring, and the mac80211 queue of the frame queued last, exactly when at most one more frame fits |
| TxRing.WakesIff | RTL8821CE/pci.c:979-987 | The drain wakes a stopped ring exactly when it retires a frame and ends with at least six free descriptors; the one mac80211 queue that it wakes is that of the first frame retired with five free |
| TxRing.KickCatchesUp | RTL8821CE/pci.c:772-797 | Clearing the queued bit and kicking off leaves the doorbell at everything queued, the bit clear and the kicks that others owe as they were |
| TxRing.RunKeepsInStep | RTL8821CE/pci.c:929-1013 | With a single mac80211 queue, that queue is stopped exactly while the ring's flag is set, after every run |
| TxRing.ResetKeepsIffNotStopped | RTL8821CE/pci.c:537-547 | Zeroing the indices and freeing the frames gives a good ring again if and only if the ring was not stopped: the flag survives the reset |
| TxRing.ResetKeepsStop | RTL8821CE/pci.c:537-547 | The failing case itself: a ring filled up and stopped, then released, is empty with its flag and its mac80211 queue still stopped |
| TxRing.Slot | RTL8821CE/pci.h:154-160 | The index k steps on is inside the ring and k steps away by the handler's own count |
| TxRing.PciTxRing.constructor | RTL8821CE/pci.c:395-473 | A new ring is the empty one and satisfies the invariant |
| TxRing.PciTxRing.WriteDescriptor | RTL8821CE/pci.c:799-849 | Fails with -ENOSPC exactly when len - 1 frames are queued; else writes at wp, and nowhere else, a descriptor that covers the frame's mapped bytes |
| TxRing.PciTxRing.Enqueue | RTL8821CE/pci.c:851-866 | Queues the frame, advances wp with wrap-around, and sets tx_queued: the commit event |
| TxRing.PciTxRing.StopWhenLow | RTL8821CE/pci.c:916-938 | Stops the frame's mac80211 queue and sets the flag when fewer than 2 descriptors are free |
| TxRing.PciTxRing.KickOffQueue | RTL8821CE/pci.c:772-787 | Writes wp to the doorbell |
| TxRing.PciTxRing.RetireFrame | RTL8821CE/pci.c:964-1008 | One iteration of the drain loop: the head frame leaves the queue, with the wake-up test at the current read index |
| TxRing.PciTxRing.TxIsr | RTL8821CE/pci.c:940-1013 | The drain loop as a whole equals the retire event: as many frames as the device finished, the right queue woken at the right iteration, rp at the device's index |
| TxRing.PciTxRing.RetireFrames | RTL8821CE/pci.c:965-1010 | The drain loop over the counted descriptors reaches the ring with exactly that many frames retired |
| TxRing.RetireOne | RTL8821CE/pci.c:964-1008 | Loop body and event agree at every iteration |
| RxInterrupt.NoLostWakeup | RTL8821CE/pci.c:480-1198 | Over every interleaving of device, hard handler (raised by this device or another on the line), threaded handler, NAPI poll, its tail, and the steps of stop and start, with tails and late handlers outstanding across them, but for one step (see StepKeepsIff): an unread frame of a running interface has NAPI scheduled or polling or about to look again, or a handler pending or at work, or ROK latched (or about to be) and unmasked; frames that are not counted in rx_done included; every frame is delivered once, in order, or unread; finished transmit work has a latched status or a handler too |
| RxInterrupt.StepKeeps | RTL8821CE/pci.c:480-1198 | Every single step but the losing one, masking, unmasking and each part of stop and start included, keeps the invariant behind that, with the poll's reads cut to what is left of its budget |
| RxInterrupt.StepKeepsIff | RTL8821CE/pci.c:1161-1198 | A step leads from a good state to a good state if and only if it is not the losing one or there is nothing to lose; the losing one is a handler thread that serves a receive status after the rings were released and before napi_enable |
| RxInterrupt.RunKeeps | RTL8821CE/pci.c:1650-1687 | The invariant holds after every run without the losing step |
| RxInterrupt.PollKeepsBudget | RTL8821CE/pci.c:1650-1687 | Over every run: the counted frames read since the poll function was entered are at most its budget, napi_complete_done is reached only with fewer, and a read leaves NAPI scheduled exactly when it uses the budget up |
| RxInterrupt.RunWithinBudget | RTL8821CE/pci.c:1661-1670 | The same by induction over the steps of a run, with the poll's work_done equal to the frames it has counted |
| RxInterrupt.PollStepWithinBudget | RTL8821CE/pci.c:1041-1117 | One step of the poll: the frames it counts never take the poll beyond its budget |
| RxInterrupt.PollTakesWhatFits | RTL8821CE/pci.c:1060-1063 | A round of the poll takes every unread frame, or as many as use up what is left of the budget: no more and no fewer |
| RxInterrupt.QuietRunsAreLegal | RTL8821CE/pci.c:570-600 | No run meets the losing step when no other device interrupts between the return of synchronize_irq and the next napi_enable |
| RxInterrupt.QuietLineLosesNothing | RTL8821CE/pci.c:570-600 | So on such a line no wake-up is lost over any run |
| RxInterrupt.SomeoneReads | RTL8821CE/pci.c:1143-1198 | Not only is someone responsible for an unread frame: with the device quiet, at most 12 steps of the responsible party read one |
| RxInterrupt.ResponderProgresses | RTL8821CE/pci.c:1650-1687 | Each of those steps is possible, and either reads in order or lowers the bound |
| RxInterrupt.SomeoneRetires | RTL8821CE/pci.c:1143-1198 | Finished transmit work is retired too: with the device quiet, at most 5 steps of the hard and the threaded handler do it, from every good state |
| RxInterrupt.FinishedIsRetired | RTL8821CE/pci.c:1143-1198 | So whenever the device finishes frames on a running interface |
| RxInterrupt.TxResponderProgresses | RTL8821CE/pci.c:1161-1198 | Each of those steps is possible, and retires or lowers the bound |
| RxInterrupt.StatusIsTakenOver | RTL8821CE/pci.c:1119-1141 | Recognizing hands every latched status to the thread and leaves none to interrupt with |
| RxInterrupt.TailsAreConserved | RTL8821CE/pci.c:1671-1682 | Over every run each completed poll enables interrupts once and looks at the ring once more, or still has that in front of it |
| RxInterrupt.InterruptsAndStops | RTL8821CE/pci.c:570-600 | A device interrupt takes an enabled interrupt with an unmasked status; only a running interface stops and only a stopped one starts |
| RxInterrupt.FreshIsQuiet | RTL8821CE/pci.c:537-600 | Before the first start nothing is latched and only the device, another device and napi_enable can take a step |
| RxInterrupt.StartCoveredIff | RTL8821CE/pci.c:570-582 | With no handler or poller under way, starting is safe if and only if nothing was received since the release or its status is still latched |
| RxInterrupt.SharedIrqWhileStoppedLoses | RTL8821CE/pci.c:1143-1198 | A losing run: another device on the shared line (pci.c:1632-1635) interrupts after the release; the handler clears the status of a received frame while NAPI is disabled, and after the start nobody is left to read it |
| RxInterrupt.SharedIrqWhileStoppingLoses | RTL8821CE/pci.c:584-600 | A second one, from any quiet running interface: the interrupt comes after synchronize_irq and before the release, the handler thread runs only after it |
| RxInterrupt.LateHandlerLoses | RTL8821CE/pci.c:1143-1198 | The common end of both: from a released ring with a frame and a woken handler, the handler and a start leave the frame without a reader |
| RxInterrupt.PciRxRing.constructor | RTL8821CE/pci.c:537-557 | A new receive ring is the empty one |
| RxInterrupt.PciRxRing.DeviceWrites | RTL8821CE/pci.c:1023-1039 | The device's write appends one frame and touches no unread entry |
| RxInterrupt.PciRxRing.ReadEntries | RTL8821CE/pci.c:1060-1111 | The loop over the entries: delivered in ring order, rp with wrap-around, the counted ones counted |
| RxInterrupt.PciRxRing.RxNapi | RTL8821CE/pci.c:1041-1117 | The loop reads exactly the first min(unread, limit) entries in ring order and returns how many of them count against the budget |
| DeepPowerSave.DeepPowerSaveSafety | RTL8821CE/ps.c:212-301 | Over every interleaving of power-save code and ring events without wake-on-WLAN: DEEP implies LEISURE_PS; the flag agrees with the last request to the firmware; and without FW_FEATURE_TX_WAKE no descriptor of a data, management or multicast ring that was handed over is incomplete while DEEP is set |
| DeepPowerSave.StepKeeps | RTL8821CE/pci.c:602-665 | Each step, with the queue scan before entering and the leave before a doorbell write, keeps that |
| DeepPowerSave.TxKeeps | RTL8821CE/pci.c:772-787 | Each ring event keeps that: kick-off leaves deep power save before the doorbell is written, and while DEEP is set the device has nothing to finish |
| DeepPowerSave.ClearingBranchNeverTaken | RTL8821CE/ps.c:259-275 | The branch of __rtw_leave_lps that clears the flag by itself is never taken, over all runs, wake-on-WLAN included |
| DeepPowerSave.EnterCompletes | RTL8821CE/ps.c:212-286 | From every good state entering runs to its end, and then DEEP is set exactly when it was, or it is supported and firmware wakes on transmit or the six data, management and multicast queues are empty; flag and firmware agree |
| DeepPowerSave.LeaveCompletes | RTL8821CE/ps.c:259-294 | Leaving runs to its end too, with both flags clear and the firmware told, whether LPS was on or not |
| DeepPowerSave.TxLeavesDeepIff | RTL8821CE/pci.c:772-787 | Of the ring events, a doorbell write without FW_FEATURE_TX_WAKE leaves deep power save, and no other does |
| DeepPowerSave.QueuesAre | RTL8821CE/pci.c:613-621 | The queues that are looked at are all but beacon and H2C |
| DeepPowerSave.WowNoLinkSafeIff | RTL8821CE/wow.c:638-645 | Wake-on-WLAN without a link sets DEEP directly: the safety above survives that step if and only if DEEP was set already |
| DeepPowerSave.WowNoLinkFromBoot | RTL8821CE/wow.c:638-645 | The failing state itself: right after power-on the step gives DEEP without LEISURE_PS and without a request to the firmware |
| DeepPowerSave.PowerSave.PciDeepPs | RTL8821CE/pci.c:602-665 | The loop over the queues enters deep power save exactly when every queue but beacon and H2C is empty, or the firmware wakes on transmit |
| DeepPowerSave.PowerSave.KickOffQueue | RTL8821CE/pci.c:772-787 | On return the doorbell shows everything queued and, without firmware support, DEEP is clear |
| DeepPowerSave.PowerSave.Enter | RTL8821CE/ps.c:277-286 | Nothing happens while wl_force_lps_ctrl is set; else LEISURE_PS is set on return, and DEEP exactly when it was before, or it is supported and the transmit path allows it |
| DeepPowerSave.PowerSave.LeaveChecked | RTL8821CE/ps.c:259-275 | Both flags are clear on return, and a DEEP flag found set is cleared without telling the firmware |
| DeepPowerSave.PowerSave.Leave | RTL8821CE/ps.c:288-294 | Both flags are clear, the firmware was told, and the clearing branch was not taken |
| RsvdPage.BuildListIsPermutation | RTL8821CE/fw.c:1553-1620 | On success the build list holds every active packet exactly once and at most one dummy more, its head is a beacon, or the dummy exactly when no active packet is a beacon; it fails exactly when there is no active packet |
| RsvdPage.ActiveIs | RTL8821CE/fw.c:1569-1588 | A packet takes part if and only if an interface has it that is no access point, or one while an access point is active |
| RsvdPage.InsertKeeps | RTL8821CE/fw.c:1569-1588 | Inserting beacons at the head and the rest at the tail keeps beacons first and loses nothing |
| RsvdPage.PassesAgreeIff | RTL8821CE/fw.c:1645-1708 | For packets of at most 255 pages: the 8-bit page recorded in the first pass and the total agree with the second pass for every packet if and only if the pages add up to at most 255 |
| RsvdPage.PassesAgree | RTL8821CE/fw.c:1310-1313 | Up to that sum both passes count the pages that the frames really need, the first with room for the descriptor |
| RsvdPage.FrameAtPage | RTL8821CE/fw.c:1315-1326 | With the transmit path's descriptor in front, frame i starts at byte page * page_size (the first one right behind the descriptor), is whole, and ends before the next frame starts, with less than a page unused between: the copies are disjoint, inside the buffer and as close as pages allow |
| RsvdPage.NoPageWasted | RTL8821CE/fw.c:1310-1313 | Every frame gets the pages it needs and no more: it ends at or before the next frame's page, less than a page in front of it |
| RsvdPage.DownloadCounts | RTL8821CE/fw.c:1537-1551 | The pages counted for the download are the pages of the layout, so a buffer that the first pass accepted is not refused; with the descriptor the buffer fills them exactly |
| RsvdPage.RsvdPages.Gather | RTL8821CE/fw.c:1553-1620 | The nested loops over interfaces and packets build exactly that list; -EINVAL leaves it empty |
| RsvdPage.RsvdPages.GatherVif | RTL8821CE/fw.c:1569-1588 | An access point that is not active contributes nothing, any other interface all its packets |
| RsvdPage.RsvdPages.FirstPass | RTL8821CE/fw.c:1645-1681 | Succeeds exactly when every frame was built and any packet at page 0 is a beacon or dummy; records page and frame of each packet, modulo 256 as the code does |
| RsvdPage.RsvdPages.PlaceFrame | RTL8821CE/fw.c:1645-1680 | One packet of the first pass |
| RsvdPage.RsvdPages.SecondPass | RTL8821CE/fw.c:1688-1712 | Fills a zeroed buffer with the padded frames one after another, and drops every frame |
| RsvdPage.RsvdPages.CopyFrame | RTL8821CE/fw.c:1700-1711 | One packet of the second pass: earlier frames untouched, the rest still zero |
| RsvdPage.ListToBuf | RTL8821CE/fw.c:1315-1326 | Writes the frame at its page's place and nothing else |
| RsvdPage.RsvdPages.Build | RTL8821CE/fw.c:1622-1723 | For pages adding up to at most 255: succeeds exactly when every frame was built, the head may lead and the pages fit rsvd_drv_pg_num; the buffer is the padded frames in order; every packet's recorded page is where its frame is, less than a page behind the end of the frame before it; no frame is kept in either case |
| RsvdPage.RsvdPages.ReleaseFrames | RTL8821CE/fw.c:1716-1722 | Drops every frame and nothing else |
| RsvdPage.RsvdPages.ProbeReqLocation | RTL8821CE/fw.c:1020-1035 | Returns the page of the last probe request with the SSID; 0 if and only if there is none, since only the head is at page 0 |
| FifoDump.DumpIsFlatIff | RTL8821CE/fw.c:1805-1835 | For every start and word count: each buffer entry holds the word of a flat read if and only if the words fit the 16-bit index and the start is aligned or the dump stays in its first page |
| FifoDump.WalkIsFlatIff | RTL8821CE/fw.c:1817-1832 | The same for the k-th word alone |
| FifoDump.LastStoredNext | RTL8821CE/fw.c:1824-1825 | Which word an entry holds last when the u16 index wraps |
| FifoDump.PacketBuffer.ReadWindow | RTL8821CE/fw.c:1820-1830 | The inner loop, to the end of the page or of the dump |
| FifoDump.PacketBuffer.ReadFifoPage | RTL8821CE/fw.c:1805-1835 | The nested loops terminate, each entry holds the last word stored in it, the rest of the buffer is untouched, and the page field and the clock bit are put back |
| FifoDump.DumpFifo | RTL8821CE/fw.c:1837-1893 | Success if and only if the chip has FIFO addresses, the size is a positive multiple of 4 and a transmit or receive dump's 32-bit end address is within bounds; then an aligned dump of at most 65536 words is the flat contents from the FIFO's base plus the offset; on failure the buffer is untouched |
| FifoDump.DumpBase | RTL8821CE/fw.c:1847-1850 | Where a dump starts: the FIFO's first page plus the offset, and for the reserved pages rsvd_boundary pages of 128 bytes further |
| FifoDump.Check | RTL8821CE/fw.c:1855-1890 | The checks in terms of their result: -ENOTSUPP exactly without FIFO addresses, and -EINVAL only for an empty or unaligned size or for a transmit or receive dump whose 32-bit end address lies beyond the FIFO's |
| FifoDump.AcceptedEndsInBoundsIff | RTL8821CE/fw.c:1855-1868 | A transmit or receive dump that passes the checks ends in bounds if and only if its end address does not wrap at 32 bits |
| FifoDump.WrappedEndIsAccepted | RTL8821CE/fw.c:1862-1863 | The failing case itself: eight bytes whose end wraps to 4 pass |
| H2cMailbox.LosslessFifo | RTL8821CE/fw.c:392-442 | Over every run with the firmware reading in turn: what it has read is a prefix of what was sent; at most four commands are unread; the calls so far are, in order, the sent ones merged with the timed-out ones, and the one in progress |
| H2cMailbox.StepKeeps | RTL8821CE/fw.c:392-442 | Each register write and each firmware read keeps the mailbox invariant |
| H2cMailbox.RunKeeps | RTL8821CE/fw.c:392-442 | The invariant holds after every run |
| H2cMailbox.PollFreeHasRoom | RTL8821CE/fw.c:427-435 | The polled flag is clear exactly when fewer than four commands are unread |
| H2cMailbox.UnreadBoxesUntouched | RTL8821CE/fw.c:437-441 | No step changes a box that the firmware has not read |
| H2cMailbox.CallsAreAccountedFor | RTL8821CE/fw.c:392-442 | From any state: every call ends up sent or dropped, neither order is disturbed |
| H2cMailbox.H2cBoxes.FirmwareReads | RTL8821CE/fw.c:392-442 | The firmware reads boxes in turn while their flags are set |
| H2cMailbox.H2cBoxes.PollBox | RTL8821CE/fw.c:427-435 | The poll succeeds exactly when a box was free or the firmware freed one meanwhile |
| H2cMailbox.H2cBoxes.SendCommand | RTL8821CE/fw.c:392-442 | With the firmware reading in every gap: the command is appended to what was sent exactly when the poll succeeds, else dropped, and what was read stays a prefix |
| H2cMailbox.H2cBoxes.WriteMessage | RTL8821CE/fw.c:437-441 | The message register is written last and commits the command |
| PhyTable.FlatIsMeaning | RTL8821CE/phy.c:1173-1216 | For every sequence of plain writes and IF/ELIF/ELSE/ENDIF blocks and every chip description, interpreting the flattened tiles gives the writes of the first branch whose condition holds, else of the ELSE, else none |
| PhyTable.HoldsIff | RTL8821CE/phy.c:1125-1168 | For every value of the nine fields of a condition word: it selects a chip if and only if its cut, package and interface are each zero or the chip's and its front end type is the chip's; the other fields do not matter |
| PhyTable.KindIs | RTL8821CE/phy.c:1183-1213 | For every value of the fields: pos with branch 3 ends a block, with 2 switches to the ELSE, with 0 or 1 opens a branch; neg without pos is a check; neither is a write |
| PhyTable.EveryWordPacks | RTL8821CE/main.h:1839-1849 | Every 32-bit word is such a condition word, so that both hold of every tile |
| PhyTable.OneItem | RTL8821CE/phy.c:1183-1215 | The same for one block, and the state behind it is clear again |
| PhyTable.TraceIsLiveWrites | RTL8821CE/phy.c:1173-1216 | For arbitrary tiles: a plain tile is written if and only if the tile governing it is a check whose condition is the first in its section to hold, or an ELSE with none before it, or the section's opening; in table order |
| PhyTable.StateIs | RTL8821CE/phy.c:1183-1213 | The two flags of the interpreter, at every tile, said without running it |
| PhyTable.OneMatchPerSection | RTL8821CE/phy.c:1200-1212 | Between two ENDIF tiles at most one check is honoured, and nothing that another tile governs is live behind it |
| PhyTable.ParseTable | RTL8821CE/phy.c:1173-1216 | The loop over an array of words calls do_cfg with exactly those writes, an odd last word left out |
| PhyTable.TileAt | RTL8821CE/phy.c:1175-1176 | Tile k is words 2k and 2k + 1 |
| TxPowerLimit.WorldwideIsLeast | RTL8821CE/phy.c:1613-1644 | After all rows a worldwide cell is the least of max_power_index and every clamped row for the cell, of whatever domain, counted from the last row for the worldwide domain itself |
| TxPowerLimit.TrueMinimumIff | RTL8821CE/phy.c:1613-1644 | It is the least over all rows if and only if no row before the last worldwide row lies below all rows from that one on; always, without worldwide rows |
| TxPowerLimit.DomainIsLast | RTL8821CE/phy.c:1633-1643 | The cell of any other domain is its last accepted row, clamped, or max_power_index |
| TxPowerLimit.SetLimitAt | RTL8821CE/phy.c:1613-1644 | What one row does to every cell: its own, the worldwide one, no other; a row out of range changes nothing |
| TxPowerLimit.WorldwideBelow | RTL8821CE/phy.c:1633-1643 | Without worldwide rows, worldwide is at or below every domain after all rows |
| TxPowerLimit.WorldwideBelowAll | RTL8821CE/phy.c:1740-1775 | And still after the domains without rows were filled from their alternative or from worldwide |
| TxPowerLimit.XrefSettles | RTL8821CE/phy.c:1646-1713 | After the cross reference an HT/VHT pair is equal or has neither side at the maximum; nothing below the maximum changed; nothing was raised; a second application changes nothing |
| TxPowerLimit.WorldwideBelowAfterXrefIff | RTL8821CE/phy.c:1646-1713 | Whether worldwide stays at or below a domain through the cross reference: if and only if the domain's cell was not filled from a pair that lies below a worldwide limit of its own |
| TxPowerLimit.ParsedBelowIff | RTL8821CE/phy.c:1740-1777 | The same for the limits in use, from any table without worldwide rows |
| TxPowerLimit.XrefCanBreakWorldwide | RTL8821CE/phy.c:1740-1777 | A table of two rows for which worldwide ends above a domain: 20 against 10 |
| TxPowerLimit.TxPowerTables.SetTxPowerLimit | RTL8821CE/phy.c:1613-1644 | The update in place of one row |
| TxPowerLimit.TxPowerTables.CopyBand | RTL8821CE/phy.c:1715-1728 | One channel loop of the copy |
| TxPowerLimit.TxPowerTables.CopyDomain | RTL8821CE/phy.c:1715-1738 | The nested loops copy exactly one domain's limits |
| TxPowerLimit.TxPowerTables.XrefPair | RTL8821CE/phy.c:1646-1664 | One pair at one channel |
| TxPowerLimit.TxPowerTables.XrefSections | RTL8821CE/phy.c:1666-1685 | The four pairs of one channel |
| TxPowerLimit.TxPowerTables.XrefAll | RTL8821CE/phy.c:1687-1713 | All domains, both widths, all 5 GHz channels, and nothing else |
| TxPowerLimit.TxPowerTables.FillDomains | RTL8821CE/phy.c:1753-1774 | The loop over domains in place equals filling them all at once, since no domain that is copied from is itself written; the alternatives are those of regd.c:521-532 |
| TxPowerLimit.TxPowerTables.FillDomain | RTL8821CE/phy.c:1754-1773 | One domain: configured, by alternative, or by worldwide |
| TxPowerLimit.Source | RTL8821CE/phy.c:1753-1774 | Whose limits a domain gets: its own exactly when it has rows or is the worldwide one, else those of its alternative if that has rows, else the worldwide ones |
| TxPowerLimit.Alternative | RTL8821CE/regd.c:521-541 | IC, Chile and Mexico fall back on FCC, the other six on ETSI; FCC, MKK, ETSI and the worldwide domain have no alternative, so that alternatives do not chain |
| TxPowerLimit.TxPowerTables.ParseTable | RTL8821CE/phy.c:1740-1777 | The whole parser in place |
| TxPowerLimit.FindInRange | RTL8821CE/phy.c:1574-1611 | A 5 GHz channel's index is the place of that channel in the table |
| TxPowerLimit.FindFinds | RTL8821CE/phy.c:1598-1602 | The search for a 5 GHz channel misses none |
| TxPowerLimit.Target | RTL8821CE/phy.c:1623-1631 | The cell of an accepted row is inside the arrays |
| TxPowerLimit.TargetIs | RTL8821CE/phy.c:1590-1631 | A row is accepted if and only if domain, width and rate section are in range and its band has its channel; its cell is that domain, width and section at the channel's place |
| TxPowerLimit.ChannelAt | RTL8821CE/phy.c:1581-1588 | The 5 GHz channel at each of the 49 places: seven groups of seven, two apart, from 36, 52, 100, 116, 132, 149 and 165 |
| TxPowerRate.SectionsPartition | RTL8821CE/phy.c:119-139 | Every rate lies in exactly one rate section, the one the mapping at phy.c:2123-2147 gives; other numbers in none |
| TxPowerRate.BaseRate | RTL8821CE/phy.c:2355-2359 | The base rate of a section lies in that section: MCS7 of a VHT section, the last rate of any other |
| TxPowerRate.PowerByRate.ConfigSection | RTL8821CE/phy.c:2348-2369 | Reads the base, stores it, and subtracts it, modulo 256, from exactly the section's rates of one path |
| TxPowerRate.PowerByRate.Config | RTL8821CE/phy.c:2371-2379 | After the nested loops every offset of every path is the original less the original base of its own section, and every base is the original |
| TxPowerRate.BaseRestores | RTL8821CE/phy.c:2364-2368 | The rewrite loses nothing, for every offset and base: adding the base back in an s8 gives the offset there was, and without overflow what is stored is the difference |
| TxPowerRate.PowerByRate.constructor | RTL8821CE/phy.c:2427-2438 | All offsets zero, in arrays of the driver's shape |
| TxPowerRate.PowerLimits.ShiftBand | RTL8821CE/phy.c:2381-2396 | One channel loop of the limit rewrite |
| TxPowerRate.PowerLimits.ShiftSection | RTL8821CE/phy.c:2381-2396 | Both channel loops |
| TxPowerRate.PowerLimits.Config | RTL8821CE/phy.c:2398-2409 | Every limit of every domain less path A's base of its section, once |
| TxPowerRate.LimitRestores | RTL8821CE/phy.c:2382-2396 | Adding the base of its section and band back to a rewritten limit gives the limit there was |
| TxPowerRate.CellIsOfBand | RTL8821CE/phy.c:2178-2187 | Table by channel and index by band never disagree: the cell read is one of the band, in range |
| TxPowerRate.GetTxPowerLimit | RTL8821CE/phy.c:2149-2196 | The loop over widths with its error exit returns the least limit up to the width the rate allows, or the maximum when a domain, rate or channel is not valid |
| TxPowerRate.Widest | RTL8821CE/phy.c:2168-2174 | The widths that count: 20 MHz for CCK and OFDM, up to 40 MHz for HT, up to the current width for VHT |
| TxPowerRate.Least | RTL8821CE/phy.c:2176-2188 | That is a lower bound of every limit read and of the maximum, and one of them |
| TxPowerRate.ReadShifted | RTL8821CE/phy.c:2149-2196 | After the rewrite the same cells are read, each less the base |
| TxPowerRate.ShiftedLimit | RTL8821CE/phy.c:2149-2196 | The minimum over widths commutes with the rewrite up to the cap at the maximum |
| TxPowerRate.RewriteMeans | RTL8821CE/phy.c:2348-2409 | On any path, base plus the lesser of new offset and new limit is the least of the offset, the limit moved by the difference of the two bases, and base plus maximum |
| TxPowerRate.PathAKeptIff | RTL8821CE/phy.c:2348-2409 | On path A the rewrite preserves the lesser of offset and limit for every rate, band, domain, width and channel, without s8 overflow, if and only if that is at most base plus maximum: always when the base is not negative |
| TxPowerRate.OtherPathKeptIff | RTL8821CE/phy.c:2381-2396 | On any path, whatever its base: if and only if either the offset is the lesser one and is above neither the limit against this path's base nor that base plus maximum, or the limit is the lesser one and the bases are equal with the limit at most base plus maximum, or this path's base is the greater with the limit just base plus maximum |
| Dig.BoundsOrderedIff | RTL8821CE/phy.c:436-460 | Lower bound at most upper bound, both inside the overall range, if and only if not linked or min_rssi is at most 240 |
| Dig.BoundsAre | RTL8821CE/phy.c:436-460 | The bounds in closed form, for every signal strength: linked, from the strength kept in 28..64 to 15 above it, and the wrapped top beyond 240; else 28 to 42 |
| Dig.GainMoves | RTL8821CE/phy.c:462-487 | What the false alarms of a tick do to the index before the bounds: 2 down for few, nothing, 1 up and 2 up for more, twice as much up when a linked station's signal has become weaker |
| Dig.RecordedInBounds | RTL8821CE/phy.c:516-575 | A recording tick's new index lies inside the bounds of that tick |
| Dig.NeverWrapsAfterFirst | RTL8821CE/phy.c:516-575 | Over every run with min_rssi at most 240 while linked: once one tick has recorded, the index stays inside the overall range |
| Dig.NeverWraps | RTL8821CE/phy.c:537-556 | So the u8 addition and subtraction of the next tick never wrap |
| Dig.StepNeverWraps | RTL8821CE/phy.c:537-556 | Neither wraps from any index inside the overall range |
| Dig.RunTracks | RTL8821CE/phy.c:489-514 | After n recordings the low min(n, 8) trend bits compare consecutive indices and the history arrays hold the latest indices and false-alarm counts, for every run |
| Dig.RecordTracks | RTL8821CE/phy.c:489-514 | Each recording keeps that |
| Dig.PatternImpliesTrend | RTL8821CE/phy.c:400-434 | After three recordings the damping test's own comparisons repeat what the trend bits already say |
| Dig.OscillatesIff | RTL8821CE/phy.c:400-434 | Over every run, from the fourth recording on: damping starts if and only if what was recorded swung, said of the recorded indices and false-alarm counts without the bitmap |
| Dig.DampedTickIff | RTL8821CE/phy.c:386-396 | A damped tick is suppressed if and only if the signal is within 3 of where damping began and fewer than 22 ticks have been suppressed; otherwise damping ends |
| Dig.DampingIsBounded | RTL8821CE/phy.c:386-396 | Damping suppresses at most 22 ticks in a row, over every run |
| Dig.DampingLasts | RTL8821CE/phy.c:386-396 | And does suppress that many while the signal strength stays within 3 |
| Dig.DmInfo.constructor | RTL8821CE/phy.c:236-253 | A controller that was just allocated, after its first initialisation |
| Dig.DmInfo.PhyInit | RTL8821CE/phy.c:242-253 | Initialisation resets histories and trend and takes the index from the register; damping and signal strengths stay |
| Dig.DmInfo.CheckForDamping | RTL8821CE/phy.c:373-434 | The test with its updates in place |
| Dig.DmInfo.Recorder | RTL8821CE/phy.c:489-514 | The shift of both histories and of the trend bits in place |
| Dig.DmInfo.StepIgi | RTL8821CE/phy.c:537-563 | The loop over the thresholds picks the first that is exceeded; the result is clamped |
| Dig.DmInfo.DigTick | RTL8821CE/phy.c:516-575 | One tick in place, with its outcome |
| Beamformee.AllocatorSafety | RTL8821CE/bf.c:10-105 | Over every run where association starts from role NONE: the SU counter equals the SU interfaces and the set bits, the MU counter the MU interfaces, SU interfaces hold distinct slots below the maximum, and below the limit the free-slot search succeeds |
| Beamformee.AssocKeepsIff | RTL8821CE/bf.c:30-105 | Association keeps that agreement if and only if the interface had no role or the call returns early: station unknown, no beamforming in common, or the limit of its kind reached |
| Beamformee.DoubleAssociationLeaks | RTL8821CE/bf.c:78-104 | The failing case itself: one interface associated twice counts twice and loses its first slot for good |
| Beamformee.DisassocKeeps | RTL8821CE/bf.c:10-28 | Disassociation always keeps it |
| Beamformee.SearchSucceeds | RTL8821CE/bf.c:91-101 | The search at bf.c:95 finds a free slot whenever the counter is below the limit |
| Beamformee.RunKeeps | RTL8821CE/bf.c:10-105 | The agreement holds after every run |
| Beamformee.DisassocUndoesAssoc | RTL8821CE/bf.c:276-316 | Disassociating restores counters, bitmap and the other interfaces |
| Beamformee.EntriesSafety | RTL8821CE/bf.c:10-316 | With at most two single-user slots, over every run from idle: a hardware entry that is set names an interface that is a beamformee now and uses that entry, and with the last beamformee gone no entry is set |
| Beamformee.DisassocLeavesNoStale | RTL8821CE/bf.c:276-316 | Disassociating clears the interface's own hardware entry and no other |
| Beamformee.AssocLeavesNoStale | RTL8821CE/bf.c:188-206 | Associating leaves no entry that names an interface without a role |
| Beamformee.RunLeavesNoStale | RTL8821CE/bf.c:10-316 | The same after every run |
| Beamformee.DisassocLeavesEntryIff | RTL8821CE/bf.c:276-316 | In every reachable state: disassociating leaves another interface's hardware entry if and only if the leaving interface has no role or uses a different entry |
| Beamformee.DisassocCanTakeEntry | RTL8821CE/bf.c:276-316 | The failing run itself, with the 8821C limits: after a single-user and then a multi-user association, disassociating the first clears the entry that holds the second |
| Beamformee.OwnedAfterAssocIff | RTL8821CE/bf.c:59-104 | With the 8821C limits every beamformee keeps its own hardware entry through an association if and only if the association does not bring a multi-user beamformee and the holder of single-user slot 0 together (rtw8821c.c:1152-1181) |
| Beamformee.DisassocKeepsOwned | RTL8821CE/bf.c:276-316 | Once every beamformee holds its own entry, disassociating keeps that so |
| Beamformee.BfInfo.Associate | RTL8821CE/bf.c:30-105 | Association in place, with the loop over the bitmap |
| Beamformee.BfInfo.Disassociate | RTL8821CE/bf.c:10-28 | Disassociation in place |
| Efuse.RoundTrip | RTL8821CE/efuse.c:20-85 | Decoding any encoded list of blocks (below 128, one- or two-byte header, some word present), ended by the protected bytes or a blank header, gives its meaning: the map, or -EINVAL at the same word |
| Efuse.AcceptedIsEncoding | RTL8821CE/efuse.c:40-85 | Conversely any bytes that decode are the encoding of some list of blocks followed by the end of the log, and the map is what those blocks mean |
| Efuse.LastWriterWins | RTL8821CE/efuse.c:70-82 | That meaning, byte by byte: the last block that writes a byte wins, all others keep the blank; it exists if and only if no block writes past the map |
| Efuse.ParsedImage | RTL8821CE/efuse.c:146-174 | Together: what parsing an encoded image over an all-0xff map yields |
| Efuse.HeaderReadsBack | RTL8821CE/efuse.c:20-28 | The header macros read back block number and word mask from either header form |
| Efuse.BitsOfWordEn | RTL8821CE/efuse.c:22-23 | The word mask's bits say which words are absent |
| Efuse.SomeWordMakesEncodable | RTL8821CE/efuse.c:20-30 | Which blocks have an encoding that is not taken for the end of the log |
| Efuse.LogicalGuardIsExact | RTL8821CE/efuse.c:74-80 | For every word that a header in a log can address, the one check on the logical offset keeps both byte writes inside the map if and only if the map's size is even or beyond the last block |
| Efuse.DumpLogicalMap | RTL8821CE/efuse.c:40-85 | The loop over the physical map terminates, stays in bounds on arbitrary bytes, and writes exactly what decoding says |
| Efuse.DumpWords | RTL8821CE/efuse.c:70-82 | The loop over one block's words |
| Efuse.StoreWord | RTL8821CE/efuse.c:79-80 | Two bytes of the map and no other |
| Coex.CoexSafety | RTL8821CE/coex.c:2534-2665 | Over every run of notifications, HID news, entering and leaving power save, IPS and initialisation on the 8821C: bt_game_hid_exist stays false, wl_coex_mode is never 2GFREE, every RF-parameter, table and TDMA selection of an action is in its array; tdma_on agrees with the pattern number; and every step that takes a run to its exit, the runs that entering and leaving power save bring about included, leaves TABLE0/TABLE1 with entry cur_table |
| Coex.StepKeeps | RTL8821CE/coex.c:2788-2853 | Each single event keeps that, and keeps the registers matching cur_table unless it is an initialisation or power-on setting without a shared antenna |
| Coex.RunKeeps | RTL8821CE/coex.c:2534-2665 | One run of the machine, with the run that leaving power save nests inside it |
| Coex.TdmaKeeps | RTL8821CE/coex.c:1158-1276 | Setting a TDMA pattern, with that nested run |
| Coex.RunsKeep | RTL8821CE/coex.c:2534-2665 | The same over runs of any length |
| Coex.InRangeIff | RTL8821CE/coex.c:1877-1923 | With the 8821C's arrays, for everything a run can see: the selections leave their arrays if and only if a game controller is known, on 2.4 GHz with Bluetooth on, and either native power save meets the transmit direction, or a connected shared antenna meets the transmit direction or a case for table 33 or 34 |
| Coex.GameHidStrays | RTL8821CE/coex.c:3279-3367 | With MIMO power save support, two pieces of news about a game controller lead to RF parameter 6 of 6: the support flag (rtw8821c.c:2032) is what keeps selections in range |
| Coex.InitLoadsIff | RTL8821CE/coex.c:2694-2747 | Initialisation leaves the registers with entry cur_table if and only if the antenna is shared |
| Coex.ReentryDecidesNumber | RTL8821CE/coex.c:1127-1276 | After a TDMA change the pattern is the outer one and its number is that of the run nested through rtw_leave_lps, if that ran; the two belong together if and only if both patterns have the same bytes |
| Coex.SelectedPatternStays | RTL8821CE/coex.c:1217-1276 | The pattern that is selected already is not written again unless forced, since the recorded switch agrees with the recorded number after every run |
| Coex.RunsWhen | RTL8821CE/coex.c:2544-2580 | Each cause that turns a run away leaves everything as it was; without any of them an action runs |
| Coex.ForcesLpsIff | RTL8821CE/coex.c:1178-1191 | A pattern takes power save away from firmware exactly with bit 4 of its first byte set and bit 5 clear, or in 2GFREE |
| Coex.IsGameHidIff | RTL8821CE/coex.c:3327-3352 | A HID device is a game controller if and only if it was told about, has a handle from 1 to 15, the vendor 0x46, and the name Wir or Xbo |
| Coex.ListedIs | RTL8821CE/coex.c:3300-3312 | A new handle list resets what is known of every device, 0xff stands for none, and none of them is a game controller yet |
| Coex.InitialisedIs | RTL8821CE/coex.c:2694-2747 | What initialisation leaves behind from any state outside power save: nothing known, table 1 and pattern 0, the registers and the pattern those of the array exactly with a shared antenna |
| Coex.EnterLpsWhen | RTL8821CE/coex.c:2817-2853 | Power save is entered unless a pattern forces it off or it is on, and the machine runs first unless it is controlled by hand |
| Coex.PoweredOnIs | RTL8821CE/coex.c:2749-2786 | Powering on with a shared antenna loads table 1 and touches neither the pattern nor power save |
| Coex.Pick | RTL8821CE/coex.c:2582-2648 | Without a game controller, one action runs, and its selections are in the 8821C's arrays and do not turn on 2GFREE; which action it is, PickOrder and ConnectedServes say |
| Coex.PickOrder | RTL8821CE/coex.c:2582-2648 | Which action runs, for everything a run can see: by 5 GHz, then Bluetooth switched off, native power save, a game controller, a test, relinking, paging, an idle Bluetooth, a scan; and by the profiles exactly when none of these applies and Wi-Fi is connected |
| Coex.Algorithm | RTL8821CE/coex.c:1483-1547 | A2DP is served if and only if it is present; PAN if and only if present, and HID if and only if HID is present or hands-free next to A2DP or PAN, unless A2DP stands alone with several links, when paired HID devices decide between the two; hands-free alone and no profile are told apart from everything else |
| Coex.ConnectedServes | RTL8821CE/coex.c:2491-2532 | The action of a connected run is that of exactly the profiles present, for all sixteen combinations, or free run, which a run takes if and only if the check allows it and HID or A2DP is served without PAN |
| Coex.FreerunWhen | RTL8821CE/coex.c:112-147 | When free run is allowed: only with an antenna of its own, Bluetooth on and Wi-Fi busy; then two paired HID devices suffice, and with fewer both sides need a strong signal, in the direction of the traffic |
| Coex.RfIsNormalIff | RTL8821CE/coex.c:1599-1612 | Without a game controller an action takes the first RF parameters of the receive array, except for free run, which a run takes if and only if the profiles decide, HID or A2DP is served without PAN and the check allows it |
| Coex.Connected | RTL8821CE/coex.c:2481-2532 | So for the actions of a connected interface: one runs, in range |
| Coex.AllOff | RTL8821CE/coex.c:1550-1571 | Everything off: table and pattern exist for either antenna arrangement |
| Coex.Freerun | RTL8821CE/coex.c:1573-1616 | Free run: nothing with a shared antenna; else the RF level, capped by the array, is in range |
| Coex.WhqlTest | RTL8821CE/coex.c:1643-1666 | Bluetooth under test: in range |
| Coex.Relink | RTL8821CE/coex.c:1668-1706 | Bluetooth linking again: in range, busy or not, four slots only for a single HID with a shared antenna |
| Coex.BtIdle | RTL8821CE/coex.c:1708-1775 | Bluetooth idle: the placeholder 0xff never survives to the selection |
| Coex.Inquiry | RTL8821CE/coex.c:1777-1875 | Bluetooth inquiry or page: in range for every Wi-Fi task and profile count |
| Coex.BtHfp | RTL8821CE/coex.c:1925-1954 | Hands-free: in range with one link or several |
| Coex.BtHid | RTL8821CE/coex.c:1956-2037 | HID: in range for legacy, low-energy and 418 devices |
| Coex.BtA2dp | RTL8821CE/coex.c:2039-2079 | Audio: in range at every noise level and signal strength |
| Coex.BtA2dpSink | RTL8821CE/coex.c:2081-2118 | Audio sink: in range |
| Coex.BtPan | RTL8821CE/coex.c:2120-2155 | PAN: in range |
| Coex.BtA2dpHid | RTL8821CE/coex.c:2157-2212 | Audio and HID: in range, remote controls included |
| Coex.BtA2dpPan | RTL8821CE/coex.c:2214-2251 | Audio and PAN: in range |
| Coex.BtPanHid | RTL8821CE/coex.c:2253-2286 | PAN and HID: in range |
| Coex.BtA2dpPanHid | RTL8821CE/coex.c:2288-2320 | All three: in range |
| Coex.Under5g | RTL8821CE/coex.c:2322-2352 | On 5 GHz: in range; 2GFREE only for a game controller while scanning |
| Coex.WlOnly | RTL8821CE/coex.c:2354-2376 | Wi-Fi alone: in range |
| Coex.NativeLps | RTL8821CE/coex.c:2378-2415 | Native power save: in range when no game controller is known |
| Coex.Linkscan | RTL8821CE/coex.c:2417-2455 | Scanning: in range with and without audio |
| Coex.NotConnected | RTL8821CE/coex.c:2457-2479 | Not connected: in range |
| CoexTables.PickForcesIff | RTL8821CE/coex.c:1127-1156 | With a shared antenna, for everything a run can see: the selected pattern takes power save away from firmware if and only if Bluetooth relinks or is paged next to a busy Wi-Fi, or idle Bluetooth shows much low-priority traffic next to it, or a connected run serves music, a network or a HID device with more traffic than its own |
| CoexTables.ConnectedForcesIff | RTL8821CE/coex.c:2481-2532 | The same for the actions of a connected run, by profile |
| CoexTables.RunForcesIff | RTL8821CE/coex.c:1158-1215 | So in the state: with a shared antenna, a run outside power save that selects another pattern leaves wl_force_lps_ctrl set if and only if that is the situation |
| CoexTables.GameHidOwnSets | RTL8821CE/coex.c:1877-1923 | A game controller with an antenna of its own: the registers and patterns of music |
| CoexTables.GameHidSharedSets | RTL8821CE/coex.c:1877-1923 | A game controller with a shared antenna: no time division, 2GFREE, RF parameter 6 or 5 by direction, and table 33 or 34, which the 8821C does not have, outside a test, relinking and paging |
| CoexTables.QuietSets | RTL8821CE/coex.c:1550-1571 | Bluetooth off, everything off or under test: equal priorities and no time division: the values that reach both priority registers and the bytes of the TDMA pattern (rtw8821c.c:1697-1820) |
| CoexTables.AwaySets | RTL8821CE/coex.c:2457-2479 | Not connected, or on 5 GHz: table 0x55555555 or the free table, no time division: the values that reach both priority registers and the bytes of the TDMA pattern (rtw8821c.c:1697-1820) |
| CoexTables.NativeLpsSets | RTL8821CE/coex.c:2378-2415 | Native power save: no time division: the values that reach both priority registers and the bytes of the TDMA pattern (rtw8821c.c:1697-1820) |
| CoexTables.FreerunSets | RTL8821CE/coex.c:1573-1616 | Free run: the free table, no time division, transmit parameters exactly for the transmit direction, and RF parameter 2, 3, 4 or 5 by the first of three signal levels that is high: the values that reach both priority registers and the bytes of the TDMA pattern (rtw8821c.c:1697-1820) |
| CoexTables.LinkscanSets | RTL8821CE/coex.c:2417-2455 | Scanning, with and without music: the values that reach both priority registers and the bytes of the TDMA pattern (rtw8821c.c:1697-1820) |
| CoexTables.RelinkSets | RTL8821CE/coex.c:1668-1706 | Linking again, next to a busy Wi-Fi and not: the values that reach both priority registers and the bytes of the TDMA pattern (rtw8821c.c:1697-1820) |
| CoexTables.InquiryHiPriSets | RTL8821CE/coex.c:1777-1875 | Paging next to a Wi-Fi task of high priority: the Wi-Fi slot by profiles, task and page: the values that reach both priority registers and the bytes of the TDMA pattern (rtw8821c.c:1697-1820) |
| CoexTables.InquirySets | RTL8821CE/coex.c:1777-1875 | Paging without such a task: by busy, connected and the number of profiles: the values that reach both priority registers and the bytes of the TDMA pattern (rtw8821c.c:1697-1820) |
| CoexTables.BtIdleSets | RTL8821CE/coex.c:1708-1775 | Bluetooth idle: by busy, connection state and low-priority traffic: the values that reach both priority registers and the bytes of the TDMA pattern (rtw8821c.c:1697-1820) |
| CoexTables.BtIdleFreeSets | RTL8821CE/coex.c:1708-1775 | Bluetooth idle with a switched antenna: no time division: the values that reach both priority registers and the bytes of the TDMA pattern (rtw8821c.c:1697-1820) |
| CoexTables.BtHfpSets | RTL8821CE/coex.c:1925-1954 | Hands-free: the values that reach both priority registers and the bytes of the TDMA pattern (rtw8821c.c:1697-1820) |
| CoexTables.BtHidBleSets | RTL8821CE/coex.c:1956-2037 | A low-energy remote control: by the number of access points: the values that reach both priority registers and the bytes of the TDMA pattern (rtw8821c.c:1697-1820) |
| CoexTables.BtHidSets | RTL8821CE/coex.c:1956-2037 | HID: by other traffic, active music, 418 and low-energy devices, and when four slots are used: the values that reach both priority registers and the bytes of the TDMA pattern (rtw8821c.c:1697-1820) |
| CoexTables.BtA2dpSets | RTL8821CE/coex.c:2039-2079 | Music: by noise, connecting and signal strength: the values that reach both priority registers and the bytes of the TDMA pattern (rtw8821c.c:1697-1820) |
| CoexTables.BtA2dpHidSets | RTL8821CE/coex.c:2157-2212 | Music and HID: the values that reach both priority registers and the bytes of the TDMA pattern (rtw8821c.c:1697-1820) |
| CoexTables.BtA2dpSinkSets | RTL8821CE/coex.c:2081-2118 | Music sink: the values that reach both priority registers and the bytes of the TDMA pattern (rtw8821c.c:1697-1820) |
| CoexTables.BtPanSets | RTL8821CE/coex.c:2120-2155 | Network: the values that reach both priority registers and the bytes of the TDMA pattern (rtw8821c.c:1697-1820) |
| CoexTables.BtPanHidSets | RTL8821CE/coex.c:2253-2286 | Network and HID: the values that reach both priority registers and the bytes of the TDMA pattern (rtw8821c.c:1697-1820) |
| CoexTables.BtA2dpPanSets | RTL8821CE/coex.c:2214-2251 | Music and network: the values that reach both priority registers and the bytes of the TDMA pattern (rtw8821c.c:1697-1820) |
| CoexTables.BtA2dpPanHidSets | RTL8821CE/coex.c:2288-2320 | All three: the values that reach both priority registers and the bytes of the TDMA pattern (rtw8821c.c:1697-1820) |
| Coex.CoexDevice.WriteTable | RTL8821CE/coex.c:1067-1115 | A write is left out only when the registers hold the entry already; an out-of-range number writes nothing |
| Coex.CoexDevice.RunTdma | RTL8821CE/coex.c:1217-1276 | In place: skipped when nothing changes, else number first, then the pattern |
| Coex.CoexDevice.RunPara | RTL8821CE/coex.c:1158-1215 | In place: power-save control, which may run the machine again, then the pattern |
| Coex.CoexDevice.Leave | RTL8821CE/coex.c:2817-2853 | In place: the flag is cleared before the notification, so the machine nests once at most (ps.c:185-202) |
| Coex.CoexDevice.Run | RTL8821CE/coex.c:2534-2665 | In place: the early returns, the link mode, the action |
| Coex.CoexDevice.Choose | RTL8821CE/coex.c:2582-2648 | In place: link mode and action from what the run sees |
| Coex.CoexDevice.InitHwConfig | RTL8821CE/coex.c:2694-2747 | In place: everything known is cleared, the link mode is none, then table 1 and pattern 0 are forced |
| Coex.CoexDevice.Take | RTL8821CE/coex.c:1550-1571 | In place: RF parameters, table, pattern, in this order |
| Coex.CoexDevice.HidInfoNotify | RTL8821CE/coex.c:3279-3367 | In place: a handle list that equals the stored record is dropped, and the machine runs again exactly when the presence of a game controller changed |
| Coex.CoexDevice.CountGames | RTL8821CE/coex.c:3327-3358 | The counting loop finds a game controller exactly when one is known |

## Left out

- TxRing.RingSafety: does not model the beacon ring, which has a single slot and no queue, nor the status report of a retired frame (ACK, NO_ACK, report) and the DMA mapping error of a new one
- TxRing.ResetKeepsIffNotStopped: does not model freeing the mapped buffers, only that the queue is emptied with the indices
- RxInterrupt.NoLostWakeup: does not split the tail's register read from its test, nor model a napi_schedule that is refused for another reason than NAPI being scheduled or disabled
- RxInterrupt.StepKeepsIff: does not promise anything for the losing step itself, which the code allows on a shared line; the two losing runs show what happens then
- RxInterrupt.SomeoneReads: does not bound time, only steps of the responsible thread, because scheduling is not modelled
- DeepPowerSave.PowerSave.Enter: does not model how wl_force_lps_ctrl comes to be set, which is Coex's lps.force
- DeepPowerSave.StepKeeps: does not model the power-on sequence's own write of the power-mode register (mac.c:282-287), which leaves the flags alone
- DeepPowerSave.DeepPowerSaveSafety: does not cover wake-on-WLAN without a link, for which it is false; DeepPowerSave.WowNoLinkSafeIff gives the condition
- RsvdPage.RsvdPages.Build: does not model page sums above 255, for which the buffer would not hold the frames; RsvdPage.PassesAgreeIff says when the two passes agree
- RsvdPage.FrameAtPage: does not model the contents of frames and descriptors, which mac80211 and the transmit path supply
- H2cMailbox.LosslessFifo: does not model two callers at once, because the mutex serialises them
- FifoDump.DumpFifo: does not model page numbers of 0x1000 and above, which run into the control bits of the page register; what those bits select is not part of this model
- FifoDump.PacketBuffer.ReadFifoPage: does not model them either
- PhyTable.FlatIsMeaning: does not model the 8812A and 8821A condition, which compares amplifier types
- TxPowerLimit.WorldwideBelowAll: does not cover tables with rows for the worldwide domain; TxPowerLimit.TrueMinimumIff does
- TxPowerRate.PathAKeptIff: does not model the efuse base, SAR, DPD and thermal terms that are added to the value it is about
- Dig.RecordedInBounds: does not model the 8812A override of the bounds
- Dig.DmInfo.DigTick: does not model the register write of the new index; clamp_t is not part of this repository and is taken with its Linux meaning
- Coex.CoexSafety: does not model antenna switching, scoreboard writes, Bluetooth mailbox requests, slot toggling and the timers behind the observations, which are arbitrary in the model
- Coex.InRangeIff: does not model other chips' arrays
- Beamformee.OwnedAfterAssocIff: does not model more register entries than the 8821C's two
- Efuse.DumpLogicalMap: does not model reading the physical map through registers
- Other chips' branches (8822C, 8812A, 8821A, 8051 CPUs), USB and SDIO: other code paths for the same parts
- Channel programming, calibration, power sequences, constant tables and the country map: register lists without a property across functions
- CAM entries, FIFO page arithmetic of mac.c, SAR conversion and rate masks: only easy members next to the above
- The dB conversions: their table has a non-monotone entry (RTL8821CE/phy.c:46), so no round trip holds
- The macOS bridge and the headers around it, debugfs, LEDs, logging, probe and remove
