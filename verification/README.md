# Verification of the WENDOUGEE DATA S core

A Dafny model of the parts of the integration on which its safety rests, with proofs that hold
for every input, every reply of the machine and every run.

- **Wire.** `Bytes`, `Crc`, `Reads` and `Commands` hold the CRC loop, the bounded frame extractor
  and the two acceptors of replies (MODBUS over Serial Line V1.02, sections 2.5.1 and 6.2.2; MODBUS
  Application Protocol V1.1b3, sections 6.1, 6.3, 6.5, 6.6, 6.12 and 7). `Session` is the
  single-flight session as a state machine with a log of what was sent, delivered and returned,
  and as the object whose methods are its steps.
- **Control.** `Machine` is the world of a control transaction: an adversary that answers anything a
  command accepts, or real register memory behind an unreliable link, and a record of every
  command with the durable locks at that instant. `Boiler`, `Profile` and `Starts` are the
  transactions.
- **Locks.** `Coordinator` holds the three durable uncertainty locks, with memory and disk apart, any
  await failing, and the death of the process at any await. `Schedules` and `Scheduler` hold the
  boiler schedules' markers with first-in first-out store writes.
- **Observation.** `Activity` states what the totals and the last-shot volume mean over a history of
  samples; `Journal` and `Tracker` are the two objects that fold the same samples. `Decoding` holds the
  decoders.
- **Evidence.** `Evidence` builds, prints and strictly reads evidence documents.

One result differs from what the repository's own texts say. docs/BOILER_SCHEDULES.md (lines 36
and 37) promises that an uncertain schedule attempt remains locked across restart. That an edge
runs at most once a day (line 27) holds in every run. The lock does not. A save that is still
unfinished when a run is marked holds a document in which the boiler is clear
(custom_components/wendougee_data/schedules.py lines 66-75 and 225). Once it lands that document is what
memory shows; a pause requested then writes it down a second time, behind the mark's own
write, and it lands after the transaction has begun. `Schedules.PendingCanBeLost` is such a run.
The stale save alone does no harm (`Schedules.MarkRestores`), and `Schedules.SafeMarkExactly` is the
exact condition under which a mark is safe.

Of the three durable locks only the profile lock excludes the other two. Cleaning is stopped by the
cleaning and the profile lock and not by an uncertain preparation
(custom_components/wendougee_data/coordinator.py line 300), and the model follows that.

Integers are exact: times are microseconds, readings are tenths, registers are sixteen bits wide.

## Model

| member | source | states |
|---|---|---|
| `Crc.Crc16Modbus` | src/wendougee_data/crc.py:4-14 | the byte-and-bit loop computes the register of a bit-serial reference, for data of any length; Crc.Divisibility says what that register decides |
| `Crc.Divisibility` | src/wendougee_data/crc.py:6-13 | a frame passes if and only if its wire bits, the first sixteen complemented, are a multiple of x^16 + x^15 + x^2 + 1 |
| `Crc.QuotientUnique` | src/wendougee_data/crc.py:9-13 | the bits that fall out of the register are the quotient of that division, and no other bits are |
| `Crc.FeedIsXorThenShift` | src/wendougee_data/crc.py:8-13 | xor-ing a run of bits in at once and shifting is the same as feeding them one by one |
| `Crc.ShiftInjective` | src/wendougee_data/crc.py:10-13 | one shift step loses nothing: equal registers after it were equal before it |
| `Crc.WindowDetermined` | src/wendougee_data/crc.py:8-13 | the register after up to sixteen bits determines those bits |
| `Crc.Residue` | src/wendougee_data/reads.py:54-56 | a trailer is right if and only if the CRC of the whole frame, trailer included, is zero |
| `Crc.AppendedTrailerMatches` | src/wendougee_data/crc.py:17-19 | an appended CRC always passes the trailer test, with zero residue |
| `Crc.TrailerDetermined` | src/wendougee_data/crc.py:17-19 | a frame that passes the trailer test is the appended form of its body |
| `Crc.BurstDetected` | src/wendougee_data/reads.py:54-56 | any corruption inside sixteen consecutive wire bits of a valid frame of any length is rejected |
| `Crc.AdjacentBytesDetected` | src/wendougee_data/reads.py:54-56 | two adjacent bytes replaced by anything else are rejected |
| `Crc.OddFlipsDetected` | src/wendougee_data/reads.py:54-56 | any odd number of flipped bits is rejected |
| `Reads.ParseAppend` | src/wendougee_data/reads.py:113-141 | what later bytes mean depends on the earlier ones only through the bytes left over |
| `Reads.ParseLossless` | src/wendougee_data/reads.py:113-141 | extracted frames and leftover put together are the stream: nothing is skipped or lost |
| `Reads.ParseFrames` | src/wendougee_data/reads.py:118-140 | every extracted frame has the length its own header says and a valid trailer |
| `Reads.ParseRest` | src/wendougee_data/reads.py:118-141 | the leftover is short of one frame: whatever follows, a complete header announces more bytes than are left over, so at most 254 are |
| `Reads.LeftoverExtends` | src/wendougee_data/reads.py:135-140 | the leftover is a strict prefix of some valid frame if and only if it is not all of a frame but its last byte with a wrong first trailer byte |
| `Reads.SpoiledLeftover` | src/wendougee_data/reads.py:135-140 | the inputs for which it is not: any body that announces its own length followed by a wrong low trailer byte is kept, though no byte can complete it |
| `Reads.FrameExactly` | src/wendougee_data/reads.py:118-138 | which byte strings are frames, field by field |
| `Reads.HopelessExactly` | src/wendougee_data/reads.py:118-133 | a stream is given up exactly when its front can no longer become a frame header |
| `Reads.ValidExactly` | src/wendougee_data/reads.py:59-83 | a response is valid exactly when it is slave, function, byte count, that many bytes and their CRC |
| `Reads.ExceptionExactly` | src/wendougee_data/reads.py:71-75 | a device exception is reported exactly for the exception frame of the function asked |
| `Reads.RequestImages` | src/wendougee_data/reads.py:15-18 | the four requests on the wire and the bytes each asks for |
| `Reads.ParseConcat` | src/wendougee_data/reads.py:113-141 | valid frames sent back to back are recovered exactly |
| `Reads.FragmentationInvariant` | src/wendougee_data/reads.py:102-141 | with fragments of at most 258 bytes the 512 limit is never met and the outcome is that of the whole byte stream |
| `Reads.SameBytesSameFrames` | src/wendougee_data/reads.py:102-141 | two ways of cutting up the same bytes give the same frames and leftover, or both fail |
| `Reads.OversizeFragment` | src/wendougee_data/reads.py:114-115 | the bound on fragments is needed: valid frames beyond the limit are refused only when they arrive as one fragment |
| `Reads.FailurePermanent` | src/wendougee_data/reads.py:104-111 | no later fragment repairs a failed stream |
| `Reads.ReadResponseStream.Feed` | src/wendougee_data/reads.py:102-111 | the object extracts what the reference says, or fails for good and drops its buffer |
| `Reads.ReadResponseStream.Extract` | src/wendougee_data/reads.py:113-141 | the extraction loop computes the reference parse of buffer and fragment |
| `Commands.ReadImages` | src/wendougee_data/control_session.py:39-43 | the reads of the table on the wire |
| `Commands.BankImages` | src/wendougee_data/control_session.py:44-69 | the reads of the two profile banks on the wire |
| `Commands.SingleWriteImages` | src/wendougee_data/control_session.py:72-79 | the single writes on the wire: which register or coil each drives, and how |
| `Commands.BlockWriteImages` | src/wendougee_data/control_session.py:70-71 | the two block writes on the wire |
| `Commands.ControlAcceptSound` | src/wendougee_data/control_session.py:127-162 | a delivered frame is all bytes received so far and is a reply to this very command |
| `Commands.ControlAcceptComplete` | src/wendougee_data/control_session.py:127-162 | a reply cut up anywhere is waited for and then delivered |
| `Commands.ReadAcceptSound` | src/wendougee_data/session.py:126-136 | the same for the plain session's acceptor |
| `Commands.ReadAcceptComplete` | src/wendougee_data/session.py:126-136 | the same for the plain session's acceptor |
| `Commands.DeliveredIsWhole` | src/wendougee_data/session.py:119-136 | over whole runs of notifications a delivered frame is the concatenation of the fragments so far |
| `Commands.WholeIsDelivered` | src/wendougee_data/session.py:119-136 | over whole runs of notifications a reply is delivered however it is cut up |
| `Commands.SameReplies` | src/wendougee_data/reads.py:59-83 | for the same function, address and count a control reply is exactly a valid read response, so decoding it cannot fail on framing |
| `Commands.AcceptorsAgree` | src/wendougee_data/control_session.py:113-162 | the two independently written acceptors deliver the same frame on the same notifications |
| `Commands.SharedReads` | src/wendougee_data/control_session.py:39-41 | configuration, telemetry and state are the only operations the two sessions share |
| `Session.StepInv` | src/wendougee_data/session.py:70-168 | every event keeps buffers, future, requests and returned frames consistent |
| `Session.ExactCorrelation` | src/wendougee_data/session.py:138-168 | in every run the k-th returned frame answers the k-th request and is exactly the bytes delivered while that exchange held the session; at most the last request is unanswered |
| `Session.Quarantine` | src/wendougee_data/session.py:106-114 | once a failure is set nothing is sent or returned any more, except momentary releases |
| `Session.ExchangeEnds` | src/wendougee_data/session.py:146-168 | an exchange sends its request once at most and ends with one accepted reply on a clean session, made of all bytes delivered meanwhile, or with a failed session and no reply; a failed session sends nothing |
| `Session.Completes` | src/wendougee_data/session.py:146-168 | an undisturbed exchange succeeds: however its answer is cut up and wherever the send returns, exactly that answer is returned and the session is free again, for plain reads and commands |
| `Session.DisturbedExactly` | src/wendougee_data/session.py:85-136 | a working session fails at an event exactly when it is a disconnection, a closing, a failed opening or send, an interruption, or bytes nobody waits for or the acceptor refuses |
| `Session.ControlSession.Happen` | src/wendougee_data/session.py:70-168 | each event is one method of the object and one step of the state machine |
| `Session.ControlSession.Live` | src/wendougee_data/session.py:70-168 | any sequence of events drives the object as it drives the state machine, so its returned frames stay correlated with its requests |
| `Session.ControlSession.constructor` | src/wendougee_data/session.py:57-68 | a new session is unused, empty and inactive |
| `Session.ControlSession.EnterBegin` | src/wendougee_data/session.py:70-76 | a session is entered once; entering it again is refused |
| `Session.ControlSession.EnterEnd` | src/wendougee_data/session.py:76-83 | opening succeeds only without error and without an earlier failure; otherwise the session is closed |
| `Session.ControlSession.CloseNow` | src/wendougee_data/session.py:93-95 | closing deactivates and quarantines |
| `Session.ControlSession.Fail` | src/wendougee_data/session.py:110-114 | the first failure is kept and a waiting exchange is failed with the new one |
| `Session.ControlSession.OnDisconnect` | src/wendougee_data/session.py:116-117 | a disconnection quarantines the session |
| `Session.ControlSession.OnPlainData` | src/wendougee_data/session.py:126-136 | one notification of a plain read, as the state machine says |
| `Session.ControlSession.OnControlData` | src/wendougee_data/control_session.py:127-162 | one notification of a command exchange, as the state machine says |
| `Session.ControlSession.Notified` | src/wendougee_data/control_session.py:113-126 | empty fragments and quarantined sessions ignore data; unsolicited data quarantines |
| `Session.ControlSession.BeginExchange` | src/wendougee_data/session.py:146-155 | an exchange starts if and only if the session is active and unfailed |
| `Session.ControlSession.SendReturned` | src/wendougee_data/session.py:154-158 | the end of the send, with the future possibly done already |
| `Session.ControlSession.InterruptExchange` | src/wendougee_data/session.py:154-164 | a timeout or cancellation abandons a waiting future |
| `Session.ControlSession.Resumed` | src/wendougee_data/session.py:156-168 | the session is rechecked before a frame is returned, and the frame returned is the one logged |
| `Session.ControlSession.Abort` | src/wendougee_data/session.py:159-168 | any error quarantines and frees the session |
| `Session.ControlSession.SendReleaseOnly` | src/wendougee_data/control_session.py:173-181 | past a failure only a momentary release is sent |
| `Decoding.DecodesConfiguration` | src/wendougee_data/state.py:29-48 | every accepted configuration reply decodes, to 37 words |
| `Decoding.DecodesState` | src/wendougee_data/state.py:88-99 | every accepted state reply decodes |
| `Decoding.DecodesTelemetry` | src/wendougee_data/telemetry.py:48-89 | every accepted telemetry reply passes the telemetry parser's own checks |
| `Decoding.RegisterReplyDecodes` | src/wendougee_data/control_session.py:259-262 | the reply that carries given words is accepted and gives those words back |
| `Decoding.CoilReplyDecodes` | src/wendougee_data/state.py:88-99 | the reply that carries given coils is accepted and gives those coils back |
| `Decoding.ModesExactly` | src/wendougee_data/state.py:69-97 | idle means that all 24 coils are clear, and each mode that its own coils are set and no other |
| `Decoding.AmbiguousExactly` | src/wendougee_data/state.py:81-82 | two modes at once are ambiguous, whatever else is set |
| `Decoding.TelemetryReadings` | src/wendougee_data/telemetry.py:69-89 | each reading is the word at its register |
| `Decoding.ConfigurationReadings` | src/wendougee_data/state.py:36-47 | each setting is the word at its register, and zero means on |
| `Machine.SwingStarts` | src/wendougee_data/control_session.py:222-223 | from idle each press toggles its own program, by the coil the source writes, and the release does nothing |
| `Machine.HonestReplyAccepted` | src/wendougee_data/control_session.py:127-157 | whatever its memory, a real machine answers every command with an acceptable reply |
| `Machine.Link.Transact` | src/wendougee_data/control_session.py:110-111 | one exchange ends as Session.ExchangeEnds proves of the session: an accepted reply or a failed session; real memory changes by that command or not at all, and the record names it if it may have been sent |
| `Machine.Link.Sleep` | src/wendougee_data/control_session.py:240 | a sleep ends normally, cancelled or dead |
| `Machine.Link.ReleasePress` | src/wendougee_data/control_session.py:241-248 | the release is attempted exactly once and finished even under a cancellation, unless the process dies |
| `Boiler.RequireIdle` | src/wendougee_data/control_session.py:184-188 | on a machine that answers, rejected exactly when the state is not idle |
| `Boiler.FindSwitch` | src/wendougee_data/control_session.py:209 | the table search finds the one command that encodes the setting and the value |
| `Boiler.SetBoiler` | src/wendougee_data/control_session.py:191-216 | any replies: at most one write, the requested one, none when rejected; the configuration returned is one that was read, and equals the first one read with that register set; real memory changes nowhere else; a register that already holds the request draws no write however the link behaves |
| `Boiler.WriteAndVerify` | src/wendougee_data/control_session.py:209-216 | the value returned decodes a configuration reply read after the write and equals the expected one; nothing from the write on is a rejection |
| `Boiler.SetBoilerTwice` | src/wendougee_data/control_session.py:191-216 | two requests in a row on a real machine, the first successful: one write at most, however the second one fares |
| `Boiler.RequestDetermines` | src/wendougee_data/controls.py:32-57 | a single-register request frame determines its command |
| `Profile.ReadProfileBank` | src/wendougee_data/control_session.py:265-272 | eleven chunk reads give the same 167 words as one whole read |
| `Profile.RecipeExactly` | src/wendougee_data/control_session.py:321-328 | which words of memory the start guard wants, bank by bank |
| `Profile.IntendedExactly` | src/wendougee_data/control_session.py:365-367 | the intended bank passes the start guard, keeps offset 7 and offsets 14 to 166, and equals the old bank exactly when that already was the recipe |
| `Profile.CrashSafe` | src/wendougee_data/control_session.py:321-328 | after any prefix of the two writes the start guard accepts the bank if and only if it is the intended final bank |
| `Profile.IntendedTwice` | src/wendougee_data/control_session.py:365-374 | writing over a partial or a complete preparation gives the same bank |
| `Profile.PilotMemory` | src/wendougee_data/control_session.py:369-374 | the two writes change only the active bank: the bound bank and all other memory stay |
| `Profile.Inspect` | src/wendougee_data/control_session.py:337-347 | a snapshot is complete and equals memory; on a machine that answers it is refused exactly when the machine is not preparable |
| `Profile.Backup` | src/wendougee_data/control_session.py:348-355 | a backup that fails leaves nothing written |
| `Profile.Recheck` | src/wendougee_data/control_session.py:356-364 | success means that both banks, the modes and the configuration in memory are the backed-up ones; on an idle machine that answers it succeeds exactly then |
| `Profile.WriteRecipe` | src/wendougee_data/control_session.py:365-374 | stage first, header last; no write at all when the bank already is the recipe, also on failure; never a rejection |
| `Profile.VerifyPrepared` | src/wendougee_data/control_session.py:375-386 | success means that memory shows the intended bank and otherwise the backed-up snapshot; on an idle machine that answers it succeeds exactly then |
| `Profile.PrepareProfile` | src/wendougee_data/control_session.py:331-396 | writes only after the completed backup and in order, none when rejected; real memory at one of three known points; a bank that already is the recipe draws no write however the link behaves, any other two; success exactly on a preparable machine |
| `Profile.PrepareTwice` | src/wendougee_data/control_session.py:331-396 | two preparations in a row on a real machine, the first successful: the second adds a backup at most, however it fares |
| `Profile.RepeatWritesNothing` | src/wendougee_data/control_session.py:369-374 | the memory a preparation leaves is preparable, passes the start guard, and is left as it is by another one |
| `Starts.Pulse` | src/wendougee_data/control_session.py:238-248 | one press at most and one release after it, whatever fails; both on a machine that answers, which takes the press and nothing else |
| `Starts.Confirm` | src/wendougee_data/control_session.py:249-256 | a confirmation rests on an accepted state reply that names the running mode; nothing is sent; a machine that answers and runs the program is confirmed |
| `Starts.StartStoredProfile` | src/wendougee_data/control_session.py:219-256 | rejected means nothing was pressed; success means press, release and a confirmed running state, in this order; on a machine that answers it is rejected exactly when a guard on memory or state fails, and otherwise the profile runs and is confirmed |
| `Starts.EnvelopeExactly` | src/wendougee_data/cleaning.py:15-32 | a program is accepted exactly when it has one to ten rounds, phases of one to sixty seconds and takes 120 seconds at most, round after round; the budget is that time |
| `Starts.StartCleaning` | src/wendougee_data/cleaning.py:35-69 | the same as for the profile, with the guards of cleaning, and the program returned is the one in memory and passes the envelope |
| `Starts.ExecuteCleaning` | custom_components/wendougee_data/control.py:126-184 | the second check of the envelope cannot reject; the monitor adds no command; the result summarises exactly the samples seen; on a machine that answers: rejected exactly when a guard fails, else pressed, confirmed and watched for the budget |
| `Starts.Monitor` | custom_components/wendougee_data/control.py:141-184 | it stops at the first sample at which the programmed time has passed and two samples in a row are idle, with the true peak pressure and no alarm; on a machine that answers it gives up only when its time is over and no sample allowed it to stop |
| `Starts.QuerySample` | custom_components/wendougee_data/control.py:149-157 | any other state or an alarm is an error, and on a machine that answers nothing else is |
| `Starts.PulseDiscipline` | src/wendougee_data/control_session.py:238-248 | every start ends with at most one press, never after its release, and exactly one release if it pressed; only a dead process may owe the release |
| `Coordinator.SafeMore` | custom_components/wendougee_data/coordinator.py:219-271 | a press is safe only when the one before it has been settled by a confirmed running state or an acknowledgement |
| `Coordinator.PulsedSafe` | custom_components/wendougee_data/coordinator.py:234-252 | a start under its durable lock keeps the record safe however it ends |
| `Coordinator.PulsedAdds` | custom_components/wendougee_data/coordinator.py:219-325 | a start adds its own press and release only, with one press at most |
| `Coordinator.GrantedMore` | custom_components/wendougee_data/coordinator.py:171-343 | operation by operation, nothing is sent that was not asked for and no press is repeated |
| `Coordinator.PreparationSafe` | custom_components/wendougee_data/coordinator.py:183-200 | a preparation never presses and never settles a start |
| `Coordinator.Coordinator.constructor` | custom_components/wendougee_data/coordinator.py:103-110 | the locks after loading are those on disk |
| `Coordinator.Coordinator.Load` | custom_components/wendougee_data/coordinator.py:103-110 | a reload keeps every guarantee |
| `Coordinator.Coordinator.SaveProfileLock` | custom_components/wendougee_data/coordinator.py:112-124 | a failed write never unlocks memory, and no other lock is cleared on disk |
| `Coordinator.Coordinator.SavePreparationLock` | custom_components/wendougee_data/coordinator.py:126-138 | a failed write never unlocks memory, and no other lock is cleared on disk |
| `Coordinator.Coordinator.SaveCleaningLock` | custom_components/wendougee_data/coordinator.py:273-285 | a failed write never unlocks memory, and no other lock is cleared on disk |
| `Coordinator.Coordinator.ExecuteProfile` | custom_components/wendougee_data/control.py:79-90 | rejected means nothing was pressed, also with the connection around the transaction |
| `Coordinator.Coordinator.ExecuteCleaningProgram` | custom_components/wendougee_data/control.py:126-184 | rejected means nothing was pressed, also with the connection around the transaction |
| `Coordinator.Coordinator.ExecutePreparation` | custom_components/wendougee_data/control.py:93-113 | rejected means nothing was written, also with the connection around the transaction |
| `Coordinator.Coordinator.VerifyIdle` | custom_components/wendougee_data/control.py:116-123 | an acknowledgement rests on a fresh accepted idle read and commands nothing |
| `Coordinator.Coordinator.Start` | custom_components/wendougee_data/coordinator.py:219-254 | blocked by any lock or pending schedule; however it ends the record is extended by one pulse under the durable profile lock at most; on success pressed, confirmed; unlocked on disk and in memory exactly when it succeeds or is rejected, which sent nothing, and locked after any other end; with nothing going wrong it succeeds exactly when every guard holds and is rejected otherwise |
| `Coordinator.Coordinator.StartCleaning` | custom_components/wendougee_data/coordinator.py:293-325 | blocked by the cleaning and the profile lock; however it ends the record is extended by one pulse under the durable cleaning lock at most; unlocked on disk and in memory exactly when it succeeds or is rejected, which sent nothing, and locked after any other end; with nothing going wrong rejected exactly when a guard fails and otherwise started |
| `Coordinator.Coordinator.Prepare` | custom_components/wendougee_data/coordinator.py:171-202 | blocked by any lock or pending schedule; however it ends the record is extended by a backup and the two writes, in order and under the durable preparation lock; unlocked on disk and in memory exactly when it succeeds or is rejected, which wrote nothing, and locked after any other end; with nothing going wrong it succeeds exactly on a preparable machine and is rejected otherwise |
| `Coordinator.Coordinator.Acknowledge` | custom_components/wendougee_data/coordinator.py:256-271 | a lock is cleared, and only that lock, exactly when it succeeds, after a fresh idle read, which is recorded; with nothing going wrong it succeeds exactly when the machine is idle |
| `Coordinator.Coordinator.Boiler` | custom_components/wendougee_data/coordinator.py:148-169 | boiler switching sends the one command asked for or nothing, never a press, and touches no lock; with nothing going wrong the machine alone decides, and ends with the switch set or rejected |
| `Coordinator.Coordinator.Perform` | custom_components/wendougee_data/coordinator.py:148-343 | one operation of any kind only extends the record, by its own commands, with one press at most |
| `Coordinator.Coordinator.Run` | custom_components/wendougee_data/coordinator.py:103-343 | over any operations, failures, deaths and reloads the record is only extended, nothing is sent that was not asked for and no start is pressed more often than asked; two presses of one toggle are always separated by a settlement, the lock is on disk at each press, disk is within memory, and an uncertain preparation lock is never cleared |
| `Schedules.StepInv` | custom_components/wendougee_data/schedules.py:66-75 | every event keeps attempt markers growing along disk, queued writes and memory |
| `Schedules.AtMostOncePerDate` | custom_components/wendougee_data/schedules.py:289-297 | in every run, with deaths and reloads, an edge begins at most one transaction per date |
| `Schedules.StepGuarded` | custom_components/wendougee_data/schedules.py:255-326 | an unsettled boiler stays pending in memory, on disk and in every queued document but its own clearing |
| `Schedules.NoneWhileUnsettled` | custom_components/wendougee_data/schedules.py:283-297 | as long as no run is marked over a stale save, an unsettled transaction is followed by none until it is durably cleared by a verified result or an acknowledgement |
| `Schedules.StaleSaveRepeats` | custom_components/wendougee_data/schedules.py:220-225 | a mark made while an unfinished save still shows the boiler clear can be followed by two transactions with nothing settled between, and by no other unsafe mark |
| `Schedules.SafeMarkExactly` | custom_components/wendougee_data/schedules.py:66-75 | a mark is safe for every continuation if and only if no unfinished save still shows its boiler clear |
| `Schedules.StaleSaveAt` | custom_components/wendougee_data/schedules.py:66-75 | the continuation that does it, for any such save: it is adopted, written down again by a pause behind the mark's own write, and lands after the transaction has begun |
| `Schedules.PendingCanBeLost` | custom_components/wendougee_data/schedules.py:66-75 | a concrete run of eleven events in which two transactions begin with nothing settled between them |
| `Schedules.MarkRestores` | custom_components/wendougee_data/schedules.py:289-296 | when only the saves unfinished at the mark land, the mark's own write puts the marker back in memory and on disk before the transaction begins |
| `Schedules.ResultClears` | custom_components/wendougee_data/schedules.py:302-311 | a verified result clears its boiler and no other in memory and on disk, and frees the lock, whatever was still being written |
| `Schedules.AcknowledgementClears` | custom_components/wendougee_data/schedules.py:335-347 | an acknowledgement after a fresh idle read does the same |
| `Schedules.FailureKeeps` | custom_components/wendougee_data/schedules.py:315-326 | any other result leaves every marker in memory and on disk, and frees the lock |
| `Schedules.CancelKeeps` | custom_components/wendougee_data/schedules.py:312-326 | so does a cancellation at any await of a run |
| `Schedules.SettledShows` | custom_components/wendougee_data/schedules.py:308 | in every run, whenever a boiler is settled the disk shows it clear |
| `Schedules.HealthyDay` | custom_components/wendougee_data/schedules.py:282-311 | when nothing goes wrong the edge runs once, is settled, leaves no marker, does not run again that day and may run the next |
| `Schedules.DeathForgets` | custom_components/wendougee_data/schedules.py:57-64 | after the death of the process only the disk counts |
| `Scheduler.StepSound` | custom_components/wendougee_data/schedules.py:255-348 | both of the above for one step of the object |
| `Scheduler.BoilerSchedules.constructor` | custom_components/wendougee_data/schedules.py:38-55 | a new scheduler is the fresh state |
| `Scheduler.BoilerSchedules.Promises` | custom_components/wendougee_data/schedules.py:255-326 | in every valid state no edge began twice on a date and, with safe marks only, none began while one was unsettled |
| `Scheduler.BoilerSchedules.Midnight` | custom_components/wendougee_data/schedules.py:290-292 | the date moves on |
| `Scheduler.BoilerSchedules.OtherEnters` | custom_components/wendougee_data/schedules.py:272-274 | another operation takes the connection lock only when it is free |
| `Scheduler.BoilerSchedules.OtherLeaves` | custom_components/wendougee_data/schedules.py:324-326 | and frees it |
| `Scheduler.BoilerSchedules.Happen` | custom_components/wendougee_data/schedules.py:57-348 | each event is one method of the object and one step of the state machine |
| `Scheduler.BoilerSchedules.Live` | custom_components/wendougee_data/schedules.py:57-348 | any sequence of events drives the object as it drives the state machine, with both promises at its end |
| `Scheduler.BoilerSchedules.Request` | custom_components/wendougee_data/schedules.py:66-74 | the document is taken at the call |
| `Scheduler.BoilerSchedules.Run` | custom_components/wendougee_data/schedules.py:282-296 | a run marks exactly when every guard passes with the lock held |
| `Scheduler.BoilerSchedules.Pause` | custom_components/wendougee_data/schedules.py:220-225 | a pause notes what memory holds, without the lock |
| `Scheduler.BoilerSchedules.PauseRun` | custom_components/wendougee_data/schedules.py:312-320 | a failed run pauses before it gives up the lock |
| `Scheduler.BoilerSchedules.Resume` | custom_components/wendougee_data/schedules.py:296-311 | the owner of a finished write goes on |
| `Scheduler.BoilerSchedules.StoreEnds` | custom_components/wendougee_data/schedules.py:66-75 | a finished write lands and its document replaces memory; it may raise whether or not it landed |
| `Scheduler.BoilerSchedules.ExecutionEnds` | custom_components/wendougee_data/schedules.py:298-308 | only a verified result asks for the clearing write |
| `Scheduler.BoilerSchedules.AckBegins` | custom_components/wendougee_data/schedules.py:328-334 | an acknowledgement enters only when the lock is free |
| `Scheduler.BoilerSchedules.AckVerified` | custom_components/wendougee_data/schedules.py:335-347 | only a fresh idle read asks for the clearing write |
| `Scheduler.BoilerSchedules.Cancelled` | custom_components/wendougee_data/schedules.py:312-326 | a cancelled holder pauses or gives up the lock; its write goes on unadopted |
| `Scheduler.BoilerSchedules.Reload` | custom_components/wendougee_data/schedules.py:57-64 | after the death of the process memory is what the disk holds |
| `Activity.Denser` | custom_components/wendougee_data/activity.py:143-176 | sampling more densely never lowers the water or the shot total |
| `Activity.LowerBound` | custom_components/wendougee_data/activity.py:143-176 | for every machine that pumps, resets its 16-bit counter and starts shots at will, and every sampling of it, observed water is at most the water pumped since the first sample and observed shots at most the shots started |
| `Activity.Tight` | custom_components/wendougee_data/activity.py:143-176 | and the bounds are tight: for every history some machine and sampling of it did exactly what was observed, in water and in shots |
| `Activity.ShotVolumeExactly` | custom_components/wendougee_data/activity.py:149-215 | the volume of a completed shot: the counter where the water stopped settling (idle, no alarm, gaps of two seconds, five seconds in all, timer still, not falling), or the last counter of the running shot |
| `Activity.LastFall` | custom_components/wendougee_data/activity.py:194-195 | the latest completed shot is the latest sample that turned inactive |
| `Activity.TailEnd` | custom_components/wendougee_data/activity.py:157-166 | the tail is a run of extending samples that the next sample breaks |
| `Activity.TailEndUnique` | custom_components/wendougee_data/activity.py:157-166 | and it is the only such run, hence the longest |
| `Activity.NeverReopens` | custom_components/wendougee_data/activity.py:163-166 | a closed tail never reopens, whatever is sampled later |
| `Activity.TailKeeps` | custom_components/wendougee_data/activity.py:207-215 | during its tail a shot keeps its end time and the shot count stands still, while its volume only grows and is the latest counter |
| `Tracker.TallyMore` | custom_components/wendougee_data/activity.py:142-215 | what the tracker computes from one sample and its few fields is what the whole history says |
| `Tracker.CleaningEnd` | custom_components/wendougee_data/activity.py:235-237 | the latest sample at which the cleaning flag went off |
| `Tracker.ChangesExactly` | custom_components/wendougee_data/activity.py:142-244 | a sample said to change nothing changes no total and is not reported; one that adds water or a shot is said to change something |
| `Tracker.JointMore` | custom_components/wendougee_data/activity.py:217-233 | journal and tracker agree in every reachable state: a newest record with the last shot's time carries its volume |
| `Tracker.FailsOnlyFresh` | custom_components/wendougee_data/shot_journal.py:182-189 | the one sample on which the source raises is a capture, before the first shot since loading, that reports the newest restored record while a restored curve has points and room |
| `Tracker.NotedRecords` | custom_components/wendougee_data/shot_journal.py:151-169 | the journal completes a record only where the tracker sees a shot end |
| `Tracker.ReloadKeeps` | custom_components/wendougee_data/activity.py:64-81 | a tracker that loads what another saved shows the same totals, records and curve and still agrees |
| `Tracker.ActivityTracker.constructor` | custom_components/wendougee_data/activity.py:28-47 | a new tracker shows nothing |
| `Tracker.ActivityTracker.Load` | custom_components/wendougee_data/activity.py:64-81 | any document is read field by field; a journal that agreed keeps agreeing |
| `Tracker.ActivityTracker.LoadTotals` | custom_components/wendougee_data/activity.py:70-81 | each well-formed field replaces the total, any other is ignored |
| `Tracker.ActivityTracker.Dump` | custom_components/wendougee_data/activity.py:49-62 | the document holds the durable facts and the journal |
| `Tracker.ActivityTracker.CloseTail` | custom_components/wendougee_data/activity.py:157-166 | unless the sample completes a shot, what is left open is the open tail of the longer history |
| `Tracker.ActivityTracker.CountWater` | custom_components/wendougee_data/activity.py:168-176 | the total grows by what the total over the history grows, which Activity.LowerBound bounds |
| `Tracker.ActivityTracker.FollowShot` | custom_components/wendougee_data/activity.py:178-205 | while a shot runs its peak is the latest counter; the first inactive sample completes it |
| `Tracker.ActivityTracker.Account` | custom_components/wendougee_data/activity.py:142-215 | one sample moves the totals, the tail and the peak as the history demands |
| `Tracker.ActivityTracker.FirstSample` | custom_components/wendougee_data/activity.py:134-140 | the first sample only starts the comparison |
| `Tracker.ActivityTracker.Observe` | custom_components/wendougee_data/activity.py:101-244 | after any sample the fields are those the whole history implies, the journal has noted it, and the two agree; it raises exactly where the source does, and journal and totals agree even then |
| `Journal.NormalExactly` | custom_components/wendougee_data/shot_journal.py:97 | exactly one shot flag and nothing else |
| `Journal.NewestExactly` | custom_components/wendougee_data/shot_journal.py:164 | the newest thirty records, all when there are no more |
| `Journal.RefinedExactly` | custom_components/wendougee_data/shot_journal.py:178-195 | a correction changes the newest record's volume and nothing else of the records, only for the shot meant; when it adds a point, which one |
| `Journal.KeptAppend` | custom_components/wendougee_data/shot_journal.py:50-83 | records that are not whole are left out wherever they stand, and the others keep their order |
| `Journal.DrawnAppend` | custom_components/wendougee_data/shot_journal.py:84-92 | and so for the points of a curve |
| `Journal.NotedBounded` | custom_components/wendougee_data/shot_journal.py:96-176 | at most 30 records and 600 points, always |
| `Journal.MeasuresMore` | custom_components/wendougee_data/shot_journal.py:100-150 | the draft of a running shot always describes exactly the samples since its counters last started: their number, peak, last volume, source, coverage and points |
| `Journal.RecordOf` | custom_components/wendougee_data/shot_journal.py:151-169 | a completed record and its curve, in terms of the samples of the shot alone |
| `Journal.DumpRestores` | custom_components/wendougee_data/shot_journal.py:37-94 | a stored journal comes back as it was |
| `Journal.RestoredBounded` | custom_components/wendougee_data/shot_journal.py:44-94 | even a document of an old deployment is read within bounds |
| `Journal.ShotJournal.ReadRecords` | custom_components/wendougee_data/shot_journal.py:50-83 | the newest thirty stored records without the ones that are not whole, in order |
| `Journal.ShotJournal.constructor` | custom_components/wendougee_data/shot_journal.py:26-35 | a new journal is empty |
| `Journal.ShotJournal.Dump` | custom_components/wendougee_data/shot_journal.py:37-42 | the document holds records, curve and time |
| `Journal.ShotJournal.Restore` | custom_components/wendougee_data/shot_journal.py:44-94 | the object reads a document as the values do |
| `Journal.ShotJournal.Observe` | custom_components/wendougee_data/shot_journal.py:96-176 | although the latest curve is the very list of the finished shot, the object behaves like separate values: a new shot never alters the previous curve before it completes |
| `Journal.ShotJournal.RefineVolume` | custom_components/wendougee_data/shot_journal.py:178-195 | only the newest record, and only if it is the shot meant, gets the corrected volume; it raises exactly when a point is due and no start time is known |
| `Evidence.HexRoundTrip` | src/wendougee_data/evidence.py:284-285 | printed bytes are read back |
| `Evidence.UpperRoundTrip` | src/wendougee_data/evidence.py:346 | capital digits are read the same |
| `Evidence.HexAppend` | src/wendougee_data/evidence.py:346 | and white space between bytes is skipped |
| `Evidence.CreateRecordExactly` | src/wendougee_data/evidence.py:188-203 | a record is made exactly of a valid response, and keeps it with its request |
| `Evidence.BundleExactly` | src/wendougee_data/evidence.py:206-259 | which arguments make a bundle |
| `Evidence.BundleContent` | src/wendougee_data/evidence.py:206-259 | and what it then holds: the instant, the texts, and one record a frame in the order of the operations |
| `Evidence.SameExactly` | src/wendougee_data/evidence.py:375 | equal claims are identical, but for true and one, and false and zero |
| `Evidence.TelemetryClaims` | src/wendougee_data/evidence.py:138-163 | what an accepted telemetry record claims, reading by reading and register by register |
| `Evidence.ConfigurationClaims` | src/wendougee_data/evidence.py:164-175 | what an accepted configuration record claims |
| `Evidence.AlarmClaims` | src/wendougee_data/evidence.py:176-177 | what an accepted water alarm record claims |
| `Evidence.StateClaims` | src/wendougee_data/evidence.py:178-186 | what an accepted state record claims |
| `Evidence.AcceptedContent` | src/wendougee_data/evidence.py:309-385 | what an accepted document's bundle holds: its own head, and the bytes each record spells under its operation |
| `Evidence.GatherExactly` | src/wendougee_data/evidence.py:341-353 | records are taken exactly when every one is readable and no operation comes twice; then each frame and claim is the one supplied for its operation |
| `Evidence.BuiltAgain` | src/wendougee_data/evidence.py:206-259 | what the constructor builds it builds again from the bundle's own content |
| `Evidence.AcceptedExactly` | src/wendougee_data/evidence.py:309-385 | a document is accepted if and only if its head is fine, no operation comes twice and every record's claims are those its response bytes imply |
| `Evidence.RoundTrip` | src/wendougee_data/evidence.py:309-385 | every bundle the constructor can build is read back from its own document |
| `Evidence.CreatedRoundTrip` | src/wendougee_data/evidence.py:206-294 | create, print, read: the bundle itself comes back |
| `Evidence.Idempotent` | src/wendougee_data/evidence.py:268-385 | an accepted document prints to one that is accepted as the same bundle, whose claims are derived from its response bytes |
| `Evidence.WrittenDifferently` | src/wendougee_data/evidence.py:341-385 | record order, hex case and spacing, and time offsets do not matter |
| `Evidence.GatherFrames` | src/wendougee_data/evidence.py:341-353 | the reading loop collects the frames and the claims, with the first refusal |
| `Evidence.FirstMismatch` | src/wendougee_data/evidence.py:371-384 | the comparing loop finds the first claim that is not derived, if there is one |
| `Evidence.BundleFromDocument` | src/wendougee_data/evidence.py:309-385 | the whole reader: accepted exactly when clean, and stable under printing |

## Left out

- Scheduling of tasks: testing a lock's guards and acquiring the connection lock is one step. The guards of custom_components/wendougee_data/coordinator.py lines 174-182, 222-233 and 296-303 are not repeated after the lock is taken, so this is an assumption.
- Store: writes finish in the order of their calls, each with the document taken at its call. A failed write may or may not have landed.
- Cancellation: a task is cancelled at most once, by a timeout or from outside; the release runs in a task of its own.
- Schedules.NoneWhileUnsettled: holds for runs in which no run is marked over a stale save, because without that it is false (Schedules.PendingCanBeLost); the condition is exact at each mark (Schedules.SafeMarkExactly).
- Machine.Link.Transact: is one exchange as its caller sees it, without fragments and interleavings; Session.ExchangeEnds proves of the session what it promises of replies and failures. Whether a request whose send failed reached the machine is chosen freely.
- Machine.Link.ReleasePress: the shielded task, its three-second timeout and a cancellation meanwhile are one step that attempts the release once; a process that dies may owe the release.
- Machine.SwingStarts: the real machine does nothing on its own. Switching coil 150 or 155 on toggles the stored profile or the cleaning program, as the source describes them (src/wendougee_data/control_session.py line 222), and has no effect on memory; a program never ends by itself, so that a fault-free cleaning is proved up to its watching.
- Starts.ExecuteCleaning: the clock runs by itself and never back; the timeout of the monitor strikes between rounds or as a failed read; only the samples are recorded, not the report's texts.
- Tracker.ActivityTracker.Observe: after a sample on which it raises (custom_components/wendougee_data/shot_journal.py line 189) the object is not followed further, since the source leaves the comparison with the next sample half updated.
- Journal.ShotJournal.Observe: records are values, since no second reference to one is kept; points keep exact elapsed times, without the rounding to milliseconds; the constant final yield is not stored.
- Evidence.BundleFromDocument: JSON, time and enum texts are read into values first; the patterns of sensitive text are a parameter; the operation field is what its upper-case form names; the pattern check on the fixed capability names cannot fail; the names of readings and the wording of the limitations are replaced by symbols.
- Decoding.DecodesTelemetry: only the readings used elsewhere are kept in the decoded sample.
- Transports, Bluetooth scanning, GATT checks, the per-transaction allowlist of the sender (custom_components/wendougee_data/control.py lines 50-66), the payload-size guard of the preparation and clean-up of connections: opening, sending and closing succeed or fail at will.
- Home Assistant entities, options, services, notifications, listeners, diagnostics and dashboards.
- Time zones, clock edges and timers: dates do not decrease, and whether now is an edge is arbitrary.
- Sampling benchmark, fast capture, the profile read audit, event frames and the older telemetry assembler: easier than what is modelled.
- Target-temperature writes, physical meaning, units and calibration of registers, and authenticity of replies of the same shape.
