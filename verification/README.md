# MumDota in Dafny

MumDota bridges a Mumble voice server to browsers over WebRTC. This project
models the parts of it where state is hard to keep straight, and proves what
those parts are meant to guarantee:

- the lifecycle of sessions: connects, disconnects, event tasks, voice setup
  and WebSocket handlers interleaving over a session map, per-session locks, a
  permit pool and the TURN credentials (`Lifecycle*.dfy`);
- the TURN credential table against a plain log of what was issued and revoked
  (`Credentials.dfy`);
- the two media clocks, browser to Mumble (`Opus.dfy`, `Uplink.dfy`,
  `UplinkLoop.dfy`) and Mumble to browser (`Downlink.dfy`, `DownlinkRuns.dfy`),
  and the two put together (`Timing.dfy`);
- the offer/answer queue of one peer connection (`Negotiation.dfy`);
- STUN and ChannelData framing over a byte stream (`Framing.dfy`);
- the roster a Mumble client keeps and what listeners rebuild from its events
  (`Roster.dfy`), and the speakers and tracks that follow it (`SpeakerSync.dfy`);
- the `${VAR:-default}` expander of the configuration (`Expander.dfy`) and the
  WebSocket receive loop (`Handler.dfy`).

Objects the source updates in place are classes whose methods are proved
against functions on values; the theorems are about runs of those functions.
The lifecycle is a step relation: one action per segment of code between two
acquisitions of a lock, interleaved freely, since the tasks run on the threads of
a multi-threaded runtime and another task can step in there even where the source
has no await. Results of foreign calls (a peer connection that
refuses a candidate, a write that fails) are parameters, so every theorem holds
for every pattern of failures unless it says otherwise. `dafny verify
dfyconfig.toml` checks everything; nothing in it is executed.

What holds only under a condition, with the exact condition proved:

- A session holds at most two TURN credentials in every run exactly if the TTL
  is 0 or at least 180 s, twice the reuse margin. The validated minimum of 300 s
  is enough (`TwoPerSessionExactly`, `ValidTtlBoundsTable`).
- A negotiation request is never left waiting without an offer outstanding
  exactly if every follow-up that is due gets created: a buffered candidate
  refused while an answer is handled, or a failing `create_offer`, leaves
  `needs_offer` set in the stable state (`NeverStrandedExactly`,
  `StrandedWitness`).
- Both request flags are cleared before `set_local_description`, so a request and
  a restart are forgotten if that fails. An answer sends the follow-up exactly if
  one was asked for and nothing on the way failed (`AnswerSendsExactly`); a sent
  offer carries the restarts asked for since the offer sent before it exactly if
  no restarting offer in between failed to be set, or a restart was asked for
  again (`SentFlagExactly`, `ForgottenRestart`).
- Applied and waiting candidates are all the accepted ones, in order, exactly
  until a buffered one is refused; it and the ones after it are lost
  (`CandidatesInOrder`, `CandidateLost`).
- Tracks stay within the known speakers throughout a run exactly if no ServerSync
  in it names as our own a user who already has a track (`TracksWithinExactly`,
  `RenumberingWitness`).
- A terminator's number is at most the next packet's exactly if that packet's
  timestamp advanced by at least the previous packet's duration
  (`TerminatorBetweenPackets`, `TerminatorOvertakes`).
- A frame survives sending and reading exactly if its length field is right and
  it fits the reader's buffer (`RoundTripExactly`).
- A TURN credential can exist after the handler's own revoke, because the
  Connected event issues outside the session lock (`LateIssueHappens`). None is
  left once the event tasks have finished too (`NoCredentialLeftBehind`).
- An old generation never touches a newer session's map entry
  (`OldGenerationKeepsOut`), but credentials belong to the connection, so its
  final revoke can take a credential just issued to a reconnect
  (`OldRevokeReachesReconnect`). A reconnect's credential is safe from that exactly
  if the event task of every older generation was never spawned, has ended, or has
  yet to start and will find its session closed (`ReconnectSafeExactly`).

The protocol documentation says that `connect` must be the first text message.
The code only counts text that parses: malformed text before it is answered with
an error and does not end the connection. The model follows the code.

## Model

| member | source | states |
|---|---|---|
| `LifecycleInvariant.StepKeepsInv` | src/session.rs:63-651 | Every action of every task keeps the invariant that ties permits, slots, locks, map entries, task positions and outstanding credentials together. |
| `LifecycleInvariant.RunKeepsInv` | src/session.rs:182-651 | The invariant holds in every state of every interleaving, from the empty server on. |
| `LifecycleTheorems.CapacityConserved` | src/session.rs:182-263 | In every reachable state, free permits plus connects holding one plus sessions whose slot is set equal the configured maximum. |
| `LifecycleTheorems.ReleasedOnce` | src/session.rs:63-89 | A session that was ever built has returned its permit exactly once if its slot is no longer set, and not at all otherwise. |
| `LifecycleTheorems.ReleasedGrows` | src/session.rs:63-89 | A returned permit is never taken back from the record: the log of releases only grows along a run. |
| `LifecycleTheorems.AllFinishedLeavesNothing` | src/session.rs:384-419 | When every connect, disconnect, use, event and voice task has finished, after any failures, cancellations and duplicates, the map is empty, every remaining session object is unreferenced, and all permits are free once those are dropped. |
| `LifecycleTheorems.OldGenerationKeepsOut` | src/session.rs:392-419 | A connection's map entry survives every step except a disconnect of that connection and the cleanup of the very generation the entry names. |
| `LifecycleTheorems.DisconnectUnmaps` | src/session.rs:384-390 | A disconnect, by a caller or the handler, takes the connection out of the map at once and begins the teardown of exactly the session it named, if there was one. |
| `LifecycleTheorems.RevokeAfterTeardown` | src/ws/handler.rs:119-121 | In every run a handler revokes only after its own disconnect, and only after the teardown that began there has ended. |
| `LifecycleTheorems.UseHoldsOn` | src/session.rs:266-273 | A call on a session holds on to exactly the generation that is in the map at that moment. |
| `LifecycleTheorems.InUseIsKept` | src/session.rs:266-273 | In every reachable state a session object that some call still uses exists and cannot be dropped. |
| `LifecycleTheorems.ErrorOnlyFromCurrent` | src/session.rs:392-419 | A terminal error is sent only by a generation that is still in the map, has released its slot and has sent none before, and its entry is gone when it is sent. |
| `LifecycleTheorems.ErrorsAtMostOnce` | src/session.rs:392-419 | No generation ever sends two terminal errors, and one that sent an error has returned its permit and is out of the map for good. |
| `LifecycleTheorems.TornDownStaysDown` | src/session.rs:63-89 | A session whose slot was released is closed and never again holds a bridge, Mumble voice, a voice-task handle or a pending voice setup, in whatever order task start, voice setup and disconnect came. |
| `LifecycleHistory.FieldsFollowSteps` | src/session.rs:63-607 | In every state of every run, a session has a bridge if and only if voice setup attached one and no teardown took its lock since; a Mumble voice if and only if it was attached and no teardown reached its second segment since; is closed, logged in or due to send an error if and only if the step that makes it so has come (and, for the error, its cleanup has not). |
| `LifecycleHistory.ErrorSentExactly` | src/session.rs:392-419 | When an event task comes to its cleanup it sends a terminal error if and only if Mumble had disconnected it with a reason and its generation is still the one in the map. |
| `LifecycleHistory.HandlerIssuesAfterLogin` | src/session.rs:150-160 | In every run a handler issues a credential only for a session whose Connected event was handled while it was open. |
| `LifecycleHistory.StoppingExactly` | src/session.rs:188-190 | The server is stopping if and only if shutdown was begun earlier in the run. |
| `LifecycleHistory.NoConnectAfterShutdown` | src/session.rs:188-190 | No connect begins after shutdown was begun. |
| `LifecycleExample.BridgeComesAndGoes` | src/session.rs:456-490 | There is a run in which voice setup attaches a bridge and a voice, and the teardown takes the bridge in its first segment and the voice in its second. |
| `LifecycleExample.RefreshHappens` | src/session.rs:150-160 | There is a run in which a logged-in session's handler refreshes and, nothing being reusable, the new credential is in the table. |
| `LifecycleTheorems.NoCredentialLeftBehind` | src/session.rs:532-650 | Once a connection's handler and all event tasks of all its generations have finished, the credential table holds nothing for that connection, although credentials are issued outside the session lock. |
| `LifecycleReconnect.ReconnectSafeExactly` | src/session.rs:392-650 | In every reachable state with generation g of a connection in the map, a live credential of that connection survives every continuation in which g stays mapped, the handler does not revoke and the credential does not expire, if and only if every other generation of the connection is spent: event task unspawned, ended, or not yet started on a closed session. |
| `LifecycleReconnect.SafeKeepsCredential` | src/session.rs:392-650 | Along any such continuation from a safe state, however long, the state stays safe and the credential stays unchanged. |
| `LifecycleReconnect.UnspentCanLose` | src/session.rs:429-650 | From any reachable state with an unspent older generation, wherever its event task is and even while a disconnect holds its lock, there are steps of it that end in its revoke and take the credential while g is still mapped. |
| `LifecycleExample.OldRevokeReachesReconnect` | src/session.rs:645-650 | There is a run in which a reconnect on the same connection is running with a fresh credential, the state is not safe, and the old generation's final revoke takes the credential. |
| `LifecycleExample.LateIssueHappens` | src/session.rs:532-551 | There is a run in which a credential is issued for a connection after its handler has disconnected, revoked and gone, so the event task's own revoke is needed. |
| `TurnCredentials.Credentials.constructor` | src/turn/credentials.rs:47-54 | A new table is empty and keeps its realm and TTL. |
| `TurnCredentials.Credentials.IssueAt` | src/turn/credentials.rs:59-96 | The table is pruned and either keeps a reusable credential of the session or gains a fresh one; the one handed out is in the table, belongs to the session and, for a TTL over 90 s, has more than 90 s left; exactly the `turn` URLs carry a username and password, those two authenticate at once under the key they make, and a fresh pair is the one generated. |
| `TurnCredentials.Credentials.Revoke` | src/turn/credentials.rs:98-107 | All of a session's credentials leave the table and exactly their usernames are returned. |
| `TurnCredentials.Credentials.AuthenticateAt` | src/turn/credentials.rs:109-125 | The answer is the table's verdict on name, realm and time, and nothing changes. |
| `TurnCredentials.TableAgreesWithBook` | src/turn/credentials.rs:59-107 | After any run with fresh names and a clock that does not go back, every entry of the pruned table is issued and unrevoked in a full, never pruned log, and every such credential that has not expired is in the table unchanged. |
| `TurnCredentials.AuthenticationMatchesBook` | src/turn/credentials.rs:109-125 | Authentication succeeds with a key if and only if the log has that credential issued, unrevoked and unexpired, and the realm asked for is the right one. |
| `TurnCredentials.KeysFitPasswords` | src/turn/credentials.rs:68-84 | In every run each entry is stored under its username, and its key is made from that username, the realm and the password handed out with it. |
| `TurnCredentials.RunStaysSpaced` | src/turn/credentials.rs:59-84 | In every run, two credentials of one session were minted far enough apart that the earlier one was no longer reusable. |
| `TurnCredentials.AtMostTwoPerSession` | src/turn/credentials.rs:59-84 | With a TTL of at least 180 s no run ever holds more than two credentials for a session. |
| `TurnCredentials.ReuseIsUnambiguous` | src/turn/credentials.rs:64-66 | At most one credential of a session has more than 90 s left, so a search in hash order can only find that one. |
| `TurnCredentials.CrowdingRunHoldsThree` | src/turn/credentials.rs:59-84 | For every TTL from 1 to 179 s there is a run of three issues after which a session holds three credentials. |
| `TurnCredentials.ZeroTtlHoldsOne` | src/turn/credentials.rs:59-84 | With a TTL of 0 the whole table never holds more than one credential, and that one has expired. |
| `TurnCredentials.TwoPerSessionExactly` | src/turn/credentials.rs:59-84 | The bound of two per session holds over all runs if and only if the TTL is 0 or at least 180 s. |
| `TurnCredentials.ValidTtlBoundsTable` | src/config.rs:307-310 | A TTL that validation lets through bounds every session to two credentials, none expiring later than a TTL from the last operation. |
| `TurnCredentials.RevokeIsExact` | src/turn/credentials.rs:98-107 | After a revoke the session has nothing left and every other session has exactly what it had. |
| `TurnCredentials.SurvivesWithoutRevoke` | src/turn/credentials.rs:59-107 | A credential stays unchanged through any further operations that do not revoke its session and come before its expiry. |
| `TurnCredentials.RefreshRotates` | src/turn/credentials.rs:59-84 | A refresh when nothing is reusable yields a new, later credential, and the old one stays valid and unchanged to its original expiry, whatever else happens until then. |
| `TurnCredentials.HandedOutIsLatest` | src/turn/credentials.rs:59-96 | What an issue hands out, fresh or reused, is in the table, and no credential of the session expires later. |
| `TurnCredentials.HandedOutAuthenticates` | src/turn/credentials.rs:59-125 | What an issue hands out authenticates until it expires, whatever other operations come that do not revoke the session, under the key made from the very username and password handed out; when nothing was reusable those are the fresh ones. |
| `TurnCredentials.BrowserRefreshRotates` | client.html:437-440 | Refreshing 60 s before the expiry last handed out, as the browser does, whatever other sessions do in between, makes the new credential the only reusable one while both authenticate, each under its own key, for those 60 s. |
| `Opus.FrameSizeMatchesTable` | src/bridge.rs:53-70 | The shifts and masks on the TOC byte give the frame size of the configuration table in section 3.1 of RFC 6716, for all 32 configurations. |
| `Opus.FrameCountMatchesRfc` | src/bridge.rs:31-51 | A frame count is found exactly for packets whose code and count byte state one under section 3.2 of RFC 6716, and it is that section's count. |
| `Opus.TotalSamplesMatchesRfc` | src/bridge.rs:21-29 | A duration is found exactly for packets whose TOC and count byte state one of at most 120 ms, it is the standard's, and it is a positive multiple of 2.5 ms. |
| `Uplink.UplinkClock.constructor` | src/bridge.rs:72-79 | A new clock has heard nothing and stands at frame 0. |
| `Uplink.UplinkClock.Packet` | src/bridge.rs:80-98 | The fields after a packet, and the frame number or rejection returned, are those of the clock's step on values. |
| `Uplink.UplinkClock.End` | src/bridge.rs:99-101 | The terminator's number is the one after the last accepted packet, and nothing changes. |
| `Uplink.FrameCountsTimestamps` | src/bridge.rs:80-98 | At every point of every run, the first timestamp plus 480 times the frame number is the last accepted timestamp modulo 2^32. |
| `Uplink.NumberIsClock` | src/bridge.rs:80-98 | An accepted packet's number determines its timestamp relative to the first one, modulo 2^32, and is what the clock shows next. |
| `Uplink.NumbersIncrease` | src/bridge.rs:80-98 | Of two accepted packets anywhere in a run, the later has the greater number. |
| `Uplink.RejectedChangesNothing` | src/bridge.rs:80-98 | A rejected packet leaves no trace in the clock. |
| `Uplink.StepRefines` | src/bridge.rs:80-98 | For a packet within half a wrap of the last accepted one, the wrapping clock decides and counts as an unbounded timeline does that accepts exactly what is newer in both and 480-aligned. |
| `Uplink.ClockRefinesTimeline` | src/bridge.rs:80-98 | Over whole runs of such packets, every acceptance and every frame number is that of the unbounded timeline, across any number of wraps. |
| `UplinkLoop.Forward` | src/bridge.rs:121-149 | The loop over packets and timer ticks offers exactly the sequence of packets and terminators that folding its step gives. |
| `UplinkLoop.VoiceOfferedExactly` | src/bridge.rs:121-139 | A browser packet is offered if and only if the queue was not found closed before, it is at most 120 ms old and whole 10 ms units long, and the clock of the packets before it accepts it; it is offered with its own bytes under the clock's number. |
| `UplinkLoop.TerminatorOfferedExactly` | src/bridge.rs:139-145 | A tick offers a terminator if and only if the queue was not found closed before and the last thing offered was a packet, at least 200 ms ago. |
| `UplinkLoop.StoppedExactly` | src/bridge.rs:137-137 | The loop has stopped if and only if an offered packet found the queue closed; a full queue does not stop it. |
| `UplinkLoop.ClockIsOfPackets` | src/bridge.rs:127-134 | The loop's clock is the clock of the packets that were in time and whole until it stopped, so the clock theorems are about it. |
| `UplinkLoop.ForwardedAreWholeFrames` | src/bridge.rs:121-147 | Every forwarded packet lasts a whole number of 10 ms units, 1 to 12, and that is its RFC 6716 duration. |
| `UplinkLoop.LoopStaysChained` | src/bridge.rs:121-147 | In every run, each offer is numbered after the packet before it by its timestamp distance, and no terminator follows another. |
| `UplinkLoop.TerminatorBetweenPackets` | src/bridge.rs:99-147 | A terminator directly follows a packet and exceeds its number; it never exceeds the next packet's number if and only if that packet's timestamp advanced by at least the previous duration. |
| `UplinkLoop.TerminatorOvertakes` | src/bridge.rs:99-147 | There is a run in which it does not: a packet 10 ms after one of 20 ms gets a lower number than the terminator between them. |
| `Downlink.ElapsedTicks` | src/webrtc/speakers.rs:28-61 | Elapsed time becomes the largest number of 48 kHz ticks that fits in it, capped at 2^32 - 1. |
| `Downlink.MediaClock.constructor` | src/webrtc/speakers.rs:17-27 | A new clock is silent: zero counters and no last frame. |
| `Downlink.MediaClock.Next` | src/webrtc/speakers.rs:28-61 | The fields after a packet, and the RTP header or refusal returned, are those of the clock's step on values. |
| `Downlink.MediaClock.MarkEnded` | src/webrtc/speakers.rs:128-163 | A terminator only marks the spurt as over. |
| `Downlink.SpeakerTracks.constructor` | src/webrtc/speakers.rs:82-88 | There are no tracks at first. |
| `Downlink.SpeakerTracks.Add` | src/webrtc/speakers.rs:89-121 | A speaker without a track gets a silent clock if the peer accepts the track; one with a track keeps its clock; no other speaker is touched. |
| `Downlink.SpeakerTracks.Remove` | src/webrtc/speakers.rs:122-127 | The speaker's track is gone even if the peer fails to remove it; no other speaker is touched. |
| `Downlink.SpeakerTracks.Write` | src/webrtc/speakers.rs:128-163 | A message in time steps exactly its own speaker's clock in place; one that is late or from a speaker without a track changes nothing. |
| `DownlinkRuns.ClockRemembers` | src/webrtc/speakers.rs:28-61 | Between two emitted packets the clock keeps the earlier one's frame, duration, time and counters, whatever is heard and refused in between. |
| `DownlinkRuns.NextPacket` | src/webrtc/speakers.rs:28-61 | From one emitted packet to the next the sequence number advances by 1 modulo 2^16; the marker is set exactly on the first packet of a spurt; within a spurt the timestamp advances by 480 per frame, across spurts by the elapsed ticks or the previous duration, whichever is more. |
| `DownlinkRuns.EmittedExactly` | src/webrtc/speakers.rs:28-61 | After an emitted packet, a message is the next one emitted if and only if it carries a valid Opus packet and is newer than it or starts a new spurt. |
| `DownlinkRuns.FirstEmittedExactly` | src/webrtc/speakers.rs:28-61 | The first packet a track emits is for the first message with a valid Opus packet. |
| `DownlinkRuns.CountersUnwrap` | src/webrtc/speakers.rs:28-61 | The two wrapped counters are an unbounded packet count and an unbounded tick count, and the tick count strictly increases with every packet after the first. |
| `DownlinkRuns.FirstPacket` | src/webrtc/speakers.rs:28-61 | The first packet of a track has sequence number 1, timestamp 0 and the marker. |
| `DownlinkRuns.SpeakersAreIndependent` | src/webrtc/speakers.rs:89-163 | After any mix of joins, leaves and voice, one speaker's track and clock are what that speaker's own events alone would give. |
| `DownlinkRuns.TrackHearsItsSpeaker` | src/webrtc/speakers.rs:89-163 | After any events, a speaker has a track exactly if its last accepted join came after its last leave, and its clock is the run of its timely messages since the join that added the track. |
| `Timing.AllEmitted` | src/webrtc/speakers.rs:28-61 | If the first survivor of a spurt is emitted then all are, without a marker, at 480 ticks per frame from the first. |
| `Timing.TimingPreserved` | src/bridge.rs:80-98 | For any accepted uplink packets that survive in order and are heard within one spurt, output timestamp differences equal input timestamp differences modulo 2^32, across wraps and losses. |
| `Negotiation.WebrtcSession.constructor` | src/webrtc/mod.rs:136-148 | A new session is not started, stable, and remembers nothing. |
| `Negotiation.WebrtcSession.Offer` | src/webrtc/mod.rs:150-171 | The fields after an offer request, and what is sent, are those of the request's step, for each failure of the peer. |
| `Negotiation.WebrtcSession.Answer` | src/webrtc/mod.rs:173-185 | The fields after an answer, with the buffer drained up to the first refusal and the follow-up made if due, are those of the answer's step. |
| `Negotiation.WebrtcSession.AddIceCandidate` | src/webrtc/mod.rs:187-211 | A candidate is buffered, refused or applied as the candidate's step says. |
| `Negotiation.OneOfferOutstanding` | src/webrtc/mod.rs:150-185 | In every run, whatever fails, the offers sent outnumber the answers accepted by one while an offer is out, by none in the stable state, and by one or none once the connection is closed. |
| `Negotiation.StrandedExactly` | src/webrtc/mod.rs:173-185 | One step leaves a request waiting in the stable state if and only if it is an accepted answer with a request waiting and a buffered candidate is refused or the follow-up offer cannot be created. |
| `Negotiation.NeverStrandedExactly` | src/webrtc/mod.rs:150-185 | `needs_offer` is never set in the stable state, at any point of a run, if and only if no accepted answer in the run is kept from creating a follow-up that is due. |
| `Negotiation.StrandedWitness` | src/webrtc/mod.rs:173-185 | A five-step run in which one refused candidate leaves a request waiting. |
| `Negotiation.WaitingRemembers` | src/webrtc/mod.rs:150-171 | While an offer is out, any mix of requests, candidates and failed answers sends nothing and remembers exactly whether there was a request and whether one asked for a restart. |
| `Negotiation.OfferSendsExactly` | src/webrtc/mod.rs:150-171 | After any run a direct request sends an offer if and only if voice was started, the connection is not closed, every offer sent was answered, and the offer can be created and set; it fails if and only if only the last of these is missing. |
| `Negotiation.AnswerSendsExactly` | src/webrtc/mod.rs:173-185 | After any run, an accepted answer sends the next offer if and only if a request is waiting, every buffered candidate is taken, and the offer can be created and set; its restart flag is the one waiting. |
| `Negotiation.RequestsCoalesce` | src/webrtc/mod.rs:150-185 | Any number of requests made while an offer is out become exactly one follow-up offer when the answer arrives and the peer refuses nothing, with a restart if any asked for one, and none if there was no request. |
| `Negotiation.PendingIsDisjunction` | src/webrtc/mod.rs:150-171 | The restart flag waiting is always the disjunction of the restart arguments since the last created offer, including those before start and across failures. |
| `Negotiation.RestartFlagIsDisjunction` | src/webrtc/mod.rs:150-171 | Each created offer restarts ICE exactly if a request since the previous created offer asked for it. |
| `Negotiation.AskedIsWaitingOrForgotten` | src/webrtc/mod.rs:150-171 | At every point of every run, a restart was asked for since the last offer sent if and only if one is still waiting or a restarting offer created since then was refused by `set_local_description`. |
| `Negotiation.SentFlagExactly` | src/webrtc/mod.rs:160-170 | The flag of an offer sent to the browser is the disjunction of the restart requests since the offer sent before it, if and only if no restarting offer in between failed to be set or a restart was asked for again after the last one created. |
| `Negotiation.ForgottenRestart` | src/webrtc/mod.rs:160-170 | There is a three-step run in which a restart is asked for, its offer is created and not set, and the next offer goes out without the restart. |
| `Negotiation.CandidateExactly` | src/webrtc/mod.rs:187-211 | After any run a candidate is accepted if and only if it must wait (no answer was accepted yet, or an offer is out) and fewer than 128 wait, or it need not, the connection is stable and the peer takes it; then it is the last one waiting or the last one applied, and nothing else changes. |
| `Negotiation.StepKeepsCandidates` | src/webrtc/mod.rs:173-211 | A candidate is only ever applied with a remote description and no local offer out, or by an accepted answer; a step keeps and appends candidates in order unless a drain is refused, and then it loses some. |
| `Negotiation.BufferBounded` | src/webrtc/mod.rs:187-211 | In every run at most 128 candidates wait, and none wait in the stable state with a remote description. |
| `Negotiation.CandidatesInOrder` | src/webrtc/mod.rs:173-211 | Applied candidates followed by waiting ones are the acceptable candidates in order of arrival, if and only if no buffered candidate was refused while an answer was handled; otherwise there are fewer. |
| `Negotiation.CandidateLost` | src/webrtc/mod.rs:173-185 | There is a run in which an accepted candidate is neither applied nor waiting. |
| `Framing.StreamConn.constructor` | src/turn/stream.rs:27-37 | A new connection is open, has written nothing and has all incoming bytes before it. |
| `Framing.StreamConn.ReadExact` | src/turn/stream.rs:43-66 | However the bytes arrive in pieces, a read takes exactly the number asked for off the front of the stream, or fails with the stream used up. |
| `Framing.StreamConn.ReadBody` | src/turn/stream.rs:43-66 | The header and body land at the front of the buffer, the rest of the buffer is untouched, and the padding is consumed with the body. |
| `Framing.StreamConn.ReadFrame` | src/turn/stream.rs:43-66 | The frame or error, the buffer and the rest of the stream are those of parsing the stream's contents, for every way the bytes arrive in pieces. |
| `Framing.StreamConn.Send` | src/turn/stream.rs:87-106 | The frame goes out whole with its padding, or as far as the stream took it; it counts as sent, with the connection as it was, exactly if all of it was taken and flushed, and otherwise the connection is closed. |
| `Framing.StreamConn.Receive` | src/turn/stream.rs:77-83 | A frame is delivered as parsed and leaves the connection as it was; any error closes it. |
| `Framing.RoundingsAgree` | src/turn/stream.rs:43-97 | The reader's 64-bit mask and the writer's remainder round every length up to the same multiple of 4. |
| `Framing.ReadBack` | src/turn/stream.rs:43-97 | Reading a sent frame followed by anything gives back that frame and leaves exactly what followed. |
| `Framing.ReadIsWellFormed` | src/turn/stream.rs:43-66 | Whatever is read as a frame is well formed, fits, is the front of the stream, and takes from it what sending the frame would have written. |
| `Framing.RoundTripExactly` | src/turn/stream.rs:43-97 | A frame is read back before every suffix if and only if it is well formed and fits the buffer. |
| `Framing.StunIsRead` | src/turn/stream.rs:43-66 | A STUN message laid out by hand, with its length in network order, is read as its 20 + n bytes before any suffix. |
| `Framing.ChannelDataIsRead` | src/turn/stream.rs:43-66 | ChannelData laid out by hand, with its length in network order, is read as its 4 + n bytes, and its padding is skipped whatever it holds. |
| `Framing.ReadFailsExactly` | src/turn/stream.rs:43-66 | By the values of its first bytes and its length alone: which error a stream leads to and what is left of it, and otherwise which frame. |
| `Framing.SentIsPaddedWithZeros` | src/turn/stream.rs:87-97 | What is sent is the frame and at most three zero bytes, and those only after ChannelData. |
| `Framing.StreamRoundTrip` | src/turn/stream.rs:43-97 | Any sequence of well-formed STUN and ChannelData frames that fit, sent back to back before any suffix, is read back exactly, leaving exactly the suffix. |
| `Framing.BoundariesAligned` | src/turn/stream.rs:87-97 | Every boundary between sent frames is at a multiple of 4 bytes. |
| `Roster.CryptFromMessage` | src/mumble/client.rs:209-229 | A crypt setup is usable if and only if the key and both nonces have their fixed sizes; otherwise the first field that does not is named with its size. |
| `Roster.MumbleClient.constructor` | src/mumble/client.rs:113-116 | A new client knows no users and no channels and has delivered no crypt state. |
| `Roster.MumbleClient.Snapshot` | src/mumble/client.rs:373-388 | A snapshot lists every user and channel of the maps once, in some order. |
| `Roster.MumbleClient.HandleControlPacket` | src/mumble/client.rs:267-411 | The maps, flags and events after a control packet are those of its step on values, a ServerSync lists the maps as they stand, and the answer says whether to go on. |
| `Roster.KeysAlwaysMatch` | src/mumble/client.rs:276-354 | In every run, each map key is the id stored under it. |
| `Roster.UsersAreAsSaid` | src/mumble/client.rs:300-360 | In every run the users are exactly those whose last packet was a UserState, and each field is the one last said, an absent field meaning no change for a user known after login and the blank value otherwise. |
| `Roster.ChannelsAreAsSaid` | src/mumble/client.rs:277-299 | In every run the channels are exactly those whose last packet was a ChannelState, each field as in that packet. |
| `Roster.ConnectedExactly` | src/mumble/client.rs:373-375 | The client is connected if and only if a ServerSync has come. |
| `Roster.PassedOnAsSent` | src/mumble/client.rs:361-403 | Chat goes out with its sender, text and first channel, a rejection as a disconnect, a ServerSync as Connected with our id; the loop ends only at a crypt setup of wrong sizes, with a disconnect. |
| `Roster.ListingRebuilds` | src/mumble/client.rs:373-388 | Loading a snapshot, in whatever order it lists things, gives back exactly the client's maps. |
| `Roster.PatchIsMerge` | src/mumble/client.rs:231-265 | Applying a state-change event to a user gives what merging the Mumble message into that user gives. |
| `Roster.HandleMirrors` | src/mumble/client.rs:267-411 | A packet leads to at most one event, and absorbing it keeps a listener's maps equal to the client's. |
| `Roster.EventsRebuildRoster` | src/mumble/client.rs:276-388 | At every point of every packet sequence, folding the events emitted so far gives exactly the client's users and channels. |
| `Roster.ConnectedComesFirst` | src/mumble/client.rs:276-388 | No roster event is emitted before a Connected event. |
| `Roster.CryptDeliveredOnce` | src/mumble/client.rs:356-388 | Crypt state is delivered at most once in a run, only by a ServerSync, and it is the latest usable one since the ServerSync before. |
| `Roster.CryptDeliveredExactly` | src/mumble/client.rs:361-382 | Crypt state is delivered if and only if a ServerSync ever came with a usable one waiting. |
| `SpeakerSync.Session.constructor` | src/session.rs:225-239 | A new session knows no speakers and has no tracks. |
| `SpeakerSync.Session.HandleEvent` | src/session.rs:532-577 | Speakers, tracks and names after an event are those of following it on values. |
| `SpeakerSync.Session.Start` | src/session.rs:275-292 | Starting voice adds tracks for the known speakers in the order iterated, up to the first refusal, and only counts as started without one. |
| `SpeakerSync.StartAnswers` | src/session.rs:275-292 | `start_voice` succeeds if and only if our own id is known and voice was started before or no known speaker without a track is refused, and it leaves voice started exactly then. |
| `SpeakerSync.StartedExactly` | src/session.rs:275-292 | After any run voice is started if and only if some `start_voice` in it came with our own id known and no known speaker without a track refused. |
| `SpeakerSync.ClientIsSensible` | src/mumble/client.rs:276-388 | Every event a client emits fits what its earlier events said: joins and added channels are new, changes and updated channels are of known ones, snapshots of the users there are. |
| `SpeakerSync.StaysInStep` | src/session.rs:532-577 | Whatever voice starts and refusals come between, known speakers are the users heard of minus our own, and names are theirs. |
| `SpeakerSync.SessionMatchesRoster` | src/session.rs:532-577 | When the client's events have all been handled, the known speakers are the roster's ids minus our own and the name map is the roster's names. |
| `SpeakerSync.TracksFollowSpeakers` | src/session.rs:275-292 | With one own id, tracks are always within the known speakers, and equal to them once voice has started and no join was refused, under any interleaving of voice start with events. |
| `SpeakerSync.TracksEqualAfterStart` | src/session.rs:275-571 | From the first such `start_voice` on, with one own id and no later join refused, the tracks are exactly the known speakers. |
| `SpeakerSync.ClientTracksFollow` | src/webrtc/speakers.rs:89-127 | Both for every session that has handled some prefix of a real client's events. |
| `SpeakerSync.RenumberingExactly` | src/session.rs:532-551 | A further Connected event keeps tracks within the known speakers if and only if it does not name as our own a user with a track. |
| `SpeakerSync.TracksWithinExactly` | src/session.rs:275-577 | For every session that has handled some prefix of a client's events, with voice starts and refusals anywhere, tracks are within the known speakers at every point of the run if and only if no Connected event in it names as our own a user who has a track by then. |
| `SpeakerSync.RenumberingWitness` | src/session.rs:532-551 | There are three control packets, two of them ServerSyncs, whose events, with voice started in between, leave a track for a user who is no known speaker. |
| `Expander.ReadInner` | src/config.rs:83-129 | The inner loop reads up to the first closing brace, or says there is none. |
| `Expander.ExpandEnvVars` | src/config.rs:83-129 | The loop's result or error is the recursive expansion of the input. |
| `Expander.PlaceholderSplits` | src/config.rs:104-112 | A placeholder's text splits at its first `:-` into name and default, or is all name. |
| `Expander.ExpansionEvaluates` | src/config.rs:83-129 | Expanding any input is reading it as a script of literals and placeholders and evaluating that once: substituted text is never looked at again. |
| `Expander.ReadPrints` | src/config.rs:83-129 | Every input is the printed form of the script it is read as, and that script alternates literals free of `${` with placeholders. |
| `Expander.ReadBack` | src/config.rs:83-129 | Every such alternation, printed and read again, is itself. |
| `Expander.ExpandsAlternation` | src/config.rs:83-129 | Expanding the printed form of any alternation of literals and placeholders is its single-pass evaluation. |
| `Expander.EvaluateFailsExactly` | src/config.rs:91-126 | Evaluation fails if and only if a placeholder is unclosed, has an empty name, or is unset without a default. |
| `Expander.ExpandFailsExactly` | src/config.rs:91-126 | Expansion of any input fails if and only if the script it is read as has such a placeholder. |
| `Expander.ExpandGivesExactly` | src/config.rs:91-126 | A successful expansion is the literals and the placeholders' values in order, the variable's value where it is set and the default only otherwise; a failed one names the first placeholder at fault. |
| `Handler.Receive` | src/ws/handler.rs:51-121 | The loop handles exactly the events up to the first that ends it or the first message that overruns its time, and every way out ends in one disconnect and then one revoke. |
| `Handler.EndsExactly` | src/ws/handler.rs:70-114 | An event ends the loop if and only if it is the end of the socket, a disconnect, or a message that is no connect with no message before it. |
| `Handler.PassedCalls` | src/ws/handler.rs:84-96 | No handled event disconnects or revokes by itself, so the exit path does each exactly once. |
| `Handler.FirstIsConnect` | src/ws/handler.rs:81-84 | If anything reached the session manager before the exit path, the first message that parsed was a connect. |
| `Handler.ConnectsExactly` | src/ws/handler.rs:133-149 | A user is connected if and only if a connect message with that name was handled and the name has at most 128 characters, not all blank. |
| `Handler.OperatesExactly` | src/ws/handler.rs:150-216 | A message is passed on to the session if and only if it was handled, is no connect, disconnect or old-protocol offer, and is no chat of over 4096 characters. |

## Left out

- Lifecycle: modelled as a step relation on values, not as methods that update a `UserSession` in place; aliasing is captured only as references that keep a session object alive.
- Lifecycle: aborting the voice-setup task is modelled as that task taking no further step; the point at which the runtime really stops it is not.
- Lifecycle: `start_voice`, chat and candidate calls on a session are modelled as references to it, not as holders of its lock; they change nothing the lifecycle theorems speak of.
- Lifecycle: runtime shutdown that cancels a WebSocket handler before its exit path; a handler, once open, is modelled as leaving only through that path.
- Lifecycle: deletion of TURN allocations after a revoke belongs to the TURN library and is not modelled.
- Downlink.ElapsedTicks: exact integer ticks; the source multiplies a floating-point number of seconds, whose rounding is not modelled.
- TurnCredentials.Credentials.IssueAt: does not model 64-bit overflow of `now + ttl`, which takes a clock near 2^64 seconds.
- TurnCredentials.Credentials.IssueAt: usernames and passwords are parameters and the key is an uninterpreted triple of name, realm and password; randomness and hashing are not modelled.
- Uplink.UplinkClock.Packet: does not model 64-bit overflow of the frame number, which takes longer than any connection.
- Framing.StreamConn.Receive: does not model the 90 s idle limit or the race of closing a stream with a frame that is already readable, in the unbiased `select!` of `src/turn/stream.rs:77-83`; the model reads the frame. Concurrent readers and writers of one stream are not modelled either.
- Handler.Receive: the WebSocket loop's three ways of being woken are one sequence of events; usernames and chat are measured in characters rather than UTF-8 bytes, blanks are ASCII blanks, and the messages that only pass through are one case.
- Roster.MumbleClient.HandleControlPacket: key and block size are 16 bytes, as the cipher of the Mumble library has them; protobuf decoding is not modelled.
- SpeakerSync.Session.HandleEvent: sends to the browser, chat and channel forwarding change no modelled state and are not modelled.
- Negotiation.WebrtcSession.Offer: the peer connection is a signaling state, whether it has a remote description, the candidates it took and the offers it made; SDP text, ICE and DTLS are not modelled.
- Expander.ExpandEnvVars: a variable whose value is not Unicode counts as unset.
- The other rules of `Config::validate`, the environment overrides and TOML: single-branch facts that would only add easy members.
- JSON messages, the relay's endpoint mapping, server routing, health checks, logging and sockets.
- Real-time liveness: nothing is claimed about how soon a step is taken.
