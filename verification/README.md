# Radio engine: a verified model

The program keeps internet radio stations on air. Each station has one render loop that plays a queue of tracks
with transitions, lays announcements over the music, and writes a block of PCM every 20 ms to an encoder, while API
callers change the queue from other threads and background preparers fetch and decode media. Beside it stand an MP3
framer with real-time pacing, a cache for downloaded media and a dispatcher that writes events to a Redis stream.

The project models these engines and proves properties of all their runs:

- **The station** (`StationModel`, with `Playlist`) is a machine whose steps are the critical sections, channel
  operations and loop stages of the render loop, its preparers and its callers. Runs are arbitrary interleavings,
  reconnects and left-over preparers of finished runs included. `StationShape` and `StationFrame` hold the basic
  invariant and what each step leaves alone; the results are in `TrackOrder`, `TrackFrames`, `AnnouncementFlow`,
  `AnnouncementIndependence`, `AnnouncementStory`, `AnnouncementFaults`, `Wakeup`, `AssetLedger`, `AssetLeak` and
  `PlaybackTrace`; `StationRuns` puts runs together. What single steps and stretches come to, in numbers of frames and
  names of tracks and commands, is in `LoopHead`, `StationLaws`, `StationModes`, `TransitionLaws`, `TrackPreparation` and
  `QueueContents`. `StationObject` and `Pcm` are the same things as the mutable objects they are in the program; their
  methods are proved to take exactly the steps of the machine, so the results hold of them.
- **The mixer**: `Dsp` holds the arithmetic over exact reals and its laws, `Mixing` the object with its sample loops,
  and what every run of blocks and profile changes keeps; `SampleLaws` says what each sample comes to, and
  `Transparency` how far the mixer is from letting music through unchanged.
- **The MP3 framer** (ISO/IEC 11172-3 sections 2.4.2.3 and 2.4.3.1, with the low sampling rates of ISO/IEC 13818-3;
  ID3v2.4.0 structure sections 3.1, 3.4 and 6.2): `Mp3Frames` describes headers, tags and the scan of a byte
  sequence, `Mp3Stream` and `Mp3Session` read and write step by step, and `Pacing` is the pacer.
- **The media cache**: `SingleFlight` is a machine over any number of callers, with the store object that takes its
  steps; `Eviction` is the least-recently-used sweep.
- **The event dispatcher**: `Events` is a machine of publishers, closers and the retrying worker, with the dispatcher
  object whose worker loop takes its steps.

`Log` in the station, `history` in the dispatcher and the ghost fields elsewhere only record what happened. What
comes from outside (decoding, failing reads and writes, timers, removals, the outcome of the library sort) is an
argument of the step or method that meets it, so every outcome is covered.

Where the code and the repository's README differ, the model follows the code. Delivery of events is promised to be at
least once, without condition. The code drops an event when its queue is full (`QueueFull`), and gives up on the event
in hand, and on everything still queued, when a `Close` times out. `Events.NothingMissingExactlyIf` says exactly when
nothing is missing, `Events.FirstReportDecides` what callers may conclude from the reports of their `Close` calls, and
`Events.SecondCloseMayLose` shows a `Close` that reports success although an event was lost.

Some properties one would like the code to have are false of it. Each of these has its exact condition:

- One terminal event per announcement: a failed preparation gives two failures
  (`internal/station/playback.go:171-172`), a failed read a failure and an end; both happen
  (`AnnouncementFaults.TwoTerminalEventsHappen`). The number follows from the outcome of the decode and the reads that
  fail (`AnnouncementFaults.TerminalEventsFollowFaults`, `AnnouncementFaults.LostWithItsRun`).
- Every frame of an MP3 stream is found again behind junk: exactly if the junk settles (`Mp3Frames.FrameIsFoundExactlyIf`).
- The mixer lets unducked music through unchanged: exactly if both gains are fully open, which a fade-in from silence
  only approaches (`Transparency`).
- Normalising an announcement profile is idempotent: exactly if the limiter threshold asked for was not positive
  (`Dsp.NormalizeRangeAndFixpoint`).
- A fade is a crossfade with silence: a linear `Fade` is not clamped (`Mixing.FadeIsHalfACrossfade`).
- Everything decoded is closed: an open asset is never closed exactly if it was left in the ready channel of a finished
  run (`AssetLeak.LeakedExactlyIfParked`), and that happens (`AssetLeak.ParkingHappens`).
- A call whose context is live does not fail for a cancelled one: it does exactly if it followed a download that its
  leader's context interrupted (`SingleFlight.LiveCallFailsOnlyWithItsLeader`, `SingleFlight.FollowerFailsWithItsLeader`).

## Model

| member | source | states |
|---|---|---|
| TrackOrder.TrackConservation | internal/station/playback.go:113-180 | Over any interleaving and any number of reconnects, the tracks popped from the queue are exactly those started, failed or lost at a run's end, in pop order, then at most one pending track; none is popped twice, at most one is lost per ended run, and no prepared track is ever surplus |
| TrackOrder.BoundedStaleness | internal/station/station.go:177-204 | After an accepted replacement the only older track that can still start, fail or be lost is the one already pending, and it comes first; every later decision follows the accepted lists position by position without a gap, and names the tracks those lists contained |
| TrackOrder.ReplacementIsExact | internal/station/station.go:177-204 | In every reachable state a list is accepted exactly if it has at most five tracks, all valid, and a revision newer than every one accepted before; acceptance leaves the loop and the current track alone, rejection changes nothing |
| TrackOrder.RunKeepsTracks | internal/station/playback.go:351-361 | Track conservation and order are invariants of every legal run, and popped tracks, decisions and accepted lists only grow |
| StationFrame.StepKeepsQueues | internal/station/playback.go:351-381 | Among all steps only replacing and popping touch the track queue and its revision, and only adding and popping touch the announcement queue and the seen IDs |
| StationFrame.PreparerFrame | internal/station/playback.go:285-295 | A preparer changes its own job and the asset ledger and nothing else, which is why it needs no lock |
| StationShape.RunKeepsShape | internal/station/playback.go:93-124 | Along every run preparing flags agree with the preparers, at most one track and one announcement are pending, a playing announcement has frames left, nothing plays while stopped, and a current track is the published one |
| AnnouncementFlow.AnnouncementConservation | internal/station/playback.go:168-180 | Over whole lives of a station the accepted announcements are the settled ones, then at most one being prepared or on air, then at most 32 queued, in order; IDs are pairwise distinct, none is surplus, at most one is lost per ended run |
| AnnouncementFlow.AdmissionIsExact | internal/station/station.go:206-225 | In every reachable state an announcement is a duplicate exactly if its ID was accepted before, even when the queue is full; otherwise it is queued exactly if there is room; a refusal changes nothing and leaves the ID usable once a place is free |
| Wakeup.NoLostWakeup | internal/station/station.go:195-198 | Whenever the loop waits in select with something it could pop, the wakeup token is there or a caller is still between its unlock and its signal |
| Wakeup.WakeupPops | internal/station/playback.go:119-122 | Taking the token leads in one pass over the loop head to both pops, after which nothing poppable is left |
| LoopHead.PromotionLaw | internal/station/playback.go:114-118 | The prepared next track starts at the loop head exactly if nothing is on air and the station is not stopped; otherwise nothing changes |
| LoopHead.TrackStageLaw | internal/station/playback.go:276-296 | In every reachable state the head of the queue is taken, and its preparation begun, exactly if the station is not stopped, a track is queued and none is prepared or being prepared, also while another is on air; otherwise at most a mode left at playing without a track falls back to idle |
| LoopHead.AnnouncementStageLaw | internal/station/playback.go:298-315 | In every reachable state the oldest announcement is taken exactly if there is one and none is on air or being prepared, stopped or not |
| LoopHead.WaitingLoopHasWorkInHand | internal/station/playback.go:113-124 | While the loop waits with no wakeup present or under way, a queued track has one prepared or being prepared before it unless stopped, and a queued announcement one on air or being prepared |
| AssetLedger.AssetOwnership | internal/station/playback.go:470-488 | No asset is touched after its closing, so none is closed twice or read after close; an asset is open exactly while it has a holder, and then one; a run holds at most two track assets and one announcement asset |
| AssetLedger.ExitClosesTheRest | internal/station/playback.go:107-111 | When a run ends, what stays open is exactly what preparers still carry or have left in a ready channel |
| AssetLeak.LeakedExactlyIfParked | internal/station/playback.go:285-295 | In every reachable state an open asset stays open in all continuations exactly if it is parked in the ready channel of a finished run; otherwise some continuation closes it |
| AssetLeak.ParkingHappens | internal/station/playback.go:208-211 | One track prepared while the write of a tick fails leaves its asset parked |
| AssetLedger.ParkedAssetsStayOpen | internal/station/playback.go:290-294 | An asset left in the ready channel of a finished run stays open in every continuation |
| AssetLedger.ClosedOnce | internal/station/playback.go:470-488 | In a ledger where an asset is not misused, nothing happens to it after it is closed |
| PlaybackTrace.PlaybackLanguage | internal/station/playback.go:113-226 | The loop's trace is always a word of the language in which each start is followed by one end of the same track, blocks name the track on air, and transitions count as they should; the state it leads to is the loop's own, and nothing is published as current while stopped |
| PlaybackTrace.StoppedIsSilent | internal/station/playback.go:134-142 | Between a stop and the next play no track starts and every music block is silence |
| PlaybackTrace.StartsAlternateWithEnds | internal/station/playback.go:389-416 | From a start to the end of that track no other track starts, and only that track is heard and can finish or be skipped |
| PlaybackTrace.TransitionProgress | internal/station/playback.go:247-274 | In a transition progress begins at exactly 0, rises by 960/total a block and stays below 1 (also for total 0, where the guard applies), total is fixed, and no second transition starts for the same track |
| PlaybackTrace.BlendArithmetic | internal/station/playback.go:247-263 | Before each blended block, consumed plus remaining frames is the total and consumed is below max(1, total) |
| StationLaws.CommandIsObeyed | internal/station/playback.go:125-153 | The command that waited longest is obeyed: stop leaves nothing current, the mode stopped and the stop in the trace; skip takes the current track off, with its skip in the trace, and touches neither mode nor queue, and does nothing with nothing on air; play lifts a stop and leaves the current track alone |
| StationLaws.CommandsAreObeyedInOrder | internal/station/station.go:227-234 | Over any run: commands obeyed, then those waiting, are those that waited at first, then those that found one of 32 places, in order |
| StationLaws.PublishedTrackFollowsEvents | internal/station/playback.go:389-416 | Over whole lives the published track is the one the events announce as current: set by a start, cleared by finish, skip and stop of it, left alone by the end of a run |
| StationModes.ModeTellsWhatPlays | internal/station/playback.go:351-370 | In every reachable state a published track means the mode is playing; waiting with nothing published and no track in hand it is not; a prepared next track waits only behind a current one or a stop |
| StationModes.EndOfRunLeavesShared | internal/station/playback.go:107-111 | The step that ends a run leaves queues, mode, published track and channels exactly as they are |
| StationModes.DisplayFollowsAnnouncements | internal/station/playback.go:418-436 | Over whole lives the published announcement is the one on air, nothing after one has finished or could not be prepared, and the last one lost on air until the next begins |
| StationModes.DefaultsAreThoseSetLast | internal/station/station.go:166-175 | The transition defaults in force are those of the last configuration update, or the first ones |
| TransitionLaws.BlendExactlyIf | internal/station/playback.go:247-274 | With r frames left on air, a block is a blend exactly if a next track is prepared, its transition is no cut, its duration is positive and r is at most 48 frames a millisecond of it; which frames of which track the block holds, and the total fixed by the first blend |
| TransitionLaws.TransitionBeginsOnTime | internal/station/playback.go:247-263 | Over undisturbed stretches: a next track with a transition of T frames, held while r frames are left, begins to blend with the tick after ceil((r - T)/960) others, not before and not later, over the r - 960 ceil((r - T)/960) frames then left: more than T - 960 and at most T if r exceeded T |
| TransitionLaws.TickWritesOneBlock | internal/station/playback.go:191-226 | A tick that stays in its run writes one block and takes 960 frames; with no more than 960 left the track finishes in it and the prepared next one starts at once, or nothing is published any more |
| TrackPreparation.ReceivedTrackLaw | internal/station/playback.go:154-167 | A failed preparation is reported; a prepared track starts at once exactly if nothing is on air and the station is not stopped, and is kept as the next one otherwise |
| TrackPreparation.TrackEndsAsItsDecodeWent | internal/station/playback.go:276-296 | Whatever happens inside the run in between, a track is received with all the frames its decode gave, and as failed exactly if it gave none |
| AnnouncementIndependence.Projection | internal/station/playback.go:168-180 | Seen from the announcement, every step inside a run is a move of a standalone announcement machine or no move; music and queue steps are none |
| AnnouncementIndependence.PlaysForExactlyItsLength | internal/station/playback.go:203-232 | An announcement with r frames left is on air for fewer than ceil(r/960) ticks and settled from then on, whatever music control is interleaved, absent read errors |
| AnnouncementIndependence.AnnouncementLasts | internal/station/playback.go:452-458 | The same from every reachable state, frames left included |
| AnnouncementStory.AnnouncementsAreReported | internal/station/playback.go:168-180 | Over whole lives the loop's announcement events are, announcement by announcement in accepted order: started and finished; started, failed, finished after a read error; failed twice after a failed preparation; and what had been said so far if the run ended first |
| AnnouncementFaults.TerminalEventsFollowFaults | internal/station/playback.go:168-180 | Inside its run an announcement has two terminal events if its decode fails or one of the reads of its ceil(r/960) ticks does, otherwise none until those ticks have passed and one from then on |
| AnnouncementFaults.EndsAsItsReadsGo | internal/station/playback.go:203-232 | On air with r frames left and inside its run, faults included: interrupted if a read fails within ceil(r/960) ticks, otherwise on air for so many ticks and played out from then on |
| AnnouncementFaults.EndsAsItsDecodeWent | internal/station/playback.go:298-315 | A received announcement goes on air with all its frames exactly if its decode gave any, otherwise it is settled as broken |
| AnnouncementFaults.LostWithItsRun | internal/station/playback.go:203-211 | A step that ends the run leaves a pending announcement without terminal event, except a tick whose read fails before the write that ends the run: one |
| AnnouncementFaults.TerminalsAreFinal | internal/station/playback.go:428-436 | No later run adds a terminal event to a settled announcement |
| AnnouncementFaults.TwoTerminalEventsHappen | internal/station/playback.go:168-174 | Any valid announcement can end with two terminal events, by a failed decode or by a failed read |
| TrackFrames.FramesAreConserved | internal/station/playback.go:191-226 | For every track, over whole lives: once finished it was heard to its last frame and no frame twice; while on air or next, heard plus left is its length; it is never heard beyond its length or before it was prepared |
| TrackFrames.TrackPlaysForExactlyItsLength | internal/station/playback.go:213-226 | A track with r frames left, undisturbed by stop, skip or the end of the run, is on air for fewer than max(1, ceil(r/960)) ticks and has finished from then on; the 1 covers an exhausted incoming track |
| TrackFrames.BlockTakesFrames | internal/station/playback.go:237-274 | A block takes from each reader exactly the frames it carries, and the outgoing one is over only when nothing is left |
| Playlist.NormalizeTransitionIsRetraction | internal/playlist/playlist.go:44-69 | Normalised transitions are in normal form, and the normal forms are exactly the transitions that normalising leaves alone whatever the fallback |
| Playlist.NormalizeTransitionLaw | internal/playlist/playlist.go:44-69 | A transition without a type stands for the fallback; a fade or crossfade keeps kind, curve, and duration up to 30 s, and takes 1.5 s and equal power where it has none; a cut or an unknown type cuts |
| Playlist.NormalizeTrackLaw | internal/playlist/playlist.go:84-99 | A track is refused exactly if its ID, bucket or key is nothing but white space; otherwise only its transition changes, to the normal form of its own or the fallback |
| Playlist.BlankExactlyIfTrimmedAway | internal/playlist/playlist.go:18-26 | A name is blank exactly if it has only white space, that is, if trimming leaves nothing |
| QueueContents.RejectionIsExact | internal/station/station.go:177-204 | More than five tracks, then a revision not above the one in force, then a track with a blank name: exactly these are refused, in this order |
| QueueContents.AcceptedQueueIsTheCallers | internal/station/station.go:177-204 | Over runs: an accepted list becomes the queue, each track the caller's but for its transition, which plays its own, or without a type the defaults set last |
| QueueContents.InvalidAnnouncementExactlyIf | internal/playlist/playlist.go:109-114 | An announcement is invalid exactly if its ID, bucket or key is nothing but white space |
| Pcm.PcmReader.ReadFrames | internal/audio/ffmpeg.go:89-109 | Hands out the next min(want, remaining) frames, says end exactly when none is left, and loses nothing; a failing read hands out nothing and keeps the count, but may leave the file in the middle of the rest |
| Pcm.ReadToEnd | internal/audio/ffmpeg.go:89-109 | Reading in blocks of 960 delivers the whole file in order in ceil(n/960) reads |
| StationObject.Station.ReplaceQueue | internal/station/station.go:177-204 | Rejects with the error and precedence of the program and then changes nothing; else takes the replacement step, whose outcome QueueContents.AcceptedQueueIsTheCallers gives track by track |
| StationObject.Station.NormalizeTracks | internal/station/station.go:186-194 | Succeeds exactly if all tracks are valid, with all of them normalised in order, as Playlist.NormalizeTrackLaw says |
| StationObject.Station.AddAnnouncement | internal/station/station.go:206-225 | Decides as `AddVerdict` and takes exactly that step |
| StationObject.Station.Send | internal/station/station.go:227-234 | Accepts a command exactly if fewer than 32 wait |
| StationObject.Station.Signal | internal/station/station.go:242-247 | Leaves the token present and one pending signal fewer |
| StationObject.Station.PopQueue | internal/station/playback.go:351-370 | Takes the head unless stopped or empty, and then falls back to idle only if nothing is current and it is not stopped |
| StationObject.Station.PopAnnouncement | internal/station/playback.go:372-381 | Takes the head or nothing |
| StationObject.Station.TrackStarted | internal/station/playback.go:389-400 | Publishes the track as current, sets playing, logs the start |
| StationObject.Station.SetCurrentNone | internal/station/playback.go:409-416 | Nothing is current, and the mode stays stopped if it was and is idle otherwise |
| StationObject.Renderer.PromoteNext | internal/station/playback.go:114-118 | Takes the promotion step of the loop head, which LoopHead.PromotionLaw spells out |
| StationObject.Renderer.StartTrackPrepare | internal/station/playback.go:276-296 | Takes the track stage of the loop head, which LoopHead.TrackStageLaw spells out |
| StationObject.Renderer.StartAnnouncementPrepare | internal/station/playback.go:298-315 | Takes the announcement stage of the loop head, which LoopHead.AnnouncementStageLaw spells out |
| StationObject.Renderer.HandleCommand | internal/station/playback.go:125-153 | Takes the first command off the channel and obeys it as StationLaws.CommandIsObeyed says |
| StationObject.Renderer.HandleTrackReady | internal/station/playback.go:154-167 | Takes the step of a prepared track: reported as failed, started, kept as next, or closed |
| StationObject.Renderer.HandleAnnouncementReady | internal/station/playback.go:168-180 | Takes the step of a prepared announcement, its started or its two failed events included |
| StationObject.Renderer.BeginTransition | internal/station/playback.go:247-263 | Says whether the block is blended, by the condition of TransitionLaws.BlendExactlyIf, and fixes the total on the first such block only |
| StationObject.Renderer.BlendIn | internal/station/playback.go:263-274 | Counts 960 frames, and reads the incoming track only for a crossfade |
| StationObject.Renderer.RenderMusic | internal/station/playback.go:237-274 | Renders what the machine renders: silence, a solo block, a blended block by the condition of TransitionLaws.BlendExactlyIf, or a read fault |
| StationObject.Renderer.ReadBlock | internal/station/playback.go:452-458 | Reads the announcement's block; a failed read ends the announcement, not the run |
| StationObject.Renderer.FinishTrack | internal/station/playback.go:213-226 | Closes the finished track and either promotes the next at once or publishes that nothing is current |
| StationObject.Renderer.FinishAnnouncement | internal/station/playback.go:227-232 | Closes and settles the announcement and tells that it finished |
| StationObject.Renderer.Tick | internal/station/playback.go:182-233 | Takes the whole tick step, or ends the run on a music read or encoder write failure |
| StationObject.Renderer.Exit | internal/station/playback.go:107-111 | Closes what the loop holds and leaves preparers to themselves |
| StationObject.Renderer.Decode | internal/station/playback.go:317-349 | A decoded file has a name never used before; a file that cannot be opened is removed again |
| StationObject.Renderer.Perform | internal/station/playback.go:113-234 | Every enabled step of the machine is taken by these objects with exactly its effect |
| StationObject.Renderer.Run | internal/station/playback.go:113-234 | Whole legal runs lead the objects to the state the machine computes |
| StationObject.Live | internal/station/playback.go:38-111 | After any legal run from new objects, their own history satisfies track and announcement conservation, the announcement events, frame conservation and asset ownership |
| Mixing.Mixer.Mix | internal/audio/dsp.go:21-64 | One call puts out `MixedBlock` and leaves the state `AfterBlock`; sample by sample SampleLaws.PlainMix and SampleLaws.BandedMix say what the limiter is given |
| Mixing.Mixer.MixSample | internal/audio/dsp.go:39-61 | One turn of the loop: ramp step, bands or plain ducking, announcement on top, the sample that SampleLaws.PlainMix and SampleLaws.BandedMix speak of |
| Mixing.Mixer.BandDuck | internal/audio/dsp.go:66-85 | Updates the filters of this channel alone and returns the recombined bands |
| Mixing.Mixer.Limit | internal/audio/dsp.go:87-114 | The new gain comes from the peak of the whole block, and the block is rewritten in place with it |
| Mixing.Mixer.PeakOf | internal/audio/dsp.go:89-95 | The loudest magnitude of the block |
| Mixing.Mixer.SetProfile | internal/audio/dsp.go:17-19 | Only the profile changes, to its normal form |
| Mixing.EveryBlockIsSafe | internal/audio/dsp.go:87-114 | Over any run of blocks and profile changes: limiter gain in (0, 1], filters within the loudest music, ducking gain within [0, largest gain], every sample within the threshold in force and within full scale, so that the hard clip never changes one |
| Mixing.BlockLaw | internal/audio/dsp.go:17-64 | One block keeps all of that |
| Mixing.BlockDucks | internal/audio/dsp.go:30-47 | A block of L samples multiplies the distance to the target by max(0, 1 - L/R), without overshooting or turning back, whatever the samples are |
| Mixing.DuckApproachesGeometrically | internal/audio/dsp.go:30-47 | n equal blocks leave (1 - L/R)^n of the distance |
| Mixing.ChannelsAreIndependent | internal/audio/dsp.go:55-58 | A channel's filter memory is what two mono filters make of that channel's samples alone, and blocks without bands leave it alone |
| Mixing.BandDuckLaw | internal/audio/dsp.go:66-85 | The three bands add up to the input, equal gains only scale it, and the output stays within B (gLow + 2 gMid + 2 gHigh) |
| Mixing.QuietBlocksRelease | internal/audio/dsp.go:97-105 | n blocks below the threshold give 1 - gain = (1 - gain0) 0.98^n |
| Transparency.ErrorVanishes | internal/audio/dsp.go:21-64 | From any state with limiter gain in (0, 1]: after n unducked blocks of L samples, music within B that the threshold allows comes out with an error of at most B (abs(1 - duck) max(0, 1 - L/R)^n + (1 - gain) 0.98^n) |
| Transparency.ErrorOfBlock | internal/audio/dsp.go:21-64 | Every sample of one such block is off by at most B times how far the two gains are from 1 when it begins |
| Transparency.TransparentExactlyAtRest | internal/audio/dsp.go:21-64 | With duck and limiter gain in [0, 1] as a fade-in leaves them, quiet music beginning with a sound passes unchanged exactly if both are 1, and then the state stays |
| Mixing.AnnouncementAlone | internal/audio/dsp.go:49-61 | Over no music and resting filters the announcement reaches the limiter with its own gain and nothing else |
| SampleLaws.DuckFollowsRamp | internal/audio/dsp.go:30-47 | The ducking gain is on a straight line, over 96 samples a millisecond of attack, to the music gain under an announcement, and of release, to 1 without |
| SampleLaws.PlainMix | internal/audio/dsp.go:39-61 | Without a band in play, sample i before the limiter is the music at the line's gain after i + 1 samples, announcement or not, plus the announcement at its own gain |
| SampleLaws.SettledMusic | internal/audio/dsp.go:39-61 | Under an announcement and once settled, music is at exactly its gain for announcements |
| SampleLaws.AnnouncementShare | internal/audio/dsp.go:49-61 | The announcement adds the same to every sample whatever the music, bands or not |
| SampleLaws.BandedMix | internal/audio/dsp.go:55-85 | With a band in play, the music sample is split by two low-pass filters of its channel into low, high and the rest; a band that is on gets its own gain, one that is off the line's |
| SampleLaws.FiltersAreLowPasses | internal/audio/dsp.go:66-72 | The two filters of a channel are first-order low-passes at the two cut-off frequencies, run over what they were given |
| SampleLaws.LowPassSettles | internal/audio/dsp.go:69-70 | Such a filter closes in on a constant by the factor 1 - alpha a sample |
| SampleLaws.ChannelPicksEverySecond | internal/audio/dsp.go:55-58 | The samples of a channel are every second one |
| SampleLaws.MixedLength | internal/audio/dsp.go:21-28 | A block is as long as the longer input, and 1920 samples of silence if there is none |
| SampleLaws.LoudestIsAtThreshold | internal/audio/dsp.go:87-114 | Over any run, a mix the gain so far leaves too loud comes out with its loudest sample exactly at the threshold; any other is not turned down |
| Mixing.ApplyTransition | internal/audio/dsp.go:116-140 | Fills the block of `Crossfaded` |
| Mixing.Fade | internal/audio/dsp.go:142-160 | Fills the block of `Faded` |
| Mixing.FadeIsHalfACrossfade | internal/audio/dsp.go:142-160 | A fade is a crossfade with silence exactly if the curve is not linear, progress is in [0, 1], or there is only silence to fade |
| SampleLaws.CrossfadedSample | internal/audio/dsp.go:116-140 | Between 0 and 1 the linear curve weighs the tracks by 1 - progress and progress, equal power by the two sides of the quarter wave; the shorter side goes on as silence |
| SampleLaws.FadedSample | internal/audio/dsp.go:142-160 | Between 0 and 1 a fade in goes from silence and a fade out to silence, along the straight line or the quarter wave |
| Dsp.CrossfadeLaw | internal/audio/dsp.go:116-140 | As long as the longer side; the outgoing track at progress 0, the incoming one at 1; linear never louder than the louder side; equal power never more power than both sides together |
| Dsp.DuckBlockLaw | internal/audio/dsp.go:38-47 | The ramp law for one block |
| Dsp.RampIsStraight | internal/audio/dsp.go:42-47 | Stepping sample by sample follows a straight line and stays at the target once reached |
| Dsp.BandSplitLaw | internal/audio/dsp.go:66-85 | The band law for arbitrary coefficients in (0, 1) and nonnegative gains |
| Dsp.PeakBounds | internal/audio/dsp.go:89-95 | The peak is at least every magnitude and is one of them |
| Dsp.LimiterBlockLaw | internal/audio/dsp.go:97-113 | One block: gain in (0, 1], output is the scaled input and within the threshold |
| Dsp.LimiterRecovers | internal/audio/dsp.go:101-105 | Release over any blocks below their thresholds is geometric |
| Dsp.LimiterIsTight | internal/audio/dsp.go:97-105 | A block left above the threshold by the gain so far is brought down exactly to it; otherwise the gain goes a fiftieth of the way to the largest gain that keeps the block within it |
| Dsp.NormalizeRangeAndFixpoint | internal/audio/types.go:62-86 | Normalised profiles are in range, and normalising again changes nothing exactly if the threshold asked for was not positive |
| Dsp.NormalizeLaw | internal/audio/types.go:62-86 | Gains are confined to -60 to 12 dB and the threshold to -20 to 0; unset ramps become 180 and 450 ms, unset cuts 250 and 3500 Hz, an unset threshold -1 dB; everything else is kept |
| Mp3Frames.HeaderLaw | internal/mp3stream/streamer.go:235-308 | Every accepted header means 24 to 2881 bytes, the slots of its samples at its bit rate plus padding, and a positive duration that is that of its samples |
| Mp3Frames.HeaderRoundTrip | internal/mp3stream/streamer.go:235-270 | A header put together from its fields gives them back, and is accepted exactly if version, layer and sampling rate are not reserved and the bit rate is neither free nor bad |
| Mp3Frames.BitrateLaw | internal/mp3stream/streamer.go:223-277 | The bit rates of the three layers in closed form: steps of 32 for the first, four steps to the octave for the others |
| Mp3Frames.LowBitrateLaw | internal/mp3stream/streamer.go:229-277 | The same for the low sampling rates |
| Mp3Frames.SampleRateLaw | internal/mp3stream/streamer.go:279-308 | 44.1, 48 and 32 kHz, halved and quartered for the low ones; 384, 1152 or 576 samples a frame |
| Mp3Frames.ScanSplitsInput | internal/mp3stream/streamer.go:181-216 | The scan splits its input, in order and without loss, into skipped bytes, whole frames and a tail; the frames are the delivered ones |
| Mp3Frames.ScanOfFrames | internal/mp3stream/streamer.go:181-216 | Whole frames are delivered as they are, followed by what the rest delivers |
| Mp3Frames.RescanIsIdentity | internal/mp3stream/streamer.go:181-216 | Scanning the delivered frames again returns them and ends cleanly |
| Mp3Frames.RestreamIsIdentity | internal/mp3stream/streamer.go:44-83 | Streaming what was streamed changes nothing |
| Mp3Frames.TaggedFramesAreDelivered | internal/mp3stream/streamer.go:134-179 | A well-formed tag, or none, followed by whole frames yields exactly the frames |
| Mp3Frames.SyncSafeRoundTrip | internal/mp3stream/streamer.go:310-312 | Decoding the synchsafe encoding of a size below 2^28 returns it |
| Mp3Frames.FrameIsFoundExactlyIf | internal/mp3stream/streamer.go:181-216 | The frame behind any junk is the next one found, at its place, exactly if the junk settles: every candidate in it is rejected inside it, which depends on the junk alone |
| Mp3Frames.SettledJunkCostsNoFrame | internal/mp3stream/streamer.go:181-216 | A stream of frames with settling junk in front of each delivers exactly the frames |
| Mp3Frames.StraySyncByteHidesFrame | internal/mp3stream/streamer.go:191-207 | A sync byte right before a frame never settles: with second byte F0 or more the false candidate is rejected together with three bytes of the real header; otherwise it is accepted, as a frame of 448 to 488 bytes that was never there, or the scan ends |
| Mp3Stream.ReadCandidate | internal/mp3stream/streamer.go:183-215 | One round of the reader consumes exactly the rejected bytes, or the accepted frame, or everything at the end |
| Mp3Stream.ReadFrame | internal/mp3stream/streamer.go:181-216 | Returns the next frame of the scan and leaves the reader behind it |
| Mp3Session.MeasureTag | internal/mp3stream/streamer.go:135-149 | Measures the tag, footer included, and consumes nothing |
| Mp3Session.ConsumeTag | internal/mp3stream/streamer.go:134-179 | Done, it has read exactly the tag and passed on exactly that, or nothing if tags are not sent; cut short, it has passed on only tag bytes, from the first |
| Mp3Session.ParseSilentFrame | internal/mp3stream/streamer.go:365-393 | The embedded silent frame is one whole frame, so streaming silence never fails on it |
| Mp3Session.MakeSilentFrame | internal/mp3stream/streamer.go:365-381 | Byte by byte the embedded frame: 21 bytes of header and side information, filler, the name of the encoder from byte 257, and filler to byte 418 |
| Mp3Session.SilentHeader | internal/mp3stream/streamer.go:365-393 | Its header is accepted and describes 418 bytes |
| Mp3Session.Session.ResetTiming | internal/mp3stream/streamer.go:113-132 | Timing starts afresh with the lead of the session's setting: nothing if negative, two seconds if unset |
| Mp3Session.Session.Deliver | internal/mp3stream/streamer.go:72-81 | A frame is written whole, then accounted for exactly if its wait completed |
| Mp3Session.Session.StreamFromReader | internal/mp3stream/streamer.go:54-83 | Writes a prefix of the frames to come, all of them at the end, only whole ones unless a write fails; stops only for the reason it gives; the pacer has gone through exactly the waits of the written frames |
| Mp3Session.Session.Stream | internal/mp3stream/streamer.go:44-83 | The same for a whole track behind its tag: on the wire are tag bytes from the first (all of them before any frame, none if tags are not sent), then frames; the audio accounted for is exactly that of the frames whose wait completed |
| Mp3Session.Session.StreamSilence | internal/mp3stream/streamer.go:85-111 | Writes whole copies of the silent frame through the same pacer, and stops only for an interruption or a failed write |
| Mp3Session.NextFrame | internal/mp3stream/streamer.go:64-81 | A frame written and waited for keeps the account of a stream: whole frames on the wire, the pacer's waits in turn, accounted for exactly if the wait completed |
| Mp3Session.WritesCompose | internal/mp3stream/streamer.go:44-111 | What several calls write in a row is again a concatenation of whole frames |
| Pacing.NeverAhead | internal/mp3stream/streamer.go:327-354 | Over any number of waits, elapsed is exactly the durations of the frames whose wait completed and never ahead of the clock by more than the lead |
| Pacing.LatenessDoesNotAccumulate | internal/mp3stream/streamer.go:348-350 | However many timers fire late, the lag never exceeds one timer's slack or the lag at the beginning |
| Pacing.Pacer.Wait | internal/mp3stream/streamer.go:327-346 | Takes the step of the pacing law; an interrupted wait accounts for nothing |
| Pacing.Pacer.Reset | internal/mp3stream/streamer.go:356-363 | Starts again from now with nothing accounted for and a nonnegative lead |
| SingleFlight.OneLeaderPerKey | internal/media/store.go:93-105 | At no moment do two calls lead a download of one key |
| SingleFlight.DownloadsOfAKeyAreSequential | internal/media/store.go:107-112 | When a later download of a key has started, the leader of the earlier has returned with its result |
| SingleFlight.FollowerReturnsLeadersResult | internal/media/store.go:94-101 | A follower that is not cancelled returns exactly its leader's result, for its own key |
| SingleFlight.FollowerIsNotStranded | internal/media/store.go:94-101 | A waiting follower's leader is still at work, or the result is there; it can return exactly once the record is closed |
| SingleFlight.LiveCallFailsOnlyWithItsLeader | internal/media/store.go:94-107 | A call whose own context is live returns the error of a context exactly if it followed a download interrupted by its leader's, another call for the same key whose context has ended |
| SingleFlight.FollowerFailsWithItsLeader | internal/media/store.go:94-107 | A run in which that happens |
| SingleFlight.NothingInFlightAtRest | internal/media/store.go:107-112 | When all calls have returned the table is empty |
| SingleFlight.ResultsAreFinal | internal/media/store.go:45-49 | A stored result is never replaced |
| SingleFlight.RunKeepsSound | internal/media/store.go:82-113 | The agreement between calls, records and table is an invariant of every run |
| SingleFlight.MediaStore.Join | internal/media/store.go:93-105 | Leads exactly if nothing was in flight for the key, else returns the record in flight |
| SingleFlight.MediaStore.Store | internal/media/store.go:107 | The leader's result goes to its record |
| SingleFlight.MediaStore.Announce | internal/media/store.go:108 | The record is closed after its result is stored |
| SingleFlight.MediaStore.Leave | internal/media/store.go:109-112 | The key leaves the table and the leader returns its own result |
| SingleFlight.MediaStore.Receive | internal/media/store.go:99-100 | A follower of a closed record returns what is stored there |
| Eviction.SweepLaw | internal/media/store.go:205-213 | Removed and surviving sizes add up; every file looked at was looked at because what was left exceeded the budget; afterwards it fits, or nothing removable is left |
| Eviction.TrackedIsWhatIsLeft | internal/media/store.go:206-213 | The running total is the size of what is left, at every moment of the loop |
| Eviction.VisitedWhileOver | internal/media/store.go:206-209 | The loop looks at a file exactly while the total exceeds the budget |
| Eviction.FitsWhenRemovalsSucceed | internal/media/store.go:206-213 | If every removal succeeds the cache fits its budget |
| Eviction.OldestGoFirst | internal/media/store.go:205-213 | No removed file was used later than a survivor that could have been removed |
| Eviction.NewestSurvivesExactlyIf | internal/media/store.go:205-213 | The strictly newest file survives exactly if it cannot be removed, or fits the budget together with the older files that cannot |
| Eviction.DirectoryHoldsSurvivors | internal/media/store.go:175-214 | The media files left in the directory are exactly the survivors, and their real total fits the budget unless everything removable is gone |
| Eviction.CacheDir.List | internal/media/store.go:188-204 | Collects the media files and their total, passing over everything else |
| Eviction.MediaCounts | internal/media/store.go:188-204 | Exactly the media files of a listing are considered, each as often as listed |
| Eviction.CacheDir.Sweep | internal/media/store.go:206-213 | Exactly the evicted files disappear |
| Eviction.CacheDir.Evict | internal/media/store.go:175-214 | Without a budget or a readable directory nothing changes; else exactly the evicted files disappear, whatever order the sort gave equally old files |
| Events.LogFollowsQueue | internal/events/events.go:126-148 | Whatever appends fail and however, the log with retries collapsed is the delivered events in the order they were accepted plus at most the one in hand, and the queue holds the rest |
| Events.LogNeverStepsBack | internal/events/events.go:126-148 | Such a log starts with the first event, and each entry repeats the one before or is the next |
| Events.CleanCloseLosesNothing | internal/events/events.go:111-124 | If the first `Close` to return found the worker done, every accepted event is in the log and none will be accepted any more |
| Events.NothingMissingExactlyIf | internal/events/events.go:126-148 | Once the worker has returned, nothing is missing exactly if it reached the end of the queue, or the event it gave up on was the last and had been written |
| Events.FirstReportDecides | internal/events/events.go:111-124 | From the reports of `Close` calls so far callers may conclude that nothing is missing exactly if the first was success |
| Events.SecondCloseMayLose | internal/events/events.go:111-124 | A run in which a second `Close` reports success although the only event was lost |
| Events.BackoffDoublesToItsCeiling | internal/events/events.go:129-145 | The wait after the k-th failure is 100 ms times 2^k, up to 6.4 s |
| Events.RunKeepsSound | internal/events/events.go:82-148 | Queue bound, order, log, back-off and closing flags agree along every run |
| Events.AdmissionIsExact | internal/events/events.go:82-101 | In every reachable state an event becomes the last accepted one exactly if no `Close` has begun and fewer events wait than the queue has places, 4096 unless asked otherwise; else nothing changes, and the error says which |
| Events.Dispatcher.Publish | internal/events/events.go:82-101 | Refuses when closed, else accepts exactly if there is room, in the sense of Events.AdmissionIsExact |
| Events.Dispatcher.ReturnFromClose | internal/events/events.go:116-123 | Both ways out cancel the worker; success only if it is done |
| Events.Dispatcher.Append | internal/events/events.go:150-170 | The stream grows by the event unless the write left no trace; success is reported only for a clean write |
| Events.ClosedQueueDrains | internal/events/events.go:126-148 | A closed queue is drained in one turn per event and one more, once writes succeed, and the log grows by exactly the queued events in order |
| Events.Dispatcher.Deliver | internal/events/events.go:129-146 | The retry loop of one event behaves as `WorkerRun` says, up to the write, the cancellation or the end of the script |
| Events.Dispatcher.Run | internal/events/events.go:126-148 | The worker's nested loops end in exactly the state `WorkerRun` computes turn by turn, through legal steps of the machine, with callers interleaved at every point |

## Left out

- HTTP API, Icecast connection, configuration, metrics and process start (`internal/api`, `internal/icecast`, `internal/config`, `internal/observability`, `cmd/radio`): plumbing around the engines; connecting is a step that may happen at any time.
- `internal/radio/manager.go`: bookkeeping of stations by ID with one capacity branch.
- FFmpeg, MinIO, Redis, file contents, SHA-256 and UUIDs: outcomes, or names that differ.
- Floating-point rounding, NaN and trigonometric identities: the mixer works over exact reals, with decibel gain, filter coefficients and quarter-wave gains as arbitrary functions with the properties in `Dsp.Lawful`.
- Titles, artists, metadata, correlation IDs, timestamps and the sequence numbers of station events, whose publication order is not that of the numbers.
- The samples inside a station's music blocks: a block says which readers it comes from, how many frames each gave and how far the transition is; `Pcm` and `Mixing` treat the samples.
- StationObject.Renderer.Run: API callers and preparers act between steps of the loop, one critical section at a time; data races inside one are not modelled.
- StationObject.Station.ReplaceQueue: the events "queue.applied" and "queue.low" are not in the history; the caller sends them after its critical section, in no fixed order with those of the loop.
- StationObject.Station.AddAnnouncement: likewise "announcement.queued".
- StationObject.Station.PopQueue: the events "queue.low" and "queue.empty" are not in the history; they follow from the length of the queue.
- StationObject.Station.TrackStarted: the start time and the cleared last error, which nothing in the loop reads.
- StationObject.Renderer.RenderMusic: the samples of the block; its readers, frame counts and progress are stated.
- StationObject.Renderer.ReadBlock: the padded samples; the failure event is sent by its caller.
- StationObject.Renderer.Tick: readers are values in the render object, closing a file is an entry in the history, the profile refresh is `Mixing.Mixer.SetProfile`, and the mixed output is not stated; that no two holders share an asset is AssetLedger.AssetOwnership.
- Mp3Stream.ReadFrame: errors of the underlying reader other than its end are not modelled; they end the stream like a short end.
- Mp3Session.Session.StreamSilence: how the interruption arrives is given round by round; that one does arrive is not proved.
- Eviction.CacheDir.Evict: the directory is changed by nobody else during a sweep.
- SingleFlight.MediaStore.Join: the look at the file system before the critical section is a free choice between hit and miss, so a call that missed just before a download finished may download again, as in the program.
- `download` retries, time-outs and the temporary file behind `writeObject`: a download is one step with an arbitrary outcome.
- SingleFlight.MediaStore.Store: a download is interrupted only if its leader's context has ended; that an ended context does interrupt it is not required, since the download may finish first.
- Events.Dispatcher.Publish: a publisher caught between its check of the closed flag and its send while the queue is closed; only events that entered the queue count as accepted.
- Events.Dispatcher.Run: that Redis becomes reachable, or that anybody closes the dispatcher, is not assumed, so nothing is said about when the worker returns.
- Machine integer widths: frame counts, sizes, durations and revisions are unbounded; no step computes a revision, and bytes and header fields have their real ranges.
- Playlist.TransitionFrames: exactly 48 frames a millisecond, where the program goes through a floating-point number of seconds and may lose a frame to truncation.
- Fairness of the ticker and of select: bounds are per tick, not per second.
