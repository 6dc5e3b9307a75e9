# XBMC playback core, modelled in Dafny

This project models eight pieces of the XBMC media center and proves properties about them:

- **the video reference clock** (`CVideoReferenceClock`): a tick counter that moves forward by whole vblank intervals while the display's vertical blank is tracked, and follows the performance counter otherwise;
- **the application's playback rules** (`CApplication`): the timeline of a stacked (multi-part) video, seeking across its parts, resuming a stack, stepping the fast-forward/rewind speed, rewinding past the start, the hardware volume and mute toggle, and the song rating step;
- **the DTS decoder glue** (`dtsdec.c`): 16-bit saturation of decoded samples, the interleavers that turn libdts's planar blocks into PCM frames, and the resynchronising frame buffer of `dts_decode_frame`;
- **the UPnP ring-buffer stream** (`PLT_RingBufferStream`): reads, writes and flushes on a ring buffer, with their end-of-stream and would-block results;
- **the ALSA audio renderer** (`CALSADirectSound`): the channel count taken from a channel layout, the ALSA device-name rules (IEC 60958 channel status for passthrough, `plug:` and surround devices), the open/fallback sequence, the pause flags, whole-packet writes, and the enumeration of audio sinks;
- **the view auto-switch** (`CAutoSwitch`): choosing list, icon or large-icon view from a directory listing;
- **the add-ons virtual directory** (`CAddonsDirectory`): the `addons://` listings of enabled, disabled, repository, "all" and per-repository add-ons, their category folders, type filter, update flags, and the `sources` listing of plugins and scripts;
- **the Zeroconf browser's identities** (`CZeroconfBrowser`): the ordering and equality of discovered services, and the set of browsed service types.

Each stateful entity is a `class` whose methods update its fields in place. Beside each class sits a datatype snapshot of those fields, called `State()`. The class methods are proved equal to pure transition functions on that snapshot, and the lemmas state what the source promises about those functions. Pure logic in the source is modelled as functions.

Everything outside these files becomes an input:

- the display, the performance counter and the vblank wake-up;
- the media player and the video database;
- libdts;
- the ALSA library calls;
- the add-on manager, the add-on database and string localisation.

Each of these is a parameter or a record of functions (`Backend`, `Registry`, the `sync` and `decode` oracles). Integers are unbounded. Where the source's widths matter, they are written out explicitly:

- 32-bit vblank counters;
- 64-bit clock arithmetic;
- `int16_t` saturation;
- the float build's 32-bit subtraction;
- C's truncating division.

| file | module |
|---|---|
| common.dfy | `Arith`: Option, truncating division, 32-bit wrap, helpers |
| vrclock.dfy | `VideoReferenceClock` |
| application.dfy | `Application` |
| dtsdec.dfy | `DtsDec` |
| ringstream.dfy | `RingBufferStream` |
| alsa.dfy | `AlsaDirectSound` |
| autoswitch.dfy | `AutoSwitch` |
| addons.dfy | `AddonsDirectory` |
| zeroconf.dfy | `Zeroconf` |

## Model

| member | source | states |
|---|---|---|
| VideoReferenceClock.Updated | XBMC/xbmc/VideoReferenceClock.cpp:608-618 | With CheckMissed, the missed vblanks are subtracted and cleared. Otherwise they are kept. The time advances by the truncated n·frequency/rate exactly when the net count n is positive. No other field changes. |
| VideoReferenceClock.AdvanceBounds | XBMC/xbmc/VideoReferenceClock.cpp:608-618 | A positive advance of n vblanks is at least n whole intervals and less than n ticks beyond them. |
| VideoReferenceClock.UpdateNeverDecreases | XBMC/xbmc/VideoReferenceClock.cpp:608-618 | With a non-negative frequency, UpdateClock never moves the clock back. A non-positive net count leaves it exactly where it was. |
| VideoReferenceClock.ReferenceClock.UpdateClock | XBMC/xbmc/VideoReferenceClock.cpp:608-618 | The in-place update equals `Updated` on the snapshot. |
| VideoReferenceClock.AfterLateWait | XBMC/xbmc/VideoReferenceClock.cpp:781-786 | A late wait adds one missed vblank, moves the vblank time on by one system-frequency interval, and advances the clock by one vblank's ticks. |
| VideoReferenceClock.LateWhenNoSleepLeft | XBMC/xbmc/VideoReferenceClock.cpp:773-777 | The computed sleep is zero or less exactly when less than a millisecond is left before the deadline (the last vblank plus MAXDELAY/1000 of an interval). A wait at or past the deadline is late even if signalled. |
| VideoReferenceClock.ReferenceClock.Wait | XBMC/xbmc/VideoReferenceClock.cpp:760-799 | The in-place update equals `AfterWait`: in vblank mode, a late or timed-out wait synthesises one vblank; otherwise nothing changes. |
| VideoReferenceClock.LateWaits | XBMC/xbmc/VideoReferenceClock.cpp:781-786 | k late waits add k to the missed count and advance the clock by k single-vblank advances, keeping rate and frequency. |
| VideoReferenceClock.MissedNotDoubleCounted | XBMC/xbmc/VideoReferenceClock.cpp:608-618 | After k synthesised vblanks, a real vblank reporting n intervals moves the clock by the k synthesised ones plus n−k, and nothing is left pending. |
| VideoReferenceClock.LateWaitThenVblank | XBMC/xbmc/VideoReferenceClock.cpp:781-786 | A late wait followed by a real vblank of count 1 nets exactly one interval. |
| VideoReferenceClock.AfterCounterReset | XBMC/xbmc/VideoReferenceClock.cpp:322-334 | When the counter did not increase, the clock moves by exactly one interval and nothing else changes. |
| VideoReferenceClock.AfterGlxVblank | XBMC/xbmc/VideoReferenceClock.cpp:313-334 | One pass of RunGLX, on unsigned 32-bit counters, keeps a positive refresh rate. When the counter increased, the vblank is stamped with the current time, no vblank is missed, and the clock advances by the wrapped difference, net of missed vblanks. |
| VideoReferenceClock.GlxResetAdvancesOneInterval | XBMC/xbmc/VideoReferenceClock.cpp:322-334 | A counter that did not increase advances the clock one interval and leaves the missed vblanks untouched. |
| VideoReferenceClock.ReferenceClock.GlxVblank | XBMC/xbmc/VideoReferenceClock.cpp:313-334 | The in-place update equals `AfterGlxVblank`. |
| VideoReferenceClock.RefreshedGlx | XBMC/xbmc/VideoReferenceClock.cpp:669-718 | A due query records the query time and reports a change exactly when the RandR rate differs from the previous one; both rates then become it. A query that is not due changes nothing and reports no change. |
| VideoReferenceClock.RefreshGated | XBMC/xbmc/VideoReferenceClock.cpp:672-675 | Within one second of clock time since the last query, neither platform queries or changes anything. Past it, GLX records the query time. |
| VideoReferenceClock.ReferenceClock.UpdateRefreshrateGlx | XBMC/xbmc/VideoReferenceClock.cpp:669-718 | The state and the changed flag equal `RefreshedGlx`. |
| VideoReferenceClock.D3dGateNeverCloses | XBMC/xbmc/VideoReferenceClock.cpp:719-737 | As written, once the Win32 gate is open, every later call passes it again. |
| VideoReferenceClock.D3dQueriesEveryVblank | XBMC/xbmc/VideoReferenceClock.cpp:719-737 | A concrete clock whose every call re-queries the display and reports a change. |
| VideoReferenceClock.RefreshedD3dAsWritten | XBMC/xbmc/VideoReferenceClock.cpp:669-737 | The Win32 branch as written. When due, a 0 Hz mode reads as 60 Hz, and both rates and the mode size are taken from the display. A change is reported exactly when the rate or the size differs. The last query time never changes, and a call that is not due changes nothing. |
| VideoReferenceClock.RefreshedD3d | XBMC/xbmc/VideoReferenceClock.cpp:669-737 | The corrected Win32 branch (see Findings): the branch as written, and a due query also records the query time, as GLX does. It keeps the 0 Hz to 60 Hz mapping and reports the same change flag as the branch as written. |
| VideoReferenceClock.D3dAtMostOncePerSecond | XBMC/xbmc/VideoReferenceClock.cpp:672-675 | With the query time recorded (the corrected Win32 branch), no second query within one second of clock time. |
| VideoReferenceClock.ReferenceClock.UpdateRefreshrateD3d | XBMC/xbmc/VideoReferenceClock.cpp:719-737 | The state and the changed flag equal `RefreshedD3dAsWritten`. The last query time is not updated. |
| VideoReferenceClock.TrackingGlx | XBMC/xbmc/VideoReferenceClock.cpp:244-249 | After setup, the clock tracks vblanks with no missed vblanks. |
| VideoReferenceClock.ReferenceClock.BeginTrackingGlx | XBMC/xbmc/VideoReferenceClock.cpp:244-249 | The in-place update equals `TrackingGlx`. |
| VideoReferenceClock.ReferenceClock.Start | XBMC/xbmc/VideoReferenceClock.cpp:64-65 | The in-place update equals `Started`: counter minus the offset, unit speed. |
| VideoReferenceClock.ReferenceClock.Stop | XBMC/xbmc/VideoReferenceClock.cpp:102-105 | The in-place update equals `Stopped`: back to the counter, with the offset from the counter to the clock time. |
| VideoReferenceClock.StopKeepsTimeContinuous | XBMC/xbmc/VideoReferenceClock.cpp:620-634 | After stopping, GetTime carries on from the last vblank time and never reads below it. |
| VideoReferenceClock.RestartUndoesStop | XBMC/xbmc/VideoReferenceClock.cpp:57-107 | Restarting resumes exactly at the counter time, so stopping and starting at the same counter value changes nothing. |
| VideoReferenceClock.ReferenceClock.GetTime | XBMC/xbmc/VideoReferenceClock.cpp:620-634 | In vblank mode the result is the clock time; otherwise it is the counter minus the offset. |
| VideoReferenceClock.WithSpeed | XBMC/xbmc/VideoReferenceClock.cpp:641-655 | The frequency changes only in vblank mode, and then to the requested one. No other field changes. |
| VideoReferenceClock.ReferenceClock.SetSpeed | XBMC/xbmc/VideoReferenceClock.cpp:641-655 | The in-place update equals `WithSpeed`. |
| VideoReferenceClock.SpeedOutsideVblank | XBMC/xbmc/VideoReferenceClock.cpp:641-666 | Outside vblank mode, SetSpeed changes nothing, GetSpeed is 1 and GetRefreshRate is −1. |
| VideoReferenceClock.UnitSpeedRestores | XBMC/xbmc/VideoReferenceClock.cpp:641-666 | Setting the system frequency after any other speed reads back speed 1. |
| VideoReferenceClock.DoubleSpeedDoublesInterval | XBMC/xbmc/VideoReferenceClock.cpp:608-655 | At double speed one vblank advances the clock by the interval of twice the frequency. |
| VideoReferenceClock.ReferenceClock.GetSpeed | XBMC/xbmc/VideoReferenceClock.cpp:657-666 | The adjusted/system frequency ratio in vblank mode, otherwise 1. |
| VideoReferenceClock.ReferenceClock.GetRefreshRate | XBMC/xbmc/VideoReferenceClock.cpp:747-756 | The refresh rate in vblank mode, otherwise −1. |
| VideoReferenceClock.ReferenceClock.constructor | XBMC/xbmc/VideoReferenceClock.cpp:33-41 | Both frequencies are the counter frequency, the offset is 0, and vblank mode is off. |
| Application.EndOffsets | xbmc/Application.cpp:3737-3753 | There is one end offset per part. The last is the total of the parts' whole seconds. |
| Application.EndOffsetsSnoc | xbmc/Application.cpp:3750-3752 | One more part adds its whole seconds to the total, and appends that total as its end offset. |
| Application.EndOffsetsNonDecreasing | xbmc/Application.cpp:3737-3753 | With no negative duration, the end offsets never decrease along the stack. |
| Application.EndOffsetsRunningTotal | xbmc/Application.cpp:3750-3751 | Part j's end offset is the whole seconds of parts 0..j together. |
| Application.RunningEndOffsets | xbmc/Application.cpp:3738-3753 | The probing loop succeeds exactly when every duration is known, and then yields `EndOffsets` of the durations. |
| Application.App.CopyStoredTimes | xbmc/Application.cpp:3738-3741 | With database times, each part's end offset is the stored one. |
| Application.App.LoadEndOffsets | xbmc/Application.cpp:3734-3753 | Succeeds exactly when times are stored or all durations are known. It then writes `StackEnds`; otherwise the stack is cleared. |
| Application.FirstPartAfter | xbmc/Application.cpp:5374-5376 | The index found is the first part ending after t. None means no part does. |
| Application.ChosenPartHolds | xbmc/Application.cpp:5374-5377 | On a non-decreasing timeline, the chosen part's span holds t. |
| Application.PartFoundBeforeTotal | xbmc/Application.cpp:5372-5392 | A part is found exactly when t is before the total time. |
| Application.TotalTimeOf | xbmc/Application.cpp:5315-5328 | 0 when not playing. On a stack, the total is the end offset of one of its parts, and with ordered offsets no part ends after it. Otherwise it is the player's total time. |
| Application.TimeOf | xbmc/Application.cpp:5339-5356 | 0 when not playing. On a stack, the time minus the current part's start is the player's time in seconds, so it is never before that start. Otherwise it is the player's time in seconds. |
| Application.SoughtTime | xbmc/Application.cpp:5362-5394 | Nothing happens when not playing, for a negative time, or when the player cannot seek. Otherwise exactly one request is made. If the first part ending after dTime is current, it is a millisecond seek to dTime minus the part's start. If it is another part, that part becomes current; it is played from that offset, in 1/75 s. When no part ends after dTime, or there is no stack, it is a seek to dTime in milliseconds. |
| Application.SeekWithinStackRoundTrip | xbmc/Application.cpp:5362-5394 | A seek inside a stack lands in the part holding the target, with one request. Same part: once the player reports the requested milliseconds, GetTime reads the target back to within 1 ms. Another part: the request plays that part, from an offset within 1/75 s before the target. |
| Application.App.SeekTime | xbmc/Application.cpp:5362-5394 | The in-place update equals `SoughtTime`. |
| Application.SoughtPercentage | xbmc/Application.cpp:5417-5427 | Nothing happens when not playing, for a negative percentage, or when the player cannot seek. Otherwise a stack is sought by time, to that percentage of the total time. Any other item asks the player to seek by percentage. |
| Application.PercentageSeeksIntoStack | xbmc/Application.cpp:5417-5427 | On a stack with a positive total, any percentage below 100 seeks into the part holding that share of the total. |
| Application.App.SeekPercentage | xbmc/Application.cpp:5417-5427 | The in-place update equals `SoughtPercentage`. |
| Application.ResumeTarget | xbmc/Application.cpp:3782-3798 | The part started is valid. A plain start plays part 0. An offset start plays the part whose span holds the time. Its offset is 75 times the whole seconds into that part. |
| Application.ResumeTargetMeaning | xbmc/Application.cpp:3756-3798 | A start at or before 0, or at or past the total, plays part 0 as listed. Otherwise the part holding the time is played. Its start offset is 75 times the whole seconds into it, so the offset is the time into the part, dropping the fraction. |
| Application.App.StartStack | xbmc/Application.cpp:3778-3798 | The stack becomes current, and the position and request are those of `ResumeTarget`. |
| Application.App.PlayStack | xbmc/Application.cpp:3712-3798 | A non-stack item fails and changes nothing. An unknown duration clears the stack and fails. Otherwise the stack holds its end offsets, the resume target is started, and the result is PlayFile's. |
| Application.FfRwStep | xbmc/Application.cpp:2707-2723 | The step always lands within ±32. |
| Application.FfRwSpeedsClosed | xbmc/Application.cpp:2707-2723 | Stepping keeps the speed among 1, ±2…±32. Forward from −2 gives 1; rewind from 1 gives −2. |
| Application.RewindThenForward | xbmc/Application.cpp:2707-2723 | Rewind then forward from normal speed gives normal speed. Forward from 32 wraps to 1. |
| Application.App.StepPlaySpeed | xbmc/Application.cpp:2691-2726 | While playing and not paused, the speed is set to the stepped one; otherwise nothing changes. |
| Application.WithPlaySpeed | xbmc/Application.cpp:5274-5300 | Nothing changes when not playing, at the same speed, or when the player cannot seek. Otherwise the new speed is the one asked; the exception is that, from pause, going faster in the current FF/RW direction keeps the previous speed. The player ends unpaused. The requests are TogglePause when paused, then ToFFRW of the new speed, then the saved volume at speed 1 or the minimum volume. Nothing else changes. |
| Application.PauseKeepsDirection | xbmc/Application.cpp:5283-5291 | From pause, asking to go faster in the current FF/RW direction resumes the previous speed and unpauses. |
| Application.SetPlaySpeedSettles | xbmc/Application.cpp:5274-5300 | Asking again for a speed just set changes nothing, unless a paused FF/RW kept its previous speed. While playing and seekable, the asked speed is reached. |
| Application.App.SetPlaySpeed | xbmc/Application.cpp:5274-5300 | The in-place update equals `WithPlaySpeed`. |
| Application.Log2Inverse | xbmc/Application.cpp:5488-5494 | The shift loop's count is the exponent of the power of two. |
| Application.Pow2IsPow2 | xbmc/Application.cpp:5488-5494 | 2^k is a power of two whose logarithm is k. |
| Application.RewindPastStart | xbmc/Application.cpp:5481-5502 | Rewinding at 2^k with fewer than k whole seconds played returns to normal speed, unpaused. That is followed by one seek to 0: SeekMs(0) for a plain file. On a stack with a non-empty first part, part 0 becomes current, and is sought to 0 or played from 0. |
| Application.RewindWithinMargin | xbmc/Application.cpp:5481-5502 | Rewinding at 2^k with at least k whole seconds played changes nothing. |
| Application.App.CheckPlayingProgress | xbmc/Application.cpp:5481-5502 | The in-place update, including the shift loop, equals `CheckedProgress`. |
| Application.WithHardwareVolume | xbmc/Application.cpp:5212-5252 | The level is clamped to [−6000, 0] mB, there is no range compression, the mute flag holds exactly at the minimum, and the player is told the level when loaded. |
| Application.App.SetHardwareVolume | xbmc/Application.cpp:5212-5252 | The in-place update equals `WithHardwareVolume`. |
| Application.PercentToHardwareExact | xbmc/Application.cpp:5204-5209 | SetVolume maps p per cent to 60·p − 6000 mB. |
| Application.MuteToggles | xbmc/Application.cpp:5188-5202 | Mute flips the mute state and keeps the volume settings consistent. |
| Application.MuteTwiceRestores | xbmc/Application.cpp:5188-5260 | Muting then unmuting restores the level to within one percentage step (60 mB). |
| Application.App.Mute | xbmc/Application.cpp:5188-5202 | The in-place update equals `Muted`. |
| Application.RatingStep | xbmc/Application.cpp:2597-2609 | A decrease happens exactly above '0', and an increase exactly below '5', by one each. |
| Application.RatingStaysInRange | xbmc/Application.cpp:2597-2609 | Ratings stay within '0'..'5', and a step up then down returns. |
| Application.App.OnPlaybackFinished | xbmc/Application.cpp:4820-4841 | On playback end with parts left, the next part plays. Otherwise the stack is dropped. |
| DtsDec.Clamp16 | mplayer/libavcodec/dtsdec.c:54 | In-range values are kept; others saturate to 32767 or −32768. |
| DtsDec.Convert | mplayer/libavcodec/dtsdec.c:46-55 | The scaled sample (shifted by 15, or minus 0x43c00000 in 32 bits), saturated to 16 bits. |
| DtsDec.ConvertMonotone | mplayer/libavcodec/dtsdec.c:46-55 | Conversion keeps the order of samples. |
| DtsDec.ConvertFixedRoundTrip | mplayer/libavcodec/dtsdec.c:49-50 | In the fixed build, a 16-bit sample scaled by 2^15 converts back to itself. |
| DtsDec.Row | mplayer/libavcodec/dtsdec.c:102-241 | One output frame has one value per slot of the layout. |
| DtsDec.InterleavedAt | mplayer/libavcodec/dtsdec.c:102-241 | Output position |layout|·i + j holds slot j of sample i. |
| DtsDec.Layout3F1RAsWrittenDropsCentre | mplayer/libavcodec/dtsdec.c:144-152 | As written, a block whose only non-zero sample is the centre channel produces silence in the first slot. |
| DtsDec.Layout3F1RUsesEveryChannel | mplayer/libavcodec/dtsdec.c:144-152 | The corrected layout uses all four planar channels; the one as written never reads channel 1. |
| DtsDec.MultiLayout | mplayer/libavcodec/dtsdec.c:101-242 | The layout, as written, of each case: a case exactly for configurations up to 3F2R, with or without LFE. It has 2 to 6 slots, and 6 with LFE. |
| DtsDec.MultiLayoutCorrected | mplayer/libavcodec/dtsdec.c:144-152 | The corrected layouts (see Findings): the same cases and widths as written, but the 3-front-1-rear case reads all four planar channels. |
| DtsDec.ChannelsMulti | mplayer/libavcodec/dtsdec.c:244-253 | Six with LFE, otherwise the table entry of the configuration. |
| DtsDec.StrideMatchesLayout | mplayer/libavcodec/dtsdec.c:318-331 | For every configuration with a case, the stride the decoder advances by equals the slots written per sample. |
| DtsDec.LayoutsReadAtMostSix | mplayer/libavcodec/dtsdec.c:102-241 | No layout reads beyond six planar channels. |
| DtsDec.Convert2s16_2 | mplayer/libavcodec/dtsdec.c:57-68 | Writes exactly the interleaved L/R frames and leaves the rest of the output untouched. |
| DtsDec.Convert2s16_4 | mplayer/libavcodec/dtsdec.c:70-83 | Writes exactly the four-channel frames and leaves the rest untouched. |
| DtsDec.Convert2s16_5 | mplayer/libavcodec/dtsdec.c:85-99 | Writes exactly the five-channel frames, centre last, and leaves the rest untouched. |
| DtsDec.WriteRow | mplayer/libavcodec/dtsdec.c:102-241 | One iteration writes one output frame, the layout's slots of sample i, at its position and nothing else. |
| DtsDec.WriteFrames | mplayer/libavcodec/dtsdec.c:102-241 | The 256-sample loop writes exactly `Interleaved` of the block and leaves the rest of the output untouched. |
| DtsDec.Convert2s16Multi | mplayer/libavcodec/dtsdec.c:101-242 | A configuration with a case writes its as-written layout's interleaved frames, the 3-front-1-rear case included, and nothing beyond. Any other configuration writes nothing. |
| DtsDec.DtsDecoder.constructor | mplayer/libavcodec/dtsdec.c:263-265 | A fresh buffer with the fill cursor at 0 and the window ending after the header. |
| DtsDec.DtsDecoder.CopyIn | mplayer/libavcodec/dtsdec.c:281-285 | The input bytes are copied to the fill cursor, which moves past them. The rest of the buffer is kept. The new state is `Copied` of the old one. |
| DtsDec.DtsDecoder.ShiftHeader | mplayer/libavcodec/dtsdec.c:296-299 | An unsynced header slides one byte, so the next byte read completes a new header. |
| DtsDec.DtsDecoder.SyncHeader | mplayer/libavcodec/dtsdec.c:288-303 | The sync length becomes the end of the window, or the header slides when it is 0. The flags are those reported. |
| DtsDec.DtsDecoder.DecodeBuffered | mplayer/libavcodec/dtsdec.c:304-344 | The output grows by 256 samples · 2 bytes · channels per decoded block. Success means no frame or block error. The buffer resets either way. |
| DtsDec.DtsDecoder.WindowFull | mplayer/libavcodec/dtsdec.c:286-345 | A full header window is synced, and keeps the reported flags. A zero length slides the header one byte back. Otherwise the window grows to the frame length, with the buffer unchanged. A full frame window is decoded, produces whole blocks or nothing, and resets the buffer. The new state and the window's record are `WindowStep` of the old state. |
| DtsDec.Copied | mplayer/libavcodec/dtsdec.c:278-285 | The copy keeps the window and the flags. It moves the fill cursor by `len` and puts exactly those input bytes before it. |
| DtsDec.WindowStep | mplayer/libavcodec/dtsdec.c:286-345 | A full window leaves a state between calls. It announces a length only from a header, and then produces nothing. A frame produces whole blocks. A decoding window leaves the buffer waiting for a header. |
| DtsDec.BlockBytes | mplayer/libavcodec/dtsdec.c:320-332 | The output of whole blocks is a non-negative multiple of 512 bytes. |
| DtsDec.SumsSnoc | mplayer/libavcodec/dtsdec.c:302-331 | One more window adds its length to `finished` and its output to `*data_size`. |
| DtsDec.WindowsSnoc | mplayer/libavcodec/dtsdec.c:302-339 | The same sums as `SumsSnoc`. The new window stops the call exactly when it decodes with 8192 reached, and no earlier window's verdict changes. |
| DtsDec.SumProducedBlocks | mplayer/libavcodec/dtsdec.c:320-332 | The output of any run of windows is a non-negative multiple of 512 bytes. |
| DtsDec.FeedAfterCopy | mplayer/libavcodec/dtsdec.c:278-286 | A copy that does not fill the window leaves the rest of the call to the next turn of the loop. |
| DtsDec.FeedAfterWindow | mplayer/libavcodec/dtsdec.c:286-345 | A filled window either returns the frame bytes announced or goes on from the state it left. |
| DtsDec.OutcomeAfterWindow | mplayer/libavcodec/dtsdec.c:334-345 | A window that does not stop the call leaves the outcome of the call unchanged. |
| DtsDec.OutcomeAtStop | mplayer/libavcodec/dtsdec.c:334-339 | The window that decodes with 8192 reached ends the call with `finished`, the buffer waiting for a header. |
| DtsDec.FeedMeaning | mplayer/libavcodec/dtsdec.c:255-349 | From a state between calls, a call extends the windows and no window before its last one stops it. If the last one stops it, it returns the frame bytes announced and leaves the buffer waiting for a header. Otherwise it returns the input length, no window stops it, and the cursors are left between calls. Every new window has the shape of `WindowStep`. |
| DtsDec.FeedFullWindow | mplayer/libavcodec/dtsdec.c:286-345 | The same, for a call whose first copy fills the window. |
| DtsDec.DtsDecoder.Snapshot | mplayer/libavcodec/dtsdec.c:263-269 | A valid decoder's static state is a state between calls. |
| DtsDec.DtsDecoder.Turn | mplayer/libavcodec/dtsdec.c:276-345 | One turn of the loop copies at least one byte and keeps `finished` and `*data_size` equal to the sums of the windows. It stops only at a decoding window with 8192 reached. What `Feed` gives from before the turn equals its return, or what `Feed` gives from after the turn. |
| DtsDec.DtsDecoder.DecodeFrame | mplayer/libavcodec/dtsdec.c:255-349 | The result, the windows and the static state left are those `Feed` gives from the previous call's state, so `FeedMeaning` applies. The call returns at the first window that decodes once at least 8192 bytes of frames are announced, with that total and the buffer waiting for a header. Otherwise it consumes the whole input, returns its length, and leaves the cursors for the next call. `*data_size` is the output of all the windows, in whole blocks of 512 bytes. |
| RingBufferStream.Drained | xbmc/lib/libUPnP/Platinum/Source/Core/PltRingBufferStream.cpp:105 | Reading n bytes removes exactly the first n of the stored data. |
| RingBufferStream.Filled | xbmc/lib/libUPnP/Platinum/Source/Core/PltRingBufferStream.cpp:163 | Writing appends the bytes after the stored data. |
| RingBufferStream.FillThenDrain | xbmc/lib/libUPnP/Platinum/Source/Core/PltRingBufferStream.cpp:105-163 | On an empty ring, what is written is what is read back. |
| RingBufferStream.Flushed | xbmc/lib/libUPnP/Platinum/Source/Core/PltRingBufferStream.cpp:181-189 | A flushed ring keeps its size, holds nothing and has all of it free. |
| RingBufferStream.ReadStep | xbmc/lib/libUPnP/Platinum/Source/Core/PltRingBufferStream.cpp:97-112 | Bytes read after the first chunk continue the oldest data. |
| RingBufferStream.DrainToEndWraps | xbmc/lib/libUPnP/Platinum/Source/Core/PltRingBufferStream.cpp:97-112 | A read that reaches the end of the storage leaves the read position at its start. |
| RingBufferStream.FillToEndWraps | xbmc/lib/libUPnP/Platinum/Source/Core/PltRingBufferStream.cpp:155-169 | A write that reaches the end of the storage leaves the write position at its start. |
| RingBufferStream.DrainedTwice | xbmc/lib/libUPnP/Platinum/Source/Core/PltRingBufferStream.cpp:97-112 | Two reads equal one of the combined length. |
| RingBufferStream.FilledTwice | xbmc/lib/libUPnP/Platinum/Source/Core/PltRingBufferStream.cpp:155-169 | Two writes equal one of the concatenation. |
| RingBufferStream.ReadChunkOutcome | xbmc/lib/libUPnP/Platinum/Source/Core/PltRingBufferStream.cpp:97-112 | A first chunk that stops short of the request ends at the buffer's end, so one more chunk suffices. |
| RingBufferStream.WriteChunkOutcome | xbmc/lib/libUPnP/Platinum/Source/Core/PltRingBufferStream.cpp:155-169 | A first chunk that fills the contiguous space either fills all space or wraps to the start. |
| RingBufferStream.WaitOutcome | xbmc/lib/libUPnP/Platinum/Source/Core/PltRingBufferStream.cpp:77-91 | Success exactly with contiguous data or space. Otherwise EOS when ended or closed, and would-block when not blocking. |
| RingBufferStream.Stream.Read | xbmc/lib/libUPnP/Platinum/Source/Core/PltRingBufferStream.cpp:66-118 | On success it returns min(asked, stored) bytes: the oldest ones, removed from the ring and added to the read total. On error nothing moves. |
| RingBufferStream.Stream.Write | xbmc/lib/libUPnP/Platinum/Source/Core/PltRingBufferStream.cpp:124-175 | On success it stores min(offered, space) bytes, appended to the ring and added to the written total. On error nothing moves. |
| RingBufferStream.Stream.ReadChunks | xbmc/lib/libUPnP/Platinum/Source/Core/PltRingBufferStream.cpp:93-113 | The two-pass copy reads min(asked, stored) bytes in order. |
| RingBufferStream.Stream.WriteChunks | xbmc/lib/libUPnP/Platinum/Source/Core/PltRingBufferStream.cpp:151-170 | The two-pass copy writes min(offered, space) bytes in order. |
| RingBufferStream.Stream.ReadChunk | xbmc/lib/libUPnP/Platinum/Source/Core/PltRingBufferStream.cpp:100-107 | One chunk is the oldest n bytes, removed from the ring and added to the read total. |
| RingBufferStream.Stream.WriteChunk | xbmc/lib/libUPnP/Platinum/Source/Core/PltRingBufferStream.cpp:158-165 | One chunk is appended to the ring and added to the written total. |
| RingBufferStream.Stream.Flush | xbmc/lib/libUPnP/Platinum/Source/Core/PltRingBufferStream.cpp:181-189 | Empties the ring and zeroes both totals; always succeeds. |
| RingBufferStream.Stream.constructor | xbmc/lib/libUPnP/Platinum/Source/Core/PltRingBufferStream.cpp:32-40 | An empty open ring of the given size, zero totals, not at end of stream. |
| AlsaDirectSound.MapIndex | xbmc/cores/AudioRenderers/ALSADirectSound.cpp:47-48 | The channel's position in the ALSA channel map, or 8 for none. |
| AlsaDirectSound.ChannelsNeededMeans | xbmc/cores/AudioRenderers/ALSADirectSound.cpp:52-58 | The channel count is one past the highest map position the layout uses. |
| AlsaDirectSound.NoMappedChannel | xbmc/cores/AudioRenderers/ALSADirectSound.cpp:60-61 | The count is 0 exactly when the layout uses no mapped channel. |
| AlsaDirectSound.ChannelCount | xbmc/cores/AudioRenderers/ALSADirectSound.cpp:50-58 | The nested loop computes `ChannelsNeeded`. |
| AlsaDirectSound.BuildLayout | xbmc/cores/AudioRenderers/ALSADirectSound.cpp:272-275 | The published layout is the first n map entries, then the terminator. |
| AlsaDirectSound.LayoutRoundTrip | xbmc/cores/AudioRenderers/ALSADirectSound.cpp:272-275 | The published layout of n channels needs n channels again. |
| AlsaDirectSound.Aes3Code | xbmc/cores/AudioRenderers/ALSADirectSound.cpp:104-119 | The AES3 digit is the IEC 60958 code of the rate, or 1 exactly when the rate has none. |
| AlsaDirectSound.Aes3Setting | xbmc/cores/AudioRenderers/ALSADirectSound.cpp:104-119 | The ",AES3=0x" setting with one hex digit, which is the rate's AES3 code. |
| AlsaDirectSound.PassthroughDevice | xbmc/cores/AudioRenderers/ALSADirectSound.cpp:101-119 | The device name, then the fixed AES0–AES2 channel status, then the AES3 rate setting. |
| AlsaDirectSound.AppendChannelStatus | xbmc/cores/AudioRenderers/ALSADirectSound.cpp:98-120 | The sequence of appends produces `PassthroughDevice`. |
| AlsaDirectSound.PlugDevice | xbmc/cores/AudioRenderers/ALSADirectSound.cpp:123-135 | "hdmi", "iec958" and "spdif" become exactly "plug:" plus the name. "default" becomes the surround device for 4, 5, 6 and 8 channels. Any other name is kept, and a changed name always begins "plug:". |
| AlsaDirectSound.ConfiguredDevice | xbmc/cores/AudioRenderers/ALSADirectSound.cpp:98-155 | Passthrough always gives the AES name. Otherwise the result is the plug name, or the plain device when the extra configuration cannot be opened. It fails exactly on a load error of that configuration. |
| AlsaDirectSound.ChooseDevice | xbmc/cores/AudioRenderers/ALSADirectSound.cpp:93-155 | The string building equals `ConfiguredDevice`. |
| AlsaDirectSound.OpenPcm | xbmc/cores/AudioRenderers/ALSADirectSound.cpp:159-185 | A busy first open is retried once. If that open fails and the chosen name differs from the configured one, the configured device is opened, and the result is that open's. Otherwise the result is the chosen device's open. It fails exactly when the final open does. |
| AlsaDirectSound.OpenDevice | xbmc/cores/AudioRenderers/ALSADirectSound.cpp:93-188 | Ready exactly when `DeviceReady`. |
| AlsaDirectSound.SampleFormat | xbmc/cores/AudioRenderers/ALSADirectSound.cpp:263-270 | A format exactly for 8, 16 or 32 bits, with that width. |
| AlsaDirectSound.SampleFormatRoundTrip | xbmc/cores/AudioRenderers/ALSADirectSound.cpp:263-270 | Each format's width maps back to it. |
| AlsaDirectSound.WholePackets | xbmc/cores/AudioRenderers/ALSADirectSound.cpp:444-448 | The largest multiple of the packet size within len. |
| AlsaDirectSound.InitializeSucceeds | xbmc/cores/AudioRenderers/ALSADirectSound.cpp:44-287 | Initialize succeeds exactly when there is a channel, the config copy and the device choice succeed, the PCM opens, the hardware parameters are accepted and the width is 8, 16 or 32. |
| AlsaDirectSound.InitializeOutcome | xbmc/cores/AudioRenderers/ALSADirectSound.cpp:44-287 | Success leaves the renderer allocated and unpaused, with whole-frame packets and a layout that reads back as the same count. A failure leaves it unallocated, except that an unusable layout leaves it untouched. |
| AlsaDirectSound.AlsaRenderer.Initialize | xbmc/cores/AudioRenderers/ALSADirectSound.cpp:44-287 | The result and new state equal `Initialized`. |
| AlsaDirectSound.AlsaRenderer.Configure | xbmc/cores/AudioRenderers/ALSADirectSound.cpp:193-284 | The hardware set-up, format and layout equal `Configured`. |
| AlsaDirectSound.AlsaRenderer.Deinitialize | xbmc/cores/AudioRenderers/ALSADirectSound.cpp:296-311 | Returns true and releases the renderer. |
| AlsaDirectSound.PauseIdempotent | xbmc/cores/AudioRenderers/ALSADirectSound.cpp:325-362 | Pausing twice equals pausing once. An allocated renderer is paused afterwards. |
| AlsaDirectSound.PauseFlagsOnly | xbmc/cores/AudioRenderers/ALSADirectSound.cpp:325-387 | Pause touches only the pause flags, and Resume only the paused flag. Resume leaves an allocated renderer unpaused. |
| AlsaDirectSound.AlsaRenderer.Pause | xbmc/cores/AudioRenderers/ALSADirectSound.cpp:325-362 | Returns true (the source's −1 converts to true) and the state becomes `Paused`. |
| AlsaDirectSound.AlsaRenderer.Resume | xbmc/cores/AudioRenderers/ALSADirectSound.cpp:364-387 | Returns true and the state becomes `Unpaused`. |
| AlsaDirectSound.AlsaRenderer.Stop | xbmc/cores/AudioRenderers/ALSADirectSound.cpp:389-400 | Returns true and clears the paused flag. |
| AlsaDirectSound.AddPacketsWholePackets | xbmc/cores/AudioRenderers/ALSADirectSound.cpp:426-479 | A released renderer claims everything and a paused one takes nothing. Otherwise whole frames are taken, never more than the whole packets offered when ALSA writes no more than asked. |
| AlsaDirectSound.AcceptedBounds | xbmc/cores/AudioRenderers/ALSADirectSound.cpp:452-478 | The reported byte count is whole frames and at most the bytes offered. |
| AlsaDirectSound.PauseThenResume | xbmc/cores/AudioRenderers/ALSADirectSound.cpp:325-479 | Nothing is accepted while paused. After Resume, data is taken as before the pause. |
| AlsaDirectSound.AlsaRenderer.AddPackets | xbmc/cores/AudioRenderers/ALSADirectSound.cpp:426-479 | The result equals `AddResult` of the state. |
| AlsaDirectSound.SoundDeviceExists | xbmc/cores/AudioRenderers/ALSADirectSound.cpp:603-627 | Found exactly when some hint's name contains the device. |
| AlsaDirectSound.GenSoundLabel | xbmc/cores/AudioRenderers/ALSADirectSound.cpp:629-642 | The list is unchanged, or gains one sink exactly for "default" or an existing card device. |
| AlsaDirectSound.AlsaRenderer.constructor | xbmc/cores/AudioRenderers/ALSADirectSound.cpp:38-42 | Starts unallocated. |
| AlsaDirectSound.EnumerateAudioSinks | xbmc/cores/AudioRenderers/ALSADirectSound.cpp:551-601 | The card loop equals `Enumerated`. |
| AlsaDirectSound.CardSinksKeep | xbmc/cores/AudioRenderers/ALSADirectSound.cpp:565-599 | The card loop keeps the existing sinks and, in passthrough, adds only iec958/hdmi devices. |
| AlsaDirectSound.PassthroughListsDigitalOnly | xbmc/cores/AudioRenderers/ALSADirectSound.cpp:551-601 | In passthrough mode every added sink is a digital device, with at least the two static ones. |
| AutoSwitch.FoldersAndFiles | XBMC/xbmc/AutoSwitch.cpp:101 | Folders and files together are all the items. |
| AutoSwitch.AllFolders | XBMC/xbmc/AutoSwitch.cpp:101 | The folder count equals the size exactly when every item is a folder. |
| AutoSwitch.ThumbCountPositive | XBMC/xbmc/AutoSwitch.cpp:164-177 | Some thumbnail exists exactly when the thumbnail count is positive. |
| AutoSwitch.AnyThumbnail | XBMC/xbmc/AutoSwitch.cpp:104-112 | The early-exit loop finds a thumbnail exactly when one exists. |
| AutoSwitch.ByFolders | XBMC/xbmc/AutoSwitch.cpp:97-115 | Thumbnails exactly when all items are folders and one has a thumbnail. |
| AutoSwitch.ByFoldersEmpty | XBMC/xbmc/AutoSwitch.cpp:97-115 | An empty directory never switches by folders. |
| AutoSwitch.ByFiles | XBMC/xbmc/AutoSwitch.cpp:120-146 | Thumbnails exactly when there are more folders than the ".." entry accounts for, and a thumbnail. |
| AutoSwitch.PercentReachedInt | XBMC/xbmc/AutoSwitch.cpp:170-171 | The share comparison is the integer inequality thumbs·100 ≥ percent·items. |
| AutoSwitch.ThumbCountMonotone | XBMC/xbmc/AutoSwitch.cpp:164-177 | Counting thumbnails over a longer prefix never gives fewer. |
| AutoSwitch.PercentStaysReached | XBMC/xbmc/AutoSwitch.cpp:164-177 | Once a prefix reaches the percentage, the whole listing reaches it, so the early exit agrees with counting everything. |
| AutoSwitch.ByThumbPercent | XBMC/xbmc/AutoSwitch.cpp:152-180 | Thumbnails exactly when the counted items are positive and the thumbnails reach the percentage of them. |
| AutoSwitch.ThumbPercentNeedsAThumb | XBMC/xbmc/AutoSwitch.cpp:152-180 | With no thumbnail, the percentage method says no at any percentage. |
| AutoSwitch.ByFileCount | XBMC/xbmc/AutoSwitch.cpp:184-189 | Thumbnails exactly when the listing is non-empty and more than a quarter of it are files. |
| AutoSwitch.ByFileCountMeans | XBMC/xbmc/AutoSwitch.cpp:184-189 | This equals the quotient comparison with 0.25. |
| AutoSwitch.ViewFor | XBMC/xbmc/AutoSwitch.cpp:86-92 | List exactly without thumbnails; large icons exactly with thumbnails and big thumbs. |
| AutoSwitch.GetView | XBMC/xbmc/AutoSwitch.cpp:18-93 | The view equals `View` for the window, settings and items. |
| AutoSwitch.UnconfiguredIsList | XBMC/xbmc/AutoSwitch.cpp:63-64 | Unknown windows, and music with no method, stay in list view. |
| AutoSwitch.FixedWindowMethods | XBMC/xbmc/AutoSwitch.cpp:40-61 | Video and program windows switch at 50% thumbnails. Pictures switch when more than a quarter are files. |
| AddonsDirectory.AddSlashAtEnd | xbmc/FileSystem/AddonsDirectory.cpp:182-183 | The path gains a closing slash and keeps its prefix. |
| AddonsDirectory.FileItemFromAddon | xbmc/FileSystem/AddonsDirectory.cpp:173-193 | No item exactly for no add-on. The folder flag is the one asked. |
| AddonsDirectory.FileItemFromAddonShape | xbmc/FileSystem/AddonsDirectory.cpp:179-191 | A folder's path is the add-on URL with a slash; a file's is the URL. Label, icon and the ID/Version/Path properties come from the add-on. |
| AddonsDirectory.ListingItemShape | xbmc/FileSystem/AddonsDirectory.cpp:159-169 | Repositories are folders under addons://id/. Others are files under the listed path, with no update flag. |
| AddonsDirectory.ListingShape | xbmc/FileSystem/AddonsDirectory.cpp:156-171 | One item per add-on, in order. |
| AddonsDirectory.GenerateListing | xbmc/FileSystem/AddonsDirectory.cpp:156-171 | The list is cleared and then holds `Listing`. Path and properties are kept. |
| AddonsDirectory.Flagged | xbmc/FileSystem/AddonsDirectory.cpp:135-144 | The item carries the update flag exactly when the database has a newer version (or it already had one). ID, path and folder flag are kept. |
| AddonsDirectory.FlagsExactlyUpdates | xbmc/FileSystem/AddonsDirectory.cpp:129-145 | After listing, exactly the outdated items are flagged, one per add-on, in order. |
| AddonsDirectory.FlagUpdates | xbmc/FileSystem/AddonsDirectory.cpp:131-145 | The in-place loop gives `UpdateFlags` of the items. |
| AddonsDirectory.CategoryTypesMeans | xbmc/FileSystem/AddonsDirectory.cpp:96-109 | A type is listed exactly when it lies strictly between unknown and the bound and some add-on has it. Types ascend strictly, so none appears twice. |
| AddonsDirectory.FindType | xbmc/FileSystem/AddonsDirectory.cpp:98-107 | The inner loop finds an add-on of the type exactly when one exists. |
| AddonsDirectory.AddCategoryFolders | xbmc/FileSystem/AddonsDirectory.cpp:96-109 | Appends one folder per listed type. Other fields are kept. |
| AddonsDirectory.OfTypeMeans | xbmc/FileSystem/AddonsDirectory.cpp:121-125 | The filter keeps exactly the add-ons of the type. |
| AddonsDirectory.OfTypeIdempotent | xbmc/FileSystem/AddonsDirectory.cpp:121-125 | Filtering twice equals filtering once. |
| AddonsDirectory.FilterByType | xbmc/FileSystem/AddonsDirectory.cpp:121-125 | The erase loop leaves `OfType`. |
| AddonsDirectory.ProvidersShape | xbmc/FileSystem/AddonsDirectory.cpp:205-221 | At most one item per add-on, all with the requested folder flag. |
| AddonsDirectory.AddProviders | xbmc/FileSystem/AddonsDirectory.cpp:205-221 | Appends the items of the providing plugin sources. |
| AddonsDirectory.ScriptsAndPluginsOutcome | xbmc/FileSystem/AddonsDirectory.cpp:195-231 | Fails exactly for unknown content. Otherwise plugin folders come before script files, and a kind nobody provides gets the single "addons://more" item. |
| AddonsDirectory.GetScriptsAndPlugins | xbmc/FileSystem/AddonsDirectory.cpp:195-231 | Result and list equal `ScriptsAndPlugins`. |
| AddonsDirectory.ComposeListing | xbmc/FileSystem/AddonsDirectory.cpp:128-151 | The list holds `Composed`. |
| AddonsDirectory.GetDirectory | xbmc/FileSystem/AddonsDirectory.cpp:47-154 | Result and list equal `Directory`. |
| AddonsDirectory.UnknownHostFails | xbmc/FileSystem/AddonsDirectory.cpp:76-81 | An unknown repository fails, with only the properties cleared. |
| AddonsDirectory.CategoryListsItsType | xbmc/FileSystem/AddonsDirectory.cpp:114-129 | A category lists exactly its type's add-ons, in order, and sets "addoncategory". |
| AddonsDirectory.ReposEndWithAll | xbmc/FileSystem/AddonsDirectory.cpp:146-151 | The repository list ends with the "addons://all/" folder. |
| AddonsDirectory.RootListsCategories | xbmc/FileSystem/AddonsDirectory.cpp:92-112 | Outside "repos", the root keeps existing items and appends the category folders. |
| AddonsDirectory.FileItemList.Add | xbmc/FileSystem/AddonsDirectory.cpp:105 | Appends the item. |
| AddonsDirectory.FileItemList.SetProperty | xbmc/FileSystem/AddonsDirectory.cpp:59 | Sets one property and keeps the rest. |
| AddonsDirectory.FileItemList.constructor | xbmc/FileSystem/AddonsDirectory.cpp:47-52 | An empty list with no properties. |
| Zeroconf.StrLessIrreflexive | xbmc/ZeroconfBrowser.h:157 | std::string's `<` is irreflexive. |
| Zeroconf.StrLessAsymmetric | xbmc/ZeroconfBrowser.h:157 | It is asymmetric. |
| Zeroconf.StrLessTransitive | xbmc/ZeroconfBrowser.h:157 | It is transitive. |
| Zeroconf.StrLessTotal | xbmc/ZeroconfBrowser.h:157 | Different strings are ordered one way or the other. |
| Zeroconf.StrLess | xbmc/ZeroconfBrowser.h:157 | std::string `<`: only different strings are ordered. The empty string is below every other string, and a proper prefix comes first. |
| Zeroconf.Same | xbmc/ZeroconfBrowser.h:167-170 | operator==: two services are equal exactly when they differ at most in ip and port. |
| Zeroconf.SameIsEquivalence | xbmc/ZeroconfBrowser.h:167-170 | Equality ignores ip and port and is an equivalence. |
| Zeroconf.LessAsWritten | xbmc/ZeroconfBrowser.h:155-165 | Less exactly when the name, the type or the domain is less, each tried alone. |
| Zeroconf.LessAsWrittenIrreflexive | xbmc/ZeroconfBrowser.h:155-170 | As written, `<` is irreflexive and equal services are unordered. |
| Zeroconf.LessAsWrittenNotAsymmetric | xbmc/ZeroconfBrowser.h:155-165 | Two services that are each less than the other. |
| Zeroconf.Less | xbmc/ZeroconfBrowser.h:155-165 | The lexicographic order on (name, type, domain) implies the order as written. |
| Zeroconf.LessIsStrictOrder | xbmc/ZeroconfBrowser.h:155-170 | It is a strict total order whose incomparable pairs are exactly the equal services. |
| Zeroconf.Inserted | xbmc/ZeroconfBrowser.h:87-90 | The type is added. False exactly when it was already there, and then nothing changes. |
| Zeroconf.Removed | xbmc/ZeroconfBrowser.h:92-95 | The type is removed, and the result says whether it was there. |
| Zeroconf.AddTwice | xbmc/ZeroconfBrowser.h:87-90 | A second add reports false and changes nothing. |
| Zeroconf.AddThenRemove | xbmc/ZeroconfBrowser.h:87-95 | Adding a new type and removing it restores the set. |
| Zeroconf.ZeroconfBrowser.AddServiceType | xbmc/ZeroconfBrowser.h:87-90 | The set and result equal `Inserted`. |
| Zeroconf.ZeroconfBrowser.RemoveServiceType | xbmc/ZeroconfBrowser.h:92-95 | The set and result equal `Removed`. |
| Zeroconf.ZeroconfBrowser.constructor | xbmc/ZeroconfBrowser.h:143-144 | No service types. |

## Left out

- Threads, locks, the blocking sleeps of the ring-buffer stream and the clock's wait, logging, and GUI messages are not modelled. Operations are atomic steps.
- Floating point is modelled as exact reals, with the source's integer casts written as truncation. This applies to Application's times and percentages, the clock speed and AutoSwitch's percentages. Float rounding at the edges of a comparison is not captured.
- The display (glX/RandR/Direct3D), nvidia-settings, the performance counter and the vblank condition variable are inputs. The setup and cleanup of the GLX and D3D devices, the hidden window and the message pump are not modelled.
- VideoReferenceClock.RefreshedGlx: the nvidia-settings path, which rounds a parsed float, is folded into the `rate` parameter.
- The video database, the player, the stack directory and the duration probe are inputs of PlayStack (stored times, durations, bookmark, PlayFile's result). Writing the times back to the database is not modelled.
- Application.App.OnPlaybackFinished: resetting spindown, clearing the current item, stopping last.fm, PlayNext and deleting the player are not modelled.
- Application.App.PlayStack: the loop is split by whether the database had times, because that does not change inside it.
- Application: OnAction's other actions, GetPercentage, GetVolume's callers and the rest of CApplication are outside this model.
- Application: VOLUME_MINIMUM (−6000 mB), VOLUME_MAXIMUM (0 mB) and STARTOFFSET_RESUME (−1) are defined in headers that are not part of this model. The values are XBMC's, and the volume rows rest on them.
- Application.WithHardwareVolume: the dynamic range compression branch is unreachable after the clamp, and the mute dialog is not modelled.
- libdts (dts_syncinfo, dts_frame, dts_block, dts_samples), sample rate and bit rate are oracles. dts_decode_init and dts_decode_end only allocate and free, and are not modelled.
- DtsDec.DtsDecoder.DecodeFrame: the bytes written to `data` are not tracked across blocks. What is tracked through `Feed` is each window's announced length and output count, their totals, and the buffer's bytes, cursors and flags.
- DtsDec.DtsDecoder.DecodeFrame: the sync oracle's frame length is 0 or between 15 and 24576 (type `FrameLength`), because libdts never announces a frame shorter than its header. The source does not guard against such a length. With a length of 14 its loop would re-sync the same header forever, and below 14 memcpy would get a negative size. The termination of the model rests on this bound.
- DtsDec: the channel-configuration flags (DTS_MONO 0 to DTS_4F2R 10, DTS_CHANNEL_MASK 0x3F, DTS_LFE 0x80, DTS_ADJUST_LEVEL 0x100) are libdts's dts.h values. The header is not part of this model. The decode oracle reports only flags whose configuration has a channel count (type `ChannelFlags`, predicate `HasChannelCount`). Any other value would make channels_multi read past its table.
- NPT_RingBuffer is modelled by its contents and cursors. Its own source is not part of this model.
- RingBufferStream.Stream.ReadChunks and RingBufferStream.Stream.WriteChunks do not model an NPT_CHECK failure from the ring buffer, because the ring buffer's own code is not part of this model.
- ALSA library calls are a `Backend` record of results: config copy and load, the opens, hardware parameters, the pause call, writei and the name hints. A failed name-hint call is modelled as no hints.
- ALSA: Flush, GetSpace, GetDelay, GetCacheTime, GetCacheTotal, GetChunkLen, WaitCompletion, SwitchChannels and the callbacks are not modelled. Neither are the silence prefix written when the device cannot pause, or snd_pcm_start in AddPackets (device effects only).
- AlsaDirectSound.AlsaRenderer.Configure: the sample rate the hardware picks is recorded only when all hardware parameters succeed.
- AlsaDirectSound.EnumerateAudioSinks: the card loop runs over a given list of cards, rather than over snd_card_next.
- AlsaDirectSound.GenSoundLabel: it compares the sink with "default" case-sensitively, whereas CStdString::Equals ignores case; every caller passes a lower-case literal.
- AlsaDirectSound.FrameBytes: frames are counted in 16-bit sample bytes, as the hardware format is always S16.
- AddonsDirectory.Directory: CURL parsing is an input (`url`). URL rendering is simplified to protocol://host/file. Host and path-prefix comparisons are case-sensitive, whereas CStdString::Equals ignores case.
- AddonsDirectory.FileItemFromAddonShape: CAddonDatabase::SetPropertiesFromAddon is modelled only for Addon.ID, Addon.Version and Addon.Path.
- AddonsDirectory: the add-on type numbers follow the order of the add-on type enumeration, and the add-on manager, the database, version comparison and localisation are inputs. Database open failures are not modelled.
- Zeroconf: toPath/fromPath, service resolution, the singleton, Start/Stop, GetFoundServices and the platform back-end are not modelled.
- Zeroconf.Removed: the header's "@return if it was not found" is read as returning whether the type was found.

## Findings

| source | as written | input that shows it | evidently intended | confidence | as-written member | corrected member |
|---|---|---|---|---|---|---|
| mplayer/libavcodec/dtsdec.c:147 | the 3F1R case stores `convert (f[i]+256)`, channel 0's sample plus 256 | a block whose only non-zero sample is the centre one (f[256]); the first slot comes out 0 | `convert (f[i+256])`, the centre channel, as in every other 3-front case | high, not executed | DtsDec.Layout3F1RAsWrittenDropsCentre | DtsDec.Layout3F1RUsesEveryChannel |
| XBMC/xbmc/VideoReferenceClock.cpp:719-737 | the Win32 branch of UpdateRefreshrate never updates m_LastRefreshTime | ClockState(3000, 1000, 1000, 60, …): every call passes the one-second gate and queries the display | record the query time, as the GLX branch does at line 675 | high, not executed | VideoReferenceClock.D3dQueriesEveryVblank | VideoReferenceClock.D3dAtMostOncePerSecond |
| xbmc/ZeroconfBrowser.h:155-165 | operator< compares type and domain even when the names differ | Service("b","a","local") and Service("a","b","local") are each less than the other | lexicographic order on (name, type, domain) | high, not executed | Zeroconf.LessAsWrittenNotAsymmetric | Zeroconf.LessIsStrictOrder |
