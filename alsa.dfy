/**
 * The ALSA audio renderer (CALSADirectSound): how Initialize derives the
 * channel count, the ALSA device string, the sample format and the frame
 * layout; the pause flag kept by Pause, Resume and Stop; the whole-packet
 * rounding of AddPackets; and the sink list built by EnumerateAudioSinks
 * and GenSoundLabel.
 *
 * Everything the ALSA library reports (error codes, the negotiated period,
 * the write count, the device-name hints, the sound cards) is an input.
 */
module AlsaDirectSound {
  import opened Arith

  /** errno values as Linux defines them. */
  const EBUSY: int := 16
  const EPIPE: int := 32

  /** AEChannel; `Other` stands for the speaker positions ALSA's map does not use. */
  datatype Channel = Null | FL | FR | FC | LFE | BL | BR | SL | SR | Other(id: nat)

  const MAX_CHANNELS: nat := 8

  /** ALSAChannelMap without its AE_CH_NULL terminator: ALSA's interleaving order. */
  const ChannelMap: seq<Channel> := [FL, FR, BL, BR, FC, LFE, SL, SR]

  /** Position of a channel in ChannelMap, or 8 for a channel it does not hold. */
  function MapIndex(ch: Channel): (k: nat)
    ensures k <= MAX_CHANNELS
    ensures k < MAX_CHANNELS ==> ChannelMap[k] == ch
  {
    match ch
    case FL => 0
    case FR => 1
    case BL => 2
    case BR => 3
    case FC => 4
    case LFE => 5
    case SL => 6
    case SR => 7
    case _ => 8
  }

  lemma MapIndexOfEntry(k: nat)
    requires k < MAX_CHANNELS
    ensures MapIndex(ChannelMap[k]) == k
  {
  }

  /**
   * 1 + the highest index below `c` whose ChannelMap entry appears in the
   * layout (the layout's entries before its AE_CH_NULL), or 0 when none does.
   */
  function ChannelsNeeded(layout: seq<Channel>, c: nat): (n: nat)
    requires c <= MAX_CHANNELS
    ensures n <= c
  {
    if c == 0 then 0
    else if ChannelMap[c - 1] in layout then c
    else ChannelsNeeded(layout, c - 1)
  }

  /** The count names a present channel and nothing above it is present. */
  lemma {:induction false} ChannelsNeededMeans(layout: seq<Channel>, c: nat)
    requires c <= MAX_CHANNELS
    ensures var n := ChannelsNeeded(layout, c);
      (n > 0 ==> ChannelMap[n - 1] in layout) &&
      (forall k :: n <= k < c ==> ChannelMap[k] !in layout)
  {
    if c > 0 && ChannelMap[c - 1] !in layout {
      ChannelsNeededMeans(layout, c - 1);
    }
  }

  /** No ChannelMap entry in the layout is exactly what makes the count 0. */
  lemma NoMappedChannel(layout: seq<Channel>)
    ensures ChannelsNeeded(layout, MAX_CHANNELS) == 0 <==>
            forall k :: 0 <= k < MAX_CHANNELS ==> ChannelMap[k] !in layout
  {
    ChannelsNeededMeans(layout, MAX_CHANNELS);
  }

  /** The two nested loops at the top of Initialize. */
  method ChannelCount(layout: seq<Channel>) returns (channels: nat)
    requires Null !in layout
    ensures channels == ChannelsNeeded(layout, MAX_CHANNELS)
  {
    channels := 0;
    var c: nat := 0;
    while c < MAX_CHANNELS
      invariant c <= MAX_CHANNELS
      invariant channels == ChannelsNeeded(layout, c)
    {
      var i: nat := 0;
      while i < |layout| && layout[i] != ChannelMap[c]
        invariant i <= |layout|
        invariant forall k :: 0 <= k < i ==> layout[k] != ChannelMap[c]
      {
        i := i + 1;
      }
      if i < |layout| {
        channels := c + 1;
      }
      c := c + 1;
    }
  }

  /** The layout Initialize publishes: the first `channels` map entries, then AE_CH_NULL. */
  method BuildLayout(channels: nat) returns (layout: array<Channel>)
    requires channels <= MAX_CHANNELS
    ensures fresh(layout)
    ensures layout[..] == ChannelMap[..channels] + [Null]
  {
    layout := new Channel[channels + 1](_ => Null);
    for i := 0 to channels
      invariant forall k :: 0 <= k < i ==> layout[k] == ChannelMap[k]
    {
      layout[i] := ChannelMap[i];
    }
    layout[channels] := Null;
  }

  lemma {:induction false} PrefixNeeds(n: nat, c: nat)
    requires 0 < n <= c <= MAX_CHANNELS
    ensures ChannelsNeeded(ChannelMap[..n], c) == n
  {
    if c == n {
      assert ChannelMap[..n][n - 1] == ChannelMap[n - 1];
    } else {
      if ChannelMap[c - 1] in ChannelMap[..n] {
        var j :| 0 <= j < n && ChannelMap[..n][j] == ChannelMap[c - 1];
        MapIndexOfEntry(j);
        MapIndexOfEntry(c - 1);
        assert false;
      }
      PrefixNeeds(n, c - 1);
    }
  }

  /** Reading back the published layout gives the same channel count. */
  lemma LayoutRoundTrip(n: nat)
    requires 0 < n <= MAX_CHANNELS
    ensures ChannelsNeeded(ChannelMap[..n], MAX_CHANNELS) == n
  {
    PrefixNeeds(n, MAX_CHANNELS);
  }

  // ---------------------------------------------------------------- device string

  /** Value of a lower-case hexadecimal digit. */
  function HexValue(ch: char): nat
  {
    if '0' <= ch <= '9' then ch as nat - '0' as nat
    else if 'a' <= ch <= 'f' then ch as nat - 'a' as nat + 10
    else 16
  }

  /**
   * Sampling frequency coded by bits 0-3 of channel-status byte 3 in
   * IEC 60958-3 (code 1 means "not indicated").
   */
  function Iec60958Rate(code: nat): Option<nat>
  {
    if code == 0x0 then Some(44100)
    else if code == 0x2 then Some(48000)
    else if code == 0x3 then Some(32000)
    else if code == 0x8 then Some(88200)
    else if code == 0xa then Some(96000)
    else if code == 0xc then Some(176400)
    else if code == 0xe then Some(192000)
    else None
  }

  /** The AES3 value Initialize writes for a passthrough sample rate. */
  function Aes3Code(rate: nat): (code: nat)
    ensures code < 16
    ensures code != 1 ==> Iec60958Rate(code) == Some(rate)
    ensures code == 1 <==> forall c: nat :: Iec60958Rate(c) != Some(rate)
  {
    if rate == 192000 then 0xe
    else if rate == 176400 then 0xc
    else if rate == 96000 then 0xa
    else if rate == 88200 then 0x8
    else if rate == 48000 then 0x2
    else if rate == 44100 then 0x0
    else if rate == 32000 then 0x3
    else 0x1
  }

  /** Channel-status bytes 0-2. */
  const CHANNEL_STATUS: string := ":AES0=0x6,AES1=0x82,AES2=0x0"

  /** The byte-3 setting Initialize appends for a passthrough sample rate: the rate's code as one hex digit. */
  function Aes3Setting(rate: nat): (r: string)
    ensures |r| == 9 && r[..8] == ",AES3=0x" && HexValue(r[8]) == Aes3Code(rate)
  {
    if rate == 192000 then ",AES3=0xe"
    else if rate == 176400 then ",AES3=0xc"
    else if rate == 96000 then ",AES3=0xa"
    else if rate == 88200 then ",AES3=0x8"
    else if rate == 48000 then ",AES3=0x2"
    else if rate == 44100 then ",AES3=0x0"
    else if rate == 32000 then ",AES3=0x3"
    else ",AES3=0x1"
  }

  /** The passthrough device: the name with the IEC 60958 channel-status settings appended. */
  function PassthroughDevice(device: string, rate: nat): (d: string)
    ensures |d| == |device| + |CHANNEL_STATUS| + 9
    ensures d[..|device|] == device && d[|device|..|device| + |CHANNEL_STATUS|] == CHANNEL_STATUS
    ensures d[|device| + |CHANNEL_STATUS|..] == Aes3Setting(rate)
  {
    assert ":AES0=0x6" + ",AES1=0x82" + ",AES2=0x0" == CHANNEL_STATUS;
    var d := device + ":AES0=0x6" + ",AES1=0x82" + ",AES2=0x0" + Aes3Setting(rate);
    assert d == device + CHANNEL_STATUS + Aes3Setting(rate);
    d
  }

  /** The surround plug ALSA offers for "default" at a channel count, if any. */
  function SurroundDevice(channels: nat): Option<string>
  {
    if channels == 8 then Some("plug:surround71")
    else if channels == 6 then Some("plug:surround51")
    else if channels == 5 then Some("plug:surround50")
    else if channels == 4 then Some("plug:surround40")
    else None
  }

  /** The non-passthrough rewrite of the configured device name. */
  function PlugDevice(device: string, channels: nat): (d: string)
    ensures d != device ==> |d| >= 5 && d[..5] == "plug:"
    ensures d == device <==>
      device !in {"hdmi", "iec958", "spdif"} &&
      (device != "default" || SurroundDevice(channels).None?)
    ensures device == "default" && SurroundDevice(channels).Some? ==> d == SurroundDevice(channels).value
    ensures device in {"hdmi", "iec958", "spdif"} ==> d == "plug:" + device
  {
    var d1 := if device in {"hdmi", "iec958", "spdif"} then "plug:" + device else device;
    assert d1 != device ==> d1[..5] == "plug:";
    if d1 == "default" && SurroundDevice(channels).Some? then SurroundDevice(channels).value else d1
  }

  /**
   * The device Initialize opens, `confOpenErr` and `confLoadErr` being what
   * opening and loading the bundled asound.conf return; None where
   * Initialize gives up because the configuration did not load.
   */
  function ConfiguredDevice(device: string, channels: nat, passthrough: bool, rate: nat,
                            confOpenErr: int, confLoadErr: int): (r: Option<string>)
    ensures passthrough ==> r == Some(PassthroughDevice(device, rate))
    ensures r.None? <==>
      !passthrough && PlugDevice(device, channels) != device && confOpenErr >= 0 && confLoadErr < 0
    ensures !passthrough && r.Some? ==> r.value == PlugDevice(device, channels) || r.value == device
    ensures !passthrough && confOpenErr < 0 ==> r == Some(device)
  {
    if passthrough then Some(PassthroughDevice(device, rate))
    else
      var d := PlugDevice(device, channels);
      if d == device then Some(d)
      else if confOpenErr < 0 then Some(device)
      else if confLoadErr < 0 then None
      else Some(d)
  }

  /** The passthrough appends: channel-status bytes 0-2, then byte 3 chosen by the sample rate. */
  method AppendChannelStatus(device: string, rate: nat) returns (deviceuse: string)
    ensures deviceuse == PassthroughDevice(device, rate)
  {
    deviceuse := device;
    deviceuse := deviceuse + ":AES0=0x6";
    deviceuse := deviceuse + ",AES1=0x82";
    deviceuse := deviceuse + ",AES2=0x0";
    if rate == 192000 {
      deviceuse := deviceuse + ",AES3=0xe";
    } else if rate == 176400 {
      deviceuse := deviceuse + ",AES3=0xc";
    } else if rate == 96000 {
      deviceuse := deviceuse + ",AES3=0xa";
    } else if rate == 88200 {
      deviceuse := deviceuse + ",AES3=0x8";
    } else if rate == 48000 {
      deviceuse := deviceuse + ",AES3=0x2";
    } else if rate == 44100 {
      deviceuse := deviceuse + ",AES3=0x0";
    } else if rate == 32000 {
      deviceuse := deviceuse + ",AES3=0x3";
    } else {
      deviceuse := deviceuse + ",AES3=0x1";
    }
  }

  /** The string appends of Initialize that build the device name it opens. */
  method ChooseDevice(device: string, channels: nat, passthrough: bool, rate: nat,
                      confOpenErr: int, confLoadErr: int) returns (use: Option<string>)
    ensures use == ConfiguredDevice(device, channels, passthrough, rate, confOpenErr, confLoadErr)
  {
    if passthrough {
      var d := AppendChannelStatus(device, rate);
      return Some(d);
    }
    var deviceuse := device;
    if deviceuse == "hdmi" || deviceuse == "iec958" || deviceuse == "spdif" {
      deviceuse := "plug:" + deviceuse;
    }
    if deviceuse == "default" {
      if channels == 8 {
        deviceuse := "plug:surround71";
      } else if channels == 6 {
        deviceuse := "plug:surround51";
      } else if channels == 5 {
        deviceuse := "plug:surround50";
      } else if channels == 4 {
        deviceuse := "plug:surround40";
      }
    }
    if deviceuse != device {
      if confOpenErr >= 0 {
        if confLoadErr < 0 {
          return None;
        }
      } else {
        deviceuse := device;
      }
    }
    use := Some(deviceuse);
  }

  /** Result of snd_pcm_open_lconf on `name`. */
  datatype Opened = Opened(err: int, name: string)

  /** A busy device is opened exactly once more. */
  function PrimaryOpen(first: int, retry: int): int
  {
    if first == -EBUSY then retry else first
  }

  /**
   * The opening sequence: the chosen device (retried once when busy), then
   * the configured name when the chosen one differs and failed.
   */
  function OpenPcm(deviceuse: string, device: string, first: int, retry: int, fallback: int): (o: Opened)
    ensures o.name == deviceuse || o.name == device
    ensures o.name != deviceuse ==> PrimaryOpen(first, retry) < 0
    ensures o.err < 0 <==> PrimaryOpen(first, retry) < 0 && (deviceuse == device || fallback < 0)
    ensures PrimaryOpen(first, retry) < 0 && deviceuse != device ==> o == Opened(fallback, device)
    ensures !(PrimaryOpen(first, retry) < 0 && deviceuse != device) ==> o == Opened(PrimaryOpen(first, retry), deviceuse)
  {
    var primary := PrimaryOpen(first, retry);
    if primary < 0 && deviceuse != device then Opened(fallback, device) else Opened(primary, deviceuse)
  }

  // ---------------------------------------------------------------- format

  datatype DataFormat = U8 | S16LE | FLOAT

  function BitsOf(f: DataFormat): nat
  {
    match f
    case U8 => 8
    case S16LE => 16
    case FLOAT => 32
  }

  /** The switch on uiBitsPerSample. */
  function SampleFormat(bits: nat): (f: Option<DataFormat>)
    ensures f.Some? <==> bits in {8, 16, 32}
    ensures f.Some? ==> BitsOf(f.value) == bits
  {
    if bits == 8 then Some(U8)
    else if bits == 16 then Some(S16LE)
    else if bits == 32 then Some(FLOAT)
    else None
  }

  lemma SampleFormatRoundTrip(f: DataFormat)
    ensures SampleFormat(BitsOf(f)) == Some(f)
  {
  }

  datatype AudioFormat = AudioFormat(
    dataFormat: DataFormat,
    sampleRate: nat,
    channelCount: nat,
    channelLayout: seq<Channel>,
    frames: nat,
    frameSamples: nat,
    frameSize: nat)

  /** Bytes of one device frame: Initialize always asks ALSA for 16-bit samples. */
  function FrameBytes(channels: nat): nat
  {
    2 * channels
  }

  /** The largest whole number of packets that fits in `len` bytes. */
  function WholePackets(len: nat, packet: nat): (b: nat)
    requires packet > 0
    ensures b % packet == 0 && b <= len < b + packet
  {
    var q := len / packet;
    assert (q * packet) % packet == 0 by {
      MulMod(q, packet);
    }
    q * packet
  }

  lemma MulMod(q: nat, d: nat)
    requires d > 0
    ensures (q * d) % d == 0 && (q * d) / d == q
  {
    var p := q * d;
    assert p == q * d + 0;
    DivModUnique(p, d, q, 0);
  }

  lemma DivModUnique(p: int, d: int, q: int, r: int)
    requires d > 0 && 0 <= r < d && p == q * d + r
    ensures p / d == q && p % d == r
  {
    var q', r' := p / d, p % d;
    assert p == q' * d + r';
    if q' > q {
      MulMonotone(q + 1, q', d);
      assert false;
    } else if q' < q {
      MulMonotone(q' + 1, q, d);
      assert false;
    }
  }

  // ---------------------------------------------------------------- renderer state

  /**
   * What the ALSA library reports during Initialize: error codes (negative on
   * failure) and the values it negotiated. `paramsErr` is the first failure
   * among the hardware and software parameter calls, or 0.
   */
  datatype Backend = Backend(
    configCopyErr: int,
    confOpenErr: int,
    confLoadErr: int,
    openFirst: int,
    openRetry: int,
    openFallback: int,
    paramsErr: int,
    rate: nat,
    periodFrames: nat,
    periods: nat,
    bufferFrames: nat,
    canPause: bool)

  datatype SinkState = SinkState(
    isAllocated: bool,
    paused: bool,
    canPause: bool,
    channels: nat,
    samplesPerSec: nat,
    bitsPerSample: nat,
    passthrough: bool,
    packetSize: nat,
    numPackets: nat,
    bufferSize: nat,
    format: Option<AudioFormat>)

  /** An allocated renderer has a channel count, a packet size and a format. */
  predicate Valid(s: SinkState)
  {
    s.isAllocated ==>
      0 < s.channels <= MAX_CHANNELS && s.packetSize > 0 && s.format.Some?
  }

  /**
   * Initialize gets as far as a configured PCM handle: the configuration
   * copied, the device chosen, opened, and its parameters accepted.
   */
  predicate DeviceReady(device: string, channels: nat, passthrough: bool, rate: nat, b: Backend)
  {
    b.configCopyErr >= 0 &&
    var use := ConfiguredDevice(device, channels, passthrough, rate, b.confOpenErr, b.confLoadErr);
    use.Some? && OpenPcm(use.value, device, b.openFirst, b.openRetry, b.openFallback).err >= 0 &&
    b.paramsErr >= 0
  }

  /** The library calls of Initialize from the configuration copy to the last parameter call. */
  method OpenDevice(device: string, channels: nat, passthrough: bool, rate: nat, b: Backend)
    returns (ready: bool)
    ensures ready == DeviceReady(device, channels, passthrough, rate, b)
  {
    if b.configCopyErr < 0 {
      return false;
    }
    var use := ChooseDevice(device, channels, passthrough, rate, b.confOpenErr, b.confLoadErr);
    if use.None? {
      return false;
    }
    var pcm := OpenPcm(use.value, device, b.openFirst, b.openRetry, b.openFallback);
    ready := pcm.err >= 0 && b.paramsErr >= 0;
  }

  /** The fields Initialize sets before it touches the device. */
  function Reset(s: SinkState, n: nat, rate: nat, bits: nat, passthrough: bool): SinkState
  {
    s.(paused := false, canPause := false, isAllocated := false, channels := n,
       samplesPerSec := rate, bitsPerSample := bits, passthrough := passthrough)
  }

  /** The fields Initialize sets once the device accepted its parameters. */
  function Configured(s: SinkState, n: nat, rate: nat, bits: nat, b: Backend): (bool, SinkState)
    requires n <= MAX_CHANNELS
  {
    var s2 := s.(samplesPerSec := b.rate, canPause := b.canPause,
                 packetSize := b.periodFrames * FrameBytes(n), numPackets := b.periods,
                 bufferSize := b.bufferFrames * FrameBytes(n));
    var f := SampleFormat(bits);
    if f.None? then (false, s2) else
    var frameSamples := b.periodFrames * n;
    (true, s2.(isAllocated := true,
               format := Some(AudioFormat(f.value, rate, n, ChannelMap[..n] + [Null],
                                          b.periodFrames, frameSamples, (bits / 8) * frameSamples))))
  }

  /** Initialize: whether it succeeds, and the fields it leaves behind. */
  function Initialized(s: SinkState, device: string, layout: seq<Channel>, rate: nat, bits: nat,
                       passthrough: bool, b: Backend): (bool, SinkState)
  {
    var n := ChannelsNeeded(layout, MAX_CHANNELS);
    if n == 0 then (false, s) else
    var s1 := Reset(s, n, rate, bits, passthrough);
    if !DeviceReady(device, n, passthrough, rate, b) then (false, s1) else
    Configured(s1, n, rate, bits, b)
  }

  /** Every way Initialize can fail, and nothing else. */
  lemma InitializeSucceeds(s: SinkState, device: string, layout: seq<Channel>, rate: nat, bits: nat,
                           passthrough: bool, b: Backend)
    ensures var n := ChannelsNeeded(layout, MAX_CHANNELS);
      var use := ConfiguredDevice(device, n, passthrough, rate, b.confOpenErr, b.confLoadErr);
      Initialized(s, device, layout, rate, bits, passthrough, b).0 <==>
        n > 0 && b.configCopyErr >= 0 && use.Some? &&
        OpenPcm(use.value, device, b.openFirst, b.openRetry, b.openFallback).err >= 0 &&
        b.paramsErr >= 0 && bits in {8, 16, 32}
  {
  }

  /**
   * A successful Initialize leaves an unpaused, isAllocated renderer whose
   * packets are whole frames and whose published layout reads back as the
   * same channel count; a failed one is not isAllocated, except that an
   * unusable layout leaves the renderer untouched.
   */
  lemma InitializeOutcome(s: SinkState, device: string, layout: seq<Channel>, rate: nat, bits: nat,
                          passthrough: bool, b: Backend)
    requires b.periodFrames > 0
    ensures var (ok, t) := Initialized(s, device, layout, rate, bits, passthrough, b);
      var n := ChannelsNeeded(layout, MAX_CHANNELS);
      (ok ==> Valid(t) && t.isAllocated && !t.paused && t.channels == n &&
              t.packetSize == b.periodFrames * FrameBytes(n) &&
              var f := t.format.value;
              f.frameSize == b.periodFrames * n * (bits / 8) &&
              f.channelLayout[..n] == ChannelMap[..n] &&
              ChannelsNeeded(f.channelLayout[..n], MAX_CHANNELS) == n) &&
      (!ok && n > 0 ==> !t.isAllocated && !t.paused) &&
      (n == 0 ==> !ok && t == s)
  {
    var (ok, t) := Initialized(s, device, layout, rate, bits, passthrough, b);
    var n := ChannelsNeeded(layout, MAX_CHANNELS);
    if ok {
      var f := t.format.value;
      assert t.packetSize == b.periodFrames * FrameBytes(n);
      assert t.packetSize % FrameBytes(n) == 0 by {
        assert b.periodFrames * FrameBytes(n) == b.periodFrames * (2 * n);
        MulMod(b.periodFrames, FrameBytes(n));
      }
      assert t.packetSize > 0 by {
        MulMonotone(1, b.periodFrames, FrameBytes(n));
      }
      assert f.channelLayout[..n] == ChannelMap[..n];
      LayoutRoundTrip(n);
    }
  }

  /** Pause: a no-op unless isAllocated and playing; a failed hardware pause clears canPause. */
  function Paused(s: SinkState, pauseErr: int): SinkState
  {
    if !s.isAllocated || s.paused then s
    else if s.canPause && pauseErr < 0 then s.(paused := true, canPause := false)
    else s.(paused := true)
  }

  /** Resume and Stop on the flag they share: an isAllocated renderer is no longer paused. */
  function Unpaused(s: SinkState): SinkState
  {
    if !s.isAllocated then s else s.(paused := false)
  }

  /** What AddPackets returns, `write` being snd_pcm_writei's result for a frame count. */
  function AddResult(s: SinkState, len: nat, write: nat -> int): nat
    requires Valid(s)
  {
    if !s.isAllocated then len
    else if s.paused then 0
    else
      var frames := WholePackets(len, s.packetSize) / FrameBytes(s.channels);
      Accepted(frames, write(frames), FrameBytes(s.channels))
  }

  /** Bytes reported for a write of `frames` frames that returned `written`. */
  function Accepted(frames: nat, written: int, frameBytes: nat): nat
  {
    if frames == 0 then 0
    else if written > 0 then written * frameBytes
    else 0
  }

  /** A second Pause returns without touching anything. */
  lemma PauseIdempotent(s: SinkState, e1: int, e2: int)
    ensures Paused(Paused(s, e1), e2) == Paused(s, e1)
    ensures Paused(s, e1).isAllocated ==> Paused(s, e1).paused
  {
  }

  /** Pause, Resume and Stop keep the renderer valid and change only the pause flags. */
  lemma PauseFlagsOnly(s: SinkState, e: int)
    requires Valid(s)
    ensures Valid(Paused(s, e)) && Valid(Unpaused(s))
    ensures Paused(s, e).(paused := s.paused, canPause := s.canPause) == s
    ensures Unpaused(s).(paused := s.paused) == s
    ensures s.isAllocated ==> !Unpaused(s).paused
  {
  }

  /**
   * AddPackets sends only whole packets: the bytes it reports are whole
   * frames, at most the whole packets in `len`, provided ALSA writes no more
   * frames than asked; a paused renderer takes nothing and a released one
   * claims to take everything.
   */
  lemma AddPacketsWholePackets(s: SinkState, len: nat, write: nat -> int)
    requires Valid(s)
    ensures !s.isAllocated ==> AddResult(s, len, write) == len
    ensures s.isAllocated && s.paused ==> AddResult(s, len, write) == 0
    ensures s.isAllocated && !s.paused ==>
      var fb := FrameBytes(s.channels);
      var bytes := WholePackets(len, s.packetSize);
      var n := AddResult(s, len, write);
      n % fb == 0 && (write(bytes / fb) <= bytes / fb ==> n <= bytes)
  {
    if s.isAllocated && !s.paused {
      var fb := FrameBytes(s.channels);
      var bytes := WholePackets(len, s.packetSize);
      AcceptedBounds(bytes / fb, write(bytes / fb), bytes, fb);
    }
  }

  /** Whole frames are reported, and no more bytes than offered when ALSA took no more frames than asked. */
  lemma AcceptedBounds(frames: nat, written: int, bytes: nat, fb: nat)
    requires fb > 0 && frames == bytes / fb
    ensures Accepted(frames, written, fb) % fb == 0
    ensures written <= frames ==> Accepted(frames, written, fb) <= bytes
  {
    if frames > 0 && written > 0 {
      MulMod(written, fb);
      if written <= frames {
        MulMonotone(written, frames, fb);
      }
    }
  }

  /** While paused nothing is accepted; after Resume the renderer takes data as before the Pause. */
  lemma PauseThenResume(s: SinkState, e: int, len: nat, write: nat -> int)
    requires Valid(s) && s.isAllocated
    ensures Valid(Paused(s, e)) && AddResult(Paused(s, e), len, write) == 0
    ensures Valid(Unpaused(Paused(s, e))) &&
            AddResult(Unpaused(Paused(s, e)), len, write) == AddResult(Unpaused(s), len, write)
  {
  }

  // ---------------------------------------------------------------- sink list

  datatype AudioSink = AudioSink(displayName: string, name: string)

  /** `sub` occurs in `s` at offset `k`. */
  predicate OccursAt(s: string, sub: string, k: nat)
  {
    k + |sub| <= |s| && s[k..k + |sub|] == sub
  }

  /** std::string::find(sub) != npos. */
  predicate Contains(s: string, sub: string)
  {
    exists k: nat :: k <= |s| && OccursAt(s, sub, k)
  }

  /** Some device-name hint with a NAME contains `device`. */
  predicate DeviceExists(hints: seq<Option<string>>, device: string)
  {
    exists i :: 0 <= i < |hints| && hints[i].Some? && Contains(hints[i].value, device)
  }

  /** SoundDeviceExists: the scan over the PCM name hints, stopping at the first match. */
  method SoundDeviceExists(hints: seq<Option<string>>, device: string) returns (found: bool)
    ensures found == DeviceExists(hints, device)
  {
    found := false;
    var i: nat := 0;
    while i < |hints|
      invariant i <= |hints|
      invariant forall j :: 0 <= j < i ==> !(hints[j].Some? && Contains(hints[j].value, device))
    {
      if hints[i].Some? && Contains(hints[i].value, device) {
        found := true;
        return;
      }
      i := i + 1;
    }
  }

  /** The device string GenSoundLabel probes for a sink on a card. */
  function CardDevice(sink: string, card: string): string
  {
    sink + ":CARD=" + card
  }

  /** GenSoundLabel: one labelled entry for the sink on the card, if it is "default" or exists. */
  function GenSoundLabel(sinks: seq<AudioSink>, sink: string, card: string, readableCard: string,
                         hints: seq<Option<string>>): (r: seq<AudioSink>)
    ensures r == sinks ||
            r == sinks + [AudioSink(readableCard + " " + sink, "alsa:" + CardDevice(sink, card))]
    ensures |r| == |sinks| + 1 <==> sink == "default" || DeviceExists(hints, CardDevice(sink, card))
  {
    if sink == "default" || DeviceExists(hints, CardDevice(sink, card)) then
      sinks + [AudioSink(readableCard + " " + sink, "alsa:" + CardDevice(sink, card))]
    else sinks
  }

  /** The entries EnumerateAudioSinks lists whatever the sound cards. */
  function StaticSinks(passthrough: bool): seq<AudioSink>
  {
    if !passthrough then
      [AudioSink("default", "alsa:default"), AudioSink("iec958", "alsa:plug:iec958"),
       AudioSink("hdmi", "alsa:plug:hdmi")]
    else
      [AudioSink("iec958", "alsa:iec958"), AudioSink("hdmi", "alsa:hdmi")]
  }

  /** A sound card as the enumeration sees it; `infoRead` when its control opened and reported. */
  datatype Card = Card(infoRead: bool, id: string, readableName: string)

  /** The entries one card adds. */
  function CardSinks(sinks: seq<AudioSink>, card: Card, passthrough: bool,
                     hints: seq<Option<string>>): seq<AudioSink>
  {
    if !card.infoRead then sinks
    else
      var withDefault := if !passthrough then GenSoundLabel(sinks, "default", card.id, card.readableName, hints) else sinks;
      var withIec := GenSoundLabel(withDefault, "iec958", card.id, card.readableName, hints);
      GenSoundLabel(withIec, "hdmi", card.id, card.readableName, hints)
  }

  /** The entries the cards add, in card order. */
  function AllCardSinks(sinks: seq<AudioSink>, cards: seq<Card>, passthrough: bool,
                        hints: seq<Option<string>>): seq<AudioSink>
  {
    if cards == [] then sinks
    else CardSinks(AllCardSinks(sinks, cards[..|cards| - 1], passthrough, hints),
                   cards[|cards| - 1], passthrough, hints)
  }

  /** EnumerateAudioSinks appended to `existing`. */
  function Enumerated(existing: seq<AudioSink>, passthrough: bool, cards: seq<Card>,
                      hints: seq<Option<string>>): seq<AudioSink>
  {
    var base := existing + StaticSinks(passthrough);
    if |cards| <= 1 then base else AllCardSinks(base, cards, passthrough, hints)
  }

  method EnumerateAudioSinks(existing: seq<AudioSink>, passthrough: bool, cards: seq<Card>,
                             hints: seq<Option<string>>) returns (sinks: seq<AudioSink>)
    ensures sinks == Enumerated(existing, passthrough, cards, hints)
  {
    sinks := existing + StaticSinks(passthrough);
    var numberCards := |cards|;
    if numberCards <= 1 {
      return;
    }
    var base := sinks;
    for n := 0 to |cards|
      invariant sinks == AllCardSinks(base, cards[..n], passthrough, hints)
    {
      assert cards[..n + 1][..n] == cards[..n];
      var card := cards[n];
      if card.infoRead {
        if !passthrough {
          sinks := GenSoundLabel(sinks, "default", card.id, card.readableName, hints);
        }
        sinks := GenSoundLabel(sinks, "iec958", card.id, card.readableName, hints);
        sinks := GenSoundLabel(sinks, "hdmi", card.id, card.readableName, hints);
      }
    }
    assert cards[..|cards|] == cards;
  }

  /** The sink is one of the plain (unplugged) digital outputs. */
  predicate DigitalName(name: string)
  {
    (|name| >= 11 && name[..11] == "alsa:iec958") || (|name| >= 9 && name[..9] == "alsa:hdmi")
  }

  lemma {:induction false} CardSinksKeep(sinks: seq<AudioSink>, cards: seq<Card>, hints: seq<Option<string>>)
    ensures var r := AllCardSinks(sinks, cards, true, hints);
      |r| >= |sinks| && r[..|sinks|] == sinks &&
      forall i :: |sinks| <= i < |r| ==> DigitalName(r[i].name)
  {
    if cards != [] {
      var prev := AllCardSinks(sinks, cards[..|cards| - 1], true, hints);
      CardSinksKeep(sinks, cards[..|cards| - 1], hints);
      var card := cards[|cards| - 1];
      if card.infoRead {
        var withIec := GenSoundLabel(prev, "iec958", card.id, card.readableName, hints);
        var r := GenSoundLabel(withIec, "hdmi", card.id, card.readableName, hints);
        assert ("alsa:" + CardDevice("iec958", card.id))[..11] == "alsa:iec958";
        assert ("alsa:" + CardDevice("hdmi", card.id))[..9] == "alsa:hdmi";
        assert withIec[..|prev|] == prev;
        assert r[..|withIec|] == withIec;
      }
    }
  }

  /**
   * In passthrough mode every entry the enumeration adds is a plain
   * iec958 or hdmi device: no "default" and no plug: conversion.
   */
  lemma PassthroughListsDigitalOnly(existing: seq<AudioSink>, cards: seq<Card>, hints: seq<Option<string>>)
    ensures var r := Enumerated(existing, true, cards, hints);
      |r| >= |existing| + 2 && r[..|existing|] == existing &&
      forall i :: |existing| <= i < |r| ==> DigitalName(r[i].name)
  {
    var base := existing + StaticSinks(true);
    assert DigitalName(base[|existing|].name) && DigitalName(base[|existing| + 1].name);
    if |cards| > 1 {
      CardSinksKeep(base, cards, hints);
    }
  }

  // ---------------------------------------------------------------- the renderer

  class AlsaRenderer {
    var isAllocated: bool
    var paused: bool
    var canPause: bool
    var channels: nat
    var samplesPerSec: nat
    var bitsPerSample: nat
    var passthrough: bool
    var packetSize: nat
    var numPackets: nat
    var bufferSize: nat
    var format: Option<AudioFormat>

    function State(): SinkState
      reads this
    {
      SinkState(isAllocated, paused, canPause, channels, samplesPerSec, bitsPerSample, passthrough,
                packetSize, numPackets, bufferSize, format)
    }

    constructor ()
      ensures !isAllocated && Valid(State())
    {
      isAllocated := false;
      format := None;
    }

    method Initialize(device: string, layout: seq<Channel>, rate: nat, bits: nat, passthrough': bool,
                      b: Backend) returns (ok: bool)
      requires Null !in layout
      modifies this
      ensures (ok, State()) == Initialized(old(State()), device, layout, rate, bits, passthrough', b)
    {
      var n := ChannelCount(layout);
      if n == 0 {
        return false;
      }
      paused, canPause, isAllocated := false, false, false;
      channels, samplesPerSec, bitsPerSample, passthrough := n, rate, bits, passthrough';
      var ready := OpenDevice(device, n, passthrough', rate, b);
      if !ready {
        return false;
      }
      ok := Configure(n, rate, bits, b);
    }

    /** The part of Initialize after the device accepted its parameters. */
    method Configure(n: nat, rate: nat, bits: nat, b: Backend) returns (ok: bool)
      requires n <= MAX_CHANNELS
      modifies this
      ensures (ok, State()) == Configured(old(State()), n, rate, bits, b)
    {
      samplesPerSec, canPause := b.rate, b.canPause;
      packetSize := b.periodFrames * FrameBytes(n);
      numPackets := b.periods;
      bufferSize := b.bufferFrames * FrameBytes(n);
      var f := SampleFormat(bits);
      if f.None? {
        return false;
      }
      var channelLayout := BuildLayout(n);
      var frameSamples := b.periodFrames * n;
      format := Some(AudioFormat(f.value, rate, n, channelLayout[..], b.periodFrames, frameSamples,
                                 (bits / 8) * frameSamples));
      isAllocated := true;
      ok := true;
    }

    method Deinitialize() returns (r: bool)
      requires Valid(State())
      modifies this
      ensures r && State() == old(State()).(isAllocated := false) && Valid(State())
    {
      isAllocated := false;
      r := true;
    }

    /** `pauseErr` is what snd_pcm_pause reports; the return is true on every path. */
    method Pause(pauseErr: int) returns (r: bool)
      modifies this
      ensures r && State() == Paused(old(State()), pauseErr)
    {
      if !isAllocated {
        return true;
      }
      if paused {
        return true;
      }
      paused := true;
      if canPause {
        if pauseErr < 0 {
          canPause := false;
        }
      }
      r := true;
    }

    method Resume() returns (r: bool)
      modifies this
      ensures r && State() == Unpaused(old(State()))
    {
      if !isAllocated {
        return true;
      }
      paused := false;
      r := true;
    }

    method Stop() returns (r: bool)
      modifies this
      ensures r && State() == Unpaused(old(State()))
    {
      if !isAllocated {
        return true;
      }
      paused := false;
      r := true;
    }

    method AddPackets(len: nat, write: nat -> int) returns (n: nat)
      requires Valid(State())
      ensures n == AddResult(State(), len, write)
    {
      if !isAllocated {
        return len;
      }
      if paused {
        return 0;
      }
      var framesToWrite := WholePackets(len, packetSize) / FrameBytes(channels);
      if framesToWrite == 0 {
        return 0;
      }
      var writeResult := write(framesToWrite);
      if writeResult == -EPIPE {
        return 0;
      }
      if writeResult > 0 {
        return writeResult * FrameBytes(channels);
      }
      n := 0;
    }
  }
}
