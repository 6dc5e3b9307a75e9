/**
 * The DTS audio decoder glue: saturation of decoded samples to 16 bits, the
 * interleavers that turn libdts's planar blocks (256 samples per channel)
 * into interleaved 16-bit PCM in the channel order the player expects, and
 * the resynchronising frame buffer of dts_decode_frame.
 *
 * libdts itself (dts_syncinfo, dts_frame, dts_block, dts_samples) is an
 * input: the sync oracle reports a frame length and flags for a 14-byte
 * header, the frame oracle reports how a buffered frame decodes.
 */
module DtsDec {
  import opened Arith

  const INBUF_SIZE: int := 4096
  const BUFFER_SIZE: int := 24576
  const HEADER_SIZE: int := 14
  /** Samples per channel in one decoded block. */
  const BLOCK_SAMPLES: int := 256

  /** The channel configuration flags of libdts's dts.h. */
  const DTS_MONO: bv32 := 0
  const DTS_CHANNEL: bv32 := 1
  const DTS_STEREO: bv32 := 2
  const DTS_STEREO_SUMDIFF: bv32 := 3
  const DTS_STEREO_TOTAL: bv32 := 4
  const DTS_3F: bv32 := 5
  const DTS_2F1R: bv32 := 6
  const DTS_3F1R: bv32 := 7
  const DTS_2F2R: bv32 := 8
  const DTS_3F2R: bv32 := 9
  const DTS_4F2R: bv32 := 10
  const DTS_CHANNEL_MASK: bv32 := 0x3F
  const DTS_LFE: bv32 := 0x80
  const DTS_ADJUST_LEVEL: bv32 := 0x100

  /** Which of the two libdts builds: fixed-point samples, or floats biased by 384.0. */
  datatype Build = Fixed | Float

  /** The bias subtracted from a float sample's bit pattern in the float build. */
  const FLOAT_BIAS_BITS: int := 0x43c00000

  function Clamp16(i: int): (r: Int16)
    ensures INT16_MIN <= i <= INT16_MAX ==> r == i
    ensures i > INT16_MAX ==> r == INT16_MAX
    ensures i < INT16_MIN ==> r == INT16_MIN
  {
    if i > INT16_MAX then INT16_MAX else if i < INT16_MIN then INT16_MIN else i
  }

  /** The value `convert` scales a 32-bit sample to, before saturation. */
  function Unclamped(b: Build, i: Int32): int
  {
    match b
    case Fixed => i / 32768   // arithmetic shift right by 15
    case Float => Wrap32(i - FLOAT_BIAS_BITS)
  }

  /** convert: the scaled sample, saturated to 16 bits. */
  function Convert(b: Build, i: Int32): (r: Int16)
    ensures INT16_MIN <= Unclamped(b, i) <= INT16_MAX ==> r == Unclamped(b, i)
    ensures Unclamped(b, i) > INT16_MAX ==> r == INT16_MAX
    ensures Unclamped(b, i) < INT16_MIN ==> r == INT16_MIN
  {
    Clamp16(Unclamped(b, i))
  }

  /** In the fixed-point build, saturation keeps the order of samples. */
  lemma ConvertMonotone(i: Int32, j: Int32)
    requires i <= j
    ensures Convert(Fixed, i) <= Convert(Fixed, j)
    ensures i - FLOAT_BIAS_BITS >= INT32_MIN ==> Convert(Float, i) <= Convert(Float, j)
  {
    assert i / 32768 <= j / 32768;
  }

  /** In the fixed-point build, a sample scaled by 2^15 converts back to itself. */
  lemma {:induction false} ConvertFixedRoundTrip(v: Int16)
    ensures v * 32768 <= INT32_MAX && v * 32768 >= INT32_MIN
    ensures Convert(Fixed, v * 32768) == v
  {
    assert (v * 32768) / 32768 == v;
  }

  // -------------------------------------------------------------- layouts

  /** What one output slot of an interleaved frame holds. */
  datatype Slot =
    | Silent             // a literal 0
    | Chan(k: nat)       // convert of channel k's sample
    | SumHalf            // convert(c0)/2 + convert(c1)/2
    | DiffHalf           // convert(c0)/2 - convert(c1)/2
    | Chan0Plus256       // convert(c0 + 256), as the 3-front-1-rear case is written

  /** How many planar channels a slot reads. */
  function SlotReach(s: Slot): nat
  {
    match s
    case Silent => 0
    case Chan(k) => k + 1
    case SumHalf => 2
    case DiffHalf => 2
    case Chan0Plus256 => 1
  }

  /** Whether the planar buffer `f` holds every channel the layout reads. */
  predicate Fits(f: seq<Int32>, layout: seq<Slot>)
  {
    forall j :: 0 <= j < |layout| ==> BLOCK_SAMPLES * SlotReach(layout[j]) <= |f|
  }

  /** Sample `i` of the slot. */
  function SlotValue(b: Build, f: seq<Int32>, i: nat, s: Slot): (r: Int16)
    requires i < BLOCK_SAMPLES && BLOCK_SAMPLES * SlotReach(s) <= |f|
  {
    match s
    case Silent => 0
    case Chan(k) => Convert(b, f[i + BLOCK_SAMPLES * k])
    case SumHalf => HalvesInRange(Convert(b, f[i]), Convert(b, f[i + 256]));
                    TruncDiv(Convert(b, f[i]), 2) + TruncDiv(Convert(b, f[i + 256]), 2)
    case DiffHalf => HalvesInRange(Convert(b, f[i]), Convert(b, f[i + 256]));
                     TruncDiv(Convert(b, f[i]), 2) - TruncDiv(Convert(b, f[i + 256]), 2)
    case Chan0Plus256 => Convert(b, Wrap32(f[i] as int + 256))
  }

  /** Halving two 16-bit values (rounding toward zero) leaves room for their sum and difference. */
  lemma HalvesInRange(x: Int16, y: Int16)
    ensures INT16_MIN <= TruncDiv(x, 2) + TruncDiv(y, 2) <= INT16_MAX
    ensures INT16_MIN <= TruncDiv(x, 2) - TruncDiv(y, 2) <= INT16_MAX
  {
  }

  /** The output frame for sample `i`: one value per slot. */
  function Row(b: Build, f: seq<Int32>, layout: seq<Slot>, i: nat): (r: seq<Int16>)
    requires i < BLOCK_SAMPLES && Fits(f, layout)
    ensures |r| == |layout|
    ensures forall j :: 0 <= j < |layout| ==> r[j] == SlotValue(b, f, i, layout[j])
  {
    seq(|layout|, j requires 0 <= j < |layout| => SlotValue(b, f, i, layout[j]))
  }

  /** The first `n` output frames, one after another. */
  function Interleaved(b: Build, f: seq<Int32>, layout: seq<Slot>, n: nat): (r: seq<Int16>)
    requires n <= BLOCK_SAMPLES && Fits(f, layout)
    ensures |r| == n * |layout|
  {
    if n == 0 then [] else Interleaved(b, f, layout, n - 1) + Row(b, f, layout, n - 1)
  }

  /** The first `m` frames of a longer interleaving are the interleaving of `m` frames. */
  lemma {:induction false} InterleavedPrefix(b: Build, f: seq<Int32>, layout: seq<Slot>, n: nat, m: nat)
    requires m <= n <= BLOCK_SAMPLES && Fits(f, layout)
    ensures m * |layout| <= n * |layout|
    ensures Interleaved(b, f, layout, n)[..m * |layout|] == Interleaved(b, f, layout, m)
    decreases n
  {
    MulMonotone(m, n, |layout|);
    if m < n {
      InterleavedPrefix(b, f, layout, n - 1, m);
      var prev := Interleaved(b, f, layout, n - 1);
      assert Interleaved(b, f, layout, n) == prev + Row(b, f, layout, n - 1);
      assert (prev + Row(b, f, layout, n - 1))[..m * |layout|] == prev[..m * |layout|];
    } else {
      assert Interleaved(b, f, layout, n)[..n * |layout|] == Interleaved(b, f, layout, n);
    }
  }

  /** Output position k*i + j holds slot j of sample i. */
  lemma {:induction false} InterleavedAt(b: Build, f: seq<Int32>, layout: seq<Slot>, n: nat, i: nat, j: nat)
    requires n <= BLOCK_SAMPLES && Fits(f, layout)
    requires i < n && j < |layout|
    ensures |layout| * i + j < n * |layout|
    ensures Interleaved(b, f, layout, n)[|layout| * i + j] == SlotValue(b, f, i, layout[j])
  {
    var k := |layout|;
    var whole := Interleaved(b, f, layout, n);
    var m := (i + 1) * k;
    MulMonotone(i + 1, n, k);
    LastRowAt(b, f, layout, i, j);
    assert k * i + j < m <= |whole|;
    InterleavedPrefix(b, f, layout, n, i + 1);
    assert whole[..m] == Interleaved(b, f, layout, i + 1);
    PrefixIndex(whole, m, k * i + j);
  }

  lemma PrefixIndex<T>(s: seq<T>, m: nat, p: nat)
    requires p < m <= |s|
    ensures s[..m][p] == s[p]
  {
  }

  /** Within frame `i`'s own interleaving, position k*i + j is its slot j. */
  lemma LastRowAt(b: Build, f: seq<Int32>, layout: seq<Slot>, i: nat, j: nat)
    requires i < BLOCK_SAMPLES && Fits(f, layout) && j < |layout|
    ensures (i + 1) * |layout| == |layout| * i + |layout|
    ensures Interleaved(b, f, layout, i + 1)[|layout| * i + j] == SlotValue(b, f, i, layout[j])
  {
    var before := Interleaved(b, f, layout, i);
    assert |before| == |layout| * i;
    assert Interleaved(b, f, layout, i + 1) == before + Row(b, f, layout, i);
  }

  /** One more frame extends the interleaving by that frame's row. */
  lemma InterleavedSnoc(b: Build, f: seq<Int32>, layout: seq<Slot>, i: nat, out: seq<Int16>, pos: nat)
    requires i < BLOCK_SAMPLES && Fits(f, layout)
    requires pos == i * |layout| && pos + |layout| <= |out|
    requires out[..pos] == Interleaved(b, f, layout, i)
    requires out[pos..pos + |layout|] == Row(b, f, layout, i)
    ensures out[..pos + |layout|] == Interleaved(b, f, layout, i + 1)
  {
    assert out[..pos + |layout|] == out[..pos] + out[pos..pos + |layout|];
  }

  const Layout2: seq<Slot> := [Chan(0), Chan(1)]
  const Layout4: seq<Slot> := [Chan(0), Chan(1), Chan(2), Chan(3)]
  const Layout5: seq<Slot> := [Chan(1), Chan(2), Chan(3), Chan(4), Chan(0)]

  /**
   * The slot layout each case of convert2s16_multi writes, for the channel
   * bits of the flags, as written (the 3-front-1-rear case included); None
   * for a configuration without a case.
   */
  function MultiLayout(flags: bv32): (r: Option<seq<Slot>>)
    ensures r.Some? <==> flags & !DTS_LFE <= DTS_3F2R
    ensures r.Some? ==> 2 <= |r.value| <= 6
    ensures r.Some? && flags & DTS_LFE != 0 ==> |r.value| == 6
  {
    if flags == DTS_MONO then Some([Chan(0), Chan(0)])
    else if flags == DTS_CHANNEL || flags == DTS_STEREO || flags == DTS_STEREO_TOTAL then Some(Layout2)
    else if flags == DTS_STEREO_SUMDIFF then Some([SumHalf, DiffHalf])
    else if flags == DTS_3F then Some([Chan(1), Chan(2), Silent, Silent, Chan(0)])
    else if flags == DTS_2F1R then Some([Chan(0), Chan(1), Chan(2), Chan(2)])
    else if flags == DTS_3F1R then Some(Layout3F1RAsWritten)
    else if flags == DTS_2F2R then Some(Layout4)
    else if flags == DTS_3F2R then Some(Layout5)
    else if flags == DTS_MONO | DTS_LFE then Some([Silent, Silent, Silent, Silent, Chan(0), Chan(1)])
    else if flags == DTS_CHANNEL | DTS_LFE || flags == DTS_STEREO | DTS_LFE || flags == DTS_STEREO_TOTAL | DTS_LFE
    then Some([Chan(0), Chan(1), Silent, Silent, Silent, Chan(2)])
    else if flags == DTS_STEREO_SUMDIFF | DTS_LFE then Some([SumHalf, DiffHalf, Silent, Silent, Silent, Chan(2)])
    else if flags == DTS_3F | DTS_LFE then Some([Chan(1), Chan(2), Silent, Silent, Chan(0), Chan(3)])
    else if flags == DTS_2F1R | DTS_LFE then Some([Chan(0), Chan(1), Chan(2), Chan(2), Silent, Chan(3)])
    else if flags == DTS_3F1R | DTS_LFE then Some([Chan(1), Chan(2), Chan(3), Chan(3), Chan(0), Chan(4)])
    else if flags == DTS_2F2R | DTS_LFE then Some([Chan(0), Chan(1), Chan(2), Chan(3), Silent, Chan(4)])
    else if flags == DTS_3F2R | DTS_LFE then Some([Chan(1), Chan(2), Chan(3), Chan(4), Chan(0), Chan(5)])
    else None
  }

  /** Centre, left, right, then the surround channel twice: the order of every other 3-front case. */
  const Layout3F1R: seq<Slot> := [Chan(1), Chan(2), Chan(3), Chan(3), Chan(0)]

  /** The 3-front-1-rear case as written: its first slot converts channel 0's sample plus 256. */
  const Layout3F1RAsWritten: seq<Slot> := [Chan0Plus256, Chan(2), Chan(3), Chan(3), Chan(0)]

  /**
   * As written, the centre channel (channel 1) never reaches the output of the
   * 3-front-1-rear case: the first slot repeats channel 0 instead.
   */
  lemma Layout3F1RAsWrittenDropsCentre()
    ensures var f: seq<Int32> := seq(1280, j => if j == 256 then 100 * 32768 else 0);
            Fits(f, Layout3F1RAsWritten) && Fits(f, Layout3F1R) &&
            SlotValue(Fixed, f, 0, Layout3F1RAsWritten[0]) == 0 &&
            SlotValue(Fixed, f, 0, Layout3F1R[0]) == 100 &&
            MultiLayout(DTS_3F1R) == Some(Layout3F1RAsWritten) &&
            MultiLayoutCorrected(DTS_3F1R) == Some(Layout3F1R)
  {
    var f: seq<Int32> := seq(1280, j => if j == 256 then 100 * 32768 else 0);
    assert f[256] == 100 * 32768 && f[0] == 0;
  }

  /** With the corrected first slot, every planar channel of the configuration reaches the output. */
  lemma Layout3F1RUsesEveryChannel()
    ensures forall k :: 0 <= k < 4 ==> Chan(k) in Layout3F1R
    ensures Chan(1) !in Layout3F1RAsWritten
  {
    assert Layout3F1R[4] == Chan(0) && Layout3F1R[0] == Chan(1);
    assert Layout3F1R[1] == Chan(2) && Layout3F1R[2] == Chan(3);
  }

  /**
   * The layouts with the 3-front-1-rear case corrected: same width as written,
   * and every case reads each planar channel of its configuration.
   */
  function MultiLayoutCorrected(flags: bv32): (r: Option<seq<Slot>>)
    ensures r.Some? <==> MultiLayout(flags).Some?
    ensures r.Some? ==> |r.value| == |MultiLayout(flags).value|
    ensures flags == DTS_3F1R ==> r == Some(Layout3F1R) && forall k :: 0 <= k < 4 ==> Chan(k) in r.value
    ensures flags != DTS_3F1R ==> r == MultiLayout(flags)
  {
    Layout3F1RUsesEveryChannel();
    if flags == DTS_3F1R then Some(Layout3F1R) else MultiLayout(flags)
  }

  /** The table of channels_multi. */
  const DtsChannels: seq<int> := [2, 2, 2, 2, 2, 5, 4, 5, 4, 5, 6]

  predicate HasChannelCount(flags: bv32)
  {
    flags & DTS_LFE != 0 || (flags & DTS_CHANNEL_MASK) as int < |DtsChannels|
  }

  /** channels_multi: 6 with the LFE channel, otherwise the table entry for the configuration. */
  function ChannelsMulti(flags: bv32): (n: int)
    requires HasChannelCount(flags)
    ensures flags & DTS_LFE != 0 ==> n == 6
    ensures flags & DTS_LFE == 0 ==> n == DtsChannels[(flags & DTS_CHANNEL_MASK) as int]
  {
    if flags & DTS_LFE != 0 then 6 else DtsChannels[(flags & DTS_CHANNEL_MASK) as int]
  }

  /**
   * The stride the decoder advances the output by (channels_multi of the
   * flags) is exactly the number of slots convert2s16_multi writes per sample,
   * for every configuration that has a case.
   */
  lemma StrideMatchesLayout(flags: bv32)
    requires MultiLayout(flags & (DTS_CHANNEL_MASK | DTS_LFE)).Some?
    ensures HasChannelCount(flags)
    ensures |MultiLayout(flags & (DTS_CHANNEL_MASK | DTS_LFE)).value| == ChannelsMulti(flags)
  {
    var m := flags & (DTS_CHANNEL_MASK | DTS_LFE);
    assert m & DTS_LFE == flags & DTS_LFE;
    assert m & DTS_CHANNEL_MASK == flags & DTS_CHANNEL_MASK;
  }

  /** The widest planar buffer any layout reads: six channels. */
  lemma LayoutsReadAtMostSix(flags: bv32)
    requires MultiLayout(flags).Some?
    ensures forall f: seq<Int32> :: |f| >= 6 * BLOCK_SAMPLES ==> Fits(f, MultiLayout(flags).value)
  {
  }

  // ---------------------------------------------------------- array writers

  /** The statements of one iteration of a fixed-layout loop: `row` stored from `pos` on. */
  method StoreRow(s16: array<Int16>, pos: nat, row: seq<Int16>)
    requires pos + |row| <= s16.Length
    modifies s16
    ensures s16[..pos] == old(s16[..pos])
    ensures s16[pos..pos + |row|] == row
    ensures s16[pos + |row|..] == old(s16[pos + |row|..])
  {
    for j := 0 to |row|
      invariant s16[..pos] == old(s16[..pos])
      invariant s16[pos..pos + j] == row[..j]
      invariant s16[pos + j..] == old(s16[pos + j..])
    {
      s16[pos + j] := row[j];
      assert s16[pos..pos + j + 1] == s16[pos..pos + j] + [s16[pos + j]];
    }
  }

  lemma RowOf2(b: Build, f: seq<Int32>, i: nat)
    requires i < BLOCK_SAMPLES && |f| >= 512
    ensures Fits(f, Layout2)
    ensures Row(b, f, Layout2, i) == [Convert(b, f[i]), Convert(b, f[i + 256])]
  {
  }

  lemma RowOf4(b: Build, f: seq<Int32>, i: nat)
    requires i < BLOCK_SAMPLES && |f| >= 1024
    ensures Fits(f, Layout4)
    ensures Row(b, f, Layout4, i) == [Convert(b, f[i]), Convert(b, f[i + 256]), Convert(b, f[i + 512]), Convert(b, f[i + 768])]
  {
  }

  lemma RowOf5(b: Build, f: seq<Int32>, i: nat)
    requires i < BLOCK_SAMPLES && |f| >= 1280
    ensures Fits(f, Layout5)
    ensures Row(b, f, Layout5, i) ==
            [Convert(b, f[i + 256]), Convert(b, f[i + 512]), Convert(b, f[i + 768]), Convert(b, f[i + 1024]), Convert(b, f[i])]
  {
  }

  /** convert2s16_2: two channels into stereo frames. */
  method Convert2s16_2(b: Build, f: array<Int32>, s16: array<Int16>)
    requires f.Length >= 512 && s16.Length >= 512
    modifies s16
    ensures s16[..512] == Interleaved(b, f[..], Layout2, 256)
    ensures s16[512..] == old(s16[512..])
  {
    assert Fits(f[..], Layout2);
    for i := 0 to 256
      invariant s16[..2 * i] == Interleaved(b, f[..], Layout2, i)
      invariant forall j :: 2 * i <= j < s16.Length ==> s16[j] == old(s16[j])
    {
      StoreRow(s16, 2 * i, [Convert(b, f[i]), Convert(b, f[i + 256])]);
      RowOf2(b, f[..], i);
      InterleavedSnoc(b, f[..], Layout2, i, s16[..], 2 * i);
      assert s16[..][..2 * i + 2] == s16[..2 * i + 2];
    }
  }

  /** convert2s16_4: four channels in planar order. */
  method Convert2s16_4(b: Build, f: array<Int32>, s16: array<Int16>)
    requires f.Length >= 1024 && s16.Length >= 1024
    modifies s16
    ensures s16[..1024] == Interleaved(b, f[..], Layout4, 256)
    ensures s16[1024..] == old(s16[1024..])
  {
    assert Fits(f[..], Layout4);
    for i := 0 to 256
      invariant s16[..4 * i] == Interleaved(b, f[..], Layout4, i)
      invariant forall j :: 4 * i <= j < s16.Length ==> s16[j] == old(s16[j])
    {
      StoreRow(s16, 4 * i, [Convert(b, f[i]), Convert(b, f[i + 256]), Convert(b, f[i + 512]), Convert(b, f[i + 768])]);
      RowOf4(b, f[..], i);
      InterleavedSnoc(b, f[..], Layout4, i, s16[..], 4 * i);
      assert s16[..][..4 * i + 4] == s16[..4 * i + 4];
    }
  }

  /** convert2s16_5: five channels with planar channel 0 moved to the fifth slot. */
  method Convert2s16_5(b: Build, f: array<Int32>, s16: array<Int16>)
    requires f.Length >= 1280 && s16.Length >= 1280
    modifies s16
    ensures s16[..1280] == Interleaved(b, f[..], Layout5, 256)
    ensures s16[1280..] == old(s16[1280..])
  {
    assert Fits(f[..], Layout5);
    for i := 0 to 256
      invariant s16[..5 * i] == Interleaved(b, f[..], Layout5, i)
      invariant forall j :: 5 * i <= j < s16.Length ==> s16[j] == old(s16[j])
    {
      StoreRow(s16, 5 * i, [Convert(b, f[i + 256]), Convert(b, f[i + 512]), Convert(b, f[i + 768]),
                            Convert(b, f[i + 1024]), Convert(b, f[i])]);
      RowOf5(b, f[..], i);
      InterleavedSnoc(b, f[..], Layout5, i, s16[..], 5 * i);
      assert s16[..][..5 * i + 5] == s16[..5 * i + 5];
    }
  }

  /** The loop of one case of convert2s16_multi: frame by frame, slot by slot. */
  method WriteFrames(b: Build, f: array<Int32>, s16: array<Int16>, layout: seq<Slot>)
    requires Fits(f[..], layout) && s16.Length >= BLOCK_SAMPLES * |layout|
    modifies s16
    ensures s16[..BLOCK_SAMPLES * |layout|] == Interleaved(b, f[..], layout, BLOCK_SAMPLES)
    ensures s16[BLOCK_SAMPLES * |layout|..] == old(s16[BLOCK_SAMPLES * |layout|..])
  {
    var k := |layout|;
    var pos := 0;
    for i := 0 to 256
      invariant pos == i * k && pos <= s16.Length
      invariant s16[..pos] == Interleaved(b, f[..], layout, i)
      invariant s16[pos..] == old(s16[pos..])
    {
      MulMonotone(i + 1, 256, k);
      assert (i + 1) * k == pos + k;
      WriteRow(b, f, s16, layout, i, pos);
      InterleavedSnoc(b, f[..], layout, i, s16[..], pos);
      assert s16[..][..pos + k] == s16[..pos + k];
      pos := pos + k;
    }
  }

  /** The statements of one loop iteration: frame `i` written at `pos`. */
  method WriteRow(b: Build, f: array<Int32>, s16: array<Int16>, layout: seq<Slot>, i: nat, pos: nat)
    requires Fits(f[..], layout) && i < BLOCK_SAMPLES && pos + |layout| <= s16.Length
    modifies s16
    ensures s16[..pos] == old(s16[..pos])
    ensures s16[pos..pos + |layout|] == Row(b, f[..], layout, i)
    ensures s16[pos + |layout|..] == old(s16[pos + |layout|..])
  {
    for j := 0 to |layout|
      invariant s16[..pos] == old(s16[..pos])
      invariant s16[pos..pos + j] == Row(b, f[..], layout, i)[..j]
      invariant s16[pos + j..] == old(s16[pos + j..])
    {
      s16[pos + j] := SlotValue(b, f[..], i, layout[j]);
      assert s16[pos..pos + j + 1] == s16[pos..pos + j] + [s16[pos + j]];
    }
  }

  /**
   * convert2s16_multi: for a configuration with a case, the first 256 frames
   * of the output hold the interleaved samples in that case's layout; for
   * any other configuration nothing is written.
   */
  method Convert2s16Multi(b: Build, f: array<Int32>, s16: array<Int16>, flags: bv32)
    requires MultiLayout(flags).Some? ==>
               Fits(f[..], MultiLayout(flags).value) && s16.Length >= BLOCK_SAMPLES * |MultiLayout(flags).value|
    modifies s16
    ensures MultiLayout(flags).None? ==> s16[..] == old(s16[..])
    ensures MultiLayout(flags).Some? ==>
              var layout := MultiLayout(flags).value;
              s16[..BLOCK_SAMPLES * |layout|] == Interleaved(b, f[..], layout, BLOCK_SAMPLES) &&
              s16[BLOCK_SAMPLES * |layout|..] == old(s16[BLOCK_SAMPLES * |layout|..])
  {
    if flags == DTS_CHANNEL || flags == DTS_STEREO || flags == DTS_STEREO_TOTAL {
      assert SlotReach(Layout2[1]) == 2;
      Convert2s16_2(b, f, s16);
    } else if flags == DTS_2F2R {
      assert SlotReach(Layout4[3]) == 4;
      Convert2s16_4(b, f, s16);
    } else if flags == DTS_3F2R {
      assert SlotReach(Layout5[3]) == 5;
      Convert2s16_5(b, f, s16);
    } else if MultiLayout(flags).Some? {
      WriteFrames(b, f, s16, MultiLayout(flags).value);
    }
  }

  // ------------------------------------------------------ the frame buffer

  /** A frame length dts_syncinfo reports: 0 when the header does not sync. */
  type FrameLength = n: int | n == 0 || HEADER_SIZE < n <= BUFFER_SIZE

  datatype SyncInfo = SyncInfo(length: FrameLength, flags: bv32)

  /** Flags after dts_frame: always a configuration channels_multi has an entry for. */
  type ChannelFlags = f: bv32 | HasChannelCount(f)

  /**
   * How a buffered frame decodes: dts_frame's failure, the flags it sets, the
   * number of blocks dts_block decodes, and whether the block after those fails.
   */
  datatype FrameDecode = FrameDecode(frameError: bool, flags: ChannelFlags, blocksDecoded: nat, blockError: bool)

  /**
   * What one full window of dts_decode_frame gave: the frame length a synced
   * header announced (0 for a decoded frame or a header that did not sync),
   * the bytes of output, and whether the frame decoded without error.
   */
  datatype Window = Window(length: int, produced: int, decoded: bool)

  /** `finished`: the frame lengths announced so far. */
  function SumLength(ws: seq<Window>): int
  {
    if |ws| == 0 then 0 else SumLength(ws[..|ws| - 1]) + ws[|ws| - 1].length
  }

  /** `*data_size`: the output bytes produced so far. */
  function SumProduced(ws: seq<Window>): int
  {
    if |ws| == 0 then 0 else SumProduced(ws[..|ws| - 1]) + ws[|ws| - 1].produced
  }

  /** dts_decode_frame returns after window k: it decoded, and 8192 bytes of frames have been announced. */
  predicate StopsAt(ws: seq<Window>, k: int)
    requires 0 <= k < |ws|
  {
    ws[k].decoded && SumLength(ws[..k + 1]) >= 8192
  }

  /** One more window adds its length to `finished` and its output to `*data_size`. */
  lemma SumsSnoc(ws: seq<Window>, w: Window)
    ensures SumLength(ws + [w]) == SumLength(ws) + w.length
    ensures SumProduced(ws + [w]) == SumProduced(ws) + w.produced
  {
    assert (ws + [w])[..|ws|] == ws;
  }

  /** One more window stops the call exactly when it decodes with 8192 bytes announced, and changes no earlier window's verdict. */
  lemma WindowsSnoc(ws: seq<Window>, w: Window)
    ensures SumLength(ws + [w]) == SumLength(ws) + w.length
    ensures SumProduced(ws + [w]) == SumProduced(ws) + w.produced
    ensures forall k :: 0 <= k < |ws| ==> (StopsAt(ws + [w], k) <==> StopsAt(ws, k))
    ensures StopsAt(ws + [w], |ws|) <==> w.decoded && SumLength(ws) + w.length >= 8192
  {
    assert (ws + [w])[..|ws|] == ws;
    assert (ws + [w])[..|ws| + 1] == ws + [w];
    forall k | 0 <= k < |ws|
      ensures StopsAt(ws + [w], k) <==> StopsAt(ws, k)
    {
      assert (ws + [w])[..k + 1] == ws[..k + 1];
    }
  }

  /** The static variables of dts_decode_frame as a value: the buffer's bytes, its two cursors and the flags. */
  datatype DecoderState = DecoderState(bytes: seq<bv8>, bufptr: int, bufpos: int, flags: bv32)

  /** Between calls the fill cursor lies strictly before the end of the current window. */
  predicate Between(st: DecoderState)
  {
    |st.bytes| == BUFFER_SIZE && HEADER_SIZE <= st.bufpos <= BUFFER_SIZE && 0 <= st.bufptr < st.bufpos
  }

  /** The memcpy of `len` input bytes to the fill cursor, which moves past them. */
  function Copied(st: DecoderState, input: seq<bv8>, start: int, len: int): (c: DecoderState)
    requires Between(st) && 0 <= start && start + len <= |input| && 0 < len <= st.bufpos - st.bufptr
    ensures |c.bytes| == BUFFER_SIZE && c.bufpos == st.bufpos && c.flags == st.flags
    ensures c.bufptr == st.bufptr + len <= c.bufpos
    ensures c.bytes[st.bufptr..c.bufptr] == input[start..start + len]
  {
    st.(bytes := st.bytes[..st.bufptr] + input[start..start + len] + st.bytes[st.bufptr + len..],
        bufptr := st.bufptr + len)
  }

  /**
   * A full window, the two branches of `if (bufpos == buf + HEADER_SIZE)`:
   * the state it leaves and what it gave.
   */
  function WindowStep(st: DecoderState, sync: seq<bv8> -> SyncInfo, decode: (seq<bv8>, bv32) -> FrameDecode): (r: (DecoderState, Window))
    requires |st.bytes| == BUFFER_SIZE && HEADER_SIZE <= st.bufpos <= BUFFER_SIZE && st.bufptr == st.bufpos
    ensures Between(r.0)
    ensures r.1.length >= 0 && r.1.produced >= 0 && r.1.produced % (BLOCK_SAMPLES * 2) == 0
    ensures r.1.length != 0 ==> r.1.produced == 0 && !r.1.decoded
    ensures r.1.decoded ==> r.0.bufptr == 0 && r.0.bufpos == HEADER_SIZE
  {
    if st.bufpos == HEADER_SIZE then
      var info := sync(st.bytes[..HEADER_SIZE]);
      if info.length == 0 then
        (DecoderState(st.bytes[1..HEADER_SIZE] + st.bytes[HEADER_SIZE - 1..], HEADER_SIZE - 1, HEADER_SIZE, info.flags),
         Window(0, 0, false))
      else
        (st.(bufpos := info.length, bufptr := HEADER_SIZE, flags := info.flags), Window(info.length, 0, false))
    else
      var adjusted := st.flags | DTS_ADJUST_LEVEL;
      var fr := decode(st.bytes[..st.bufpos], adjusted);
      var produced := if fr.frameError then 0 else BlockBytes(fr.blocksDecoded, ChannelsMulti(fr.flags));
      (DecoderState(st.bytes, 0, HEADER_SIZE, if fr.frameError then adjusted else fr.flags),
       Window(0, produced, !fr.frameError && !fr.blockError))
  }

  /** The output of `blocks` blocks of `chans` channels: 256 16-bit samples per channel and block. */
  function BlockBytes(blocks: nat, chans: int): (n: int)
    requires chans >= 0
    ensures n >= 0 && n % (BLOCK_SAMPLES * 2) == 0
  {
    assert blocks * (BLOCK_SAMPLES * 2 * chans) == (blocks * chans) * (BLOCK_SAMPLES * 2);
    blocks * (BLOCK_SAMPLES * 2 * chans)
  }

  /** What a call of dts_decode_frame returns and leaves: its result, every full window in order, the static state. */
  datatype FeedResult = FeedResult(result: int, windows: seq<Window>, state: DecoderState)

  /**
   * The loop of dts_decode_frame from byte `start` on, with `ws` the windows
   * filled so far: it ends when the input is used up, and otherwise takes
   * one more turn.
   */
  function Feed(st: DecoderState, input: seq<bv8>, start: int, ws: seq<Window>,
                sync: seq<bv8> -> SyncInfo, decode: (seq<bv8>, bv32) -> FrameDecode): FeedResult
    requires Between(st) && 0 <= start <= |input|
    decreases |input| - start, 1
  {
    if start == |input| then FeedResult(|input|, ws, st) else FeedTurn(st, input, start, ws, sync, decode)
  }

  /**
   * One turn of the loop: copy as much of the rest as the window still
   * takes; a full window is synced or decoded, and a decoded frame after
   * 8192 announced bytes ends the call.
   */
  function FeedTurn(st: DecoderState, input: seq<bv8>, start: int, ws: seq<Window>,
                    sync: seq<bv8> -> SyncInfo, decode: (seq<bv8>, bv32) -> FrameDecode): FeedResult
    requires Between(st) && 0 <= start < |input|
    decreases |input| - start, 0
  {
    var len := Min(|input| - start, st.bufpos - st.bufptr);
    var c := Copied(st, input, start, len);
    if c.bufptr < c.bufpos then Feed(c, input, start + len, ws, sync, decode)
    else
      var step := WindowStep(c, sync, decode);
      var ws' := ws + [step.1];
      if step.1.decoded && SumLength(ws') >= 8192 then FeedResult(SumLength(ws'), ws', step.0)
      else Feed(step.0, input, start + len, ws', sync, decode)
  }

  /** A turn of the loop of dts_decode_frame that leaves the window unfilled. */
  lemma FeedAfterCopy(st: DecoderState, input: seq<bv8>, start: int, ws: seq<Window>,
                      sync: seq<bv8> -> SyncInfo, decode: (seq<bv8>, bv32) -> FrameDecode, len: int, c: DecoderState)
    requires Between(st) && 0 <= start < |input| && len == Min(|input| - start, st.bufpos - st.bufptr)
    requires c == Copied(st, input, start, len) && c.bufptr < c.bufpos
    ensures Feed(st, input, start, ws, sync, decode) == Feed(c, input, start + len, ws, sync, decode)
  {
  }

  /** A turn of the loop of dts_decode_frame that fills the window: it ends the call or goes on. */
  lemma FeedAfterWindow(st: DecoderState, input: seq<bv8>, start: int, ws: seq<Window>,
                        sync: seq<bv8> -> SyncInfo, decode: (seq<bv8>, bv32) -> FrameDecode,
                        len: int, c: DecoderState, next: DecoderState, w: Window)
    requires Between(st) && 0 <= start < |input| && len == Min(|input| - start, st.bufpos - st.bufptr)
    requires c == Copied(st, input, start, len) && c.bufptr == c.bufpos
    requires (next, w) == WindowStep(c, sync, decode)
    ensures w.decoded && SumLength(ws + [w]) >= 8192 ==>
              Feed(st, input, start, ws, sync, decode) == FeedResult(SumLength(ws + [w]), ws + [w], next)
    ensures !(w.decoded && SumLength(ws + [w]) >= 8192) ==>
              Feed(st, input, start, ws, sync, decode) == Feed(next, input, start + len, ws + [w], sync, decode)
  {
  }

  /** The output size of any run of windows is a whole number of 16-bit sample blocks. */
  lemma {:induction false} SumProducedBlocks(ws: seq<Window>)
    requires WindowShapes(ws, 0)
    ensures SumProduced(ws) >= 0 && SumProduced(ws) % (BLOCK_SAMPLES * 2) == 0
  {
    if |ws| > 0 {
      var init := ws[..|ws| - 1];
      assert WindowShapes(init, 0) by {
        forall k | 0 <= k < |init|
          ensures init[k].produced >= 0 && init[k].produced % (BLOCK_SAMPLES * 2) == 0
          ensures init[k].length != 0 ==> init[k].produced == 0 && !init[k].decoded
        {
          assert init[k] == ws[k];
        }
      }
      SumProducedBlocks(init);
      var a, b := SumProduced(init), ws[|ws| - 1].produced;
      assert a == (a / 512) * 512 && b == (b / 512) * 512;
      assert a + b == (a / 512 + b / 512) * 512;
    }
  }

  /** Windows that are not filled in one call of dts_decode_frame wait in the static buffer for the next. */
  predicate NoStop(ws: seq<Window>)
  {
    forall k :: 0 <= k < |ws| ==> !StopsAt(ws, k)
  }

  /** The facts a synced or decoded window gives about its length and output. */
  predicate WindowShapes(ws: seq<Window>, from: int)
  {
    forall k :: 0 <= from <= k < |ws| ==>
      ws[k].produced >= 0 && ws[k].produced % (BLOCK_SAMPLES * 2) == 0 &&
      (ws[k].length != 0 ==> ws[k].produced == 0 && !ws[k].decoded)
  }

  /**
   * What a call of dts_decode_frame does, given the windows `ws` it started
   * with: it extends them and ends at the first window that stops it —
   * returning the frame bytes announced, with the buffer waiting for a
   * header — or else consumes all `n` bytes of input, returns `n`, and leaves
   * the cursors for the next call.
   */
  predicate Outcome(ws: seq<Window>, r: FeedResult, n: int)
  {
    && |ws| <= |r.windows| && r.windows[..|ws|] == ws
    && Between(r.state)
    && WindowShapes(r.windows, |ws|)
    && (forall k :: 0 <= k < |r.windows| - 1 ==> !StopsAt(r.windows, k))
    && (|r.windows| > |ws| && StopsAt(r.windows, |r.windows| - 1) ==>
          r.result == SumLength(r.windows) >= 8192 && r.state.bufptr == 0 && r.state.bufpos == HEADER_SIZE)
    && (!(|r.windows| > |ws| && StopsAt(r.windows, |r.windows| - 1)) ==> r.result == n && NoStop(r.windows))
  }

  /** A window that does not stop the call: what follows it is what follows the windows before it. */
  lemma OutcomeAfterWindow(ws: seq<Window>, w: Window, r: FeedResult, n: int)
    requires NoStop(ws + [w]) && WindowShapes([w], 0)
    requires Outcome(ws + [w], r, n)
    ensures Outcome(ws, r, n)
  {
    var ws' := ws + [w];
    assert r.windows[..|ws|] == r.windows[..|ws'|][..|ws|];
    assert ws'[..|ws|] == ws;
    assert r.windows[|ws|] == w;
    forall k | |ws| <= k < |r.windows|
      ensures r.windows[k].produced >= 0 && r.windows[k].produced % (BLOCK_SAMPLES * 2) == 0
      ensures r.windows[k].length != 0 ==> r.windows[k].produced == 0 && !r.windows[k].decoded
    {
      if k == |ws| {
        assert [w][0] == w;
      }
    }
  }

  /** The window that stops the call. */
  lemma OutcomeAtStop(ws: seq<Window>, w: Window, st: DecoderState, n: int)
    requires NoStop(ws) && Between(st) && WindowShapes([w], 0)
    requires w.decoded && SumLength(ws + [w]) >= 8192 && st.bufptr == 0 && st.bufpos == HEADER_SIZE
    ensures Outcome(ws, FeedResult(SumLength(ws + [w]), ws + [w], st), n)
  {
    WindowsSnoc(ws, w);
    assert (ws + [w])[..|ws|] == ws;
    assert (ws + [w])[|ws|] == w;
  }

  /** Feed from any state between calls has the Outcome of one call of dts_decode_frame. */
  lemma {:induction false} FeedMeaning(st: DecoderState, input: seq<bv8>, start: int, ws: seq<Window>,
                                       sync: seq<bv8> -> SyncInfo, decode: (seq<bv8>, bv32) -> FrameDecode)
    requires Between(st) && 0 <= start <= |input| && NoStop(ws)
    ensures Outcome(ws, Feed(st, input, start, ws, sync, decode), |input|)
    decreases |input| - start, 1
  {
    if start == |input| {
      assert ws[..|ws|] == ws;
    } else {
      var len := Min(|input| - start, st.bufpos - st.bufptr);
      var c := Copied(st, input, start, len);
      if c.bufptr < c.bufpos {
        FeedAfterCopy(st, input, start, ws, sync, decode, len, c);
        FeedMeaning(c, input, start + len, ws, sync, decode);
      } else {
        FeedFullWindow(st, input, start, ws, sync, decode);
      }
    }
  }

  /** The step of FeedMeaning where the copy fills the window. */
  lemma {:induction false} FeedFullWindow(st: DecoderState, input: seq<bv8>, start: int, ws: seq<Window>,
                                          sync: seq<bv8> -> SyncInfo, decode: (seq<bv8>, bv32) -> FrameDecode)
    requires Between(st) && 0 <= start < |input| && NoStop(ws)
    requires Copied(st, input, start, Min(|input| - start, st.bufpos - st.bufptr)).bufptr == st.bufpos
    ensures Outcome(ws, Feed(st, input, start, ws, sync, decode), |input|)
    decreases |input| - start, 0
  {
    var len := Min(|input| - start, st.bufpos - st.bufptr);
    var c := Copied(st, input, start, len);
    var step := WindowStep(c, sync, decode);
    var ws' := ws + [step.1];
    FeedAfterWindow(st, input, start, ws, sync, decode, len, c, step.0, step.1);
    assert WindowShapes([step.1], 0);
    if step.1.decoded && SumLength(ws') >= 8192 {
      OutcomeAtStop(ws, step.1, step.0, |input|);
    } else {
      WindowsSnoc(ws, step.1);
      assert NoStop(ws');
      FeedMeaning(step.0, input, start + len, ws', sync, decode);
      OutcomeAfterWindow(ws, step.1, Feed(step.0, input, start + len, ws', sync, decode), |input|);
    }
  }

  /** The static state of dts_decode_frame: the frame buffer and its two cursors. */
  class DtsDecoder {
    const buf: array<bv8>
    var bufptr: int
    var bufpos: int
    var flags: bv32

    /** Cursors inside the buffer, the fill cursor strictly before the end of the current window. */
    predicate Valid()
      reads this
    {
      buf.Length == BUFFER_SIZE && HEADER_SIZE <= bufpos <= BUFFER_SIZE && 0 <= bufptr < bufpos
    }

    /** The static variables as a value. */
    function Snapshot(): (st: DecoderState)
      reads this, buf
      ensures Valid() ==> Between(st)
    {
      DecoderState(buf[..], bufptr, bufpos, flags)
    }

    constructor ()
      ensures Valid() && fresh(buf)
      ensures bufptr == 0 && bufpos == HEADER_SIZE
    {
      buf := new bv8[BUFFER_SIZE];
      bufptr := 0;
      bufpos := HEADER_SIZE;
      flags := 0;
    }

    /** memcpy of `len` input bytes to the fill cursor, which moves past them. */
    method CopyIn(input: seq<bv8>, start: int, len: int)
      requires Valid() && 0 <= start && start + len <= |input| && 0 < len <= bufpos - bufptr
      modifies this, buf
      ensures bufpos == old(bufpos) && flags == old(flags)
      ensures bufptr == old(bufptr) + len <= bufpos
      ensures buf[old(bufptr)..bufptr] == input[start..start + len]
      ensures buf[..old(bufptr)] == old(buf[..bufptr]) && buf[bufptr..] == old(buf[bufptr + len..])
      ensures Snapshot() == Copied(old(Snapshot()), input, start, len)
    {
      var p := bufptr;
      var k := 0;
      while k < len
        invariant 0 <= k <= len
        invariant bufptr == p == old(bufptr) && bufpos == old(bufpos) && flags == old(flags)
        invariant buf[p..p + k] == input[start..start + k]
        invariant buf[..p] == old(buf[..p]) && buf[p + k..] == old(buf[p + k..])
      {
        buf[p + k] := input[start + k];
        assert buf[p..p + k + 1] == buf[p..p + k] + [buf[p + k]];
        k := k + 1;
      }
      bufptr := p + len;
      assert buf[..] == buf[..p] + buf[p..bufptr] + buf[bufptr..];
    }

    /** A header that did not sync: drop its first byte, so the next byte read completes a new header. */
    method ShiftHeader()
      requires buf.Length == BUFFER_SIZE && bufpos == HEADER_SIZE
      modifies this, buf
      ensures Valid() && bufpos == old(bufpos) && flags == old(flags)
      ensures bufptr == HEADER_SIZE - 1
      ensures buf[..HEADER_SIZE - 1] == old(buf[1..HEADER_SIZE])
      ensures buf[HEADER_SIZE - 1..] == old(buf[HEADER_SIZE - 1..])
    {
      ghost var orig := buf[..];
      bufptr := 0;
      while bufptr < HEADER_SIZE - 1
        invariant 0 <= bufptr <= HEADER_SIZE - 1
        invariant bufpos == old(bufpos) && flags == old(flags)
        invariant forall j :: 0 <= j < bufptr ==> buf[j] == orig[j + 1]
        invariant forall j :: bufptr <= j < BUFFER_SIZE ==> buf[j] == orig[j]
      {
        buf[bufptr] := buf[bufptr + 1];
        bufptr := bufptr + 1;
      }
    }

    /**
     * A full header in the buffer: dts_syncinfo either reports a frame length,
     * which becomes the end of the window, or fails, and the header slides
     * one byte. The flags it reports are kept either way.
     */
    method SyncHeader(sync: seq<bv8> -> SyncInfo) returns (length: FrameLength)
      requires buf.Length == BUFFER_SIZE && bufptr == bufpos == HEADER_SIZE
      modifies this, buf
      ensures Valid()
      ensures length == sync(old(buf[..HEADER_SIZE])).length
      ensures flags == sync(old(buf[..HEADER_SIZE])).flags
      ensures length == 0 ==> bufpos == HEADER_SIZE && bufptr == HEADER_SIZE - 1 &&
                              buf[..HEADER_SIZE - 1] == old(buf[1..HEADER_SIZE]) &&
                              buf[HEADER_SIZE - 1..] == old(buf[HEADER_SIZE - 1..])
      ensures length != 0 ==> bufpos == length && bufptr == HEADER_SIZE && buf[..] == old(buf[..])
    {
      var info := sync(buf[..HEADER_SIZE]);
      flags := info.flags;
      length := info.length;
      if length == 0 {
        ShiftHeader();
      } else {
        bufpos := length;
      }
    }

    /**
     * A full frame in the buffer: dts_frame, then dts_block per block, each
     * block adding 256 samples per channel of 16-bit output; on success or
     * error the buffer is reset to wait for the next header.
     */
    method DecodeBuffered(decode: (seq<bv8>, bv32) -> FrameDecode) returns (decoded: bool, produced: int)
      requires buf.Length == BUFFER_SIZE && HEADER_SIZE < bufpos <= BUFFER_SIZE && bufptr == bufpos
      modifies this
      ensures Valid() && bufptr == 0 && bufpos == HEADER_SIZE
      ensures var fr := decode(old(buf[..bufpos]), old(flags) | DTS_ADJUST_LEVEL);
              && decoded == (!fr.frameError && !fr.blockError)
              && flags == (if fr.frameError then old(flags) | DTS_ADJUST_LEVEL else fr.flags)
              && produced == (if fr.frameError then 0 else fr.blocksDecoded * (BLOCK_SAMPLES * 2 * ChannelsMulti(fr.flags)))
      ensures produced >= 0 && produced % (BLOCK_SAMPLES * 2) == 0
    {
      flags := flags | DTS_ADJUST_LEVEL;
      var frame := decode(buf[..bufpos], flags);
      decoded := false;
      produced := 0;
      if !frame.frameError {
        flags := frame.flags;
        var chans := ChannelsMulti(flags);
        var i := 0;
        while i < frame.blocksDecoded
          invariant 0 <= i <= frame.blocksDecoded
          invariant produced == i * (BLOCK_SAMPLES * 2 * chans)
          invariant produced >= 0 && produced % (BLOCK_SAMPLES * 2) == 0
        {
          produced := produced + BLOCK_SAMPLES * 2 * chans;
          i := i + 1;
        }
        decoded := !frame.blockError;
      }
      bufptr := 0;
      bufpos := HEADER_SIZE;
    }

    /**
     * The window is full: a header is synced, or a frame decoded. `length` is
     * the frame length the header announced (0 for a frame or for no sync),
     * `produced` the bytes of output and `decoded` whether decoding succeeded.
     */
    method WindowFull(sync: seq<bv8> -> SyncInfo, decode: (seq<bv8>, bv32) -> FrameDecode)
      returns (length: int, produced: int, decoded: bool)
      requires buf.Length == BUFFER_SIZE && HEADER_SIZE <= bufpos <= BUFFER_SIZE && bufptr == bufpos
      modifies this, buf
      ensures Valid()
      ensures old(bufpos) == HEADER_SIZE ==>
                var info := sync(old(buf[..HEADER_SIZE]));
                && length == info.length && flags == info.flags && produced == 0 && !decoded
                // no sync: the header slides one byte; a sync: the window grows to the frame
                && (length == 0 ==> bufpos == HEADER_SIZE && bufptr == HEADER_SIZE - 1 &&
                                    buf[..HEADER_SIZE - 1] == old(buf[1..HEADER_SIZE]))
                && (length != 0 ==> bufpos == length && bufptr == HEADER_SIZE && buf[..] == old(buf[..]))
      ensures old(bufpos) != HEADER_SIZE ==>
                var fr := decode(old(buf[..bufpos]), old(flags) | DTS_ADJUST_LEVEL);
                && length == 0 && bufptr == 0 && bufpos == HEADER_SIZE
                && decoded == (!fr.frameError && !fr.blockError)
                && produced == (if fr.frameError then 0 else fr.blocksDecoded * (BLOCK_SAMPLES * 2 * ChannelsMulti(fr.flags)))
      ensures length >= 0 && produced >= 0 && produced % (BLOCK_SAMPLES * 2) == 0
      ensures (Snapshot(), Window(length, produced, decoded)) == WindowStep(old(Snapshot()), sync, decode)
    {
      if bufpos == HEADER_SIZE {
        length := SyncHeader(sync);
        produced := 0;
        decoded := false;
        if length == 0 {
          assert buf[..] == buf[..HEADER_SIZE - 1] + buf[HEADER_SIZE - 1..];
        }
      } else {
        length := 0;
        decoded, produced := DecodeBuffered(decode);
      }
    }

    /**
     * One turn of the loop of dts_decode_frame: copy as much of the rest of
     * the input as the window still takes and, when that fills it, sync or
     * decode it. The turn is the one Feed takes from the same state.
     */
    method Turn(input: seq<bv8>, start: int, ghost ws: seq<Window>, finished: int, dataSize: int, ghost cur: DecoderState,
                sync: seq<bv8> -> SyncInfo, decode: (seq<bv8>, bv32) -> FrameDecode)
      returns (len: int, ghost ws': seq<Window>, finished': int, dataSize': int, stop: bool, ghost next: DecoderState)
      requires Valid() && cur == Snapshot() && Between(cur)
      requires 0 <= start < |input| && finished == SumLength(ws) && dataSize == SumProduced(ws)
      modifies this, buf
      ensures Valid() && next == Snapshot() && Between(next)
      ensures 0 < len <= |input| - start
      ensures finished' == SumLength(ws') && dataSize' == SumProduced(ws')
      ensures stop ==> |ws'| > 0 && ws'[|ws'| - 1].decoded && finished' >= 8192
      ensures Feed(cur, input, start, ws, sync, decode) ==
                if stop then FeedResult(SumLength(ws'), ws', next) else Feed(next, input, start + len, ws', sync, decode)
    {
      ghost var before := Snapshot();
      len := |input| - start;
      if len > bufpos - bufptr {
        len := bufpos - bufptr;
      }
      assert len == Min(|input| - start, bufpos - bufptr);
      CopyIn(input, start, len);
      ghost var copied := Snapshot();
      finished', dataSize', stop := finished, dataSize, false;
      ws' := ws;
      if bufptr == bufpos {
        var length, produced, decoded := WindowFull(sync, decode);
        var w := Window(length, produced, decoded);
        FeedAfterWindow(before, input, start, ws, sync, decode, len, copied, Snapshot(), w);
        SumsSnoc(ws, w);
        ws' := ws + [w];
        finished', dataSize' := finished + length, dataSize + produced;
        stop := decoded && finished' >= 8192;
      } else {
        FeedAfterCopy(before, input, start, ws, sync, decode, len, copied);
      }
      next := Snapshot();
    }

    /**
     * dts_decode_frame(buff): the input is copied window by window, as Feed
     * does from the state the previous call left; `windows` are the full
     * windows, in order. The call returns at the first window that decodes
     * once 8192 bytes of frames have been announced, with that total;
     * otherwise it consumes the whole input and returns its length.
     * `dataSize` is the output of every window together.
     */
    method DecodeFrame(input: seq<bv8>, sync: seq<bv8> -> SyncInfo, decode: (seq<bv8>, bv32) -> FrameDecode)
      returns (result: int, dataSize: int, ghost windows: seq<Window>)
      requires Valid()
      modifies this, buf
      ensures Valid()
      ensures var r := Feed(old(Snapshot()), input, 0, [], sync, decode);
              result == r.result && windows == r.windows && Snapshot() == r.state
      ensures Outcome([], FeedResult(result, windows, Snapshot()), |input|)
      ensures dataSize == SumProduced(windows)
      ensures dataSize >= 0 && dataSize % (BLOCK_SAMPLES * 2) == 0
    {
      dataSize := 0;
      windows := [];
      var start := 0;
      var finished: int := 0;
      ghost var initial := Snapshot();
      ghost var cur := initial;
      ghost var whole := Feed(initial, input, 0, [], sync, decode);
      while true
        invariant Valid() && cur == Snapshot() && Between(cur)
        invariant 0 <= start <= |input|
        invariant Feed(cur, input, start, windows, sync, decode) == whole
        invariant finished == SumLength(windows) && dataSize == SumProduced(windows)
        decreases |input| - start
      {
        if start == |input| {
          break;
        }
        ghost var next;
        var len, stop;
        len, windows, finished, dataSize, stop, next := Turn(input, start, windows, finished, dataSize, cur, sync, decode);
        start, cur := start + len, next;
        if stop {
          FeedMeaning(initial, input, 0, [], sync, decode);
          SumProducedBlocks(windows);
          return finished, dataSize, windows;
        }
      }
      FeedMeaning(initial, input, 0, [], sync, decode);
      SumProducedBlocks(windows);
      return |input|, dataSize, windows;
    }
  }
}
