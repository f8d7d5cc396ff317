/** The firmware protocol of src/protocol.rs and src/rfone.rs: vendor requests, the choice of a
    firmware sample rate and a host decimation, and the command list of a gain setting. */
module FirmwareProtocol {
  import opened Numbers
  import opened Errors
  import opened Converter

  datatype VendorRequest =
    | ReceiverMode | BoardIdRead | VersionStringRead | BoardPartIdSerialNoRead
    | SetSamplerate | SetFreq | SetLnaGain | SetMixerGain | SetVgaGain
    | SetLnaAgc | SetMixerAgc | SetRfBiasCmd | SetPacking | SetRfPort

  /** A control transfer that writes `value` to the register a request stands for. */
  datatype Command = Command(request: VendorRequest, value: nat)

  const RECEIVER_OFF := Command(ReceiverMode, 0)
  const RECEIVER_RX := Command(ReceiverMode, 1)
  const BIAS_OFF := Command(SetRfBiasCmd, 0)

  datatype ReceiveSettings = ReceiveSettings(packing: bool, decimation: nat)

  function Flag(b: bool): nat { if b then 1 else 0 }

  // ---- Sample rates ----

  datatype SampleFormat = RawAdc | F32Iq
  datatype DecimationPolicy = LowBandwidth | HighDefinition
  datatype SelectedSampleRate = SelectedSampleRate(param: nat, decimation: nat)

  const RFONE_FIRMWARE_IQ_SAMPLE_RATES: seq<nat> := [10_000_000, 5_000_000, 2_500_000]
  const RFONE_RAW_ADC_SAMPLE_RATES: seq<nat> := [20_000_000, 10_000_000, 5_000_000]
  const RFONE_F32_IQ_SAMPLE_RATES: seq<nat> :=
    [10_000_000, 5_000_000, 2_500_000, 1_250_000, 625_000, 312_500, 156_250, 78_125]
  const DECIMATION_FACTORS_DESC: seq<nat> := [64, 32, 16, 8, 4, 2, 1]

  /** Where a rate first occurs in a table. */
  function Position(table: seq<nat>, rate: nat): (r: Option<nat>)
    ensures r.Some? <==> rate in table
    ensures r.Some? ==> r.value < |table| && table[r.value] == rate
  {
    if |table| == 0 then None
    else if table[0] == rate then Some(0)
    else
      var r := Position(table[1..], rate);
      if r.Some? then Some(r.value + 1) else None
  }

  /** A firmware rate that yields the wanted rate after one of the host's decimation factors. */
  predicate Feasible(rate: nat, wanted: nat) {
    wanted != 0 && rate % wanted == 0 && rate / wanted in DECIMATION_FACTORS_DESC
  }

  function Candidates(table: seq<nat>, wanted: nat): (r: seq<(nat, nat)>) {
    if |table| == 0 then []
    else (if Feasible(table[0], wanted) then [(table[0], table[0] / wanted)] else []) + Candidates(table[1..], wanted)
  }

  /** `min_by_key` and `max_by_key` on the firmware rate. */
  function Best(policy: DecimationPolicy, c: seq<(nat, nat)>): Option<(nat, nat)> {
    if |c| == 0 then None
    else
      var rest := Best(policy, c[1..]);
      if rest.None? || (policy == LowBandwidth && c[0].0 <= rest.value.0)
          || (policy == HighDefinition && c[0].0 > rest.value.0)
      then Some(c[0]) else rest
  }

  function SampleRateHardwareConfig(policy: DecimationPolicy, wanted: nat): Option<(nat, nat)> {
    Best(policy, Candidates(RFONE_FIRMWARE_IQ_SAMPLE_RATES, wanted))
  }

  /** `sample_rate_config`. */
  function SampleRateConfig(format: SampleFormat, policy: DecimationPolicy, wanted: nat): Result<SelectedSampleRate> {
    if format == RawAdc then
      match Position(RFONE_RAW_ADC_SAMPLE_RATES, wanted)
      case None => Err(InvalidConfig)
      case Some(index) => Ok(SelectedSampleRate(index, 1))
    else
      match SampleRateHardwareConfig(policy, wanted)
      case None => Err(InvalidConfig)
      case Some(best) =>
        match Position(RFONE_FIRMWARE_IQ_SAMPLE_RATES, best.0)
        case None => Err(Protocol)
        case Some(index) => Ok(SelectedSampleRate(index, best.1))
  }

  lemma {:induction false} CandidatesAre(table: seq<nat>, wanted: nat)
    ensures forall c :: c in Candidates(table, wanted) <==> c.0 in table && Feasible(c.0, wanted) && c.1 == c.0 / wanted
  {
    if |table| > 0 {
      CandidatesAre(table[1..], wanted);
    }
  }

  lemma {:induction false} BestIsExtreme(policy: DecimationPolicy, c: seq<(nat, nat)>)
    ensures Best(policy, c).None? <==> |c| == 0
    ensures Best(policy, c).Some? ==> Best(policy, c).value in c
    ensures Best(policy, c).Some? ==> forall x :: x in c ==>
      if policy == LowBandwidth then Best(policy, c).value.0 <= x.0 else x.0 <= Best(policy, c).value.0
  {
    if |c| > 0 {
      BestIsExtreme(policy, c[1..]);
    }
  }

  lemma Divides(rate: nat, wanted: nat, d: nat)
    requires wanted != 0
    ensures rate % wanted == 0 && rate / wanted == d <==> rate == wanted * d
  {
    var q, r := rate / wanted, rate % wanted;
    assert rate == wanted * q + r;
    if rate == wanted * d {
      assert r == wanted * (d - q);
      if d > q {
        AtLeast(wanted, d - q);
        assert false;
      } else if d < q {
        AtLeast(wanted, q - d);
        assert false;
      }
    }
  }

  lemma AtLeast(x: nat, k: nat)
    requires k > 0
    ensures x * k >= x
  {
  }

  /** A feasible firmware rate is the wanted rate times the decimation, a power of two. */
  lemma FeasibleIs(rate: nat, wanted: nat)
    ensures Feasible(rate, wanted) <==> wanted != 0 && exists d :: d in DECIMATION_FACTORS_DESC && rate == wanted * d
    ensures Feasible(rate, wanted) ==> SupportedDecimation(rate / wanted) && rate == wanted * (rate / wanted)
  {
    if Feasible(rate, wanted) {
      Divides(rate, wanted, rate / wanted);
    } else if wanted != 0 && exists d :: d in DECIMATION_FACTORS_DESC && rate == wanted * d {
      var d :| d in DECIMATION_FACTORS_DESC && rate == wanted * d;
      Divides(rate, wanted, d);
    }
  }

  /** The rates that some firmware rate and some decimation factor produce are the published
      table, neither more nor fewer. */
  lemma TableIsExact(wanted: nat)
    ensures (exists rate :: rate in RFONE_FIRMWARE_IQ_SAMPLE_RATES && Feasible(rate, wanted))
       <==> wanted in RFONE_F32_IQ_SAMPLE_RATES
  {
    if wanted in RFONE_F32_IQ_SAMPLE_RATES {
      assert Feasible(if wanted == 78_125 then 5_000_000 else 10_000_000, wanted);
    } else if exists rate :: rate in RFONE_FIRMWARE_IQ_SAMPLE_RATES && Feasible(rate, wanted) {
      var rate :| rate in RFONE_FIRMWARE_IQ_SAMPLE_RATES && Feasible(rate, wanted);
      FeasibleIs(rate, wanted);
      var d := rate / wanted;
      assert rate == wanted * d;
      NotProduced(rate, wanted, d);
    }
  }

  lemma NotProduced(rate: nat, wanted: nat, d: nat)
    requires rate in RFONE_FIRMWARE_IQ_SAMPLE_RATES && d in DECIMATION_FACTORS_DESC && rate == wanted * d
    ensures wanted in RFONE_F32_IQ_SAMPLE_RATES
  {
  }

  /** Rate selection for every requested IQ rate: it succeeds exactly on the published table; the
      chosen firmware rate is the requested one times a power of two the converter supports; and
      no feasible firmware rate is lower, or higher, than the policy's choice. */
  lemma RateSelection(policy: DecimationPolicy, wanted: nat)
    ensures SampleRateConfig(F32Iq, policy, wanted).Ok? <==> wanted in RFONE_F32_IQ_SAMPLE_RATES
    ensures SampleRateConfig(F32Iq, policy, wanted).Err? ==>
      SampleRateConfig(F32Iq, policy, wanted).error == InvalidConfig
    ensures SampleRateConfig(F32Iq, policy, wanted).Ok? ==>
      var s := SampleRateConfig(F32Iq, policy, wanted).value;
      && s.param < |RFONE_FIRMWARE_IQ_SAMPLE_RATES|
      && SupportedDecimation(s.decimation)
      && RFONE_FIRMWARE_IQ_SAMPLE_RATES[s.param] == wanted * s.decimation
      && forall rate :: rate in RFONE_FIRMWARE_IQ_SAMPLE_RATES && Feasible(rate, wanted) ==>
           if policy == LowBandwidth then RFONE_FIRMWARE_IQ_SAMPLE_RATES[s.param] <= rate
           else rate <= RFONE_FIRMWARE_IQ_SAMPLE_RATES[s.param]
  {
    hide Feasible, SupportedDecimation, Candidates, Best;
    var table := RFONE_FIRMWARE_IQ_SAMPLE_RATES;
    var c := Candidates(table, wanted);
    CandidatesAre(table, wanted);
    BestIsExtreme(policy, c);
    TableIsExact(wanted);
    if |c| > 0 {
      var best := Best(policy, c).value;
      FeasibleIs(best.0, wanted);
      assert best in c;
      forall rate | rate in table && Feasible(rate, wanted)
        ensures (rate, rate / wanted) in c
      {
      }
    }
    assert |c| == 0 ==> forall rate :: rate in table ==> !Feasible(rate, wanted) by {
      forall rate | rate in table && Feasible(rate, wanted)
        ensures |c| > 0
      {
        assert (rate, rate / wanted) in c;
      }
    }
  }

  /** Raw rates map to the firmware table index by index, with no host decimation. */
  lemma RawRateSelection(policy: DecimationPolicy, wanted: nat)
    ensures SampleRateConfig(RawAdc, policy, wanted).Ok? <==> wanted in RFONE_RAW_ADC_SAMPLE_RATES
    ensures SampleRateConfig(RawAdc, policy, wanted).Ok? ==>
      var s := SampleRateConfig(RawAdc, policy, wanted).value;
      s.decimation == 1 && s.param < 3 && 2 * RFONE_FIRMWARE_IQ_SAMPLE_RATES[s.param] == wanted
  {
  }

  // ---- Gain ----

  const MAX_PRESET_GAIN: nat := 21
  const RFONE_LNA_MAX_GAIN: nat := 14
  const RFONE_MIXER_MAX_GAIN: nat := 15
  const RFONE_VGA_MAX_GAIN: nat := 15

  const RFONE_LINEARITY_VGA_GAINS: seq<nat> :=
    [13, 12, 11, 11, 11, 11, 11, 10, 10, 10, 10, 10, 10, 10, 10, 10, 9, 8, 7, 6, 5, 4]
  const RFONE_LINEARITY_MIXER_GAINS: seq<nat> :=
    [12, 12, 11, 9, 8, 7, 6, 6, 5, 0, 0, 1, 0, 0, 2, 2, 1, 1, 1, 1, 0, 0]
  const RFONE_LINEARITY_LNA_GAINS: seq<nat> :=
    [14, 14, 14, 13, 12, 10, 9, 9, 8, 9, 8, 6, 5, 3, 1, 0, 0, 0, 0, 0, 0, 0]
  const RFONE_SENSITIVITY_VGA_GAINS: seq<nat> :=
    [13, 12, 11, 10, 9, 8, 7, 6, 5, 5, 5, 5, 5, 4, 4, 4, 4, 4, 4, 4, 4, 4]
  const RFONE_SENSITIVITY_MIXER_GAINS: seq<nat> :=
    [12, 12, 12, 12, 11, 10, 10, 9, 9, 8, 7, 4, 4, 4, 3, 2, 2, 1, 0, 0, 0, 0]
  const RFONE_SENSITIVITY_LNA_GAINS: seq<nat> :=
    [14, 14, 14, 14, 14, 14, 14, 14, 14, 13, 12, 12, 9, 9, 8, 7, 6, 5, 3, 2, 1, 0]

  datatype StageGain = Manual(value: nat) | Agc
  datatype GainConfig = Linearity(index: nat) | Sensitivity(index: nat)
    | StageGains(lna: StageGain, mixer: StageGain, vga: nat)

  function ReverseGainTableIndex(value: nat): (i: nat)
    ensures i <= 21
  {
    21 - (if value < 21 then value else 21)
  }

  function PresetGainPlan(value: nat, vga: seq<nat>, mixer: seq<nat>, lna: seq<nat>): seq<Command>
    requires |vga| == |mixer| == |lna| == 22
  {
    var i := ReverseGainTableIndex(value);
    [Command(SetMixerAgc, 0), Command(SetLnaAgc, 0),
     Command(SetVgaGain, vga[i]), Command(SetMixerGain, mixer[i]), Command(SetLnaGain, lna[i])]
  }

  function StageGainPlan(lna: StageGain, mixer: StageGain, vga: nat): seq<Command> {
    (if lna.Manual? then [Command(SetLnaAgc, 0), Command(SetLnaGain, lna.value)] else [Command(SetLnaAgc, 1)])
    + (if mixer.Manual? then [Command(SetMixerAgc, 0), Command(SetMixerGain, mixer.value)]
        else [Command(SetMixerAgc, 1)])
    + [Command(SetVgaGain, vga)]
  }

  function GainConfigPlan(gain: GainConfig): seq<Command> {
    match gain
    case Linearity(v) => PresetGainPlan(v, RFONE_LINEARITY_VGA_GAINS, RFONE_LINEARITY_MIXER_GAINS,
        RFONE_LINEARITY_LNA_GAINS)
    case Sensitivity(v) => PresetGainPlan(v, RFONE_SENSITIVITY_VGA_GAINS,
                                                    RFONE_SENSITIVITY_MIXER_GAINS, RFONE_SENSITIVITY_LNA_GAINS)
    case StageGains(lna, mixer, vga) => StageGainPlan(lna, mixer, vga)
  }

  predicate GainRequest(r: VendorRequest) {
    r == SetLnaGain || r == SetMixerGain || r == SetVgaGain || r == SetLnaAgc || r == SetMixerAgc
  }

  ghost predicate GainShape(commands: seq<Command>) {
    forall i :: 0 <= i < |commands| ==> GainRequest(commands[i].request)
  }

  lemma PresetShape(value: nat, vga: seq<nat>, mixer: seq<nat>, lna: seq<nat>)
    requires |vga| == |mixer| == |lna| == 22
    ensures GainShape(PresetGainPlan(value, vga, mixer, lna))
  {
  }

  lemma StageShape(lna: StageGain, mixer: StageGain, vga: nat)
    ensures GainShape(StageGainPlan(lna, mixer, vga))
  {
  }

  /** A gain plan writes gain registers only. */
  lemma GainPlanShape(gain: GainConfig)
    ensures GainShape(GainConfigPlan(gain))
  {
    hide GainShape, PresetGainPlan, StageGainPlan;
    match gain
    case Linearity(v) => PresetShape(v, RFONE_LINEARITY_VGA_GAINS, RFONE_LINEARITY_MIXER_GAINS,
        RFONE_LINEARITY_LNA_GAINS);
    case Sensitivity(v) => PresetShape(v, RFONE_SENSITIVITY_VGA_GAINS,
                                                RFONE_SENSITIVITY_MIXER_GAINS, RFONE_SENSITIVITY_LNA_GAINS);
    case StageGains(lna, mixer, vga) => StageShape(lna, mixer, vga);
  }
}
