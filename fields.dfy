/**
 * The enumerated fields of the DRV8873 control registers (src/registers.rs).
 * `Code` is a variant's bit pattern (`IntoPrimitive`); `FromCode` is
 * `FromPrimitive`, which maps a pattern no variant lists to the variant marked
 * `#[default]`.
 */
module Fields {

  /** ControlRegister1 bits 1..0: how the inputs drive the bridges. */
  datatype Mode = PhaseEnable | PWM | IndependentHalfBridge | InputDisabled {
    function Code(): (c: bv8)
      ensures c < 4 && FromCode(c) == this
    {
      match this
      case PhaseEnable => 0
      case PWM => 1
      case IndependentHalfBridge => 2
      case InputDisabled => 3
    }

    static function FromCode(c: bv8): (r: Mode)
      ensures c >= 4 ==> r == PWM
    {
      if c == 0 then PhaseEnable
      else if c == 1 then PWM
      else if c == 2 then IndependentHalfBridge
      else if c == 3 then InputDisabled
      else PWM
    }
  }

  /** ControlRegister1 bits 4..2: output slew rate. */
  datatype RiseTime =
    | VoltPerUs53_2 | VoltPerUs34_0 | VoltPerUs18_3 | VoltPerUs13_0
    | VoltPerUs10_8 | VoltPerUs7_9 | VoltPerUs5_3 | VoltPerUs2_6
  {
    function Code(): (c: bv8)
      ensures c < 8 && FromCode(c) == this
    {
      match this
      case VoltPerUs53_2 => 0
      case VoltPerUs34_0 => 1
      case VoltPerUs18_3 => 2
      case VoltPerUs13_0 => 3
      case VoltPerUs10_8 => 4
      case VoltPerUs7_9 => 5
      case VoltPerUs5_3 => 6
      case VoltPerUs2_6 => 7
    }

    static function FromCode(c: bv8): (r: RiseTime)
      ensures c >= 8 ==> r == VoltPerUs10_8
    {
      if c == 0 then VoltPerUs53_2
      else if c == 1 then VoltPerUs34_0
      else if c == 2 then VoltPerUs18_3
      else if c == 3 then VoltPerUs13_0
      else if c == 4 then VoltPerUs10_8
      else if c == 5 then VoltPerUs7_9
      else if c == 6 then VoltPerUs5_3
      else if c == 7 then VoltPerUs2_6
      else VoltPerUs10_8
    }
  }

  /** ControlRegister1 bits 7..6: off time of the current chopping. */
  datatype Toff = Us20 | Us40 | Us60 | Us80 {
    function Code(): (c: bv8)
      ensures c < 4 && FromCode(c) == this
    {
      match this
      case Us20 => 0
      case Us40 => 1
      case Us60 => 2
      case Us80 => 3
    }

    static function FromCode(c: bv8): (r: Toff)
      ensures c >= 4 ==> r == Us40
    {
      if c == 0 then Us20
      else if c == 1 then Us40
      else if c == 2 then Us60
      else if c == 3 then Us80
      else Us40
    }
  }

  /** ControlRegister2 bits 1..0: reaction to an overcurrent condition. */
  datatype OcpMode = LatchedFault | AutomaticRetry | ReportOnly | NoAction {
    function Code(): (c: bv8)
      ensures c < 4 && FromCode(c) == this
    {
      match this
      case LatchedFault => 0
      case AutomaticRetry => 1
      case ReportOnly => 2
      case NoAction => 3
    }

    static function FromCode(c: bv8): (r: OcpMode)
      ensures c >= 4 ==> r == LatchedFault
    {
      if c == 0 then LatchedFault
      else if c == 1 then AutomaticRetry
      else if c == 2 then ReportOnly
      else if c == 3 then NoAction
      else LatchedFault
    }
  }

  /** ControlRegister2 bits 3..2: overcurrent retry time. */
  datatype OcpTRetry = Ms0_5 | Ms1 | Ms2 | Ms4 {
    function Code(): (c: bv8)
      ensures c < 4 && FromCode(c) == this
    {
      match this
      case Ms0_5 => 0
      case Ms1 => 1
      case Ms2 => 2
      case Ms4 => 3
    }

    static function FromCode(c: bv8): (r: OcpTRetry)
      ensures c >= 4 ==> r == Ms4
    {
      if c == 0 then Ms0_5
      else if c == 1 then Ms1
      else if c == 2 then Ms2
      else if c == 3 then Ms4
      else Ms4
    }
  }

  /**
   * ControlRegister3 bits 6..4. Only two of the eight patterns are listed;
   * every other pattern decodes to the default, `Unlocked`.
   */
  datatype Lock = Unlocked | Locked {
    function Code(): (c: bv8)
      ensures (c == 4 || c == 3) && FromCode(c) == this
    {
      match this
      case Unlocked => 4  // 100b
      case Locked => 3    // 011b
    }

    static function FromCode(c: bv8): (r: Lock)
      ensures r == Locked <==> c == 3
    {
      if c == 4 then Unlocked
      else if c == 3 then Locked
      else Unlocked
    }
  }

  /** ControlRegister4 bits 1..0: which outputs use current regulation. */
  datatype ITrip = Enabled | Out1Disabled | Out2Disabled | Disabled {
    function Code(): (c: bv8)
      ensures c < 4 && FromCode(c) == this
    {
      match this
      case Enabled => 0
      case Out1Disabled => 1
      case Out2Disabled => 2
      case Disabled => 3
    }

    static function FromCode(c: bv8): (r: ITrip)
      ensures c >= 4 ==> r == Enabled
    {
      if c == 0 then Enabled
      else if c == 1 then Out1Disabled
      else if c == 2 then Out2Disabled
      else if c == 3 then Disabled
      else Enabled
    }
  }

  /** ControlRegister4 bits 3..2: current regulation level. */
  datatype ITripLvl = Ampere4 | Ampere5_4 | Ampere6_5 | Ampere7 {
    function Code(): (c: bv8)
      ensures c < 4 && FromCode(c) == this
    {
      match this
      case Ampere4 => 0
      case Ampere5_4 => 1
      case Ampere6_5 => 2
      case Ampere7 => 3
    }

    static function FromCode(c: bv8): (r: ITripLvl)
      ensures c >= 4 ==> r == Ampere6_5
    {
      if c == 0 then Ampere4
      else if c == 1 then Ampere5_4
      else if c == 2 then Ampere6_5
      else if c == 3 then Ampere7
      else Ampere6_5
    }
  }

  /** Decoding is a bijection on the 2- and 3-bit patterns of every field except `Lock`. */
  lemma FieldPatternsDecodeUniquely(c: bv8)
    ensures c < 4 ==> Mode.FromCode(c).Code() == c
    ensures c < 8 ==> RiseTime.FromCode(c).Code() == c
    ensures c < 4 ==> Toff.FromCode(c).Code() == c
    ensures c < 4 ==> OcpMode.FromCode(c).Code() == c
    ensures c < 4 ==> OcpTRetry.FromCode(c).Code() == c
    ensures c < 4 ==> ITrip.FromCode(c).Code() == c
    ensures c < 4 ==> ITripLvl.FromCode(c).Code() == c
    ensures Lock.FromCode(c).Code() == c <==> c == 4 || c == 3
  {
  }
}
