/**
 * The two OTP code generators and the factory that picks one from the
 * configured backend name.  The cryptographically random draw
 * (`secrets.randbelow(10 ** digit_count)`) is an input of the model.
 */
module OtpGenerationService {
  import opened Wrappers
  import opened Text

  /** The backend names stored in the `otp_generation_feature` setting. */
  const AllZeroFeature := "ALL_ZERO"
  const RandomFeature := "RANDOM"

  /** The two generator implementations. */
  datatype OtpGenerator = AllZeroGenerator | RandomGenerator

  /** The configuration defect the factory raises (`OperationException`). */
  datatype OperationException = UnknownOtpGenerationFeature(feature: string)

  /** `get_otp_generation_service`: the generator a backend name selects. */
  function GetOtpGenerationService(feature: string): (r: Result<OtpGenerator, OperationException>)
    ensures feature == AllZeroFeature <==> r == Ok(AllZeroGenerator)
    ensures feature == RandomFeature <==> r == Ok(RandomGenerator)
    ensures r.Err? <==> feature != AllZeroFeature && feature != RandomFeature
    ensures r.Err? ==> r.error == UnknownOtpGenerationFeature(feature)
  {
    if feature == AllZeroFeature then Ok(AllZeroGenerator)
    else if feature == RandomFeature then Ok(RandomGenerator)
    else Err(UnknownOtpGenerationFeature(feature))
  }

  /** `_AllZeroOtpGenerationService.generate_otp`: `"0" * digit_count`. */
  function AllZeroOtp(digitCount: nat): string {
    Repeat('0', digitCount)
  }

  /** `_RandomOtpGenerationService.generate_otp` for the random draw `draw`:
      `str(draw).zfill(digit_count)`. */
  function RandomOtp(digitCount: nat, draw: nat): string {
    ZFill(Decimal(draw), digitCount)
  }

  /** `generate_otp` of either generator. */
  function GenerateOtp(g: OtpGenerator, digitCount: nat, draw: nat): string {
    match g
    case AllZeroGenerator => AllZeroOtp(digitCount)
    case RandomGenerator => RandomOtp(digitCount, draw)
  }

  /** The all-zero generator returns exactly `digitCount` zeros. */
  lemma AllZeroOtpShape(digitCount: nat)
    ensures |AllZeroOtp(digitCount)| == digitCount
    ensures forall i :: 0 <= i < digitCount ==> AllZeroOtp(digitCount)[i] == '0'
  {
  }

  /** For `d >= 1` and a draw below `10^d`, the random code has exactly `d`
      decimal digits and its decimal value is the draw (left zero padding). */
  lemma RandomOtpShape(digitCount: nat, draw: nat)
    requires digitCount >= 1 && draw < Pow10(digitCount)
    ensures |RandomOtp(digitCount, draw)| == digitCount
    ensures AllDigits(RandomOtp(digitCount, draw))
    ensures DecimalValue(RandomOtp(digitCount, draw)) == draw
  {
    var s := Decimal(draw);
    DecimalLength(draw, digitCount);
    DecimalRoundTrip(draw);
    LeadingZerosValue(digitCount - |s|, s);
  }

  /** Padding is on the left only: the printed draw is a suffix of the code,
      and a draw that already has `d` digits is returned unchanged. */
  lemma RandomOtpPadsLeft(digitCount: nat, draw: nat)
    ensures EndsWith(RandomOtp(digitCount, draw), Decimal(draw))
    ensures |Decimal(draw)| >= digitCount ==> RandomOtp(digitCount, draw) == Decimal(draw)
    ensures forall i :: 0 <= i < |RandomOtp(digitCount, draw)| - |Decimal(draw)| ==>
              RandomOtp(digitCount, draw)[i] == '0'
  {
    var s := Decimal(draw);
    var r := RandomOtp(digitCount, draw);
    if |s| < digitCount {
      assert r == Repeat('0', digitCount - |s|) + s;
      assert r[|r| - |s|..] == s;
    } else {
      assert r[|r| - |s|..] == s;
    }
  }

  /** With zero digits (allowed by the positive-integer setting, which admits 0)
      the two generators disagree: all-zero gives "" and random gives "0". */
  lemma ZeroDigitCountEdgeCase()
    ensures AllZeroOtp(0) == ""
    ensures forall draw: nat :: draw < Pow10(0) ==> RandomOtp(0, draw) == "0"
  {
    forall draw: nat | draw < Pow10(0) ensures RandomOtp(0, draw) == "0" {
      assert draw == 0;
      assert Decimal(0) == "0";
    }
  }
}
