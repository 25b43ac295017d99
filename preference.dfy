/**
 * VPVM's Preference: typed getters and setters over the application's QSettings store.
 * Each getter reads one key and falls back to a default when the key is absent; each
 * setter writes its key only when the new value differs from what the getter returns.
 *
 * QSettings is modelled as a map from key to QVariant; the primary screen's available
 * size and the platform the program was built for are parameters.
 */
module Preferences {
  import opened Common

  /** A QRect, by its top-left corner and its size. */
  datatype Rect = Rect(x: int, y: int, width: int, height: int)

  /** A QSize. */
  datatype Size = Size(width: int, height: int)

  /**
   * A QVariant in the store.  A value set in this session keeps its type; a value read back
   * from the INI file is text, except a rectangle, which the file keeps as @Rect(...) and
   * QSettings turns back into a QRect.  A number is converted to text and text to a number
   * as QVariant does; any other conversion gives the null value of the requested type.
   */
  datatype Variant = IntValue(i: int) | RectValue(r: Rect) | StringValue(s: string) | OtherValue

  /** The platform the getters were compiled for (Q_OS_MACX, Q_OS_WIN32 or another). */
  datatype Platform = MacOSX | Windows32 | OtherPlatform

  /** The null QRect, QRect(): origin (0, 0) and an empty size. */
  const NullRect := Rect(0, 0, 0, 0)

  // ---------------------------------------------------------------- numbers as text

  const MinInt := -0x8000_0000
  const MaxInt := 0x7FFF_FFFF
  const MinLongLong := -0x8000_0000_0000_0000
  const MaxLongLong := 0x7FFF_FFFF_FFFF_FFFF

  /** The white space QString's number parsing skips at either end (QChar::isSpace below U+0100). */
  predicate IsSpace(c: char)
    ensures IsSpace(c) ==> c as int < 0x100 && !IsDigit(c) && c != '-' && c != '+'
  {
    c == ' ' || c == '\t' || c == '\n' || c == '\U{000B}' || c == '\U{000C}' || c == '\r' || c == '\U{0085}' || c == '\U{00A0}'
  }

  /** The text without its leading white space. */
  function TrimStart(s: string): (r: string)
    ensures |r| <= |s| && r == s[|s| - |r|..]
    ensures r == [] || !IsSpace(r[0])
    ensures forall i :: 0 <= i < |s| - |r| ==> IsSpace(s[i])
  {
    if s != [] && IsSpace(s[0]) then TrimStart(s[1..]) else s
  }

  /** The text without its trailing white space. */
  function TrimEnd(s: string): (r: string)
    ensures |r| <= |s| && r == s[..|r|]
    ensures r == [] || !IsSpace(r[|r| - 1])
    ensures forall i :: |r| <= i < |s| ==> IsSpace(s[i])
  {
    if s != [] && IsSpace(s[|s| - 1]) then TrimEnd(s[..|s| - 1]) else s
  }

  /**
   * QString::toLongLong in base 10: white space around an optional sign and one or more
   * decimal digits; None (ok false) for anything else or a value outside 64 bits.
   */
  function ParseLongLong(s: string): (r: Option<int>)
    ensures r.Some? ==> MinLongLong <= r.value <= MaxLongLong
  {
    var t := TrimEnd(TrimStart(s));
    var digits := if t != [] && (t[0] == '-' || t[0] == '+') then t[1..] else t;
    if digits == [] || !AllDigits(digits) then None
    else
      var n: int := if t[0] == '-' then -(DigitsValue(digits) as int) else DigitsValue(digits);
      if MinLongLong <= n <= MaxLongLong then Some(n) else None
  }

  /** The cast of a 64-bit value to int: the low 32 bits, read as two's complement. */
  function ToInt32(n: int): (r: int)
    ensures MinInt <= r <= MaxInt
    ensures (r - n) % 0x1_0000_0000 == 0
    ensures MinInt <= n <= MaxInt ==> r == n
  {
    var m := n % 0x1_0000_0000;
    if m > MaxInt then m - 0x1_0000_0000 else m
  }

  /** QString::number(int): the decimal text, with a minus sign when negative. */
  function DecimalText(n: int): (r: string)
    ensures |r| >= 1 && (r[0] == '-' || IsDigit(r[0])) && IsDigit(r[|r| - 1])
    ensures r[0] == '-' <==> n < 0
    ensures n >= 0 ==> AllDigits(r) && DigitsValue(r) == n
    ensures n < 0 ==> AllDigits(r[1..]) && DigitsValue(r[1..]) == -n
  {
    if n < 0 then "-" + NatText(-n) else NatText(n)
  }

  /** QVariant::toInt: an int as it is; text parsed by toLongLong and cast to int; 0 otherwise. */
  function ToInt(v: Variant): (r: int)
    ensures v.IntValue? ==> r == v.i
    ensures v.StringValue? ==> MinInt <= r <= MaxInt
    ensures v.StringValue? && ParseLongLong(v.s).None? ==> r == 0
    ensures v.RectValue? || v.OtherValue? ==> r == 0
  {
    match v
    case IntValue(i) => i
    case StringValue(s) => (match ParseLongLong(s) case Some(n) => ToInt32(n) case None => 0)
    case _ => 0
  }

  /** QVariant::toRect */
  function ToRect(v: Variant): (r: Rect)
    ensures v.RectValue? ==> r == v.r
    ensures !v.RectValue? ==> r == NullRect
  {
    if v.RectValue? then v.r else NullRect
  }

  /** QVariant::toString: text as it is; an int as QString::number writes it; "" otherwise. */
  function ToString(v: Variant): (r: string)
    ensures v.StringValue? ==> r == v.s
    ensures v.IntValue? ==> |r| >= 1 && (r[0] == '-' <==> v.i < 0)
    ensures v.RectValue? || v.OtherValue? ==> r == ""
  {
    match v
    case StringValue(s) => s
    case IntValue(i) => DecimalText(i)
    case _ => ""
  }

  /** Text that starts and ends with something other than white space is its own trimmed form. */
  lemma TrimsNothing(t: string)
    requires |t| >= 1 && !IsSpace(t[0]) && !IsSpace(t[|t| - 1])
    ensures TrimEnd(TrimStart(t)) == t
  {
  }

  /** toLongLong reads back what QString::number writes, for every int. */
  lemma ParseDecimalText(n: int)
    requires MinInt <= n <= MaxInt
    ensures ParseLongLong(DecimalText(n)) == Some(n)
  {
    var t := DecimalText(n);
    TrimsNothing(t);
    var digits := if n < 0 then NatText(-n) else NatText(n);
    assert (if t[0] == '-' || t[0] == '+' then t[1..] else t) == digits;
    assert (if t[0] == '-' then -(DigitsValue(digits) as int) else DigitsValue(digits)) == n;
  }

  /** An int written to the INI file as its text reads back as the same int. */
  lemma IniIntRoundTrip(n: int)
    requires MinInt <= n <= MaxInt
    ensures ToInt(StringValue(ToString(IntValue(n)))) == n
  {
    ParseDecimalText(n);
  }

  /** Text with a character that is neither white space, a sign nor a digit holds no number. */
  lemma NonNumericTextHasNoNumber(s: string, k: nat)
    requires k < |s| && !IsSpace(s[k]) && !IsDigit(s[k]) && s[k] != '-' && s[k] != '+'
    ensures ParseLongLong(s) == None
  {
    var u := TrimStart(s);
    var t := TrimEnd(u);
    var off := |s| - |u|;
    if k < off {
      assert false;
    }
    assert u[k - off] == s[k];
    if k - off >= |t| {
      assert false;
    }
    var at := k - off;
    assert t[at] == s[k];
    var signed := t[0] == '-' || t[0] == '+';
    var digits := if signed then t[1..] else t;
    if signed {
      assert at >= 1 && digits[at - 1] == s[k];
    } else {
      assert digits[at] == s[k];
    }
    assert !AllDigits(digits);
  }

  /** Text with a character that is neither white space, a sign nor a digit converts to 0. */
  lemma NonNumericTextIsZero(s: string, k: nat)
    requires k < |s| && !IsSpace(s[k]) && !IsDigit(s[k]) && s[k] != '-' && s[k] != '+'
    ensures ToInt(StringValue(s)) == 0
  {
    NonNumericTextHasNoNumber(s, k);
  }

  /** The size of a new window: 960 by 620. */
  const DefaultWindowSize := Size(960, 620)

  /** The default number of multisampling samples. */
  const DefaultSamples := 4

  /**
   * QSize / qreal halves each dimension with qRound, and Qt 5's qRound rounds a half
   * towards positive infinity, for negative arguments too.
   */
  function HalfRounded(d: int): (r: int)
    ensures 0 <= 2 * r - d <= 1
  {
    (d + 1) / 2
  }

  /** The default rectangle: the default size, centred in the screen's available area. */
  function CentredWindowRect(available: Size): (r: Rect)
    ensures r.width == DefaultWindowSize.width && r.height == DefaultWindowSize.height
    // the margins left and right (above and below) differ by at most one pixel
    ensures 0 <= r.x - (available.width - (r.x + r.width)) <= 1
    ensures 0 <= r.y - (available.height - (r.y + r.height)) <= 1
  {
    Rect(HalfRounded(available.width - DefaultWindowSize.width),
         HalfRounded(available.height - DefaultWindowSize.height),
         DefaultWindowSize.width, DefaultWindowSize.height)
  }

  /** The font family used when "fontFamily" is absent. */
  function DefaultFontFamily(platform: Platform): (r: string)
    ensures platform == MacOSX ==> r == "Osaka"
    ensures platform == Windows32 ==> r == "Meiryo"
    ensures platform == OtherPlatform ==> r == ""
  {
    match platform
    case MacOSX => "Osaka"
    case Windows32 => "Meiryo"
    case OtherPlatform => ""
  }

  class Preference {
    const platform: Platform
    /** The QSettings store, key by key. */
    var settings: map<string, Variant>

    constructor (platform: Platform, settings: map<string, Variant>)
      ensures this.platform == platform && this.settings == settings
    {
      this.platform := platform;
      this.settings := settings;
    }

    /** Preference::windowRect: the stored rectangle, or the centred default when the key is absent. */
    function WindowRect(available: Size): (r: Rect)
      reads this
      ensures "windowRect" in settings ==> r == ToRect(settings["windowRect"])
      ensures "windowRect" !in settings ==> r == CentredWindowRect(available)
    {
      if "windowRect" in settings then ToRect(settings["windowRect"]) else CentredWindowRect(available)
    }

    /** Preference::setWindowRect: writes only when the value differs from windowRect(). */
    method SetWindowRect(value: Rect, available: Size)
      modifies this
      ensures WindowRect(available) == value
      ensures settings == if old(WindowRect(available)) == value then old(settings)
                          else old(settings)["windowRect" := RectValue(value)]
    {
      if value != WindowRect(available) {
        settings := settings["windowRect" := RectValue(value)];
      }
    }

    /** Preference::fontFamily: the stored family, or the platform's default when the key is absent. */
    function FontFamily(): (r: string)
      reads this
      ensures "fontFamily" in settings ==> r == ToString(settings["fontFamily"])
      ensures "fontFamily" !in settings ==> r == DefaultFontFamily(platform)
    {
      if "fontFamily" in settings then ToString(settings["fontFamily"]) else DefaultFontFamily(platform)
    }

    /** Preference::setFontFamily: writes only when the value differs from fontFamily(). */
    method SetFontFamily(value: string)
      modifies this
      ensures FontFamily() == value
      ensures settings == if old(FontFamily()) == value then old(settings)
                          else old(settings)["fontFamily" := StringValue(value)]
    {
      if value != FontFamily() {
        settings := settings["fontFamily" := StringValue(value)];
      }
    }

    /** Preference::samples: never negative; 4 when the key is absent. */
    function Samples(): (r: int)
      reads this
      ensures r >= 0
      ensures "samples" !in settings ==> r == DefaultSamples
      ensures "samples" in settings && ToInt(settings["samples"]) >= 0 ==> r == ToInt(settings["samples"])
      ensures "samples" in settings && ToInt(settings["samples"]) < 0 ==> r == 0
    {
      var stored := if "samples" in settings then ToInt(settings["samples"]) else DefaultSamples;
      if stored > 0 then stored else 0
    }

    /** Preference::setSamples: writes only when the value differs from samples(); a negative value reads back as 0. */
    method SetSamples(value: int)
      requires MinInt <= value <= MaxInt
      modifies this
      ensures Samples() == if value > 0 then value else 0
      ensures settings == if old(Samples()) == value then old(settings)
                          else old(settings)["samples" := IntValue(value)]
    {
      if value != Samples() {
        settings := settings["samples" := IntValue(value)];
      }
    }

    /** Preference::clear: empties the store, so every getter returns its default again. */
    method Clear(available: Size)
      modifies this
      ensures settings == map[]
      ensures WindowRect(available) == CentredWindowRect(available)
      ensures FontFamily() == DefaultFontFamily(platform)
      ensures Samples() == DefaultSamples
    {
      settings := map[];
    }
  }

  /**
   * samples() of a count read back from the INI file, where setSamples' int is stored as its
   * text: the count itself, so setSamples with the same count leaves the store alone.
   */
  lemma SamplesOfStoredText(p: Preference, n: int)
    requires 0 <= n <= MaxInt
    requires "samples" in p.settings && p.settings["samples"] == StringValue(DecimalText(n))
    ensures p.Samples() == n
  {
    ParseDecimalText(n);
  }
}
