/**
 * VPVM's Util: conversions between the Qt value types the user interface works with
 * (QString, QVector3D, QColor, QQuaternion) and the vpvl2 / ICU value types the engine
 * works with (IString, UnicodeString, Vector3, Quaternion).
 *
 * Floating-point components are modelled as reals.  QColor keeps its channels as 16-bit
 * integers, so the colour conversions are modelled with that quantisation.
 */
module Util {
  import opened Common

  // ---------------------------------------------------------------- strings

  /** A QString: its UTF-16 code units.  QString's operator== ignores null-ness, and so does this model. */
  type QString = seq<u16>

  /** An ICU UnicodeString: its UTF-16 code units. */
  datatype UnicodeString = UnicodeString(units: seq<u16>)

  /** vpvl2's IString as implemented by icu4c::String, which wraps a UnicodeString. */
  datatype IString = IString(value: UnicodeString)

  /** U+FEFF, the byte-order mark, and U+FFFE, the byte-order mark read in the other byte order. */
  const ByteOrderMark: u16 := 0xFEFF
  const ByteOrderSwapped: u16 := 0xFFFE

  /** A code unit with its two bytes exchanged. */
  function SwapBytes(unit: u16): (r: u16)
    ensures r as int == (unit as int % 0x100) * 0x100 + unit as int / 0x100
  {
    ((unit as int % 0x100) * 0x100 + unit as int / 0x100) as u16
  }

  /** Every code unit with its bytes exchanged. */
  function SwapAll(units: seq<u16>): (r: seq<u16>)
    ensures |r| == |units|
    ensures forall i :: 0 <= i < |units| ==> r[i] == SwapBytes(units[i])
  {
    seq(|units|, i requires 0 <= i < |units| => SwapBytes(units[i]))
  }

  /** Exchanging the bytes twice gives the units back. */
  lemma SwapAllTwice(units: seq<u16>)
    ensures SwapAll(SwapAll(units)) == units
  {
    forall i | 0 <= i < |units| ensures SwapBytes(SwapBytes(units[i])) == units[i] {
      var u := units[i] as int;
      var lo, hi := u % 0x100, u / 0x100;
      assert u == hi * 0x100 + lo;
      var v := lo * 0x100 + hi;
      assert v % 0x100 == hi && v / 0x100 == lo;
    }
  }

  /** Whether the units start with a byte-order mark in either byte order. */
  predicate StartsWithMark(units: seq<u16>)
    ensures StartsWithMark(units) ==> |units| > 0 && (SwapBytes(units[0]) == ByteOrderMark || SwapBytes(units[0]) == ByteOrderSwapped)
  {
    |units| > 0 && (units[0] == ByteOrderMark || units[0] == ByteOrderSwapped)
  }

  /**
   * Util::toQString(const UnicodeString &): QString::fromUtf16 over the buffer and its
   * length.  fromUtf16 decodes UTF-16 with the byte order detected from the first unit: a
   * leading U+FEFF is dropped; a leading U+FFFE is dropped and says the remaining units
   * are in the other byte order; any other first unit is kept and so is the host order.
   */
  function ToQStringFromUnicode(value: UnicodeString): (r: QString)
    ensures !StartsWithMark(value.units) ==> |r| == |value.units| && forall i :: 0 <= i < |r| ==> r[i] == value.units[i]
    ensures StartsWithMark(value.units) ==> |r| == |value.units| - 1
    ensures StartsWithMark(value.units) && value.units[0] == ByteOrderMark ==>
      forall i :: 0 <= i < |r| ==> r[i] == value.units[i + 1]
    ensures StartsWithMark(value.units) && value.units[0] == ByteOrderSwapped ==>
      forall i :: 0 <= i < |r| ==> r[i] == SwapBytes(value.units[i + 1])
  {
    var units := value.units;
    if |units| > 0 && units[0] == ByteOrderMark then units[1..]
    else if |units| > 0 && units[0] == ByteOrderSwapped then SwapAll(units[1..])
    else units
  }

  /** Util::fromQString: a UnicodeString over the QString's utf16() buffer and size(). */
  function FromQString(value: QString): (r: UnicodeString)
    ensures |r.units| == |value|
    ensures forall i :: 0 <= i < |value| ==> r.units[i] == value[i]
  {
    UnicodeString(value)
  }

  /** Util::toQString(const IString *): a null string pointer gives the empty QString. */
  function ToQString(value: Option<IString>): (r: QString)
    ensures value.None? ==> r == []
    ensures value.Some? ==> r == ToQStringFromUnicode(value.value.value)
  {
    match value
    case None => []
    case Some(s) => ToQStringFromUnicode(s.value)
  }

  /** Util::equalsString: compares a QString with the QString form of an IString. */
  function EqualsString(lhs: QString, rhs: Option<IString>): (r: bool)
    ensures rhs.None? ==> (r <==> lhs == [])
    ensures rhs.Some? && !StartsWithMark(rhs.value.value.units) ==> (r <==> lhs == rhs.value.value.units)
    ensures rhs.Some? && StartsWithMark(rhs.value.value.units) && rhs.value.value.units[0] == ByteOrderMark ==>
      (r <==> lhs == rhs.value.value.units[1..])
    ensures rhs.Some? && StartsWithMark(rhs.value.value.units) && rhs.value.value.units[0] == ByteOrderSwapped ==>
      (r <==> lhs == SwapAll(rhs.value.value.units[1..]))
  {
    lhs == ToQString(rhs)
  }

  /** A UnicodeString that does not start with a byte-order mark survives toQString followed by fromQString. */
  lemma UnicodeRoundTrip(value: UnicodeString)
    requires !StartsWithMark(value.units)
    ensures FromQString(ToQStringFromUnicode(value)) == value
  {
  }

  /**
   * A UnicodeString that starts with a byte-order mark loses it on the way through QString:
   * after U+FEFF the rest comes back as it was, after U+FFFE it comes back byte-swapped,
   * and swapping it again restores it.
   */
  lemma MarkedUnicodeRoundTrip(value: UnicodeString)
    requires StartsWithMark(value.units)
    ensures value.units[0] == ByteOrderMark ==> FromQString(ToQStringFromUnicode(value)).units == value.units[1..]
    ensures value.units[0] == ByteOrderSwapped ==> SwapAll(FromQString(ToQStringFromUnicode(value)).units) == value.units[1..]
  {
    if value.units[0] == ByteOrderSwapped {
      SwapAllTwice(value.units[1..]);
    }
  }

  /** A QString that does not start with a byte-order mark survives fromQString followed by toQString. */
  lemma QStringRoundTrip(value: QString)
    requires !StartsWithMark(value)
    ensures ToQStringFromUnicode(FromQString(value)) == value
  {
  }

  /** A QString without a leading byte-order mark equals the QString form of the IString built from it, and only that QString does. */
  lemma EqualsStringOfConverted(lhs: QString, text: QString)
    requires !StartsWithMark(text)
    ensures EqualsString(lhs, Some(IString(FromQString(text)))) <==> lhs == text
  {
  }

  /** A leading U+FEFF is invisible to equalsString: a text equals the IString of the same text behind a mark. */
  lemma EqualsStringIgnoresLeadingMark(text: QString)
    ensures EqualsString(text, Some(IString(UnicodeString([ByteOrderMark] + text))))
  {
    assert ([ByteOrderMark] + text)[1..] == text;
  }

  // ---------------------------------------------------------------- vectors

  /** Qt's QVector3D. */
  datatype QVector3D = QVector3D(x: real, y: real, z: real)

  /** vpvl2's Vector3 (btVector3). */
  datatype Vector3 = Vector3(x: real, y: real, z: real)

  /** Util::toVector3: copies x, y and z in that order. */
  function ToVector3(value: QVector3D): (r: Vector3)
    ensures r.x == value.x && r.y == value.y && r.z == value.z
  {
    Vector3(value.x, value.y, value.z)
  }

  /** Util::fromVector3: copies x, y and z in that order; it undoes ToVector3. */
  function FromVector3(value: Vector3): (r: QVector3D)
    ensures r.x == value.x && r.y == value.y && r.z == value.z
    ensures ToVector3(r) == value
  {
    QVector3D(value.x, value.y, value.z)
  }

  lemma VectorRoundTrip(value: QVector3D)
    ensures FromVector3(ToVector3(value)) == value
  {
  }

  // ---------------------------------------------------------------- quaternions

  /** Qt's QQuaternion: a scalar part and a vector part (x, y, z). */
  datatype QQuaternion = QQuaternion(scalar: real, x: real, y: real, z: real)

  /** vpvl2's Quaternion (btQuaternion) with components x, y, z, w. */
  datatype Quaternion = Quaternion(x: real, y: real, z: real, w: real)

  /** Util::toQuaternion: the vector part goes to x, y, z and the scalar part to w. */
  function ToQuaternion(value: QQuaternion): (r: Quaternion)
    ensures r.x == value.x && r.y == value.y && r.z == value.z && r.w == value.scalar
  {
    Quaternion(value.x, value.y, value.z, value.scalar)
  }

  /** Util::fromQuaternion: w goes back to the scalar part; it undoes ToQuaternion. */
  function FromQuaternion(value: Quaternion): (r: QQuaternion)
    ensures r.scalar == value.w && r.x == value.x && r.y == value.y && r.z == value.z
    ensures ToQuaternion(r) == value
  {
    QQuaternion(value.w, value.x, value.y, value.z)
  }

  lemma QuaternionRoundTrip(value: QQuaternion)
    ensures FromQuaternion(ToQuaternion(value)) == value
  {
  }

  // ---------------------------------------------------------------- colours

  /** The largest value of one of QColor's 16-bit channels (USHRT_MAX). */
  const ChannelMax: nat := 65535

  /**
   * A QColor as far as these conversions see it: an invalid colour, or an RGB colour whose
   * channels are 16-bit integers.
   */
  datatype QColor = Invalid | Rgb(red: nat, green: nat, blue: nat, alpha: nat)

  ghost predicate ChannelsInRange(c: QColor) {
    c.Rgb? ==> c.red <= ChannelMax && c.green <= ChannelMax && c.blue <= ChannelMax && c.alpha <= ChannelMax
  }

  /** QColor::redF and its siblings: the channel over 65535; an invalid colour reads as 0. */
  function ChannelF(channel: nat): (r: real)
    requires channel <= ChannelMax
    ensures 0.0 <= r <= 1.0
    ensures r * ChannelMax as real == channel as real
  {
    channel as real / ChannelMax as real
  }

  /** qRound for a non-negative argument: the nearest integer, halves rounding up. */
  function RoundNonNegative(x: real): (r: nat)
    requires x >= 0.0
    ensures r as real - 0.5 <= x < r as real + 0.5
  {
    (x + 0.5).Floor
  }

  /** A component that QColor::fromRgbF accepts. */
  predicate InUnitRange(x: real) {
    0.0 <= x <= 1.0
  }

  /** QColor::fromRgbF(r, g, b) with the default alpha 1.0, as Qt 5 defines it. */
  function FromRgbF(r: real, g: real, b: real): (c: QColor)
    ensures ChannelsInRange(c)
    ensures c.Rgb? <==> InUnitRange(r) && InUnitRange(g) && InUnitRange(b)
    ensures c.Rgb? ==> c.alpha == ChannelMax
  {
    if InUnitRange(r) && InUnitRange(g) && InUnitRange(b) then
      Rgb(RoundNonNegative(r * ChannelMax as real), RoundNonNegative(g * ChannelMax as real),
          RoundNonNegative(b * ChannelMax as real), ChannelMax)
    else
      Invalid
  }

  /** Util::toColor: red, green and blue (as fractions) go to x, y and z in that order. */
  function ToColor(value: QColor): (r: Vector3)
    requires ChannelsInRange(value)
    ensures value.Invalid? ==> r == Vector3(0.0, 0.0, 0.0)
    ensures value.Rgb? ==> r == Vector3(ChannelF(value.red), ChannelF(value.green), ChannelF(value.blue))
  {
    match value
    case Invalid => Vector3(0.0, 0.0, 0.0)
    case Rgb(red, green, blue, _) => Vector3(ChannelF(red), ChannelF(green), ChannelF(blue))
  }

  /** Util::fromColor: x, y and z become red, green and blue in that order. */
  function FromColor(value: Vector3): (r: QColor)
    ensures ChannelsInRange(r)
    ensures r.Rgb? <==> InUnitRange(value.x) && InUnitRange(value.y) && InUnitRange(value.z)
  {
    FromRgbF(value.x, value.y, value.z)
  }

  /** Rounding a channel read back as a fraction gives the channel again. */
  lemma {:induction false} ChannelRoundTrip(channel: nat)
    requires channel <= ChannelMax
    ensures RoundNonNegative(ChannelF(channel) * ChannelMax as real) == channel
  {
    var f := ChannelF(channel);
    assert f * ChannelMax as real == channel as real;
  }

  /** An opaque valid colour survives toColor followed by fromColor. */
  lemma {:induction false} ColorRoundTrip(value: QColor)
    requires value.Rgb? && ChannelsInRange(value) && value.alpha == ChannelMax
    ensures FromColor(ToColor(value)) == value
  {
    ChannelRoundTrip(value.red);
    ChannelRoundTrip(value.green);
    ChannelRoundTrip(value.blue);
  }

  /** One component after fromRgbF and redF lies within half a 16-bit step of the original. */
  lemma {:induction false} ChannelQuantisation(x: real)
    requires InUnitRange(x)
    ensures RoundNonNegative(x * ChannelMax as real) <= ChannelMax
    ensures -0.5 < ChannelF(RoundNonNegative(x * ChannelMax as real)) * ChannelMax as real - x * ChannelMax as real <= 0.5
  {
    var n := RoundNonNegative(x * ChannelMax as real);
    assert x * ChannelMax as real <= ChannelMax as real;
    assert n as real - 0.5 <= ChannelMax as real;
  }

  /** A vector whose components lie in [0, 1] comes back from fromColor and toColor within half a step per component. */
  lemma {:induction false} VectorThroughColor(value: Vector3)
    requires InUnitRange(value.x) && InUnitRange(value.y) && InUnitRange(value.z)
    ensures var back := ToColor(FromColor(value));
      && -0.5 < (back.x - value.x) * ChannelMax as real <= 0.5
      && -0.5 < (back.y - value.y) * ChannelMax as real <= 0.5
      && -0.5 < (back.z - value.z) * ChannelMax as real <= 0.5
  {
    ChannelQuantisation(value.x);
    ChannelQuantisation(value.y);
    ChannelQuantisation(value.z);
  }
}
