/**
 * The colour classifier: an RGB triple is named one of eight colours by
 * its YIQ brightness and the order of its channels.
 *
 * Dark colours are black.  Bright colours are the primary that strictly
 * dominates, or white.  In the middle band a primary must also outweigh
 * the other two channels together; failing that, a colour whose weakest
 * channel is strictly below both others is named after the two strong
 * channels (red and green make yellow, green and blue cyan, red and blue
 * magenta), and anything else is white.
 */
module Colors {

  datatype Color = Black | White | Red | Green | Blue | Yellow | Cyan | Magenta

  /** The YIQ brightness `(299 red + 587 green + 114 blue) / 1000`. */
  function Brightness(red: int, green: int, blue: int): (b: real)
    ensures 0 <= red <= 255 && 0 <= green <= 255 && 0 <= blue <= 255 ==> 0.0 <= b <= 255.0
    ensures red <= green && red <= blue ==> b >= red as real
    ensures green <= red && green <= blue ==> b >= green as real
    ensures blue <= red && blue <= green ==> b >= blue as real
  {
    (red * 299 + green * 587 + blue * 114) as real / 1000.0
  }

  /** When a primary wins: strictly the largest channel and, outside the bright band, larger than the other two together. */
  predicate RedWins(red: int, green: int, blue: int, bright: bool) {
    red > green && red > blue && (bright || green + blue < red)
  }

  predicate GreenWins(red: int, green: int, blue: int, bright: bool) {
    green > red && green > blue && (bright || red + blue < green)
  }

  predicate BlueWins(red: int, green: int, blue: int, bright: bool) {
    blue > red && blue > green && (bright || red + green < blue)
  }

  /**
   * `getColorName` as the source writes it.  Its middle band names a colour
   * whose weakest channel is green "yellow", and one whose weakest channel
   * is blue "magenta": the two secondary names are exchanged.
   */
  function GetColorNameAsWritten(red: int, green: int, blue: int): (c: Color)
    ensures Brightness(red, green, blue) < 128.0 <==> c == Black
    ensures c == Red ==> red > green && red > blue
    ensures c == Green ==> green > red && green > blue
    ensures c == Blue ==> blue > red && blue > green
    ensures c == Yellow ==> red > green && blue > green
    ensures c == Magenta ==> red > blue && green > blue
  {
    var b := Brightness(red, green, blue);
    if b < 128.0 then Black
    else if b > 192.0 then
      if red > green && red > blue then Red
      else if green > red && green > blue then Green
      else if blue > red && blue > green then Blue
      else White
    else
      if red > green && red > blue && green + blue < red then Red
      else if green > red && green > blue && red + blue < green then Green
      else if blue > red && blue > green && red + green < blue then Blue
      else if red > green && blue > green then Yellow
      else if green > red && blue > red then Cyan
      else if red > blue && green > blue then Magenta
      else White
  }

  /** The classifier with the two secondary names where the channel order puts them. */
  function GetColorName(red: int, green: int, blue: int): (c: Color)
    ensures Brightness(red, green, blue) < 128.0 <==> c == Black
    ensures c == Red ==> red > green && red > blue
    ensures c == Green ==> green > red && green > blue
    ensures c == Blue ==> blue > red && blue > green
  {
    var b := Brightness(red, green, blue);
    if b < 128.0 then Black
    else if b > 192.0 then
      if red > green && red > blue then Red
      else if green > red && green > blue then Green
      else if blue > red && blue > green then Blue
      else White
    else
      if red > green && red > blue && green + blue < red then Red
      else if green > red && green > blue && red + blue < green then Green
      else if blue > red && blue > green && red + green < blue then Blue
      else if red > green && blue > green then Magenta
      else if green > red && blue > red then Cyan
      else if red > blue && green > blue then Yellow
      else White
  }

  /** Exchanging the names yellow and magenta. */
  function SwapYellowMagenta(c: Color): Color {
    if c == Yellow then Magenta else if c == Magenta then Yellow else c
  }

  /**
   * The two classifiers differ only by the exchange of yellow and magenta,
   * on every input.
   */
  lemma AsWrittenSwapsSecondaries(red: int, green: int, blue: int)
    ensures GetColorNameAsWritten(red, green, blue) == SwapYellowMagenta(GetColorName(red, green, blue))
  {
  }

  /**
   * A red-and-blue colour with weak green, (200, 100, 150), sits in the
   * middle band and is named yellow as written; it is magenta.
   */
  lemma MagentaNamedYellow()
    ensures Brightness(200, 100, 150) == 135.6
    ensures GetColorNameAsWritten(200, 100, 150) == Yellow
    ensures GetColorName(200, 100, 150) == Magenta
  {
  }

  /**
   * What each name means, both ways: black is exactly the dark colours; a
   * primary is named exactly when it wins its test (above 192 strict
   * dominance suffices, in the middle band it must also outweigh the other
   * two); failing every primary in the middle band, a secondary is named
   * exactly when the one channel it lacks is strictly the weakest; white is
   * everything else.
   */
  lemma ColorNameMeaning(red: int, green: int, blue: int)
    ensures var b := Brightness(red, green, blue);
      var bright := b > 192.0;
      var c := GetColorName(red, green, blue);
      var noPrimary := !RedWins(red, green, blue, bright) && !GreenWins(red, green, blue, bright)
        && !BlueWins(red, green, blue, bright);
      && (c == Black <==> b < 128.0)
      && (c == Red <==> b >= 128.0 && RedWins(red, green, blue, bright))
      && (c == Green <==> b >= 128.0 && GreenWins(red, green, blue, bright))
      && (c == Blue <==> b >= 128.0 && BlueWins(red, green, blue, bright))
      && (c == Yellow <==> 128.0 <= b <= 192.0 && noPrimary && blue < red && blue < green)
      && (c == Cyan <==> 128.0 <= b <= 192.0 && noPrimary && red < green && red < blue)
      && (c == Magenta <==> 128.0 <= b <= 192.0 && noPrimary && green < red && green < blue)
      && (c == White <==> b >= 128.0 && noPrimary && (b > 192.0 || !OneWeakest(red, green, blue)))
  {
  }

  /** Some channel is strictly below both others. */
  predicate OneWeakest(red: int, green: int, blue: int) {
    (blue < red && blue < green) || (red < green && red < blue) || (green < red && green < blue)
  }

  /** A named secondary always names the two strongest channels. */
  lemma SecondaryNamesStrongChannels(red: int, green: int, blue: int)
    ensures GetColorName(red, green, blue) == Yellow ==> red > blue && green > blue
    ensures GetColorName(red, green, blue) == Cyan ==> green > red && blue > red
    ensures GetColorName(red, green, blue) == Magenta ==> red > green && blue > green
  {
  }

  /** A bright colour with no strictly largest channel is white: secondaries are only named in the middle band. */
  lemma BrightTieIsWhite(red: int, green: int, blue: int)
    requires Brightness(red, green, blue) > 192.0
    requires !(red > green && red > blue) && !(green > red && green > blue) && !(blue > red && blue > green)
    ensures GetColorName(red, green, blue) == White
  {
  }

  /** A grey is black below brightness 128 and white from there on. */
  lemma {:induction false} GreyIsBlackOrWhite(v: int)
    ensures Brightness(v, v, v) == v as real
    ensures GetColorName(v, v, v) == if v < 128 then Black else White
  {
    assert v * 299 + v * 587 + v * 114 == v * 1000;
  }

  /** Raising every channel by the same amount never turns a bright primary into another primary. */
  lemma BrightPrimaryStable(red: int, green: int, blue: int, k: nat)
    requires Brightness(red, green, blue) > 192.0
    requires GetColorName(red, green, blue) in {Red, Green, Blue}
    ensures GetColorName(red + k, green + k, blue + k) == GetColorName(red, green, blue)
  {
    assert Brightness(red + k, green + k, blue + k) == Brightness(red, green, blue) + k as real;
  }
}
