/**
 * The deployment groups of a blue-green cluster (color.go).
 * Go's Color is an int enum (Blue = 0, Green = 1) with the sentinel Unknown = -1.
 */
module Colors {

  datatype Color = Blue | Green | Unknown

  /** The groups that carry real data, in the order every loop over them uses. */
  const ValidColors: seq<Color> := [Blue, Green]

  /** The complement group; anything that is not a valid colour has no complement. */
  function Other(c: Color): (o: Color)
    ensures c == Blue <==> o == Green
    ensures c == Green <==> o == Blue
    ensures c !in ValidColors <==> o == Unknown
  {
    match c
    case Green => Blue
    case Blue => Green
    case Unknown => Unknown
  }

  /** Lower-case enum name, as the generated String/MarshalText give it. */
  function Name(c: Color): string
  {
    match c
    case Blue => "blue"
    case Green => "green"
    case Unknown => "Color(-1)"
  }

  /** unicode.ToUpper on the ASCII letters; every other character is kept. */
  function Upper(ch: char): char
  {
    if 'a' <= ch <= 'z' then ((ch as int) - 32) as char else ch
  }

  /**
   * strings.Title of the enum name, as used in the terraform variable names:
   * the first letter upper-cased, the rest of the name unchanged.
   */
  function Title(c: Color): (t: string)
    requires c in ValidColors
    ensures |t| == |Name(c)| >= 1
    ensures t[0] == Upper(Name(c)[0]) && t[1..] == Name(c)[1..]
  {
    match c
    case Blue => "Blue"
    case Green => "Green"
  }

  lemma {:induction false} OtherIsInvolution(c: Color)
    requires c in ValidColors
    ensures Other(c) in ValidColors && Other(c) != c
    ensures Other(Other(c)) == c
  {
  }

  lemma {:induction false} ValidColorsAreBlueThenGreen()
    ensures |ValidColors| == 2 && ValidColors[0] == Blue && ValidColors[1] == Green
    ensures Unknown !in ValidColors
    ensures forall c: Color :: c in ValidColors <==> c != Unknown
  {
  }
}
