/**
 The command-line parser: each argument is read in turn and updates the
 parameter record. A keyword found anywhere in the argument wins; otherwise
 an argument of the form `-<letter><rest>` sets a numeric count, the thread
 count or the orientation; anything else is ignored.
 */
module Parser {
  import opened Wrappers
  import opened Cube
  import opened Settings
  import opened Keywords

  /**
   One command-line argument: its text, and the integer the numeric decoder
   reads from the text after the option letter (only used by the numeric
   options). The text holds the argument's BYTES, one `char` per byte (every
   `char` below 256), as the program's lengths and indices count bytes: a
   UTF-8 `-oé` is the four chars `-`, `o`, 0xC3, 0xA9, so its orientation
   text has two letters and, 0xC3 not being a face, selects `ALL`.
   */
  datatype Arg = Arg(text: string, value: Int32)

  /**
   A signed value stored into a 32-bit unsigned field: two's complement,
   so the stored value is congruent to `v` modulo 2^32.
   */
  function ToUint32(v: Int32): (u: nat)
    ensures u < UintRange
    ensures u % UintRange == v % UintRange
    ensures v >= 0 ==> u == v
  {
    if v >= 0 then v else v + UintRange
  }

  /**
   An unsigned count: the value is stored unsigned, then raised to `lo` or
   lowered to `hi`. A negative value wraps to a huge count and so ends at
   `hi`.
   */
  function ClampUnsigned(v: Int32, lo: nat, hi: nat): (n: nat)
    requires 0 < lo <= hi < 0x8000_0000
    ensures lo <= n <= hi
    ensures lo <= v <= hi ==> n == v
    ensures 0 <= v < lo ==> n == lo
    ensures v < 0 || hi < v ==> n == hi
  {
    var u := ToUint32(v);
    if u < lo then lo else if u > hi then hi else u
  }

  /** The signed thread count, kept in -1 .. 128. */
  function ClampThreads(v: Int32): (n: int)
    ensures -1 <= n <= 128
    ensures -1 <= v <= 128 ==> n == v
    ensures v < -1 ==> n == -1
    ensures 128 < v ==> n == 128
  {
    if v < -1 then -1 else if v > 128 then 128 else v
  }

  /**
   The `-o` option: one letter names a layer up (other letters change
   nothing); two or more letters name the orientation whose two-letter name
   they start with, fall back to the first letter's layer when that name is
   not listed, and select every orientation when the first letter is not a
   face.
   */
  function ParseOrientation(sub: string, current: Orientation): (r: Orientation)
    ensures |sub| == 0 ==> r == current
    ensures |sub| == 1 && LayerOfLetter(sub[0]).Some? ==> r == Whole(LayerOfLetter(sub[0]).value)
    ensures |sub| == 1 && LayerOfLetter(sub[0]).None? ==> r == current
    ensures |sub| >= 2 && LayerOfLetter(sub[0]).None? ==> r == ALL
  {
    if |sub| < 1 then current
    else if |sub| < 2 then
      match sub[0]
      case 'U' => Ux
      case 'D' => Dx
      case 'F' => Fx
      case 'B' => Bx
      case 'R' => Rx
      case 'L' => Lx
      case _ => current
    else
      match sub[0]
      case 'U' =>
        (match sub[1]
         case 'F' => UF
         case 'B' => UB
         case 'R' => UR
         case 'L' => UL
         case 'D' => UD
         case _ => Ux)
      case 'D' =>
        (match sub[1]
         case 'F' => DF
         case 'B' => DB
         case 'R' => DR
         case 'L' => DL
         case _ => Dx)
      case 'F' =>
        (match sub[1]
         case 'U' => FU
         case 'D' => FD
         case 'R' => FR
         case 'L' => FL
         case 'B' => FB
         case _ => Fx)
      case 'B' =>
        (match sub[1]
         case 'U' => BU
         case 'D' => BD
         case 'R' => BR
         case 'L' => BL
         case _ => Bx)
      case 'R' =>
        (match sub[1]
         case 'U' => RU
         case 'D' => RD
         case 'F' => RF
         case 'B' => RB
         case 'L' => RL
         case _ => Rx)
      case 'L' =>
        (match sub[1]
         case 'U' => LU
         case 'D' => LD
         case 'F' => LF
         case 'B' => LB
         case _ => Lx)
      case _ => ALL
  }

  /** `sub` begins with the two-letter name of `o`. */
  predicate BeginsWithName(sub: string, o: Orientation)
  {
    |sub| >= 2 && o != ALL && sub[0] == Name(o)[0] && sub[1] == Name(o)[1]
  }

  /**
   Two letters that spell a listed orientation's name select it, whatever
   follows them.
   */
  lemma ParseOrientationByName(sub: string, current: Orientation, o: Orientation)
    requires BeginsWithName(sub, o)
    ensures ParseOrientation(sub, current) == o
  {
  }

  /**
   With two or more letters starting with a face, the result is either the
   orientation the two letters name or that face's layer up.
   */
  lemma ParseOrientationNamedOrLayer(sub: string, current: Orientation)
    requires |sub| >= 2 && LayerOfLetter(sub[0]).Some?
    ensures ParseOrientation(sub, current) == Whole(LayerOfLetter(sub[0]).value)
            || BeginsWithName(sub, ParseOrientation(sub, current))
  {
  }

  /**
   Two letters that spell no listed name fall back to the first letter's
   layer, or to every orientation when it is not a face.
   */
  lemma ParseOrientationUnlisted(sub: string, current: Orientation)
    requires |sub| >= 2 && forall o :: !BeginsWithName(sub, o)
    ensures LayerOfLetter(sub[0]).Some? ==>
              ParseOrientation(sub, current) == Whole(LayerOfLetter(sub[0]).value)
    ensures LayerOfLetter(sub[0]).None? ==> ParseOrientation(sub, current) == ALL
  {
    if LayerOfLetter(sub[0]).Some? {
      ParseOrientationNamedOrLayer(sub, current);
    }
  }

  /** A keyword's effect: it sets one field. */
  function Perform(p: Params, act: Action): (r: Params)
    ensures Valid(p) ==> Valid(r)
  {
    match act
    case SetMethod(m) => p.(solvingMethod := m)
    case SetCollection(c) => p.(collection := c)
    case SetMetric(metric) => p.(metric := metric)
    case EnableBest => p.(best := true)
    case EnableRegrip => p.(regrip := true)
    case EnableCancellations => p.(cancellations := true)
    case EnableOneLookL6E => p.(oneLookL6E := true)
    case EnableTimes => p.(times := true)
    case EnableDebug => p.(debug := true)
  }

  /** An option `-<letter><sub>`, whose numeric payload is `v`. */
  function ParseOption(p: Params, letter: char, sub: string, v: Int32): (r: Params)
    ensures Valid(p) ==> Valid(r)
  {
    match letter
    case 'n' | 'N' => p.(numSolves := ClampUnsigned(v, 1, 10000))
    case 'l' | 'L' => p.(lengthScramble := ClampUnsigned(v, 4, 100))
    case 'i' | 'I' => p.(numInspections := ClampUnsigned(v, 1, 100))
    case 't' | 'T' => p.(threads := ClampThreads(v))
    case 'd' | 'D' => p.(depth1 := ClampUnsigned(v, 4, 10))
    case 's' | 'S' => p.(depth2 := ClampUnsigned(v, 4, 15))
    case 'o' | 'O' => p.(orientation := ParseOrientation(sub, p.orientation))
    case _ => p
  }

  /**
   One argument: a keyword if one occurs in it; otherwise, when it is
   longer than two characters and starts with '-', an option; otherwise it
   is ignored. Every numeric field stays in range.
   */
  function ParseArg(p: Params, a: Arg): (r: Params)
    ensures Valid(p) ==> Valid(r)
  {
    match MatchKeyword(a.text)
    case Some(act) => Perform(p, act)
    case None =>
      if |a.text| <= 2 || a.text[0] != '-' then p
      else ParseOption(p, a.text[1], a.text[2..], a.value)
  }

  /** The arguments read left to right, each updating the record in turn. */
  function ParseAll(p: Params, args: seq<Arg>): (r: Params)
    ensures Valid(p) ==> Valid(r)
    decreases |args|
  {
    if |args| == 0 then p
    else ParseAll(ParseArg(p, args[0]), args[1..])
  }

  /**
   The whole command line: `argv[0]` (the program name) is skipped and the
   rest are read from the defaults.
   */
  function ProcessParameters(argv: seq<Arg>): (r: Params)
    ensures Valid(r)
    ensures |argv| <= 1 ==> r == Defaults
  {
    DefaultsValid();
    if |argv| == 0 then Defaults else ParseAll(Defaults, argv[1..])
  }
}
