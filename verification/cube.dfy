/**
 The vocabulary of cube faces and search orientations that the command line
 speaks: the six layers, the `Orientations` enumeration with its declaration
 order, the two-letter names the `-o` option accepts, and the 24 named spins.
 */
module Cube {
  import opened Wrappers

  /** The six faces of the cube, used as layer names. */
  datatype Layer = U | D | F | B | R | L

  /** The face on the other side of the cube. */
  function Opposite(l: Layer): (r: Layer)
    ensures r != l
    ensures l in {U, D} <==> r in {U, D}
    ensures l in {F, B} <==> r in {F, B}
  {
    match l
    case U => D
    case D => U
    case F => B
    case B => F
    case R => L
    case L => R
  }

  /** The upper-case letter that names a face. */
  function Letter(l: Layer): char
  {
    match l
    case U => 'U'
    case D => 'D'
    case F => 'F'
    case B => 'B'
    case R => 'R'
    case L => 'L'
  }

  /** Reads a face letter; only the six upper-case letters name a face. */
  function LayerOfLetter(c: char): (r: Option<Layer>)
    ensures r.Some? ==> Letter(r.value) == c
    ensures forall l :: Letter(l) == c ==> r == Some(l)
  {
    match c
    case 'U' => Some(U)
    case 'D' => Some(D)
    case 'F' => Some(F)
    case 'B' => Some(B)
    case 'R' => Some(R)
    case 'L' => Some(L)
    case _ => None
  }

  /**
   The orientations a search may be restricted to, in declaration order:
   every orientation, one layer up (`Ux` .. `Lx`), a pair of opposite layers
   up (`UD`, `FB`, `RL`), or one named spin (`UF` .. `LB`: up face, then
   front face).
   */
  datatype Orientation =
    | ALL
    | Ux | Dx | Fx | Bx | Rx | Lx
    | UD | FB | RL
    | UF | UR | UB | UL
    | DF | DR | DB | DL
    | FU | FR | FD | FL
    | BU | BR | BD | BL
    | RU | RF | RD | RB
    | LU | LF | LD | LB

  /** One layer up, any front face. */
  predicate IsWhole(o: Orientation)
  {
    o in {Ux, Dx, Fx, Bx, Rx, Lx}
  }

  /** One of two opposite layers up. */
  predicate IsPair(o: Orientation)
  {
    o in {UD, FB, RL}
  }

  /** A single named spin. */
  predicate IsSpinName(o: Orientation)
  {
    o != ALL && !IsWhole(o) && !IsPair(o)
  }

  /** The value the enumeration gives `o`: its position in declaration order. */
  function Ordinal(o: Orientation): (n: nat)
    ensures n < 34
  {
    match o
    case ALL => 0
    case Ux => 1
    case Dx => 2
    case Fx => 3
    case Bx => 4
    case Rx => 5
    case Lx => 6
    case UD => 7
    case FB => 8
    case RL => 9
    case UF => 10
    case UR => 11
    case UB => 12
    case UL => 13
    case DF => 14
    case DR => 15
    case DB => 16
    case DL => 17
    case FU => 18
    case FR => 19
    case FD => 20
    case FL => 21
    case BU => 22
    case BR => 23
    case BD => 24
    case BL => 25
    case RU => 26
    case RF => 27
    case RD => 28
    case RB => 29
    case LU => 30
    case LF => 31
    case LD => 32
    case LB => 33
  }

  /** The enumeration lists `ALL`, then the six whole layers, the three pairs and the 24 spins. */
  lemma OrdinalGroups(o: Orientation)
    ensures o == ALL <==> Ordinal(o) == 0
    ensures IsWhole(o) <==> 1 <= Ordinal(o) <= 6
    ensures IsPair(o) <==> 7 <= Ordinal(o) <= 9
    ensures IsSpinName(o) <==> 10 <= Ordinal(o)
  {
  }

  /** The orientations listed in declaration order. */
  const Enumeration: seq<Orientation> :=
    [ ALL,
      Ux, Dx, Fx, Bx, Rx, Lx,
      UD, FB, RL,
      UF, UR, UB, UL,
      DF, DR, DB, DL,
      FU, FR, FD, FL,
      BU, BR, BD, BL,
      RU, RF, RD, RB,
      LU, LF, LD, LB ]

  /** Reading `Enumeration` at an orientation's ordinal gives that orientation back. */
  lemma EnumerationAtOrdinal(o: Orientation)
    ensures |Enumeration| == 34
    ensures Enumeration[Ordinal(o)] == o
  {
  }

  /** The face that leads the name of an orientation other than `ALL`. */
  function Leading(o: Orientation): Layer
    requires o != ALL
  {
    match o
    case Ux | UD | UF | UR | UB | UL => U
    case Dx | DF | DR | DB | DL => D
    case Fx | FB | FU | FR | FD | FL => F
    case Bx | BU | BR | BD | BL => B
    case Rx | RL | RU | RF | RD | RB => R
    case Lx | LU | LF | LD | LB => L
  }

  /** The two-character enumerator name of an orientation other than `ALL`. */
  function Name(o: Orientation): (s: string)
    requires o != ALL
    ensures |s| == 2
    ensures s[0] == Letter(Leading(o))
    ensures IsWhole(o) <==> s[1] == 'x'
    ensures IsPair(o) ==> s[1] == Letter(Opposite(Leading(o)))
  {
    match o
    case Ux => "Ux"
    case Dx => "Dx"
    case Fx => "Fx"
    case Bx => "Bx"
    case Rx => "Rx"
    case Lx => "Lx"
    case UD => "UD"
    case FB => "FB"
    case RL => "RL"
    case UF => "UF"
    case UR => "UR"
    case UB => "UB"
    case UL => "UL"
    case DF => "DF"
    case DR => "DR"
    case DB => "DB"
    case DL => "DL"
    case FU => "FU"
    case FR => "FR"
    case FD => "FD"
    case FL => "FL"
    case BU => "BU"
    case BR => "BR"
    case BD => "BD"
    case BL => "BL"
    case RU => "RU"
    case RF => "RF"
    case RD => "RD"
    case RB => "RB"
    case LU => "LU"
    case LF => "LF"
    case LD => "LD"
    case LB => "LB"
  }

  /** Distinct orientations have distinct names. */
  lemma NameInjective(o: Orientation, o': Orientation)
    requires o != ALL && o' != ALL
    requires Name(o) == Name(o')
    ensures o == o'
  {
  }

  /** The orientation "layer `l` up, any front face". */
  function Whole(l: Layer): (o: Orientation)
    ensures IsWhole(o)
    ensures Leading(o) == l
  {
    match l
    case U => Ux
    case D => Dx
    case F => Fx
    case B => Bx
    case R => Rx
    case L => Lx
  }

  /** A spin index: the search spins are numbered 0 to 23. */
  type Spin = s: int | 0 <= s < 24

  /**
   The spin a named spin orientation stands for. The spin enumeration is
   assumed to list its 24 names in the same order as `UF` .. `LB` here, so
   counting `s` places on from `UF` in the orientation enumeration lands on
   the name itself.
   */
  function SpinIndex(o: Orientation): (s: Spin)
    requires IsSpinName(o)
  {
    OrdinalGroups(o);
    Ordinal(o) - Ordinal(UF)
  }

  /** Distinct named spins have distinct indices. */
  lemma SpinIndexInjective(o: Orientation, o': Orientation)
    requires IsSpinName(o) && IsSpinName(o')
    requires SpinIndex(o) == SpinIndex(o')
    ensures o == o'
  {
  }
}
