/**
 The three `ProcessOrientations` overloads: from the orientation selected on
 the command line to the cross layers a layer-by-layer or CFOP search starts
 from, to the spins a Roux, Petrus or ZZ search tries, and to the single first
 layer.

 Two of the overloads read the global parameter record's orientation instead
 of (or as well as) their argument; that global is the explicit `global`
 parameter here.
 */
module OrientationMap {
  import opened Cube

  /** No element occurs twice. */
  predicate Distinct<T(==)>(xs: seq<T>)
  {
    forall i, j :: 0 <= i < j < |xs| ==> xs[i] != xs[j]
  }

  /**
   The layer overload: appends to `layers` (without clearing it) each layer
   whose condition `o` meets, in the order D, U, B, F, L, R.
   */
  function CrossLayers(layers: seq<Layer>, o: Orientation): (r: seq<Layer>)
    ensures |r| >= |layers| && r[..|layers|] == layers
  {
    layers
    + (if o in {ALL, Ux, UD, UF, UR, UB, UL} then [D] else [])
    + (if o in {ALL, Dx, UD, DF, DR, DB, DL} then [U] else [])
    + (if o in {ALL, Fx, FB, FU, FR, FD, FL} then [B] else [])
    + (if o in {ALL, Bx, FB, BU, BR, BD, BL} then [F] else [])
    + (if o in {ALL, Rx, RL, RU, RF, RD, RB} then [L] else [])
    + (if o in {ALL, Lx, RL, LU, LF, LD, LB} then [R] else [])
  }

  /**
   What the layer overload appends: all six layers for `ALL`, the two
   layers opposite and equal to the leading face for a pair, and otherwise
   the single layer opposite the leading face.
   */
  lemma CrossLayersAppended(layers: seq<Layer>, o: Orientation)
    ensures o == ALL ==> CrossLayers(layers, o) == layers + [D, U, B, F, L, R]
    ensures IsPair(o) ==> CrossLayers(layers, o) == layers + [Opposite(Leading(o)), Leading(o)]
    ensures o != ALL && !IsPair(o) ==> CrossLayers(layers, o) == layers + [Opposite(Leading(o))]
  {
    if o == ALL {
    } else if IsWhole(o) {
      CrossLayersOfWhole(layers, o);
    } else if IsPair(o) {
      CrossLayersOfPair(layers, o);
    } else {
      CrossLayersOfSpin(layers, o);
    }
  }

  /** A layer up appends the opposite layer. */
  lemma CrossLayersOfWhole(layers: seq<Layer>, o: Orientation)
    requires IsWhole(o)
    ensures CrossLayers(layers, o) == layers + [Opposite(Leading(o))]
  {
    if o == Ux {
    } else if o == Dx {
    } else if o == Fx {
    } else if o == Bx {
    } else if o == Rx {
    } else {
      assert o == Lx;
    }
  }

  /** A pair appends the opposite layer, then the leading one. */
  lemma CrossLayersOfPair(layers: seq<Layer>, o: Orientation)
    requires IsPair(o)
    ensures CrossLayers(layers, o) == layers + [Opposite(Leading(o)), Leading(o)]
  {
    if o == UD {
    } else if o == FB {
    } else {
      assert o == RL;
    }
  }

  /** A named spin appends the layer opposite its leading face. */
  lemma CrossLayersOfSpin(layers: seq<Layer>, o: Orientation)
    requires IsSpinName(o)
    ensures CrossLayers(layers, o) == layers + [Opposite(Leading(o))]
  {
    match o
    case UF => case UR => case UB => case UL =>
    case DF => case DR => case DB => case DL =>
    case FU => case FR => case FD => case FL =>
    case BU => case BR => case BD => case BL =>
    case RU => case RF => case RD => case RB =>
    case LU => case LF => case LD => case LB =>
  }

  /** The layers appended are distinct, and `ALL` appends every layer. */
  lemma CrossLayersAdded(layers: seq<Layer>, o: Orientation)
    ensures Distinct(CrossLayers(layers, o)[|layers|..])
    ensures |CrossLayers(layers, o)| - |layers| in {1, 2, 6}
    ensures CrossLayers(layers, o)[..|layers|] == layers
    ensures o == ALL ==> forall l :: l in CrossLayers(layers, o)[|layers|..]
    ensures o != ALL ==> Opposite(Leading(o)) in CrossLayers(layers, o)[|layers|..]
  {
    CrossLayersAppended(layers, o);
    var added := CrossLayers(layers, o)[|layers|..];
    if o == ALL {
      assert added == [D, U, B, F, L, R];
      forall l
        ensures l in added
      {
        match l
        case U => assert added[1] == U;
        case D => assert added[0] == D;
        case F => assert added[3] == F;
        case B => assert added[2] == B;
        case R => assert added[5] == R;
        case L => assert added[4] == L;
      }
    } else if IsPair(o) {
      assert added == [Opposite(Leading(o)), Leading(o)];
    } else {
      assert added == [Opposite(Leading(o))];
    }
  }

  /** Every spin, in index order. */
  function AllSpins(): (r: seq<int>)
    ensures |r| == 24
    ensures forall i :: 0 <= i < 24 ==> r[i] == i
  {
    seq(24, s => s)
  }

  /**
   The spin overload: clears the list and fills it with the spins for `o`.
   For a single named spin it pushes the spin whose index is the GLOBAL
   orientation's ordinal minus that of `UF`, whatever `o` is.
   */
  function SearchSpins(o: Orientation, global: Orientation): (r: seq<int>)
  {
    match o
    case ALL => AllSpins()
    case Ux => [SpinIndex(UF), SpinIndex(UB), SpinIndex(UR), SpinIndex(UL)]
    case Dx => [SpinIndex(DF), SpinIndex(DB), SpinIndex(DR), SpinIndex(DL)]
    case Fx => [SpinIndex(FU), SpinIndex(FD), SpinIndex(FR), SpinIndex(FL)]
    case Bx => [SpinIndex(BU), SpinIndex(BD), SpinIndex(BR), SpinIndex(BL)]
    case Rx => [SpinIndex(RU), SpinIndex(RD), SpinIndex(RF), SpinIndex(RB)]
    case Lx => [SpinIndex(LU), SpinIndex(LD), SpinIndex(LF), SpinIndex(LB)]
    case UD => [SpinIndex(UF), SpinIndex(UB), SpinIndex(UR), SpinIndex(UL),
                SpinIndex(DF), SpinIndex(DB), SpinIndex(DR), SpinIndex(DL)]
    case FB => [SpinIndex(FU), SpinIndex(FD), SpinIndex(FR), SpinIndex(FL),
                SpinIndex(BU), SpinIndex(BD), SpinIndex(BR), SpinIndex(BL)]
    case RL => [SpinIndex(RU), SpinIndex(RD), SpinIndex(RF), SpinIndex(RB),
                SpinIndex(LU), SpinIndex(LD), SpinIndex(LF), SpinIndex(LB)]
    case _ => [Ordinal(global) - Ordinal(UF)]
  }

  /** `ALL` yields each of the 24 spins exactly once. */
  lemma AllOrientationsSpins(global: Orientation)
    ensures |SearchSpins(ALL, global)| == 24
    ensures Distinct(SearchSpins(ALL, global))
    ensures forall s :: s in SearchSpins(ALL, global) <==> 0 <= s < 24
  {
    var r := SearchSpins(ALL, global);
    forall s | 0 <= s < 24
      ensures s in r
    {
      assert r[s] == s;
    }
  }

  /** The position of a face in the order the named spins are grouped by. */
  function FaceIndex(l: Layer): (k: nat)
    ensures k < 6
  {
    match l
    case U => 0
    case D => 1
    case F => 2
    case B => 3
    case R => 4
    case L => 5
  }

  /** The named spins come in groups of four sharing their up face. */
  lemma SpinGroupedByLeadingFace(o: Orientation)
    requires IsSpinName(o)
    ensures SpinIndex(o) / 4 == FaceIndex(Leading(o))
  {
  }

  /** The four spins of one layer up, as indices: front F, B, R, L in turn. */
  lemma WholeLayerSpinIndices(l: Layer, global: Orientation)
    ensures SearchSpins(Whole(l), global) ==
            [4 * FaceIndex(l), 4 * FaceIndex(l) + 2, 4 * FaceIndex(l) + 1, 4 * FaceIndex(l) + 3]
  {
    match l
    case U => UpSpins(global);
    case D => DownSpins(global);
    case F => FrontSpins(global);
    case B => BackSpins(global);
    case R => RightSpins(global);
    case L => LeftSpins(global);
  }

  lemma UpSpins(global: Orientation)
    ensures SearchSpins(Whole(U), global) == [0, 2, 1, 3]
  {
  }

  lemma DownSpins(global: Orientation)
    ensures SearchSpins(Whole(D), global) == [4, 6, 5, 7]
  {
  }

  lemma FrontSpins(global: Orientation)
    ensures SearchSpins(Whole(F), global) == [8, 10, 9, 11]
  {
  }

  lemma BackSpins(global: Orientation)
    ensures SearchSpins(Whole(B), global) == [12, 14, 13, 15]
  {
  }

  lemma RightSpins(global: Orientation)
    ensures SearchSpins(Whole(R), global) == [16, 18, 17, 19]
  {
  }

  lemma LeftSpins(global: Orientation)
    ensures SearchSpins(Whole(L), global) == [20, 22, 21, 23]
  {
  }

  /** A block of four consecutive spin indices, listed in the order 0, 2, 1, 3. */
  lemma SpinBlock(r: seq<int>, k: nat)
    requires k < 6
    requires r == [4 * k, 4 * k + 2, 4 * k + 1, 4 * k + 3]
    ensures |r| == 4 && Distinct(r)
    ensures forall s :: s in r <==> 0 <= s < 24 && s / 4 == k
  {
  }

  /**
   One layer up yields exactly the four spins whose up face is that layer:
   a named spin is in the list if and only if it leads with `l`.
   */
  lemma WholeLayerSpins(l: Layer, global: Orientation)
    ensures |SearchSpins(Whole(l), global)| == 4
    ensures Distinct(SearchSpins(Whole(l), global))
    ensures forall s :: s in SearchSpins(Whole(l), global) <==> 0 <= s < 24 && s / 4 == FaceIndex(l)
    ensures forall o :: IsSpinName(o) ==>
              (SpinIndex(o) in SearchSpins(Whole(l), global) <==> Leading(o) == l)
  {
    var r := SearchSpins(Whole(l), global);
    WholeLayerSpinIndices(l, global);
    SpinBlock(r, FaceIndex(l));
    forall o | IsSpinName(o)
      ensures SpinIndex(o) in r <==> Leading(o) == l
    {
      SpinGroupedByLeadingFace(o);
      FaceIndexInjective(l, Leading(o));
    }
  }

  /** Distinct faces have distinct positions. */
  lemma FaceIndexInjective(l: Layer, l': Layer)
    ensures FaceIndex(l) == FaceIndex(l') ==> l == l'
  {
  }

  /** Two opposite layers up lists the leading layer's four spins, then the opposite layer's. */
  lemma PairIsTwoWholes(o: Orientation, global: Orientation)
    requires IsPair(o)
    ensures SearchSpins(o, global) ==
            SearchSpins(Whole(Leading(o)), global) + SearchSpins(Whole(Opposite(Leading(o))), global)
  {
    if o == UD {
      assert SearchSpins(UD, global) == SearchSpins(Ux, global) + SearchSpins(Dx, global);
    } else if o == FB {
      assert SearchSpins(FB, global) == SearchSpins(Fx, global) + SearchSpins(Bx, global);
    } else {
      assert SearchSpins(RL, global) == SearchSpins(Rx, global) + SearchSpins(Lx, global);
    }
  }

  /**
   Two opposite layers up yields exactly the eight spins whose up face is
   one of the pair.
   */
  lemma PairSpins(o: Orientation, global: Orientation)
    requires IsPair(o)
    ensures |SearchSpins(o, global)| == 8
    ensures Distinct(SearchSpins(o, global))
    ensures forall s :: s in SearchSpins(o, global) <==>
              0 <= s < 24 && s / 4 in {FaceIndex(Leading(o)), FaceIndex(Opposite(Leading(o)))}
    ensures forall o' :: IsSpinName(o') ==>
              (SpinIndex(o') in SearchSpins(o, global) <==>
               Leading(o') in {Leading(o), Opposite(Leading(o))})
  {
    var l := Leading(o);
    var first := SearchSpins(Whole(l), global);
    var second := SearchSpins(Whole(Opposite(l)), global);
    PairIsTwoWholes(o, global);
    WholeLayerSpins(l, global);
    WholeLayerSpins(Opposite(l), global);
    FaceIndexInjective(l, Opposite(l));
    var r := first + second;
    forall i, j | 0 <= i < j < |r|
      ensures r[i] != r[j]
    {
      if j < 4 {
        assert r[i] == first[i] && r[j] == first[j];
      } else if 4 <= i {
        assert r[i] == second[i - 4] && r[j] == second[j - 4];
      } else {
        assert r[i] in first && r[j] in second;
      }
    }
  }

  /**
   A named spin yields one spin, read from the global orientation; when the
   argument is that global, as at every call, it is the argument's own spin
   and lies in 0 .. 23.
   */
  lemma NamedSpin(o: Orientation, global: Orientation)
    requires IsSpinName(o)
    ensures SearchSpins(o, global) == [Ordinal(global) - Ordinal(UF)]
    ensures o == global ==> SearchSpins(o, global) == [SpinIndex(o)]
    ensures o == global ==> 0 <= SearchSpins(o, global)[0] < 24
  {
  }

  /**
   The first-layer overload: ignores its argument and reads the global
   orientation, defaulting to D.
   */
  function FirstLayer(o: Orientation, global: Orientation): (r: Layer)
    ensures global == ALL ==> r == D
    ensures global != ALL ==> r == Opposite(Leading(global))
  {
    if global in {ALL, Ux, UD, UF, UR, UB, UL} then D
    else if global in {Dx, DF, DR, DB, DL} then U
    else if global in {Fx, FB, FU, FR, FD, FL} then B
    else if global in {Bx, BU, BR, BD, BL} then F
    else if global in {Rx, RL, RU, RF, RD, RB} then L
    else if global in {Lx, LU, LF, LD, LB} then R
    else D
  }

  /**
   The first layer is the first cross layer the layer overload appends for
   the same orientation, whatever argument the first-layer overload gets.
   */
  lemma FirstLayerIsFirstCrossLayer(o: Orientation, global: Orientation, layers: seq<Layer>)
    ensures FirstLayer(o, global) == CrossLayers(layers, global)[|layers|]
  {
  }
}
