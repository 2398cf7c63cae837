/**
 What the keyword order guarantees: the selected keyword is the one of
 highest priority that the argument contains, so a longer keyword tested
 before a shorter one it contains always shadows it.
 */
module KeywordLaws {
  import opened Wrappers
  import opened Settings
  import opened Keywords

  /** An action that some argument can select. */
  predicate IsKeyword(a: Action)
  {
    Spellings(a) != []
  }

  /** The position of a keyword in the parser's order (28 for the two "none" values). */
  function Rank(a: Action): nat
  {
    match a
    case SetMethod(m) =>
      (match m
       case LBL => 0
       case CFOP => 1
       case ROUX => 2
       case PETRUS => 3
       case ZZ => 4
       case NoMethod => 28)
    case SetCollection(c) =>
      (match c
       case OneLLL => 5
       case ZBLL => 6
       case CMLL => 7
       case COLL => 8
       case OCLL => 9
       case EPLL => 10
       case OLL => 11
       case PLL => 12
       case NoCollection => 28)
    case EnableBest => 13
    case EnableRegrip => 14
    case EnableCancellations => 15
    case EnableOneLookL6E => 16
    case SetMetric(metric) =>
      (match metric
       case QSTM => 17
       case STM => 18
       case HTM15 => 19
       case HTM => 20
       case QTM => 21
       case ETM => 22
       case ATM => 23
       case PTM => 24
       case OBTM => 25)
    case EnableTimes => 26
    case EnableDebug => 27
  }

  /** Every keyword sits in the order at its rank. */
  lemma KeywordAtRank(a: Action)
    requires IsKeyword(a)
    ensures Rank(a) < |KeywordOrder| && KeywordOrder[Rank(a)] == a
  {
  }

  /** The rank of the keyword at position `i` is `i`. */
  lemma RankOfPosition(i: nat)
    requires i < |KeywordOrder|
    ensures IsKeyword(KeywordOrder[i])
    ensures Rank(KeywordOrder[i]) == i
  {
    if i < 7 {
      RankOfBlock0(i);
    } else if i < 14 {
      RankOfBlock1(i);
    } else if i < 21 {
      RankOfBlock2(i);
    } else {
      RankOfBlock3(i);
    }
  }

  /** `RankOfPosition` for positions 0 .. 6: the methods and the first two collections. */
  lemma RankOfBlock0(i: nat)
    requires 0 <= i < 7
    ensures IsKeyword(KeywordOrder[i])
    ensures Rank(KeywordOrder[i]) == i
  {
    assert i in {0, 1, 2, 3, 4, 5, 6};
  }

  /** `RankOfPosition` for positions 7 .. 13: the remaining collections and `BEST`. */
  lemma RankOfBlock1(i: nat)
    requires 7 <= i < 14
    ensures IsKeyword(KeywordOrder[i])
    ensures Rank(KeywordOrder[i]) == i
  {
    assert i in {7, 8, 9, 10, 11, 12, 13};
  }

  /** `RankOfPosition` for positions 14 .. 20: the flags and the first metrics. */
  lemma RankOfBlock2(i: nat)
    requires 14 <= i < 21
    ensures IsKeyword(KeywordOrder[i])
    ensures Rank(KeywordOrder[i]) == i
  {
    assert i in {14, 15, 16, 17, 18, 19, 20};
  }

  /** `RankOfPosition` for positions 21 .. 27: the remaining metrics and flags. */
  lemma RankOfBlock3(i: nat)
    requires 21 <= i < 28
    ensures IsKeyword(KeywordOrder[i])
    ensures Rank(KeywordOrder[i]) == i
  {
    assert i in {21, 22, 23, 24, 25, 26, 27};
  }

  /**
   The selected keyword is one the argument contains and no keyword of
   higher priority is contained; nothing is selected exactly when the
   argument contains no keyword at all.
   */
  lemma MatchIsHighestPriority(s: string)
    ensures MatchKeyword(s).Some? ==>
              IsKeyword(MatchKeyword(s).value) && Hits(s, MatchKeyword(s).value)
    ensures MatchKeyword(s).Some? ==>
              forall b :: Rank(b) < Rank(MatchKeyword(s).value) ==> !Hits(s, b)
    ensures MatchKeyword(s).None? <==> forall b :: !Hits(s, b)
  {
    var r := FirstHit(s, KeywordOrder);
    if r.Some? {
      RankOfPosition(r.value);
      forall b | Rank(b) < r.value
        ensures !Hits(s, b)
      {
        if IsKeyword(b) {
          KeywordAtRank(b);
        }
      }
      assert Hits(s, KeywordOrder[r.value]);
    } else {
      forall b
        ensures !Hits(s, b)
      {
        if IsKeyword(b) {
          KeywordAtRank(b);
        }
      }
    }
  }

  /**
   A keyword is selected exactly when the argument contains it and no
   keyword of higher priority.
   */
  lemma SelectedIff(s: string, a: Action)
    requires IsKeyword(a)
    ensures MatchKeyword(s) == Some(a) <==>
            Hits(s, a) && forall b :: Rank(b) < Rank(a) ==> !Hits(s, b)
  {
    MatchIsHighestPriority(s);
    if Hits(s, a) && forall b :: Rank(b) < Rank(a) ==> !Hits(s, b) {
      var v := MatchKeyword(s).value;
      assert Rank(v) == Rank(a);
      KeywordAtRank(a);
      KeywordAtRank(v);
    }
  }

  /** "QSTM" is tried before "STM": a metric selected from it is QSTM, never STM. */
  lemma QstmShadowsStm(s: string)
    requires Hits(s, SetMetric(QSTM))
    ensures MatchKeyword(s).Some?
    ensures MatchKeyword(s) != Some(SetMetric(STM))
    ensures MatchKeyword(s).value.SetMetric? ==> MatchKeyword(s).value == SetMetric(QSTM)
  {
    MatchIsHighestPriority(s);
    var v := MatchKeyword(s).value;
    assert Rank(v) <= Rank(SetMetric(QSTM));
    if v.SetMetric? {
      assert v.metric == QSTM by {
        match v.metric
        case QSTM =>
        case STM => case HTM15 => case HTM => case QTM =>
        case ETM => case ATM => case PTM => case OBTM =>
      }
    }
  }

  /** "1.5HTM" is tried before "HTM", so it never selects HTM. */
  lemma Htm15ShadowsHtm(s: string)
    requires Hits(s, SetMetric(HTM15))
    ensures MatchKeyword(s).Some?
    ensures MatchKeyword(s) != Some(SetMetric(HTM))
  {
    MatchIsHighestPriority(s);
  }

  /** "COLL" and "OCLL" are tried before "OLL", so they never select OLL. */
  lemma CollAndOcllShadowOll(s: string)
    requires Hits(s, SetCollection(COLL)) || Hits(s, SetCollection(OCLL))
    ensures MatchKeyword(s).Some?
    ensures MatchKeyword(s) != Some(SetCollection(OLL))
  {
    MatchIsHighestPriority(s);
    var v := MatchKeyword(s).value;
    if Hits(s, SetCollection(COLL)) {
      assert Rank(v) <= Rank(SetCollection(COLL));
    } else {
      assert Rank(v) <= Rank(SetCollection(OCLL));
    }
  }

  /** "EPLL" is tried before "PLL", so it never selects PLL. */
  lemma EpllShadowsPll(s: string)
    requires Hits(s, SetCollection(EPLL))
    ensures MatchKeyword(s).Some?
    ensures MatchKeyword(s) != Some(SetCollection(PLL))
  {
    MatchIsHighestPriority(s);
  }

  /** Method keywords are tried first: an argument naming a method selects a method. */
  lemma MethodsTriedFirst(s: string, m: Method)
    requires Hits(s, SetMethod(m))
    ensures MatchKeyword(s).Some? && MatchKeyword(s).value.SetMethod?
  {
    MatchIsHighestPriority(s);
    var v := MatchKeyword(s).value;
    assert Rank(v) <= Rank(SetMethod(m)) <= Rank(SetMethod(ZZ));
    LowRankIsMethod(v);
  }

  /** The first five ranks are the methods. */
  lemma LowRankIsMethod(a: Action)
    requires Rank(a) <= Rank(SetMethod(ZZ))
    ensures a.SetMethod?
  {
  }
}
