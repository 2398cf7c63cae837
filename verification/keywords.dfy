/**
 Keyword recognition: an argument selects a method, a collection, a metric
 or a flag when one of that keyword's spellings occurs anywhere inside it.
 The keywords are tried in a fixed order and the first one found wins.
 */
module Keywords {
  import opened Wrappers
  import opened Settings

  /**
   `k` occurs in `s` at some position (the string search the parser uses);
   an empty `k` is found at once, and nothing longer than `s` is found.
   `ContainsIffOccurs` characterises it in both directions.
   */
  predicate Contains(s: string, k: string)
    ensures Contains(s, k) ==> |k| <= |s|
    ensures k == [] ==> Contains(s, k)
    decreases |s|
  {
    |k| <= |s| && (s[..|k|] == k || Contains(s[1..], k))
  }

  /** The slice of `s` starting at `i` equals `k`. */
  predicate OccursAt(s: string, k: string, i: int)
  {
    0 <= i && i + |k| <= |s| && s[i..i + |k|] == k
  }

  /** The reference reading of "`k` occurs in `s`": some slice of `s` equals `k`. */
  ghost predicate Occurs(s: string, k: string)
  {
    exists i :: OccursAt(s, k, i)
  }

  /** The search finds `k` exactly when some slice of `s` equals `k`. */
  lemma {:induction false} ContainsIffOccurs(s: string, k: string)
    ensures Contains(s, k) <==> Occurs(s, k)
    decreases |s|
  {
    if |k| > |s| {
    } else if s[..|k|] == k {
      assert OccursAt(s, k, 0);
    } else {
      ContainsIffOccurs(s[1..], k);
      if Occurs(s[1..], k) {
        var i :| OccursAt(s[1..], k, i);
        SliceOfTail(s, i, |k|);
        assert OccursAt(s, k, i + 1);
      }
      if Occurs(s, k) {
        var i :| OccursAt(s, k, i);
        assert i != 0;
        SliceOfTail(s, i - 1, |k|);
        assert OccursAt(s[1..], k, i - 1);
      }
    }
  }

  /** A slice of the tail of `s` is the slice of `s` one position further on. */
  lemma SliceOfTail(s: string, i: nat, n: nat)
    requires i + n < |s|
    ensures s[1..][i..i + n] == s[i + 1..i + 1 + n]
  {
    var a, b := s[1..][i..i + n], s[i + 1..i + 1 + n];
    forall j | 0 <= j < n
      ensures a[j] == b[j]
    {
    }
  }

  /** What a keyword does to the parameter record. */
  datatype Action =
    | SetMethod(m: Method)
    | SetCollection(c: Collection)
    | SetMetric(metric: Metric)
    | EnableBest
    | EnableRegrip
    | EnableCancellations
    | EnableOneLookL6E
    | EnableTimes
    | EnableDebug

  /**
   The spellings that trigger an action. Most keywords accept exactly three
   spellings (upper case, lower case, capitalised); `1LLL`, `CANC` and `L6E`
   list their own. The two "none" values have no keyword.
   */
  function Spellings(a: Action): seq<string>
  {
    match a
    case SetMethod(m) =>
      (match m
       case NoMethod => []
       case LBL => ["LBL", "lbl", "Lbl"]
       case CFOP => ["CFOP", "cfop", "Cfop"]
       case ROUX => ["ROUX", "roux", "Roux"]
       case PETRUS => ["PETRUS", "petrus", "Petrus"]
       case ZZ => ["ZZ", "zz", "Zz"])
    case SetCollection(c) =>
      (match c
       case NoCollection => []
       case OneLLL => ["1LLL", "1lll"]
       case ZBLL => ["ZBLL", "zbll", "Zbll"]
       case CMLL => ["CMLL", "cmll", "Cmll"]
       case COLL => ["COLL", "coll", "Coll"]
       case OCLL => ["OCLL", "ocll", "Ocll"]
       case EPLL => ["EPLL", "epll", "Epll"]
       case OLL => ["OLL", "oll", "Oll"]
       case PLL => ["PLL", "pll", "Pll"])
    case EnableBest => ["BEST", "best", "Best"]
    case EnableRegrip => ["REGRIP", "regrip", "Regrip"]
    case EnableCancellations => ["CANC", "Canc", "canc"]
    case EnableOneLookL6E => ["L6E", "L6e", "l6e"]
    case SetMetric(metric) =>
      (match metric
       case QSTM => ["QSTM", "Qstm", "qstm"]
       case STM => ["STM", "Stm", "stm"]
       case HTM15 => ["1.5HTM", "1.5Htm", "1.5htm"]
       case HTM => ["HTM", "Htm", "htm"]
       case QTM => ["QTM", "Qtm", "qtm"]
       case ETM => ["ETM", "Etm", "etm"]
       case ATM => ["ATM", "Atm", "atm"]
       case PTM => ["PTM", "Ptm", "ptm"]
       case OBTM => ["OBTM", "Obtm", "obtm"])
    case EnableTimes => ["TIME", "time", "Time"]
    case EnableDebug => ["DEBUG", "debug", "Debug"]
  }

  /** The keywords in the order the parser tries them. */
  const KeywordOrder: seq<Action> :=
    [ SetMethod(LBL), SetMethod(CFOP), SetMethod(ROUX), SetMethod(PETRUS), SetMethod(ZZ),
      SetCollection(OneLLL), SetCollection(ZBLL), SetCollection(CMLL), SetCollection(COLL),
      SetCollection(OCLL), SetCollection(EPLL), SetCollection(OLL), SetCollection(PLL),
      EnableBest, EnableRegrip, EnableCancellations, EnableOneLookL6E,
      SetMetric(QSTM), SetMetric(STM), SetMetric(HTM15), SetMetric(HTM), SetMetric(QTM),
      SetMetric(ETM), SetMetric(ATM), SetMetric(PTM), SetMetric(OBTM),
      EnableTimes, EnableDebug ]

  /** Some spelling of a keyword occurs in the argument. */
  predicate Hits(s: string, a: Action)
  {
    exists w :: w in Spellings(a) && Contains(s, w)
  }

  /**
   The first keyword of `order` that the argument hits: no earlier keyword
   is hit, and `None` means none is.
   */
  function FirstHit(s: string, order: seq<Action>): (r: Option<nat>)
    ensures r.Some? ==> r.value < |order| && Hits(s, order[r.value])
    ensures r.Some? ==> forall j :: 0 <= j < r.value ==> !Hits(s, order[j])
    ensures r.None? ==> forall j :: 0 <= j < |order| ==> !Hits(s, order[j])
  {
    if |order| == 0 then None
    else if Hits(s, order[0]) then Some(0)
    else match FirstHit(s, order[1..])
      case Some(i) => Some(i + 1)
      case None => None
  }

  /**
   The keyword an argument selects: the first one in parser order it hits
   (`MatchIsHighestPriority` and `SelectedIff` characterise it by rank).
   */
  function MatchKeyword(s: string): Option<Action>
  {
    match FirstHit(s, KeywordOrder)
    case Some(i) => Some(KeywordOrder[i])
    case None => None
  }
}
