/**
 The parameter record the command line fills in, with its defaults and the
 ranges the numeric fields are kept in.
 */
module Settings {
  import opened Cube

  /** The solving method; `NoMethod` only generates scrambles. */
  datatype Method = NoMethod | LBL | CFOP | ROUX | PETRUS | ZZ

  /** The last-layer algorithm collection (`OneLLL` is the C++ enumerator `_1LLL`). */
  datatype Collection = NoCollection | OLL | PLL | OneLLL | COLL | CMLL | EPLL | OCLL | ZBLL

  /** The move-counting metrics the command line can select. */
  datatype Metric = HTM | QTM | STM | QSTM | HTM15 | OBTM | ETM | PTM | ATM

  /** The largest value of a 32-bit unsigned field, plus one. */
  const UintRange: nat := 0x1_0000_0000

  /** A value of the 32-bit signed `int` that the numeric decoder yields. */
  type Int32 = x: int | -0x8000_0000 <= x < 0x8000_0000

  /** The command-line parameters; the counts are 32-bit unsigned, `threads` is signed. */
  datatype Params = Params(
    solvingMethod: Method,
    collection: Collection,
    orientation: Orientation,
    metric: Metric,
    numSolves: nat,
    lengthScramble: nat,
    numInspections: nat,
    depth1: nat,
    depth2: nat,
    threads: int,
    best: bool,
    debug: bool,
    regrip: bool,
    cancellations: bool,
    oneLookL6E: bool,
    times: bool)

  /** The record before any argument is read. */
  const Defaults: Params :=
    Params(NoMethod, NoCollection, ALL, STM, 1, 20, 1, 6, 6, 0,
           false, false, false, false, false, false)

  /** Every numeric field lies in the range its option clamps it to. */
  predicate Valid(p: Params)
  {
    && 1 <= p.numSolves <= 10000
    && 4 <= p.lengthScramble <= 100
    && 1 <= p.numInspections <= 100
    && 4 <= p.depth1 <= 10
    && 4 <= p.depth2 <= 15
    && -1 <= p.threads <= 128
  }

  /** The defaults are in range. */
  lemma DefaultsValid()
    ensures Valid(Defaults)
  {
  }
}
