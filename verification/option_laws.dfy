/**
 The numeric options `-<letter><number>`: each count is stored as a 32-bit
 unsigned value and then clamped into its range, so a negative number wraps
 to a huge count and ends at the top of the range; the thread count is
 signed and clamped into -1 .. 128. Upper- and lower-case letters agree, and
 no other field changes.
 */
module OptionLaws {
  import opened Settings
  import opened Parser

  /** The `-n` option sets the number of solves. */
  lemma NumSolvesOption(p: Params, sub: string, v: Int32)
    ensures ParseOption(p, 'N', sub, v) == ParseOption(p, 'n', sub, v)
    ensures var r := ParseOption(p, 'n', sub, v);
            && r == p.(numSolves := r.numSolves)
            && 1 <= r.numSolves <= 10000
            && (1 <= v <= 10000 ==> r.numSolves == v)
            && (0 <= v < 1 ==> r.numSolves == 1)
            && (10000 < v || v < 0 ==> r.numSolves == 10000)
  {
  }

  /** The `-l` option sets the scramble length. */
  lemma LengthOption(p: Params, sub: string, v: Int32)
    ensures ParseOption(p, 'L', sub, v) == ParseOption(p, 'l', sub, v)
    ensures var r := ParseOption(p, 'l', sub, v);
            && r == p.(lengthScramble := r.lengthScramble)
            && 4 <= r.lengthScramble <= 100
            && (4 <= v <= 100 ==> r.lengthScramble == v)
            && (0 <= v < 4 ==> r.lengthScramble == 4)
            && (100 < v || v < 0 ==> r.lengthScramble == 100)
  {
  }

  /** The `-i` option sets the number of inspections. */
  lemma InspectionsOption(p: Params, sub: string, v: Int32)
    ensures ParseOption(p, 'I', sub, v) == ParseOption(p, 'i', sub, v)
    ensures var r := ParseOption(p, 'i', sub, v);
            && r == p.(numInspections := r.numInspections)
            && 1 <= r.numInspections <= 100
            && (1 <= v <= 100 ==> r.numInspections == v)
            && (0 <= v < 1 ==> r.numInspections == 1)
            && (100 < v || v < 0 ==> r.numInspections == 100)
  {
  }

  /** The `-d` option sets the depth of the first search. */
  lemma Depth1Option(p: Params, sub: string, v: Int32)
    ensures ParseOption(p, 'D', sub, v) == ParseOption(p, 'd', sub, v)
    ensures var r := ParseOption(p, 'd', sub, v);
            && r == p.(depth1 := r.depth1)
            && 4 <= r.depth1 <= 10
            && (4 <= v <= 10 ==> r.depth1 == v)
            && (0 <= v < 4 ==> r.depth1 == 4)
            && (10 < v || v < 0 ==> r.depth1 == 10)
  {
  }

  /** The `-s` option sets the depth of the later searches. */
  lemma Depth2Option(p: Params, sub: string, v: Int32)
    ensures ParseOption(p, 'S', sub, v) == ParseOption(p, 's', sub, v)
    ensures var r := ParseOption(p, 's', sub, v);
            && r == p.(depth2 := r.depth2)
            && 4 <= r.depth2 <= 15
            && (4 <= v <= 15 ==> r.depth2 == v)
            && (0 <= v < 4 ==> r.depth2 == 4)
            && (15 < v || v < 0 ==> r.depth2 == 15)
  {
  }

  /** The `-t` option sets the signed thread count, -1 .. 128. */
  lemma ThreadsOption(p: Params, sub: string, v: Int32)
    ensures ParseOption(p, 'T', sub, v) == ParseOption(p, 't', sub, v)
    ensures var r := ParseOption(p, 't', sub, v);
            && r == p.(threads := r.threads)
            && -1 <= r.threads <= 128
            && (-1 <= v <= 128 ==> r.threads == v)
            && (v < -1 ==> r.threads == -1)
            && (128 < v ==> r.threads == 128)
  {
  }
}
