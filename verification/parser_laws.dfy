/**
 Properties of the argument fold: every argument targets at most one field
 of the record and sets it independently of what was there before, so the
 last argument targeting a field decides it.
 */
module ParserLaws {
  import opened Wrappers
  import opened Cube
  import opened Settings
  import opened Keywords
  import opened Parser

  /** The fields of the parameter record. */
  datatype Field =
    | MethodField | CollectionField | OrientationField | MetricField
    | NumSolvesField | LengthField | InspectionsField | Depth1Field | Depth2Field
    | ThreadsField
    | BestField | DebugField | RegripField | CancellationsField | OneLookL6EField | TimesField

  /** `p` with field `f` copied from `q`. */
  function Transplant(p: Params, f: Field, q: Params): Params
  {
    match f
    case MethodField => p.(solvingMethod := q.solvingMethod)
    case CollectionField => p.(collection := q.collection)
    case OrientationField => p.(orientation := q.orientation)
    case MetricField => p.(metric := q.metric)
    case NumSolvesField => p.(numSolves := q.numSolves)
    case LengthField => p.(lengthScramble := q.lengthScramble)
    case InspectionsField => p.(numInspections := q.numInspections)
    case Depth1Field => p.(depth1 := q.depth1)
    case Depth2Field => p.(depth2 := q.depth2)
    case ThreadsField => p.(threads := q.threads)
    case BestField => p.(best := q.best)
    case DebugField => p.(debug := q.debug)
    case RegripField => p.(regrip := q.regrip)
    case CancellationsField => p.(cancellations := q.cancellations)
    case OneLookL6EField => p.(oneLookL6E := q.oneLookL6E)
    case TimesField => p.(times := q.times)
  }

  /** The value held in one field, whatever its type. */
  datatype Value =
    | MethodValue(m: Method) | CollectionValue(c: Collection)
    | OrientationValue(o: Orientation) | MetricValue(metric: Metric)
    | Count(n: int) | Flag(b: bool)

  /** The value of field `f` of `p`. */
  function Get(p: Params, f: Field): Value
  {
    match f
    case MethodField => MethodValue(p.solvingMethod)
    case CollectionField => CollectionValue(p.collection)
    case OrientationField => OrientationValue(p.orientation)
    case MetricField => MetricValue(p.metric)
    case NumSolvesField => Count(p.numSolves)
    case LengthField => Count(p.lengthScramble)
    case InspectionsField => Count(p.numInspections)
    case Depth1Field => Count(p.depth1)
    case Depth2Field => Count(p.depth2)
    case ThreadsField => Count(p.threads)
    case BestField => Flag(p.best)
    case DebugField => Flag(p.debug)
    case RegripField => Flag(p.regrip)
    case CancellationsField => Flag(p.cancellations)
    case OneLookL6EField => Flag(p.oneLookL6E)
    case TimesField => Flag(p.times)
  }

  /** Copying field `f` sets `f` and leaves every other field alone. */
  lemma TransplantGet(p: Params, f: Field, q: Params, g: Field)
    ensures Get(Transplant(p, f, q), g) == if g == f then Get(q, f) else Get(p, g)
  {
  }

  /** The field a keyword sets. */
  function ActionField(act: Action): Field
  {
    match act
    case SetMethod(_) => MethodField
    case SetCollection(_) => CollectionField
    case SetMetric(_) => MetricField
    case EnableBest => BestField
    case EnableRegrip => RegripField
    case EnableCancellations => CancellationsField
    case EnableOneLookL6E => OneLookL6EField
    case EnableTimes => TimesField
    case EnableDebug => DebugField
  }

  /**
   The field an argument targets, read from the argument alone: a
   keyword's field; an option letter's field; nothing for an unknown
   letter, for a short or dash-less argument, or for `-o` followed by one
   letter that is not a face.
   */
  function Target(a: Arg): Option<Field>
  {
    match MatchKeyword(a.text)
    case Some(act) => Some(ActionField(act))
    case None =>
      if |a.text| <= 2 || a.text[0] != '-' then None
      else OptionTarget(a.text[1], a.text[2..])
  }

  /** A keyword sets its own field to a value that does not depend on the record. */
  lemma PerformOneField(p: Params, act: Action)
    ensures Perform(p, act) == Transplant(p, ActionField(act), Perform(Defaults, act))
  {
  }

  /** The field an option letter targets, given the text after it. */
  function OptionTarget(letter: char, sub: string): Option<Field>
  {
    match letter
    case 'n' | 'N' => Some(NumSolvesField)
    case 'l' | 'L' => Some(LengthField)
    case 'i' | 'I' => Some(InspectionsField)
    case 't' | 'T' => Some(ThreadsField)
    case 'd' | 'D' => Some(Depth1Field)
    case 's' | 'S' => Some(Depth2Field)
    case 'o' | 'O' =>
      if |sub| == 1 && LayerOfLetter(sub[0]).None? then None
      else Some(OrientationField)
    case _ => None
  }

  /** An option changes only the field its letter targets, and nothing for an unknown letter. */
  lemma OptionOneField(p: Params, letter: char, sub: string, v: Int32)
    requires |sub| >= 1
    ensures OptionTarget(letter, sub).None? ==> ParseOption(p, letter, sub, v) == p
    ensures OptionTarget(letter, sub).Some? ==>
              ParseOption(p, letter, sub, v)
              == Transplant(p, OptionTarget(letter, sub).value, ParseOption(Defaults, letter, sub, v))
  {
    if (letter == 'o' || letter == 'O') && |sub| >= 2 {
      OrientationIgnoresCurrent(sub, p.orientation, Defaults.orientation);
    }
  }

  /** An argument that is not a keyword is read as an option exactly when it is long enough and starts with '-'. */
  lemma ParseArgUnfold(p: Params, a: Arg)
    ensures MatchKeyword(a.text).Some? ==> ParseArg(p, a) == Perform(p, MatchKeyword(a.text).value)
    ensures MatchKeyword(a.text).None? && (|a.text| <= 2 || a.text[0] != '-') ==> ParseArg(p, a) == p
    ensures MatchKeyword(a.text).None? && |a.text| > 2 && a.text[0] == '-' ==>
              ParseArg(p, a) == ParseOption(p, a.text[1], a.text[2..], a.value)
  {
  }

  /**
   One field per argument: an argument that targets nothing leaves the
   record unchanged; one that targets field `f` changes no other field and
   gives `f` a value that does not depend on the record it is applied to.
   */
  lemma OneFieldPerArgument(p: Params, a: Arg)
    ensures Target(a).None? ==> ParseArg(p, a) == p
    ensures Target(a).Some? ==> ParseArg(p, a) == Transplant(p, Target(a).value, ParseArg(Defaults, a))
  {
    ParseArgUnfold(p, a);
    ParseArgUnfold(Defaults, a);
    match MatchKeyword(a.text)
    case Some(act) =>
      PerformOneField(p, act);
    case None =>
      if |a.text| > 2 && a.text[0] == '-' {
        OptionOneField(p, a.text[1], a.text[2..], a.value);
      }
  }

  /** With two or more letters the `-o` result does not depend on the current orientation. */
  lemma OrientationIgnoresCurrent(sub: string, current: Orientation, other: Orientation)
    requires |sub| >= 2
    ensures ParseOrientation(sub, current) == ParseOrientation(sub, other)
  {
  }

  /** Reading an argument a second time changes nothing. */
  lemma ParseArgIdempotent(p: Params, a: Arg)
    ensures ParseArg(ParseArg(p, a), a) == ParseArg(p, a)
  {
    OneFieldPerArgument(p, a);
    OneFieldPerArgument(ParseArg(p, a), a);
    if Target(a).Some? {
      TransplantTwice(p, Target(a).value, ParseArg(Defaults, a));
    }
  }

  /** Copying the same field twice is copying it once. */
  lemma TransplantTwice(p: Params, f: Field, q: Params)
    ensures Transplant(Transplant(p, f, q), f, q) == Transplant(p, f, q)
  {
  }

  /** Reading `xs + ys` is reading `xs`, then `ys`. */
  lemma {:induction false} ParseAllAppend(p: Params, xs: seq<Arg>, ys: seq<Arg>)
    ensures ParseAll(p, xs + ys) == ParseAll(ParseAll(p, xs), ys)
    decreases |xs|
  {
    if |xs| == 0 {
      assert xs + ys == ys;
    } else {
      assert (xs + ys)[1..] == xs[1..] + ys;
      ParseAllAppend(ParseArg(p, xs[0]), xs[1..], ys);
    }
  }

  /** One argument that does not target field `f` keeps its value. */
  lemma StepKeepsField(p: Params, a: Arg, f: Field)
    requires Target(a) != Some(f)
    ensures Get(ParseArg(p, a), f) == Get(p, f)
  {
    OneFieldPerArgument(p, a);
    if Target(a).Some? {
      TransplantGet(p, Target(a).value, ParseArg(Defaults, a), f);
    }
  }

  /** Arguments that do not target field `f` keep its value. */
  lemma {:induction false} UntargetedFieldKept(p: Params, ys: seq<Arg>, f: Field)
    requires forall y :: y in ys ==> Target(y) != Some(f)
    ensures Get(ParseAll(p, ys), f) == Get(p, f)
    decreases |ys|
  {
    if |ys| > 0 {
      var q := ParseArg(p, ys[0]);
      assert ParseAll(p, ys) == ParseAll(q, ys[1..]);
      StepKeepsField(p, ys[0], f);
      assert forall y :: y in ys[1..] ==> y in ys;
      UntargetedFieldKept(q, ys[1..], f);
    }
  }

  /**
   Last one wins: after `xs`, then `a`, then arguments none of which targets
   the field `a` targets, that field holds what `a` alone sets it to.
   */
  lemma LastOneWins(p: Params, xs: seq<Arg>, a: Arg, ys: seq<Arg>)
    requires Target(a).Some?
    requires forall y :: y in ys ==> Target(y) != Target(a)
    ensures Get(ParseAll(p, xs + [a] + ys), Target(a).value) == Get(ParseArg(Defaults, a), Target(a).value)
  {
    var f := Target(a).value;
    var before := ParseAll(p, xs);
    var q := ParseArg(before, a);
    ParseAllAppend(p, xs + [a], ys);
    ParseAllAppend(p, xs, [a]);
    assert ParseAll(before, [a]) == q;
    OneFieldPerArgument(before, a);
    TransplantGet(before, f, ParseArg(Defaults, a), f);
    UntargetedFieldKept(q, ys, f);
  }

  /**
   The `-o` option through the whole argument: the text after `-o` is read
   by the orientation parser against the current orientation.
   */
  lemma OrientationOption(p: Params, a: Arg)
    requires MatchKeyword(a.text).None? && |a.text| > 2 && a.text[0] == '-' && (a.text[1] == 'o' || a.text[1] == 'O')
    ensures ParseArg(p, a) == p.(orientation := ParseOrientation(a.text[2..], p.orientation))
    ensures |a.text| == 3 && LayerOfLetter(a.text[2]).Some? ==>
              ParseArg(p, a).orientation == Whole(LayerOfLetter(a.text[2]).value)
    ensures |a.text| == 3 && LayerOfLetter(a.text[2]).None? ==> ParseArg(p, a) == p
    ensures forall o :: BeginsWithName(a.text[2..], o) ==> ParseArg(p, a).orientation == o
  {
    forall o | BeginsWithName(a.text[2..], o)
      ensures ParseArg(p, a).orientation == o
    {
      ParseOrientationByName(a.text[2..], p.orientation, o);
    }
  }

  /**
   On the whole command line, the last argument that targets a field
   decides it; `argv[0]`, the program name, is never read.
   */
  lemma CommandLineLastOneWins(argv: seq<Arg>, i: nat)
    requires 1 <= i < |argv| && Target(argv[i]).Some?
    requires forall j :: i < j < |argv| ==> Target(argv[j]) != Target(argv[i])
    ensures Get(ProcessParameters(argv), Target(argv[i]).value)
            == Get(ParseArg(Defaults, argv[i]), Target(argv[i]).value)
  {
    var args := argv[1..];
    var xs, ys := argv[1..i], argv[i + 1..];
    assert args == xs + [argv[i]] + ys;
    forall y | y in ys
      ensures Target(y) != Target(argv[i])
    {
      var j :| 0 <= j < |ys| && ys[j] == y;
      assert y == argv[i + 1 + j];
    }
    LastOneWins(Defaults, xs, argv[i], ys);
  }

  /** A field that no argument targets keeps its default. */
  lemma CommandLineDefaultKept(argv: seq<Arg>, f: Field)
    requires forall j :: 1 <= j < |argv| ==> Target(argv[j]) != Some(f)
    ensures Get(ProcessParameters(argv), f) == Get(Defaults, f)
  {
    if |argv| > 1 {
      var args := argv[1..];
      forall y | y in args
        ensures Target(y) != Some(f)
      {
        var j :| 0 <= j < |args| && args[j] == y;
        assert y == argv[j + 1];
      }
      UntargetedFieldKept(Defaults, args, f);
    }
  }

  /** The program name in `argv[0]` has no effect. */
  lemma ProgramNameIgnored(argv: seq<Arg>, name: Arg)
    requires |argv| >= 1
    ensures ProcessParameters([name] + argv[1..]) == ProcessParameters(argv)
  {
    assert ([name] + argv[1..])[1..] == argv[1..];
  }
}
