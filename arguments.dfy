/** The command-line front end: option parsing and the default output file name. */
module CommandLine {
  import opened Base
  import Pipeline

  /** The parsed settings of one invocation. */
  datatype Options = Options(
    grayScale: bool, grainType: int, grainSat: real, grainPower: real,
    shadows: real, highs: real, scale: real, sharpen: int, srcGamma: real, seed: int,
    fileIn: Option<string>, fileOut: Option<string>)

  /** The settings before any option is read. */
  const Defaults: Options :=
    Options(false, 1, 0.5, 0.7, 0.2, 0.2, 1.0, 0, 1.0, 1, None, None)

  /** String-to-number conversion, which may reject its input. */
  datatype Conversions = Conversions(toFloat: string -> Option<real>, toInt: string -> Option<int>)

  /** Why parsing stops. */
  datatype ParseError =
    | UnknownOption(option: string)
    | BadNumber(text: string)      // a value `float()` or `int()` rejects
    | PowerIncomplete(text: string) // fewer than three comma-separated parts to --power
    | NoInputFile                  // nothing left for the input file name
    | HelpRequested                // -h: usage is shown and the program exits

  /** What the program does: show usage and exit with a status, or run with these settings. */
  datatype Outcome = ShowUsage(exitCode: int) | Invoke(options: Options)

  /** The options that take a value: each consumes itself and the next argument. */
  const ValuedOptions: set<string> :=
    {"--gamma", "--type", "--sat", "-o", "--seed", "--scale", "--sharpen", "--power"}

  // ---- Splitting on commas ----

  /** `s.split(",")`: the pieces between commas, always at least one. */
  function Split(s: string): (parts: seq<string>)
    ensures |parts| >= 1
  {
    if |s| == 0 then [""]
    else if s[0] == ',' then [""] + Split(s[1..])
    else var rest := Split(s[1..]); [[s[0]] + rest[0]] + rest[1..]
  }

  /** The pieces joined back with commas. */
  function Join(parts: seq<string>): string
    requires |parts| >= 1
  {
    if |parts| == 1 then parts[0] else parts[0] + [','] + Join(parts[1..])
  }

  /** Splitting loses nothing and no piece contains a comma. */
  lemma {:induction false} SplitJoin(s: string)
    ensures Join(Split(s)) == s
    ensures forall i :: 0 <= i < |Split(s)| ==> ',' !in Split(s)[i]
  {
    if |s| > 0 {
      SplitJoin(s[1..]);
      if s[0] != ',' {
        var rest := Split(s[1..]);
        assert Split(s) == [[s[0]] + rest[0]] + rest[1..];
        if |rest| == 1 {
          assert Join(Split(s)) == [s[0]] + rest[0];
        } else {
          assert Join(Split(s)) == [s[0]] + rest[0] + [','] + Join(rest[1..]);
          assert Join(rest) == rest[0] + [','] + Join(rest[1..]);
        }
        assert s == [s[0]] + s[1..];
      } else {
        assert s == [s[0]] + s[1..];
      }
    }
  }

  /** A comma-free prefix followed by a comma is split off as the first piece. */
  lemma {:induction false} SplitFirst(a: string, rest: string)
    requires ',' !in a
    ensures Split(a + [','] + rest) == [a] + Split(rest)
    decreases |a|
  {
    if |a| == 0 {
      assert a + [','] + rest == [','] + rest;
      assert ([','] + rest)[1..] == rest;
    } else {
      SplitFirst(a[1..], rest);
      assert (a + [','] + rest)[1..] == a[1..] + [','] + rest;
      assert [a[0]] + a[1..] == a;
    }
  }

  /** A comma-free string is a single piece. */
  lemma {:induction false} SplitWhole(a: string)
    requires ',' !in a
    ensures Split(a) == [a]
    decreases |a|
  {
    if |a| > 0 {
      SplitWhole(a[1..]);
      assert [a[0]] + a[1..] == a;
    }
  }

  // ---- One option at a time ----

  function Float(text: string, conv: Conversions): Result<real, ParseError> {
    match conv.toFloat(text)
    case None => Err(BadNumber(text))
    case Some(v) => Ok(v)
  }

  function Int(text: string, conv: Conversions): Result<int, ParseError> {
    match conv.toInt(text)
    case None => Err(BadNumber(text))
    case Some(v) => Ok(v)
  }

  /** The value of --power: overall, highlights, shadows, converted in that order;
      parts beyond the third are ignored. */
  function Power(text: string, conv: Conversions): Result<(real, real, real), ParseError> {
    var sp := Split(text);
    match Float(sp[0], conv)
    case Err(e) => Err(e)
    case Ok(overall) =>
      if |sp| < 2 then Err(PowerIncomplete(text)) else
      match Float(sp[1], conv)
      case Err(e) => Err(e)
      case Ok(highs) =>
        if |sp| < 3 then Err(PowerIncomplete(text)) else
        match Float(sp[2], conv)
        case Err(e) => Err(e)
        case Ok(shadows) => Ok((overall, highs, shadows))
  }

  /** The settings after option `flag` takes `value`. */
  function Assign(o: Options, flag: string, value: string, conv: Conversions): Result<Options, ParseError>
    requires flag in ValuedOptions
  {
    if flag == "--gamma" then
      match Float(value, conv) case Err(e) => Err(e) case Ok(v) => Ok(o.(srcGamma := v))
    else if flag == "--type" then
      match Int(value, conv) case Err(e) => Err(e) case Ok(v) => Ok(o.(grainType := v))
    else if flag == "--sat" then
      match Float(value, conv) case Err(e) => Err(e) case Ok(v) => Ok(o.(grainSat := v))
    else if flag == "-o" then
      Ok(o.(fileOut := Some(value)))
    else if flag == "--seed" then
      match Int(value, conv) case Err(e) => Err(e) case Ok(v) => Ok(o.(seed := v))
    else if flag == "--scale" then
      match Float(value, conv) case Err(e) => Err(e) case Ok(v) => Ok(o.(scale := v))
    else if flag == "--sharpen" then
      match Int(value, conv) case Err(e) => Err(e) case Ok(v) => Ok(o.(sharpen := v))
    else
      match Power(value, conv)
      case Err(e) => Err(e)
      case Ok((overall, highs, shadows)) => Ok(o.(grainPower := overall, highs := highs, shadows := shadows))
  }

  /** One turn of the option loop: the settings and the arguments still to read. */
  function Step(o: Options, args: seq<string>, conv: Conversions): (r: Result<(Options, seq<string>), ParseError>)
    requires |args| > 1
    ensures r.Ok? ==> r.value.1 == if args[0] == "--gray" then args[1..] else args[2..]
    ensures r.Ok? <==> args[0] == "--gray" || (args[0] in ValuedOptions && Assign(o, args[0], args[1], conv).Ok?)
  {
    if args[0] == "--gray" then Ok((o.(grayScale := true), args[1..]))
    else if args[0] in ValuedOptions then
      match Assign(o, args[0], args[1], conv)
      case Err(e) => Err(e)
      case Ok(o') => Ok((o', args[2..]))
    else if args[0] == "-h" then Err(HelpRequested)
    else Err(UnknownOption(args[0]))
  }

  /** Reads options while more than one argument remains; the one left is the input file. */
  function ParseFrom(o: Options, args: seq<string>, conv: Conversions): Result<Options, ParseError>
    decreases |args|
  {
    if |args| == 0 then Err(NoInputFile)
    else if |args| == 1 then Ok(o.(fileIn := Some(args[0])))
    else
      match Step(o, args, conv)
      case Err(e) => Err(e)
      case Ok((o', rest)) => ParseFrom(o', rest, conv)
  }

  function ParseSpec(args: seq<string>, conv: Conversions): Result<Options, ParseError> {
    ParseFrom(Defaults, args, conv)
  }

  /** What `main` does with the argument list: usage and exit status -1 when parsing fails,
      otherwise a run, with the output name defaulting to the input name plus "-grain.png". */
  function MainSpec(args: seq<string>, conv: Conversions): Outcome {
    match ParseSpec(args, conv)
    case Err(_) => ShowUsage(-1)
    case Ok(o) =>
      InputIsLast(Defaults, args, conv);
      Invoke(WithDefaultOutput(o))
  }

  /** The settings in the order `process` takes them (the file names aside). */
  function ToParams(o: Options): Pipeline.Params {
    Pipeline.Params(o.scale, o.srcGamma, o.grainPower, o.shadows, o.highs,
                    o.grainType, o.grainSat, o.grayScale, o.sharpen, o.seed)
  }

  function WithDefaultOutput(o: Options): Options
    requires o.fileIn.Some?
  {
    if o.fileOut.None? then o.(fileOut := Some(o.fileIn.value + "-grain.png")) else o
  }

  // ---- The parser state ----

  class Arguments {
    var grayScale: bool
    var grainType: int
    var grainSat: real
    var grainPower: real
    var shadows: real
    var highs: real
    var scale: real
    var sharpen: int
    var srcGamma: real
    var seed: int
    var fileIn: Option<string>
    var fileOut: Option<string>

    function Fields(): Options
      reads this
    {
      Options(grayScale, grainType, grainSat, grainPower, shadows, highs, scale, sharpen,
              srcGamma, seed, fileIn, fileOut)
    }

    constructor ()
      ensures Fields() == Defaults
    {
      grayScale := false;
      grainType := 1;
      grainSat := 0.5;
      grainPower := 0.7;
      shadows := 0.2;
      highs := 0.2;
      scale := 1.0;
      sharpen := 0;
      srcGamma := 1.0;
      seed := 1;
      fileIn := None;
      fileOut := None;
    }

    /** Pops options and their values off the front of the list into a fresh object. */
    static method Parse(argv: seq<string>, conv: Conversions) returns (r: Result<Arguments, ParseError>)
      ensures r.Ok? <==> ParseSpec(argv, conv).Ok?
      ensures r.Ok? ==> fresh(r.value) && r.value.Fields() == ParseSpec(argv, conv).value
      ensures r.Err? ==> r.error == ParseSpec(argv, conv).error
    {
      var a := new Arguments();
      var args := argv;
      while |args| > 1
        invariant fresh(a)
        invariant ParseFrom(a.Fields(), args, conv) == ParseSpec(argv, conv)
        decreases |args|
      {
        var next := a.ReadOption(args, conv);
        if next.Err? {
          return Err(next.error);
        }
        args := next.value;
      }
      if |args| == 0 {
        return Err(NoInputFile);
      }
      a.fileIn := Some(args[0]);
      return Ok(a);
    }

    /** Reads the option at the front of `args` (and its value, if it takes one) into the
        fields; yields the arguments that remain. */
    method ReadOption(args: seq<string>, conv: Conversions) returns (r: Result<seq<string>, ParseError>)
      requires |args| > 1
      modifies this
      ensures var s := Step(old(Fields()), args, conv);
        && (r.Ok? <==> s.Ok?)
        && (r.Ok? ==> Fields() == s.value.0 && r.value == s.value.1)
        && (r.Err? ==> r.error == s.error)
    {
      var rest := args;
      if rest[0] == "--gray" {
        grayScale := true;
      } else if rest[0] == "--gamma" {
        rest := rest[1..];
        var v := Float(rest[0], conv);
        if v.Err? { return Err(v.error); }
        srcGamma := v.value;
      } else if rest[0] == "--type" {
        rest := rest[1..];
        var v := Int(rest[0], conv);
        if v.Err? { return Err(v.error); }
        grainType := v.value;
      } else if rest[0] == "--sat" {
        rest := rest[1..];
        var v := Float(rest[0], conv);
        if v.Err? { return Err(v.error); }
        grainSat := v.value;
      } else if rest[0] == "-o" {
        rest := rest[1..];
        fileOut := Some(rest[0]);
      } else if rest[0] == "--seed" {
        rest := rest[1..];
        var v := Int(rest[0], conv);
        if v.Err? { return Err(v.error); }
        seed := v.value;
      } else if rest[0] == "--scale" {
        rest := rest[1..];
        var v := Float(rest[0], conv);
        if v.Err? { return Err(v.error); }
        scale := v.value;
      } else if rest[0] == "--sharpen" {
        rest := rest[1..];
        var v := Int(rest[0], conv);
        if v.Err? { return Err(v.error); }
        sharpen := v.value;
      } else if rest[0] == "--power" {
        rest := rest[1..];
        var v := Power(rest[0], conv);
        if v.Err? { return Err(v.error); }
        grainPower, highs, shadows := v.value.0, v.value.1, v.value.2;
      } else if rest[0] == "-h" {
        return Err(HelpRequested);
      } else {
        return Err(UnknownOption(rest[0]));
      }
      return Ok(rest[1..]);
    }

    /** Names the output after the input when no -o was given. */
    method ApplyDefaultOutput()
      requires fileIn.Some?
      modifies this
      ensures Fields() == WithDefaultOutput(old(Fields()))
    {
      if fileOut.None? {
        fileOut := Some(fileIn.value + "-grain.png");
      }
    }
  }

  /** The program's entry: parse, then either show usage and exit -1 or run with the settings. */
  method Run(argv: seq<string>, conv: Conversions) returns (outcome: Outcome)
    ensures outcome == MainSpec(argv, conv)
  {
    var r := Arguments.Parse(argv, conv);
    if r.Err? {
      return ShowUsage(-1);
    }
    InputIsLast(Defaults, argv, conv);
    r.value.ApplyDefaultOutput();
    return Invoke(r.value.Fields());
  }

  // ---- Properties of the parser ----

  /** A successful parse used a non-empty list and took its last element as the input file. */
  lemma {:induction false} InputIsLast(o: Options, args: seq<string>, conv: Conversions)
    ensures ParseFrom(o, args, conv).Ok? ==>
      |args| >= 1 && ParseFrom(o, args, conv).value.fileIn == Some(args[|args| - 1])
    decreases |args|
  {
    if |args| > 1 {
      if args[0] == "--gray" {
        InputIsLast(o.(grayScale := true), args[1..], conv);
      } else if args[0] in ValuedOptions && Assign(o, args[0], args[1], conv).Ok? {
        InputIsLast(Assign(o, args[0], args[1], conv).value, args[2..], conv);
      }
    }
  }

  /** With only the input file, every setting keeps its default. */
  lemma NoOptions(file: string, conv: Conversions)
    ensures ParseSpec([file], conv) == Ok(Options(false, 1, 0.5, 0.7, 0.2, 0.2, 1.0, 0, 1.0, 1, Some(file), None))
  {
  }

  /** An empty list has no input file; neither has one that a valued option empties. */
  lemma MissingInput(o: Options, flag: string, value: string, conv: Conversions)
    requires flag in ValuedOptions
    ensures ParseFrom(o, [], conv) == Err(NoInputFile)
    ensures ParseFrom(o, [flag, value], conv).Err?
    ensures Assign(o, flag, value, conv).Ok? ==> ParseFrom(o, [flag, value], conv) == Err(NoInputFile)
  {
  }

  /** --gray consumes one argument. */
  lemma GrayConsumesOne(o: Options, rest: seq<string>, conv: Conversions)
    requires |rest| >= 1
    ensures ParseFrom(o, ["--gray"] + rest, conv) == ParseFrom(o.(grayScale := true), rest, conv)
  {
  }

  /** A valued option consumes itself and exactly one value. */
  lemma ValuedConsumesTwo(o: Options, flag: string, value: string, rest: seq<string>, conv: Conversions)
    requires flag in ValuedOptions
    ensures Assign(o, flag, value, conv).Err? ==>
      ParseFrom(o, [flag, value] + rest, conv) == Err(Assign(o, flag, value, conv).error)
    ensures Assign(o, flag, value, conv).Ok? ==>
      ParseFrom(o, [flag, value] + rest, conv) == ParseFrom(Assign(o, flag, value, conv).value, rest, conv)
  {
  }

  /** Anything else in option position is rejected, and -h there asks for the usage text. */
  lemma UnknownOptionFails(o: Options, args: seq<string>, conv: Conversions)
    requires |args| >= 2 && args[0] != "--gray" && args[0] !in ValuedOptions
    ensures args[0] == "-h" ==> ParseFrom(o, args, conv) == Err(HelpRequested)
    ensures args[0] != "-h" ==> ParseFrom(o, args, conv) == Err(UnknownOption(args[0]))
  {
  }

  /** -h is an option only while another argument follows it; alone it is the input file name. */
  lemma LoneHelpIsInputFile(conv: Conversions)
    ensures ParseSpec(["-h"], conv) == Ok(Defaults.(fileIn := Some("-h")))
    ensures MainSpec(["-h"], conv) == Invoke(Defaults.(fileIn := Some("-h"), fileOut := Some("-h-grain.png")))
  {
    assert "-h" + "-grain.png" == "-h-grain.png";
  }

  /** `--power a,b,c` sets overall power to a, highlights to b and shadows to c. */
  lemma PowerOrder(o: Options, a: string, b: string, c: string, conv: Conversions)
    requires ',' !in a && ',' !in b && ',' !in c
    requires conv.toFloat(a).Some? && conv.toFloat(b).Some? && conv.toFloat(c).Some?
    ensures Assign(o, "--power", a + [','] + b + [','] + c, conv) ==
      Ok(o.(grainPower := conv.toFloat(a).value, highs := conv.toFloat(b).value, shadows := conv.toFloat(c).value))
  {
    SplitWhole(c);
    SplitFirst(b, c);
    SplitFirst(a, b + [','] + c);
    assert a + [','] + b + [','] + c == a + [','] + (b + [','] + c);
    assert Split(a + [','] + b + [','] + c) == [a, b, c];
  }

  /** A second occurrence of an option overrides the first. */
  lemma Overwrite(o: Options, flag: string, v1: string, v2: string, conv: Conversions)
    requires flag in ValuedOptions && Assign(o, flag, v1, conv).Ok?
    ensures Assign(Assign(o, flag, v1, conv).value, flag, v2, conv) == Assign(o, flag, v2, conv)
  {
  }

  /** On the whole parse: `flag v1 flag v2 rest` reads as `flag v2 rest`. */
  lemma RepeatedOptionOverwrites(o: Options, flag: string, v1: string, v2: string, rest: seq<string>, conv: Conversions)
    requires flag in ValuedOptions && Assign(o, flag, v1, conv).Ok?
    ensures ParseFrom(o, [flag, v1, flag, v2] + rest, conv) == ParseFrom(o, [flag, v2] + rest, conv)
  {
    ValuedConsumesTwo(o, flag, v1, [flag, v2] + rest, conv);
    assert [flag, v1, flag, v2] + rest == [flag, v1] + ([flag, v2] + rest);
    var o1 := Assign(o, flag, v1, conv).value;
    ValuedConsumesTwo(o1, flag, v2, rest, conv);
    ValuedConsumesTwo(o, flag, v2, rest, conv);
    Overwrite(o, flag, v1, v2, conv);
  }

  /** Only -o sets the output name: without it in the list the parse keeps the one it started with. */
  lemma {:induction false} OutputOnlyFromOption(o: Options, args: seq<string>, conv: Conversions)
    requires "-o" !in args
    ensures ParseFrom(o, args, conv).Ok? ==> ParseFrom(o, args, conv).value.fileOut == o.fileOut
    decreases |args|
  {
    if |args| > 1 {
      if args[0] == "--gray" {
        OutputOnlyFromOption(o.(grayScale := true), args[1..], conv);
      } else if args[0] in ValuedOptions && Assign(o, args[0], args[1], conv).Ok? {
        var o' := Assign(o, args[0], args[1], conv).value;
        assert args[0] != "-o" by { assert args[0] in args; }
        assert o'.fileOut == o.fileOut;
        assert forall i :: 0 <= i < |args[2..]| ==> args[2..][i] == args[i + 2];
        OutputOnlyFromOption(o', args[2..], conv);
      }
    }
  }

  /** `main`: a failed parse shows usage and exits -1; otherwise the run gets the parsed settings,
      with the output named after the input plus "-grain.png" unless -o gave one. */
  lemma MainOutcome(args: seq<string>, conv: Conversions)
    ensures ParseSpec(args, conv).Err? ==> MainSpec(args, conv) == ShowUsage(-1)
    ensures ParseSpec(args, conv).Ok? ==>
      var o := ParseSpec(args, conv).value;
      && o.fileIn == Some(args[|args| - 1])
      && MainSpec(args, conv).Invoke?
      && MainSpec(args, conv).options.(fileOut := o.fileOut) == o
      && MainSpec(args, conv).options.fileOut ==
           if o.fileOut.Some? then o.fileOut else Some(args[|args| - 1] + "-grain.png")
    ensures ParseSpec(args, conv).Ok? && "-o" !in args ==>
      MainSpec(args, conv).options.fileOut == Some(args[|args| - 1] + "-grain.png")
  {
    InputIsLast(Defaults, args, conv);
    if "-o" !in args {
      OutputOnlyFromOption(Defaults, args, conv);
    }
  }

  /** With only an input file, `process` is called with scale 1.0, gamma 1.0, power 0.7,
      shadows 0.2, highlights 0.2, grain type 1, saturation 0.5, colour mode, no sharpening
      and seed 1, writing to the input name plus "-grain.png". */
  lemma DefaultRun(file: string, conv: Conversions)
    ensures MainSpec([file], conv).Invoke?
    ensures ToParams(MainSpec([file], conv).options) == Pipeline.Params(1.0, 1.0, 0.7, 0.2, 0.2, 1, 0.5, false, 0, 1)
    ensures MainSpec([file], conv).options.fileIn == Some(file)
    ensures MainSpec([file], conv).options.fileOut == Some(file + "-grain.png")
  {
  }
}
