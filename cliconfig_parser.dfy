// main/cliconfig_parser.cpp: positional command-line arguments to options.
// `argv` is the whole argument vector, program name included, so |argv| is argc.
module CliConfigParser {
  import opened Wrappers
  import opened StdConversions

  /** assets/cliconfig_parser.h: the parameters of one run of TPC-H Query 5. */
  datatype ConfigOptions = ConfigOptions(
    region: string,
    fromDate: string,
    toDate: string,
    threadCount: int,
    dataFolder: string,
    resultFile: string)

  /**
    * The ways parsing stops: the usage message and exit(1) on a wrong
    * argument count, and the exception std::stoi throws on the thread count.
    */
  datatype CliError = UsageError | BadThreadCount(text: string)

  /** A data folder path that ends with `/`, so that file names can be appended to it. */
  function WithTrailingSlash(folder: string): (r: string)
    requires |folder| > 0
    ensures |r| > 0 && r[|r| - 1] == '/'
    ensures folder <= r && |r| <= |folder| + 1
    ensures folder[|folder| - 1] == '/' ==> r == folder
  {
    if folder[|folder| - 1] != '/' then folder + "/" else folder
  }

  /** When the folder lacks the `/`, exactly one is appended. */
  lemma SlashAppendedOnce(folder: string)
    requires |folder| > 0 && folder[|folder| - 1] != '/'
    ensures WithTrailingSlash(folder) == folder + "/"
  {
    var r := WithTrailingSlash(folder);
    assert r != folder;
    assert r[..|folder|] == folder;
    assert r == r[..|folder|] + [r[|folder|]];
  }

  /** Normalising a normalised folder changes nothing. */
  lemma SlashIdempotent(folder: string)
    requires |folder| > 0
    ensures WithTrailingSlash(WithTrailingSlash(folder)) == WithTrailingSlash(folder)
  {
  }

  /**
    * parseArguments: exactly six arguments after the program name, taken by
    * position. The thread count is whatever std::stoi reads from argv[4]; no
    * check that it is positive follows.
    */
  function ParseArguments(argv: seq<string>): (r: Result<ConfigOptions, CliError>)
    requires |argv| == 7 ==> |argv[5]| > 0
    ensures |argv| != 7 ==> r == Failure(UsageError)
    ensures |argv| == 7 ==> (r.Success? <==> Stoi(argv[4]).Some?)
    ensures r.Success? ==>
      && r.value.region == argv[1]
      && r.value.fromDate == argv[2]
      && r.value.toDate == argv[3]
      && r.value.threadCount == Stoi(argv[4]).value
      && r.value.dataFolder == WithTrailingSlash(argv[5])
      && r.value.resultFile == argv[6]
  {
    if |argv| != 7 then Failure(UsageError)
    else
      match Stoi(argv[4])
      case None => Failure(BadThreadCount(argv[4]))
      case Some(threads) =>
        Success(ConfigOptions(argv[1], argv[2], argv[3], threads, WithTrailingSlash(argv[5]), argv[6]))
  }

  /**
    * A thread count of 0 passes parseArguments; main then divides the order
    * count by it (main/index.cpp:145).
    */
  lemma ZeroThreadCountAccepted()
    ensures var r := ParseArguments(["query5", "ASIA", "1995-01-01", "1996-01-01", "0", "data", "out.txt"]);
      r.Success? && r.value.threadCount == 0
  {
    StoiReadsIntToString(0, "");
    assert IntToString(0) + "" == "0";
  }

  /**
    * parseArguments with the check the rest of the program relies on: a
    * thread count below 1 is a configuration error like a bad argument count.
    */
  function ParseArgumentsChecked(argv: seq<string>): (r: Result<ConfigOptions, CliError>)
    requires |argv| == 7 ==> |argv[5]| > 0
    ensures r.Success? ==> r.value.threadCount >= 1
    ensures r.Success? <==> ParseArguments(argv).Success? && ParseArguments(argv).value.threadCount >= 1
    ensures r.Success? ==> r == ParseArguments(argv)
  {
    match ParseArguments(argv)
    case Failure(e) => Failure(e)
    case Success(opts) => if opts.threadCount < 1 then Failure(BadThreadCount(argv[4])) else Success(opts)
  }

  lemma ZeroThreadCountRejected()
    ensures ParseArgumentsChecked(["query5", "ASIA", "1995-01-01", "1996-01-01", "0", "data", "out.txt"]).Failure?
  {
    ZeroThreadCountAccepted();
  }
}
