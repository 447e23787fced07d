/**
 * `CLIArgumentParser`: the choice of operation mode from the parsed command-line arguments,
 * the checks on their combinations, and the configuration handed to the workflow.
 */
module ArgumentParser {
  import opened Wrappers
  import Config
  import opened Utils

  datatype CliMode = FullExport | CharactersOnly | LocationsOnly | StatisticsOnly | SingleCharacter

  /**
   * The parsed arguments.  A flag a front end does not define reads as `false`, an option it
   * does not define as `None`; `characterId` is `None` both when the option is absent and when
   * it was not given, which the parser treats alike.
   */
  datatype Args = Args(
    characterId: Option<int>,
    charactersOnly: bool, locationsOnly: bool, statsOnly: bool,
    outputDir: Option<string>, format: Option<string>,
    verbose: bool, quiet: bool, dryRun: bool,
    optimized: bool, ultraOptimized: bool, queryComplexity: Option<string>,
    batchSize: Option<int>, retryAttempts: Option<int>)

  /** The validated configuration `parse_and_validate` returns. */
  datatype CliConfig = CliConfig(
    mode: CliMode, characterId: Option<int>,
    charactersOnly: bool, locationsOnly: bool, statsOnly: bool,
    outputDir: string, format: string, verbose: bool, quiet: bool, dryRun: bool,
    optimized: bool, ultraOptimized: bool, queryComplexity: string,
    batchSize: int, retryAttempts: int)

  const DefaultFormat: string := "enhanced"
  const DefaultQueryComplexity: string := "simple"
  const DefaultBatchSize: int := 20
  const DefaultRetryAttempts: int := 3

  const MultipleExclusiveFlags: string := "Cannot specify multiple exclusive flags: --characters-only, --locations-only, --stats-only"
  const CharacterIdNotPositive: string := "Character ID must be a positive integer"
  const EmptyOutputDir: string := "Output directory cannot be empty"
  const QuietAndVerbose: string := "Cannot specify both --quiet and --verbose"
  const BatchSizeNotPositive: string := "Batch size must be a positive integer"
  const RetryAttemptsNegative: string := "Retry attempts must be non-negative"
  const BothOptimisers: string := "Cannot specify both --optimized and --ultra-optimized"

  function OrElse<T>(o: Option<T>, default: T): T { if o.Some? then o.value else default }

  /**
   * `_determine_mode`: a truthy character id wins, then statistics, characters and locations
   * only, in that order; nothing selected means a full export.
   */
  function DetermineMode(args: Args): (mode: CliMode)
    ensures mode == SingleCharacter <==> args.characterId.Some? && args.characterId.value != 0
    ensures mode == StatisticsOnly <==> (args.characterId.None? || args.characterId.value == 0) && args.statsOnly
    ensures mode == CharactersOnly <==>
      (args.characterId.None? || args.characterId.value == 0) && !args.statsOnly && args.charactersOnly
    ensures mode == LocationsOnly <==>
      (args.characterId.None? || args.characterId.value == 0) && !args.statsOnly && !args.charactersOnly && args.locationsOnly
    ensures mode == FullExport <==>
      (args.characterId.None? || args.characterId.value == 0) && !args.statsOnly && !args.charactersOnly && !args.locationsOnly
  {
    if args.characterId.Some? && args.characterId.value != 0 then SingleCharacter
    else if args.statsOnly then StatisticsOnly
    else if args.charactersOnly then CharactersOnly
    else if args.locationsOnly then LocationsOnly
    else FullExport
  }

  function Count(b: bool): nat { if b then 1 else 0 }

  /** How many of the three exclusive flags are set. */
  function ExclusiveFlags(args: Args): nat {
    Count(args.charactersOnly) + Count(args.locationsOnly) + Count(args.statsOnly)
  }

  /** Whether every individual check of `_validate_arguments` passes. */
  predicate ArgumentsValid(args: Args) {
    && ExclusiveFlags(args) <= 1
    && (args.characterId.Some? ==> args.characterId.value > 0)
    && OrElse(args.outputDir, Config.OutputDir) != ""
    && !(args.quiet && args.verbose)
    && (args.batchSize.Some? ==> args.batchSize.value > 0)
    && (args.retryAttempts.Some? ==> args.retryAttempts.value >= 0)
    && !(args.optimized && args.ultraOptimized)
  }

  /**
   * `_validate_arguments`: the checks in order, the first one failing raising its
   * `ValueError`; it succeeds exactly when every check passes.
   */
  function ValidateArguments(args: Args): (r: Result<(), Error>)
    ensures r.Ok? <==> ArgumentsValid(args)
    ensures r.Err? ==> r.error.ValueError?
    ensures ExclusiveFlags(args) > 1 ==> r == Err(ValueError(MultipleExclusiveFlags))
  {
    if ExclusiveFlags(args) > 1 then Err(ValueError(MultipleExclusiveFlags))
    else if args.characterId.Some? && args.characterId.value <= 0 then Err(ValueError(CharacterIdNotPositive))
    else if OrElse(args.outputDir, Config.OutputDir) == "" then Err(ValueError(EmptyOutputDir))
    else if args.quiet && args.verbose then Err(ValueError(QuietAndVerbose))
    else if args.batchSize.Some? && args.batchSize.value <= 0 then Err(ValueError(BatchSizeNotPositive))
    else if args.retryAttempts.Some? && args.retryAttempts.value < 0 then Err(ValueError(RetryAttemptsNegative))
    else if args.optimized && args.ultraOptimized then Err(ValueError(BothOptimisers))
    else Ok(())
  }

  /**
   * `parse_and_validate`: the mode, the validation, then the arguments with the defaults of
   * the options a front end does not define.
   */
  function ParseAndValidate(args: Args): (r: Result<CliConfig, Error>)
    ensures r.Ok? <==> ArgumentsValid(args)
    ensures r.Err? ==> r == ValidateArguments(args).PropagateFailure()
    ensures r.Ok? ==>
      && r.value.mode == DetermineMode(args)
      && r.value.characterId == args.characterId
      && (args.outputDir.None? ==> r.value.outputDir == Config.OutputDir)
      && (args.format.None? ==> r.value.format == DefaultFormat)
      && (args.queryComplexity.None? ==> r.value.queryComplexity == DefaultQueryComplexity)
      && (args.batchSize.None? ==> r.value.batchSize == DefaultBatchSize)
      && (args.retryAttempts.None? ==> r.value.retryAttempts == DefaultRetryAttempts)
      && r.value.outputDir != "" && r.value.batchSize > 0 && r.value.retryAttempts >= 0
  {
    var mode := DetermineMode(args);
    var _ :- ValidateArguments(args);
    Ok(CliConfig(
      mode, args.characterId, args.charactersOnly, args.locationsOnly, args.statsOnly,
      OrElse(args.outputDir, Config.OutputDir), OrElse(args.format, DefaultFormat),
      args.verbose, args.quiet, args.dryRun, args.optimized, args.ultraOptimized,
      OrElse(args.queryComplexity, DefaultQueryComplexity),
      OrElse(args.batchSize, DefaultBatchSize), OrElse(args.retryAttempts, DefaultRetryAttempts)))
  }

  /** No arguments at all: a full export with every default. */
  function NoArgs(): Args {
    Args(None, false, false, false, None, None, false, false, false, false, false, None, None, None)
  }

  lemma DefaultsGiveFullExport()
    ensures ParseAndValidate(NoArgs()) == Ok(CliConfig(
      FullExport, None, false, false, false, Config.OutputDir, DefaultFormat, false, false, false,
      false, false, DefaultQueryComplexity, DefaultBatchSize, DefaultRetryAttempts))
  {
  }

  /**
   * A positive character id together with one exclusive flag is accepted, and the mode is the
   * single-character lookup: the flag is ignored.
   */
  lemma CharacterIdOverridesFlag(args: Args)
    requires args.characterId.Some? && args.characterId.value > 0
    requires ExclusiveFlags(args) == 1
    requires OrElse(args.outputDir, Config.OutputDir) != "" && !(args.quiet && args.verbose)
    requires args.batchSize.None? && args.retryAttempts.None? && !args.optimized
    ensures ParseAndValidate(args).Ok? && ParseAndValidate(args).value.mode == SingleCharacter
  {
  }

  /**
   * A character id of 0 is falsy for choosing the mode but still rejected by validation, so a
   * zero id never reaches the workflow; a negative id is likewise rejected.
   */
  lemma NonPositiveCharacterIdRejected(args: Args)
    requires args.characterId.Some? && args.characterId.value <= 0
    requires ExclusiveFlags(args) <= 1
    ensures args.characterId.value == 0 ==> DetermineMode(args) != SingleCharacter
    ensures ParseAndValidate(args) == Err(ValueError(CharacterIdNotPositive))
  {
  }

  /** Any two exclusive flags are rejected before any other check. */
  lemma TwoFlagsRejected(args: Args)
    requires (args.charactersOnly && args.locationsOnly) || (args.charactersOnly && args.statsOnly)
          || (args.locationsOnly && args.statsOnly)
    ensures ParseAndValidate(args) == Err(ValueError(MultipleExclusiveFlags))
  {
  }
}
