/** The order-processing job runner's entry point: before doing anything it
    checks that its two required connection strings are configured, in a
    fixed order, and stops with exit code 10 and one diagnostic line naming
    the first one that is missing. */
module ProcessOrder {
  import opened Wrappers
  import opened Strings
  import opened Configuration

  const WebJobsKey: string := "Data:AzureWebJobsStorage:ConnectionString"
  const DatabaseKey: string := "Data:DefaultConnection:ConnectionString"

  const WebJobsMissingMessage: string :=
    "The configuration value for Azure Web Jobs Connection String is missing."
  const DatabaseMissingMessage: string :=
    "The configuration value for Database Connection String is missing."

  /** Exit codes, part of the contract with the process supervisor */
  const SuccessExitCode: int := 0
  const MissingConfigExitCode: int := 10

  /** A required setting and the line printed when it is missing */
  datatype Requirement = Requirement(key: string, message: string)

  /** The settings the job runner checks, in the order it checks them */
  const Requirements: seq<Requirement> := [
    Requirement(WebJobsKey, WebJobsMissingMessage),
    Requirement(DatabaseKey, DatabaseMissingMessage)
  ]

  /** The exit code and the lines written to the console */
  datatype JobResult = JobResult(code: int, out: seq<string>)

  /** A required setting is present when it is not null, empty or white space */
  predicate Present(c: Config, key: string)
  {
    !IsNullOrWhiteSpace(Lookup(c, key))
  }

  /** Checks the requirements in order and stops at the first missing one. */
  function CheckRequired(c: Config, reqs: seq<Requirement>): (r: JobResult)
    ensures r.code == SuccessExitCode || r.code == MissingConfigExitCode
    ensures |r.out| <= 1
    ensures r.code == SuccessExitCode <==> forall k | 0 <= k < |reqs| :: Present(c, reqs[k].key)
    ensures r.code == SuccessExitCode ==> r.out == []
    ensures r.code == MissingConfigExitCode ==>
      exists k | 0 <= k < |reqs| ::
        && !Present(c, reqs[k].key)
        && (forall j | 0 <= j < k :: Present(c, reqs[j].key))
        && r.out == [reqs[k].message]
  {
    if |reqs| == 0 then
      JobResult(SuccessExitCode, [])
    else if !Present(c, reqs[0].key) then
      JobResult(MissingConfigExitCode, [reqs[0].message])
    else
      var r := CheckRequired(c, reqs[1..]);
      assert forall k | 1 <= k <= |reqs[1..]| :: reqs[1..][k - 1] == reqs[k];
      r
  }

  /** `Program.Main` of the job runner, with the configuration already
      loaded: it succeeds exactly when both strings are present, and then
      prints nothing; otherwise it exits with 10 and prints one of the two
      lines. */
  function ProcessOrderMain(c: Config): (r: JobResult)
    ensures r.code == SuccessExitCode || r.code == MissingConfigExitCode
    ensures r.code == SuccessExitCode <==> Present(c, WebJobsKey) && Present(c, DatabaseKey)
    ensures r.code == SuccessExitCode ==> r.out == []
    ensures r.code == MissingConfigExitCode ==>
      r.out == [WebJobsMissingMessage] || r.out == [DatabaseMissingMessage]
  {
    assert Requirements[0].key == WebJobsKey && Requirements[1].key == DatabaseKey;
    assert Requirements[0].message == WebJobsMissingMessage;
    assert Requirements[1].message == DatabaseMissingMessage;
    CheckRequired(c, Requirements)
  }

  /** A missing Web Jobs connection string stops the run with the Web Jobs
      line alone, whatever the database string is. */
  lemma WebJobsMissing(c: Config)
    requires !Present(c, WebJobsKey)
    ensures ProcessOrderMain(c) == JobResult(MissingConfigExitCode, [WebJobsMissingMessage])
  {
  }

  /** With the Web Jobs string present, a missing database string stops the
      run with the database line alone. */
  lemma DatabaseMissing(c: Config)
    requires Present(c, WebJobsKey) && !Present(c, DatabaseKey)
    ensures ProcessOrderMain(c) == JobResult(MissingConfigExitCode, [DatabaseMissingMessage])
  {
    var rest := Requirements[1..];
    assert rest == [Requirement(DatabaseKey, DatabaseMissingMessage)];
    assert CheckRequired(c, rest) == JobResult(MissingConfigExitCode, [DatabaseMissingMessage]);
  }

  /** The run reads nothing but the two keys. */
  lemma ReadsOnlyTheTwoKeys(c1: Config, c2: Config)
    requires Lookup(c1, WebJobsKey) == Lookup(c2, WebJobsKey)
    requires Lookup(c1, DatabaseKey) == Lookup(c2, DatabaseKey)
    ensures ProcessOrderMain(c1) == ProcessOrderMain(c2)
  {
    assert Requirements[1..] == [Requirement(DatabaseKey, DatabaseMissingMessage)];
  }
}
