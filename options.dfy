/** The command line of the tool (`KurentoClusterConfig` in
    tools/kurento-cluster.py): the command, the options `getopt` returned, and
    the configuration record they fill in. */
module Options {
  import opened Common
  import opened Pairs

  const CmdCreate := "create"
  const CmdDelete := "delete"
  const CmdList := "list"
  const CmdShow := "show"

  /** `_get_usage`: the usage text of one of the four commands; any other
      command ends the tool with "Unknown command". */
  function GetUsage(command: string): (r: Result<UsageText>)
    ensures r.Ok? <==> command in {CmdCreate, CmdDelete, CmdList, CmdShow}
    ensures r.Err? ==> r.failure == Usage(UnknownCommand + command, UsageAll)
  {
    if command == CmdCreate then Ok(UsageCreate)
    else if command == CmdDelete then Ok(UsageDelete)
    else if command == CmdList then Ok(UsageList)
    else if command == CmdShow then Ok(UsageShow)
    else Err(Usage(UnknownCommand + command, UsageAll))
  }

  /** Each command has its own usage text, so `help COMMAND` tells them apart. */
  lemma GetUsageDistinguishes(a: string, b: string)
    requires GetUsage(a).Ok? && GetUsage(a) == GetUsage(b)
    ensures a == b
  {
  }

  /** The configuration fields that a long option sets. */
  datatype Field =
    | AwsAccessKeyId | AwsSecretAccessKey | AwsInstanceTenancy | AwsInstanceType
    | AwsKeyName | AwsS3BucketName | DesiredCapacity | MaxCapacity | MinCapacity
    | ControlOrigin | KurentoApiKey | KurentoApiOrigin | HostedZoneId | LogStorage
    | Region | SslCert | SslKey | StackName | TurnUsername | TurnPassword
    | HealthCheckGracePeriod | KmsControllerUrl | TestMode

  const BranchCount := 23

  /** The long option, as `getopt` reports it, that branch `i` of the
      option loop looks for, and the field that branch assigns. */
  function Branch(i: nat): (string, Field)
    requires i < BranchCount
  {
    match i
    case 0 => ("--aws-access-key-id", AwsAccessKeyId)
    case 1 => ("--aws-secret-access-key", AwsSecretAccessKey)
    case 2 => ("--aws-instance-tenancy", AwsInstanceTenancy)
    case 3 => ("--aws-instance-type", AwsInstanceType)
    case 4 => ("--aws-key-name", AwsKeyName)
    case 5 => ("--aws-s3-bucket-name", AwsS3BucketName)
    case 6 => ("--desired-capacity", DesiredCapacity)
    case 7 => ("--max-capacity", MaxCapacity)
    case 8 => ("--min-capacity", MinCapacity)
    case 9 => ("--control-origin", ControlOrigin)
    case 10 => ("--kurento-api-key", KurentoApiKey)
    case 11 => ("--kurento-api-origin", KurentoApiOrigin)
    case 12 => ("--hosted-zone-id", HostedZoneId)
    case 13 => ("--log-storage", LogStorage)
    case 14 => ("--region", Region)
    case 15 => ("--ssl-cert", SslCert)
    case 16 => ("--ssl-key", SslKey)
    case 17 => ("--stack-name", StackName)
    case 18 => ("--turn-username", TurnUsername)
    case 19 => ("--turn-password", TurnPassword)
    case 20 => ("--health-check-grace-period", HealthCheckGracePeriod)
    case 21 => ("--kmscluster-controller-url", KmsControllerUrl)
    case _ => ("--test-mode", TestMode)
  }

  /** The field an option assigns: the first branch, from `i` on, that tests for it. */
  function BranchField(opt: string, i: nat): Option<Field>
    decreases BranchCount - i
  {
    if i >= BranchCount then None
    else if Branch(i).0 == opt then Some(Branch(i).1)
    else BranchField(opt, i + 1)
  }

  function OptionField(opt: string): Option<Field>
  {
    BranchField(opt, 0)
  }

  /** Each option paired with the field its branch assigns and the argument. */
  function Assignments(opts: seq<(string, string)>): seq<(Option<Field>, string)>
  {
    seq(|opts|, i requires 0 <= i < |opts| => (OptionField(opts[i].0), opts[i].1))
  }

  /** The short options `-h` and `-j` assign no field. */
  lemma ShortOptionsAssignNothing()
    ensures OptionField("-h") == None && OptionField("-j") == None
  {
    ShortOptionMissesBranches("-h", 0);
    ShortOptionMissesBranches("-j", 0);
  }

  /** Every branch tests for a long option, so no two-character option matches one. */
  lemma {:induction false} ShortOptionMissesBranches(opt: string, i: nat)
    requires |opt| == 2
    ensures BranchField(opt, i) == None
    decreases BranchCount - i
  {
    if i < BranchCount {
      assert |Branch(i).0| > 2;
      ShortOptionMissesBranches(opt, i + 1);
    }
  }

  /** An option at which the option loop ends the tool: `-h`, or one that no
      branch recognises. */
  predicate Stops(opt: string)
  {
    opt == "-h" || (opt != "-j" && OptionField(opt).None?)
  }

  /** How many options the loop processes before it stops, if it does. */
  function OptionsStop(opts: seq<(string, string)>): (k: nat)
    ensures k <= |opts|
    ensures k < |opts| ==> Stops(opts[k].0)
    ensures forall j :: 0 <= j < k ==> !Stops(opts[j].0)
  {
    if opts == [] then 0
    else if Stops(opts[0].0) then 0
    else 1 + OptionsStop(opts[1..])
  }

  /** The loop stops at the first option that `Stops`. */
  lemma StopsHere(opts: seq<(string, string)>, i: nat)
    requires i < |opts| && i <= OptionsStop(opts) && Stops(opts[i].0)
    ensures OptionsStop(opts) == i
  {
  }

  /** An option that does not stop the loop lets it go on past it. */
  lemma ContinuesPast(opts: seq<(string, string)>, i: nat)
    requires i < |opts| && i <= OptionsStop(opts) && !Stops(opts[i].0)
    ensures i + 1 <= OptionsStop(opts)
  {
  }

  /** One more option adds its assignment at the end. */
  lemma AssignmentsStep(opts: seq<(string, string)>, i: nat)
    requires i < |opts|
    ensures Assignments(opts[..i + 1]) == Assignments(opts[..i]) + [(OptionField(opts[i].0), opts[i].1)]
  {
    var longer, shorter := Assignments(opts[..i + 1]), Assignments(opts[..i]);
    forall j | 0 <= j < i ensures longer[j] == shorter[j] {
      assert opts[..i + 1][j] == opts[..i][j];
    }
    assert longer == shorter + [longer[i]];
  }

  /** One more option requests JSON output when it is `-j`. */
  lemma JsonRequestedStep(opts: seq<(string, string)>, i: nat)
    requires i < |opts|
    ensures JsonRequested(opts[..i + 1]) == (opts[i].0 == "-j" || JsonRequested(opts[..i]))
  {
    assert opts[..i + 1][..i] == opts[..i];
  }

  /** How the option loop ends: normally, on `-h` with the general usage, or,
      for an unrecognised option, through the one-argument `usage` call whose
      TypeError the surrounding `except` turns into a second `usage`. `getopt`
      never returns an unrecognised option, so that last case is reached only
      by option lists that do not come from it. */
  function OptionsOutcome(opts: seq<(string, string)>): Outcome
  {
    var k := OptionsStop(opts);
    if k == |opts| then Pass
    else if opts[k].0 == "-h" then Fail(Usage("", UsageAll))
    else Fail(Usage(UnparsableOptions + UsageArityError, UsageAll))
  }

  /** Whether `-j` occurs among the options. */
  predicate JsonRequested(opts: seq<(string, string)>)
  {
    opts != [] && (opts[|opts| - 1].0 == "-j" || JsonRequested(opts[..|opts| - 1]))
  }

  /** How `__init__` handles the argument vector before the options: an
      empty vector and `help` end the tool with a usage text, and the first
      word must be a known command (`_read_command`). */
  function CommandOutcome(argv: seq<string>): (r: Outcome)
    ensures r == Pass <==> |argv| > 0 && argv[0] != "help" && GetUsage(argv[0]).Ok?
  {
    if |argv| == 0 then Fail(Usage("", UsageAll))
    else if argv[0] == "help" then
      if |argv| > 1 then
        match GetUsage(argv[1])
        case Ok(info) => Fail(Usage("", info))
        case Err(e) => Fail(e)
      else Fail(Usage("", UsageAll))
    else if GetUsage(argv[0]).Err? then Fail(GetUsage(argv[0]).failure)
    else Pass
  }

  /** The outcome of `KurentoClusterConfig.__init__` for an argument vector
      and what `getopt` made of its tail (`None` when `getopt` raised). */
  function ArgumentsOutcome(argv: seq<string>, opts: Option<seq<(string, string)>>): (r: Outcome)
    ensures r == Pass ==> |argv| > 0 && GetUsage(argv[0]).Ok? && opts.Some?
  {
    if CommandOutcome(argv) != Pass then CommandOutcome(argv)
    else if opts.None? then Fail(Usage(UnparsableOptions, UsageAll))
    else OptionsOutcome(opts.value)
  }

  /** A repeated option overwrites the earlier one: after the option loop
      ran to the end, a field holds the argument of the last option that
      assigns it. */
  lemma {:induction false} LastOptionWins(opts: seq<(string, string)>, i: nat, f: Field, default: Option<string>)
    requires i < |opts| && OptionField(opts[i].0) == Some(f)
    requires forall j :: i < j < |opts| ==> OptionField(opts[j].0) != Some(f)
    ensures LastValue(Assignments(opts), Some(f), default) == Some(opts[i].1)
  {
    LastValueIsLast(Assignments(opts), Some(f), default, i);
  }

  /** A field that no option assigns keeps its value. */
  lemma {:induction false} UnassignedFieldKept(opts: seq<(string, string)>, f: Field, default: Option<string>)
    requires forall j :: 0 <= j < |opts| ==> OptionField(opts[j].0) != Some(f)
    ensures LastValue(Assignments(opts), Some(f), default) == default
  {
    LastValueAbsent(Assignments(opts), Some(f), default);
  }

  /** Asking for help always ends the tool. */
  lemma HelpNeverPasses(argv: seq<string>, opts: Option<seq<(string, string)>>)
    requires |argv| > 0 && argv[0] == "help"
    ensures ArgumentsOutcome(argv, opts).Fail?
  {
  }

  function Default(f: Field): Option<string>
  {
    if f == TestMode then Some("false") else None
  }

  /** `KurentoClusterConfig`: the options, the module-level `out_json` flag
      that `-j` sets, and the fields the validators derive later. */
  class KurentoClusterConfig {
    var command: Option<string>
    var outJson: bool
    var awsAccessKeyId: Option<string>
    var awsSecretAccessKey: Option<string>
    var awsInstanceTenancy: Option<string>
    var awsInstanceType: Option<string>
    var awsKeyName: Option<string>
    var awsS3BucketName: Option<string>
    var desiredCapacity: Option<string>
    var maxCapacity: Option<string>
    var minCapacity: Option<string>
    var controlOrigin: Option<string>
    var kurentoApiKey: Option<string>
    var kurentoApiOrigin: Option<string>
    var hostedZoneId: Option<string>
    var logStorage: Option<string>
    var region: Option<string>
    var sslCert: Option<string>
    var sslKey: Option<string>
    var stackName: Option<string>
    var turnUsername: Option<string>
    var turnPassword: Option<string>
    var healthCheckGracePeriod: Option<string>
    var kmsControllerUrl: Option<string>
    var testMode: Option<string>
    // derived by the validators
    var clusterFqdn: Option<string>
    var hostedZoneFqdn: Option<string>
    var sslCertChunks: seq<string>
    var sslKeyChunk: Option<string>
    var sslCommonName: Option<string>
    var sslFqdn: Option<string>
    var sslWildcard: Option<bool>
    var templateBody: Option<string>

    /** The value of the field an option sets. */
    function Get(f: Field): Option<string>
      reads this`awsAccessKeyId, this`awsSecretAccessKey, this`awsInstanceTenancy, this`awsInstanceType
      reads this`awsKeyName, this`awsS3BucketName, this`desiredCapacity, this`maxCapacity, this`minCapacity
      reads this`controlOrigin, this`kurentoApiKey, this`kurentoApiOrigin, this`hostedZoneId, this`logStorage
      reads this`region, this`sslCert, this`sslKey, this`stackName, this`turnUsername, this`turnPassword
      reads this`healthCheckGracePeriod, this`kmsControllerUrl, this`testMode
    {
      match f
      case AwsAccessKeyId => awsAccessKeyId
      case AwsSecretAccessKey => awsSecretAccessKey
      case AwsInstanceTenancy => awsInstanceTenancy
      case AwsInstanceType => awsInstanceType
      case AwsKeyName => awsKeyName
      case AwsS3BucketName => awsS3BucketName
      case DesiredCapacity => desiredCapacity
      case MaxCapacity => maxCapacity
      case MinCapacity => minCapacity
      case ControlOrigin => controlOrigin
      case KurentoApiKey => kurentoApiKey
      case KurentoApiOrigin => kurentoApiOrigin
      case HostedZoneId => hostedZoneId
      case LogStorage => logStorage
      case Region => region
      case SslCert => sslCert
      case SslKey => sslKey
      case StackName => stackName
      case TurnUsername => turnUsername
      case TurnPassword => turnPassword
      case HealthCheckGracePeriod => healthCheckGracePeriod
      case KmsControllerUrl => kmsControllerUrl
      case TestMode => testMode
    }

    /** The fields the validators of `KurentoCluster` fill in. */
    ghost function Validated(): (Option<string>, Option<string>, seq<string>, Option<string>,
                                 Option<string>, Option<string>, Option<bool>, Option<string>)
      reads this`clusterFqdn, this`hostedZoneFqdn, this`sslCertChunks, this`sslKeyChunk
      reads this`sslCommonName, this`sslFqdn, this`sslWildcard, this`templateBody
    {
      (clusterFqdn, hostedZoneFqdn, sslCertChunks, sslKeyChunk,
       sslCommonName, sslFqdn, sslWildcard, templateBody)
    }

    /** No validator has filled in its fields yet. */
    ghost predicate Unvalidated()
      reads this`clusterFqdn, this`hostedZoneFqdn, this`sslCertChunks, this`sslKeyChunk
      reads this`sslCommonName, this`sslFqdn, this`sslWildcard, this`templateBody
    {
      Validated() == (None, None, [], None, None, None, None, None)
    }

    /** The fields no option sets. */
    ghost function Derived(): (Option<string>, (Option<string>, Option<string>, seq<string>, Option<string>,
                                                Option<string>, Option<string>, Option<bool>, Option<string>))
      reads this`command, this`clusterFqdn, this`hostedZoneFqdn, this`sslCertChunks, this`sslKeyChunk
      reads this`sslCommonName, this`sslFqdn, this`sslWildcard, this`templateBody
    {
      (command, Validated())
    }

    /** The class attributes' initial values. */
    constructor ()
      ensures forall f :: Get(f) == Default(f)
      ensures !outJson
      ensures command.None? && Unvalidated()
    {
      command, outJson := None, false;
      awsAccessKeyId, awsSecretAccessKey, awsInstanceTenancy, awsInstanceType := None, None, None, None;
      awsKeyName, awsS3BucketName, desiredCapacity, maxCapacity, minCapacity := None, None, None, None, None;
      controlOrigin, kurentoApiKey, kurentoApiOrigin, hostedZoneId, logStorage := None, None, None, None, None;
      region, sslCert, sslKey, stackName, turnUsername, turnPassword := None, None, None, None, None, None;
      healthCheckGracePeriod, kmsControllerUrl, testMode := None, None, Some("false");
      clusterFqdn, hostedZoneFqdn, sslCertChunks, sslKeyChunk := None, None, [], None;
      sslCommonName, sslFqdn, sslWildcard, templateBody := None, None, None, None;
    }

    /** One branch of the option loop: `self.<field> = arg`. */
    method Set(f: Field, arg: string)
      modifies this`awsAccessKeyId, this`awsSecretAccessKey, this`awsInstanceTenancy, this`awsInstanceType
      modifies this`awsKeyName, this`awsS3BucketName, this`desiredCapacity, this`maxCapacity, this`minCapacity
      modifies this`controlOrigin, this`kurentoApiKey, this`kurentoApiOrigin, this`hostedZoneId, this`logStorage
      modifies this`region, this`sslCert, this`sslKey, this`stackName, this`turnUsername, this`turnPassword
      modifies this`healthCheckGracePeriod, this`kmsControllerUrl, this`testMode
      ensures forall g :: Get(g) == if g == f then Some(arg) else old(Get(g))
      ensures outJson == old(outJson) && Derived() == old(Derived())
    {
      if f in {AwsAccessKeyId, AwsSecretAccessKey, AwsInstanceTenancy, AwsInstanceType, AwsKeyName, AwsS3BucketName} {
        SetAwsField(f, arg);
      } else if f in {DesiredCapacity, MaxCapacity, MinCapacity, ControlOrigin, KurentoApiKey, KurentoApiOrigin} {
        SetServiceField(f, arg);
      } else if f in {HostedZoneId, LogStorage, Region, SslCert, SslKey, StackName} {
        SetStackField(f, arg);
      } else {
        SetTestField(f, arg);
      }
    }

    /** The branches of the option loop for the AWS account and instances. */
    method SetAwsField(f: Field, arg: string)
      requires f in {AwsAccessKeyId, AwsSecretAccessKey, AwsInstanceTenancy, AwsInstanceType, AwsKeyName, AwsS3BucketName}
      modifies this`awsAccessKeyId, this`awsSecretAccessKey, this`awsInstanceTenancy, this`awsInstanceType
      modifies this`awsKeyName, this`awsS3BucketName, this`desiredCapacity, this`maxCapacity, this`minCapacity
      modifies this`controlOrigin, this`kurentoApiKey, this`kurentoApiOrigin, this`hostedZoneId, this`logStorage
      modifies this`region, this`sslCert, this`sslKey, this`stackName, this`turnUsername, this`turnPassword
      modifies this`healthCheckGracePeriod, this`kmsControllerUrl, this`testMode
      ensures forall g :: Get(g) == if g == f then Some(arg) else old(Get(g))
    {
      match f
      case AwsAccessKeyId => awsAccessKeyId := Some(arg);
      case AwsSecretAccessKey => awsSecretAccessKey := Some(arg);
      case AwsInstanceTenancy => awsInstanceTenancy := Some(arg);
      case AwsInstanceType => awsInstanceType := Some(arg);
      case AwsKeyName => awsKeyName := Some(arg);
      case AwsS3BucketName => awsS3BucketName := Some(arg);
    }

    /** The branches of the option loop for capacities and the Kurento service. */
    method SetServiceField(f: Field, arg: string)
      requires f in {DesiredCapacity, MaxCapacity, MinCapacity, ControlOrigin, KurentoApiKey, KurentoApiOrigin}
      modifies this`awsAccessKeyId, this`awsSecretAccessKey, this`awsInstanceTenancy, this`awsInstanceType
      modifies this`awsKeyName, this`awsS3BucketName, this`desiredCapacity, this`maxCapacity, this`minCapacity
      modifies this`controlOrigin, this`kurentoApiKey, this`kurentoApiOrigin, this`hostedZoneId, this`logStorage
      modifies this`region, this`sslCert, this`sslKey, this`stackName, this`turnUsername, this`turnPassword
      modifies this`healthCheckGracePeriod, this`kmsControllerUrl, this`testMode
      ensures forall g :: Get(g) == if g == f then Some(arg) else old(Get(g))
    {
      match f
      case DesiredCapacity => desiredCapacity := Some(arg);
      case MaxCapacity => maxCapacity := Some(arg);
      case MinCapacity => minCapacity := Some(arg);
      case ControlOrigin => controlOrigin := Some(arg);
      case KurentoApiKey => kurentoApiKey := Some(arg);
      case KurentoApiOrigin => kurentoApiOrigin := Some(arg);
    }

    /** The branches of the option loop for the stack, its zone and certificate. */
    method SetStackField(f: Field, arg: string)
      requires f in {HostedZoneId, LogStorage, Region, SslCert, SslKey, StackName}
      modifies this`awsAccessKeyId, this`awsSecretAccessKey, this`awsInstanceTenancy, this`awsInstanceType
      modifies this`awsKeyName, this`awsS3BucketName, this`desiredCapacity, this`maxCapacity, this`minCapacity
      modifies this`controlOrigin, this`kurentoApiKey, this`kurentoApiOrigin, this`hostedZoneId, this`logStorage
      modifies this`region, this`sslCert, this`sslKey, this`stackName, this`turnUsername, this`turnPassword
      modifies this`healthCheckGracePeriod, this`kmsControllerUrl, this`testMode
      ensures forall g :: Get(g) == if g == f then Some(arg) else old(Get(g))
    {
      match f
      case HostedZoneId => hostedZoneId := Some(arg);
      case LogStorage => logStorage := Some(arg);
      case Region => region := Some(arg);
      case SslCert => sslCert := Some(arg);
      case SslKey => sslKey := Some(arg);
      case StackName => stackName := Some(arg);
    }

    /** The branches of the option loop for TURN and the test settings. */
    method SetTestField(f: Field, arg: string)
      requires f in {TurnUsername, TurnPassword, HealthCheckGracePeriod, KmsControllerUrl, TestMode}
      modifies this`awsAccessKeyId, this`awsSecretAccessKey, this`awsInstanceTenancy, this`awsInstanceType
      modifies this`awsKeyName, this`awsS3BucketName, this`desiredCapacity, this`maxCapacity, this`minCapacity
      modifies this`controlOrigin, this`kurentoApiKey, this`kurentoApiOrigin, this`hostedZoneId, this`logStorage
      modifies this`region, this`sslCert, this`sslKey, this`stackName, this`turnUsername, this`turnPassword
      modifies this`healthCheckGracePeriod, this`kmsControllerUrl, this`testMode
      ensures forall g :: Get(g) == if g == f then Some(arg) else old(Get(g))
    {
      match f
      case TurnUsername => turnUsername := Some(arg);
      case TurnPassword => turnPassword := Some(arg);
      case HealthCheckGracePeriod => healthCheckGracePeriod := Some(arg);
      case KmsControllerUrl => kmsControllerUrl := Some(arg);
      case TestMode => testMode := Some(arg);
    }

    /** One pass of the option loop for an option that does not end the
        tool: `-j` switches on JSON output, any other assigns its field. */
    method ApplyOption(opt: string, arg: string)
      requires !Stops(opt)
      modifies this
      ensures forall f :: Get(f) == if OptionField(opt) == Some(f) then Some(arg) else old(Get(f))
      ensures outJson == (old(outJson) || opt == "-j")
      ensures Derived() == old(Derived())
    {
      if opt == "-j" {
        ShortOptionsAssignNothing();
        outJson := true;
      } else {
        Set(OptionField(opt).value, arg);
      }
    }

    /** The option loop of `__init__`: every recognised option assigns its
        field, so the last occurrence of an option wins; `-j` switches on JSON
        output; `-h` and an unrecognised option end the tool. */
    method ApplyOptions(opts: seq<(string, string)>) returns (r: Outcome)
      modifies this
      ensures r == OptionsOutcome(opts)
      ensures forall f :: Get(f) == LastValue(Assignments(opts[..OptionsStop(opts)]), Some(f), old(Get(f)))
      ensures outJson == (old(outJson) || JsonRequested(opts[..OptionsStop(opts)]))
      ensures r == Pass ==> forall f :: Get(f) == LastValue(Assignments(opts), Some(f), old(Get(f)))
      ensures r == Pass ==> outJson == (old(outJson) || JsonRequested(opts))
      ensures Derived() == old(Derived())
    {
      var i := 0;
      while i < |opts|
        invariant i <= OptionsStop(opts)
        invariant forall f :: Get(f) == LastValue(Assignments(opts[..i]), Some(f), old(Get(f)))
        invariant outJson == (old(outJson) || JsonRequested(opts[..i]))
        invariant Derived() == old(Derived())
      {
        var (opt, arg) := opts[i];
        if Stops(opt) {
          StopsHere(opts, i);
          if opt == "-h" {
            return Fail(Usage("", UsageAll));
          }
          // the one-argument `usage` call raises a TypeError, caught below;
          // unreachable for an option list that `getopt` produced
          return Fail(Usage(UnparsableOptions + UsageArityError, UsageAll));
        }
        ContinuesPast(opts, i);
        AssignmentsStep(opts, i);
        JsonRequestedStep(opts, i);
        forall f ensures LastValue(Assignments(opts[..i + 1]), Some(f), old(Get(f)))
                         == if OptionField(opt) == Some(f) then Some(arg)
                            else LastValue(Assignments(opts[..i]), Some(f), old(Get(f)))
        {
          LastValueAppend(Assignments(opts[..i]), (OptionField(opt), arg), Some(f), old(Get(f)));
        }
        ApplyOption(opt, arg);
        i := i + 1;
      }
      assert opts[..|opts|] == opts;
      r := Pass;
    }

    /** The start of `__init__`: the empty vector, `help`, and `_read_command`,
        which records a known command. */
    method ReadCommand(argv: seq<string>) returns (r: Outcome)
      modifies this`command
      ensures r == CommandOutcome(argv)
      ensures command == if r == Pass then Some(argv[0]) else old(command)
    {
      if |argv| == 0 {
        return Fail(Usage("", UsageAll));
      }
      if argv[0] == "help" {
        if |argv| > 1 {
          match GetUsage(argv[1])
          case Ok(info) => return Fail(Usage("", info));
          case Err(e) => return Fail(e);
        }
        return Fail(Usage("", UsageAll));
      }
      var usage := GetUsage(argv[0]);
      if usage.Err? {
        return Fail(usage.failure);
      }
      command := Some(argv[0]);
      return Pass;
    }

    /** `KurentoClusterConfig.__init__`: `argv` is the argument vector after
        the program name and `opts` what `getopt` returned for its tail. */
    method ParseArguments(argv: seq<string>, opts: Option<seq<(string, string)>>) returns (r: Outcome)
      modifies this
      ensures r == ArgumentsOutcome(argv, opts)
      ensures r == Pass ==> command == Some(argv[0])
      ensures r == Pass ==> forall f :: Get(f) == LastValue(Assignments(opts.value), Some(f), old(Get(f)))
      ensures r == Pass ==> outJson == (old(outJson) || JsonRequested(opts.value))
      ensures Validated() == old(Validated())
    {
      r := ReadCommand(argv);
      if r != Pass {
        return;
      }
      if opts.None? {
        return Fail(Usage(UnparsableOptions, UsageAll));
      }
      r := ApplyOptions(opts.value);
    }
  }
}
