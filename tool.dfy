/** The top level of the tool: parse the command line, find the AWS keys,
    and set up the cluster object, any failure ending the tool. */
module Tool {
  import opened Common
  import opened Options
  import opened Credentials
  import opened Parameters
  import opened Text
  import opened Pairs
  import opened Cluster

  /** What `raw_input` raises once standard input is exhausted. */
  const EofError := "EOFError"

  /** The value the command line leaves in option field `f`: the last
      assignment to it, else its default. */
  function ParsedOption(opts: seq<(string, string)>, f: Field): Option<string>
  {
    LastValue(Assignments(opts), Some(f), Default(f))
  }

  /** Whether `config` holds what the command line `opts` gave to the
      options the outcome of the setup depends on. */
  ghost predicate HoldsParsed(config: KurentoClusterConfig, opts: seq<(string, string)>)
    reads config`region, config`stackName, config`awsKeyName, config`kurentoApiKey, config`hostedZoneId
    reads config`sslCert, config`sslKey
  {
    config.region == ParsedOption(opts, Region)
    && config.stackName == ParsedOption(opts, StackName)
    && config.awsKeyName == ParsedOption(opts, AwsKeyName)
    && config.kurentoApiKey == ParsedOption(opts, KurentoApiKey)
    && config.hostedZoneId == ParsedOption(opts, HostedZoneId)
    && config.sslCert == ParsedOption(opts, SslCert)
    && config.sslKey == ParsedOption(opts, SslKey)
  }

  /** A fresh configuration filled in from the command line. */
  method Configure(argv: seq<string>, opts: Option<seq<(string, string)>>)
    returns (r: Outcome, config: KurentoClusterConfig)
    ensures fresh(config)
    ensures r == ArgumentsOutcome(argv, opts)
    ensures r == Pass ==> config.command == Some(argv[0]) && config.Unvalidated() && HoldsParsed(config, opts.value)
    ensures r == Pass ==>
              config.awsAccessKeyId == ParsedOption(opts.value, AwsAccessKeyId)
              && config.awsSecretAccessKey == ParsedOption(opts.value, AwsSecretAccessKey)
  {
    config := new KurentoClusterConfig();
    r := config.ParseArguments(argv, opts);
    if r == Pass {
      assert config.Get(Region) == ParsedOption(opts.value, Region);
      assert config.Get(StackName) == ParsedOption(opts.value, StackName);
      assert config.Get(AwsKeyName) == ParsedOption(opts.value, AwsKeyName);
      assert config.Get(KurentoApiKey) == ParsedOption(opts.value, KurentoApiKey);
      assert config.Get(HostedZoneId) == ParsedOption(opts.value, HostedZoneId);
      assert config.Get(SslCert) == ParsedOption(opts.value, SslCert);
      assert config.Get(SslKey) == ParsedOption(opts.value, SslKey);
      assert config.Get(AwsAccessKeyId) == ParsedOption(opts.value, AwsAccessKeyId);
      assert config.Get(AwsSecretAccessKey) == ParsedOption(opts.value, AwsSecretAccessKey);
    }
  }

  /** Whether the credentials search runs, because the access key id
      `keyId` or the secret key `secret` is missing, and the profile menu
      then never gets a valid answer. */
  predicate MenuExhausted(keyId: Option<string>, secret: Option<string>, files: seq<ConfigView>, typed: ConfigView,
                          answers: seq<int>)
  {
    (keyId.None? || secret.None?) && Selected(answers, |Gathered([], files, typed)|) == NoValidChoice
  }

  /** The AWS session: when a key is missing, the search of the credentials
      files and the profile menu; `exhausted` when the menu never gets a
      valid answer. */
  method FindKeys(config: KurentoClusterConfig, files: seq<ConfigView>, typed: ConfigView, answers: seq<int>)
    returns (exhausted: bool)
    modifies config`awsAccessKeyId, config`awsSecretAccessKey
    ensures exhausted <==>
              MenuExhausted(old(config.awsAccessKeyId), old(config.awsSecretAccessKey), files, typed, answers)
  {
    var session := new AwsSession(config);
    var selection := session.CreateAwsSession(files, typed, answers);
    exhausted := selection == Some(NoValidChoice);
  }

  /** The cluster object of a configuration no validator has seen, kept
      only when its validation passes. */
  method Setup(config: KurentoClusterConfig, env: Environment) returns (r: Outcome, cluster: KurentoCluster?)
    requires config.Unvalidated()
    modifies config`templateBody, config`awsS3BucketName, config`hostedZoneFqdn, config`clusterFqdn
    modifies config`sslCertChunks, config`sslKeyChunk, config`sslCommonName, config`sslFqdn, config`sslWildcard
    ensures InitializeOutcome(config, env, r)
    ensures r == Pass <==> cluster != null
    ensures cluster != null ==>
              cluster.config == config
              && (config.command == Some(CmdCreate) ==>
                    cluster.TemplateFor(env) && cluster.params == CreateParameters(cluster.Settings()))
  {
    cluster := null;
    var created := new KurentoCluster(config);
    r := created.Initialize(env);
    if r == Pass {
      if config.command == Some(CmdCreate) {
        EmptyPrefix(CreateParameters(created.Settings()));
      }
      cluster := created;
    }
  }

  /** The AWS session and the cluster object for a parsed configuration. */
  method Proceed(config: KurentoClusterConfig, files: seq<ConfigView>, typed: ConfigView, answers: seq<int>,
                 env: Environment)
    returns (r: Outcome, cluster: KurentoCluster?)
    requires config.Unvalidated()
    modifies config`awsAccessKeyId, config`awsSecretAccessKey
    modifies config`templateBody, config`awsS3BucketName, config`hostedZoneFqdn, config`clusterFqdn
    modifies config`sslCertChunks, config`sslKeyChunk, config`sslCommonName, config`sslFqdn, config`sslWildcard
    ensures unchanged(config`command, config`region, config`stackName, config`awsKeyName, config`kurentoApiKey)
    ensures unchanged(config`hostedZoneId, config`sslCert, config`sslKey)
    ensures MenuExhausted(old(config.awsAccessKeyId), old(config.awsSecretAccessKey), files, typed, answers) ==>
              r == Fail(Crash(EofError))
    ensures !MenuExhausted(old(config.awsAccessKeyId), old(config.awsSecretAccessKey), files, typed, answers) ==>
              InitializeOutcome(config, env, r)
    ensures r == Pass <==> cluster != null
    ensures cluster != null ==>
              cluster.config == config
              && (config.command == Some(CmdCreate) ==>
                    cluster.TemplateFor(env) && cluster.params == CreateParameters(cluster.Settings()))
  {
    var exhausted := FindKeys(config, files, typed, answers);
    if exhausted {
      // the menu asks again until `raw_input` finds no more input
      r, cluster := Fail(Crash(EofError)), null;
      return;
    }
    r, cluster := Setup(config, env);
  }

  /** The main program up to `cluster.execute()`: the configuration from the
      argument vector, the AWS session, then the cluster object. `files`
      are the credentials files that exist, `typed` the keys typed in when
      they have no profile, `answers` the replies to the profile menu, and
      `env` what the cluster's validators learn from the outside world.
      `config` keeps the values the command line gave to the options the
      outcome depends on. */
  method Start(argv: seq<string>, opts: Option<seq<(string, string)>>, files: seq<ConfigView>,
               typed: ConfigView, answers: seq<int>, env: Environment)
    returns (r: Outcome, config: KurentoClusterConfig, cluster: KurentoCluster?)
    ensures ArgumentsOutcome(argv, opts) != Pass ==> r == ArgumentsOutcome(argv, opts) && cluster == null
    ensures ArgumentsOutcome(argv, opts) == Pass ==> config.command == Some(argv[0]) && HoldsParsed(config, opts.value)
    ensures ArgumentsOutcome(argv, opts) == Pass ==>
              var keyId, secret := ParsedOption(opts.value, AwsAccessKeyId), ParsedOption(opts.value, AwsSecretAccessKey);
              (MenuExhausted(keyId, secret, files, typed, answers) ==> r == Fail(Crash(EofError)))
              && (!MenuExhausted(keyId, secret, files, typed, answers) ==> InitializeOutcome(config, env, r))
    ensures r == Pass <==> cluster != null
    ensures cluster != null ==>
              cluster.config == config
              && (config.command == Some(CmdCreate) ==>
                    cluster.TemplateFor(env) && cluster.params == CreateParameters(cluster.Settings()))
  {
    cluster := null;
    r, config := Configure(argv, opts);
    if r != Pass {
      return;
    }
    r, cluster := Proceed(config, files, typed, answers, env);
  }
}
