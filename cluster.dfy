/** `KurentoCluster`: the validators that check and complete the
    configuration for the create and delete commands, the CloudFormation
    template it prepares, and the stack parameters it collects. */
module Cluster {
  import opened Common
  import opened Text
  import opened Pairs
  import opened Options
  import opened Certificate
  import opened Template
  import opened Parameters

  /** What `os.path.exists` and `open(...).read()` give for the template file. */
  datatype TemplateFile = Missing | Unreadable | Contents(text: string)

  /** What the SSL validation learns from the filesystem and OpenSSL: the
      certificate text (None when its path does not exist), the subject's
      components (None when OpenSSL rejects the text), the key text (None
      when its path does not exist) and whether OpenSSL accepts the key. */
  datatype SslFiles = SslFiles(
    certText: Option<string>,
    subject: Option<seq<(string, string)>>,
    keyText: Option<string>,
    keyLoads: bool)

  /** Everything the SSL validation needs to go through to the common name. */
  predicate SslLoaded(files: SslFiles)
  {
    files.certText.Some? && files.subject.Some? && files.keyText.Some? && files.keyLoads
  }

  /** The answers of the outside world while the cluster object is set up. */
  datatype Environment = Environment(
    templateFile: TemplateFile,
    buckets: seq<string>,            // the names `list_buckets` reports
    hostedZoneName: Option<string>,  // `get_hosted_zone`'s zone name; None when the call fails
    ssl: SslFiles,
    parsedTemplate: Option<Json>,    // `json.loads` of the template body; None when malformed
    images: seq<Image>)              // `describe_images` for the Kurento Media Server AMI

  // Names of the exceptions that end the tool on the paths modelled here.
  const TypeError := "TypeError"
  const CryptoError := "OpenSSL.crypto.Error"

  /** The bucket `_validate_s3` leaves: the configured one, else the bucket
      named `<region>-<stack>` when the account already has it. */
  function AdoptedBucket(configured: Option<string>, region: string, stackName: string,
                         buckets: seq<string>): Option<string>
  {
    if configured.Some? then configured
    else if region + "-" + stackName in buckets then Some(region + "-" + stackName)
    else None
  }

  /** The zone name `_validate_route53` records where none was: with a zone
      id, the name Route 53 reports without its trailing dots. */
  function ZoneAfter(hostedZoneId: Option<string>, zoneName: Option<string>): Option<string>
  {
    if hostedZoneId.Some? && zoneName.Some? then Some(RStrip(zoneName.value, '.')) else None
  }

  /** The hosted-zone test at the end of `_validate_ssl`, on the recorded
      zone and common-name fields. Python evaluates the `or` from the left,
      so `re.sub` meets a missing name (a `TypeError`) only when the
      wildcard test did not already fail. */
  function ZoneCheck(zone: Option<string>, commonName: Option<string>, fqdn: Option<string>,
                     wildcard: Option<bool>): (r: Outcome)
    ensures zone.None? ==> r == Pass
    ensures r == Pass && zone.Some? ==> fqdn.Some? && MatchesHostedZone(zone.value, wildcard, fqdn.value)
    ensures zone.Some? && fqdn.Some? && commonName.Some? ==>
              r == if MatchesHostedZone(zone.value, wildcard, fqdn.value) then Pass
                   else Fail(Usage(ZoneMismatch(commonName.value, zone.value), UsageRoute53))
    ensures zone.Some? && fqdn.None? && wildcard != Some(true) ==> r == Fail(Crash(TypeError))
  {
    if zone.None? then Pass
    else
      var wildcardMismatch := wildcard == Some(true) && Some(zone.value) != fqdn;
      if !wildcardMismatch && fqdn.None? then Fail(Crash(TypeError))
      else if wildcardMismatch || zone.value != SubFirstLabel(fqdn.value) then
        if commonName.None? then Fail(Crash(TypeError))
        else Fail(Usage(ZoneMismatch(commonName.value, zone.value), UsageRoute53))
      else Pass
  }

  /** The common-name fields the subject loop of `_validate_ssl` leaves
      where they were unset: those of the first `CN` component, if any. */
  function CommonNameFields(subject: seq<(string, string)>): (Option<string>, Option<string>, Option<bool>)
  {
    match FirstValue(subject, "CN")
    case None => (None, None, None)
    case Some(cn) => (Some(cn), Some(SslFqdn(cn)), Some(IsWildcard(cn)))
  }

  /** Whether `_validate_ssl` passes where the common-name fields were
      unset, checking against `zone`: no certificate, or a certificate and
      a key that both load and whose common name fits the zone. */
  predicate SslPasses(cert: Option<string>, key: Option<string>, files: SslFiles, zone: Option<string>)
  {
    cert.None?
    || (key.Some? && SslLoaded(files)
        && var name := CommonNameFields(files.subject.value);
        ZoneCheck(zone, name.0, name.1, name.2) == Pass)
  }

  /** Whether `_build_cloudformation_template` passes: the body parses to a
      JSON object and some image has a creation date. */
  predicate TemplateBuilds(parsed: Option<Json>, images: seq<Image>)
  {
    parsed.Some? && parsed.value.JObject? && exists j :: 0 <= j < |images| && images[j].creationTs > 0
  }

  /** Whether the first create validators pass on `config`: an
      alphanumeric stack name, an AWS key name, a readable template file, an
      alphanumeric Kurento API key if one is given, and a zone Route 53 knows
      if a hosted zone id is given. */
  ghost predicate SettingsPass(config: KurentoClusterConfig, env: Environment)
    reads config`stackName, config`awsKeyName, config`kurentoApiKey, config`hostedZoneId
  {
    config.stackName.Some? && IsAlnum(config.stackName.value)
    && config.awsKeyName.Some? && env.templateFile.Contents?
    && (config.kurentoApiKey.None? || IsAlnum(config.kurentoApiKey.value))
    && (config.hostedZoneId.None? || env.hostedZoneName.Some?)
  }

  /** Whether the whole setup of the create command passes on `config`: the
      validators, the certificate checked against the zone they found, and
      the template. */
  ghost predicate CreateSetupPasses(config: KurentoClusterConfig, env: Environment)
    reads config`stackName, config`awsKeyName, config`kurentoApiKey, config`hostedZoneId
    reads config`sslCert, config`sslKey
  {
    SettingsPass(config, env)
    && SslPasses(config.sslCert, config.sslKey, env.ssl, ZoneAfter(config.hostedZoneId, env.hostedZoneName))
    && TemplateBuilds(env.parsedTemplate, env.images)
  }

  /** The outcome `__init__` reaches on `config`: a missing region always
      fails first; the create command passes exactly when its setup passes,
      the delete command exactly with an alphanumeric stack name, and any
      other command exactly with a region. */
  ghost predicate InitializeOutcome(config: KurentoClusterConfig, env: Environment, r: Outcome)
    reads config`command, config`region, config`stackName, config`awsKeyName, config`kurentoApiKey
    reads config`hostedZoneId, config`sslCert, config`sslKey
  {
    (config.region.None? ==> r == Fail(Usage(MissingRegion, UsageRegion)))
    && (config.command == Some(CmdCreate) ==> (r == Pass <==> config.region.Some? && CreateSetupPasses(config, env)))
    && (config.command == Some(CmdDelete) ==>
          (r == Pass <==> config.region.Some? && config.stackName.Some? && IsAlnum(config.stackName.value)))
    && (config.command !in {Some(CmdCreate), Some(CmdDelete)} ==> (r == Pass <==> config.region.Some?))
  }

  class KurentoCluster {
    const config: KurentoClusterConfig
    var template: Json
    var params: seq<Parameter>

    /** The attributes `__init__` sets before it validates anything. */
    constructor (config: KurentoClusterConfig)
      ensures this.config == config && template == JNull && params == []
    {
      this.config := config;
      template := JNull;
      params := [];
    }

    /** `_validate_mandatory_parameters`: every command needs a region. */
    method ValidateMandatoryParameters() returns (r: Outcome)
      ensures r == Pass <==> config.region.Some?
      ensures r != Pass ==> r == Fail(Usage(MissingRegion, UsageRegion))
    {
      if config.region.None? {
        return Fail(Usage(MissingRegion, UsageRegion));
      }
      return Pass;
    }

    /** `_validate_mandatory_parameters_stack`: a stack name is given and is
        alphanumeric. */
    method ValidateMandatoryParametersStack() returns (r: Outcome)
      ensures r == Pass <==> config.stackName.Some? && IsAlnum(config.stackName.value)
      ensures config.stackName.None? ==> r == Fail(Usage(MissingStackName, UsageStackName))
      ensures config.stackName.Some? && !IsAlnum(config.stackName.value)
              ==> r == Fail(Usage(AlphanumericStackName, UsageStackName))
    {
      if config.stackName.None? {
        return Fail(Usage(MissingStackName, UsageStackName));
      }
      if !IsAlnum(config.stackName.value) {
        return Fail(Usage(AlphanumericStackName, UsageStackName));
      }
      return Pass;
    }

    /** `_validate_mandatory_parameters_create`: an AWS key name is given,
        the template file is read, and a Kurento API key, when given, is
        alphanumeric. */
    method ValidateMandatoryParametersCreate(file: TemplateFile) returns (r: Outcome)
      modifies config`templateBody
      ensures r == Pass <==> config.awsKeyName.Some? && file.Contents?
                              && (config.kurentoApiKey.None? || IsAlnum(config.kurentoApiKey.value))
      ensures config.awsKeyName.None? ==> r == Fail(Usage(MissingAwsKeyName, UsageAwsKeyName))
      ensures config.awsKeyName.Some? && file.Missing? ==> r == Fail(Fatal(MissingTemplate))
      ensures config.awsKeyName.Some? && file.Unreadable? ==> r == Fail(Fatal(OpenTemplate + ExceptionBreak))
      ensures config.awsKeyName.Some? && file.Contents? && r != Pass
              ==> r == Fail(Usage(AlphanumericKurentoApiKey, UsageKurentoApiKey))
      ensures config.templateBody
              == if config.awsKeyName.Some? && file.Contents? then Some(file.text) else old(config.templateBody)
    {
      if config.awsKeyName.None? {
        return Fail(Usage(MissingAwsKeyName, UsageAwsKeyName));
      }
      match file
      case Missing => return Fail(Fatal(MissingTemplate));
      case Unreadable => return Fail(Fatal(OpenTemplate + ExceptionBreak));
      case Contents(text) => config.templateBody := Some(text);
      if config.kurentoApiKey.Some? && !IsAlnum(config.kurentoApiKey.value) {
        return Fail(Usage(AlphanumericKurentoApiKey, UsageKurentoApiKey));
      }
      return Pass;
    }

    /** `_validate_s3`: with no bucket configured, adopt the bucket named
        `<region>-<stack>` when the account already has it. */
    method ValidateS3(buckets: seq<string>)
      requires config.region.Some? && config.stackName.Some?
      modifies config`awsS3BucketName
      ensures config.awsS3BucketName ==
                AdoptedBucket(old(config.awsS3BucketName), config.region.value, config.stackName.value, buckets)
    {
      if config.awsS3BucketName.None? {
        var wanted := config.region.value + "-" + config.stackName.value;
        for i := 0 to |buckets|
          invariant config.awsS3BucketName == if wanted in buckets[..i] then Some(wanted) else None
        {
          if buckets[i] == wanted {
            config.awsS3BucketName := Some(buckets[i]);
          }
          assert buckets[..i + 1] == buckets[..i] + [buckets[i]];
        }
        assert buckets[..|buckets|] == buckets;
      }
    }

    /** `_validate_route53`: with a hosted zone id, record the zone's name
        without the trailing dots Route 53 reports. */
    method ValidateRoute53(zoneName: Option<string>) returns (r: Outcome)
      modifies config`hostedZoneFqdn
      ensures r == Pass <==> config.hostedZoneId.None? || zoneName.Some?
      ensures r != Pass ==> r == Fail(Fatal(HostedZoneUnavailable))
      ensures config.hostedZoneFqdn ==
                if config.hostedZoneId.Some? && zoneName.Some? then Some(RStrip(zoneName.value, '.'))
                else old(config.hostedZoneFqdn)
    {
      if config.hostedZoneId.Some? {
        if zoneName.None? {
          return Fail(Fatal(HostedZoneUnavailable));
        }
        config.hostedZoneFqdn := Some(RStrip(zoneName.value, '.'));
      }
      return Pass;
    }

    /** The subject loop of `_validate_ssl`: the first `CN` component gives
        the common name, the name it stands for and whether it is a
        wildcard; without one, the three fields stay as they were. */
    method RecordCommonName(subject: seq<(string, string)>)
      modifies config`sslCommonName, config`sslFqdn, config`sslWildcard
      ensures FirstValue(subject, "CN").Some? ==>
                config.sslCommonName == FirstValue(subject, "CN")
                && config.sslFqdn == Some(SslFqdn(FirstValue(subject, "CN").value))
                && config.sslWildcard == Some(IsWildcard(FirstValue(subject, "CN").value))
      ensures FirstValue(subject, "CN").None? ==>
                config.sslCommonName == old(config.sslCommonName)
                && config.sslFqdn == old(config.sslFqdn)
                && config.sslWildcard == old(config.sslWildcard)
    {
      var i := 0;
      while i < |subject|
        invariant i <= |subject|
        invariant forall j :: 0 <= j < i ==> subject[j].0 != "CN"
        invariant config.sslCommonName == old(config.sslCommonName)
        invariant config.sslFqdn == old(config.sslFqdn)
        invariant config.sslWildcard == old(config.sslWildcard)
      {
        var (component, value) := subject[i];
        if component == "CN" {
          config.sslCommonName := Some(value);
          config.sslFqdn := Some(SslFqdn(value));
          if IsWildcard(value) {
            config.sslWildcard := Some(true);
          } else {
            config.sslWildcard := Some(false);
          }
          FirstValueIsFirst(subject, "CN", i);
          return;
        }
        i := i + 1;
      }
      FirstValueAbsent(subject, "CN");
    }

    /** The file part of `_validate_ssl`: the certificate must exist, and
        its text is kept in chunks before OpenSSL reads it; then the key
        must exist, and its text is kept whole before OpenSSL reads it. */
    method LoadKeyPair(files: SslFiles) returns (r: Outcome)
      requires config.sslCert.Some? && config.sslKey.Some?
      modifies config`sslCertChunks, config`sslKeyChunk
      ensures r == Pass <==> SslLoaded(files)
      ensures files.certText.None? ==> r == Fail(Usage(CertificateNotFound + config.sslCert.value, UsageSsl))
      ensures files.certText.Some? && files.subject.Some? && files.keyText.None?
              ==> r == Fail(Usage(KeyNotFound + config.sslKey.value, UsageSsl))
      ensures files.certText.Some? && (files.subject.None? || (files.keyText.Some? && !files.keyLoads))
              ==> r == Fail(Crash(CryptoError))
      ensures config.sslCertChunks
              == if files.certText.Some? then Chunks(files.certText.value) else old(config.sslCertChunks)
      ensures config.sslKeyChunk
              == if files.certText.Some? && files.subject.Some? && files.keyText.Some? then files.keyText
                 else old(config.sslKeyChunk)
    {
      if files.certText.None? {
        return Fail(Usage(CertificateNotFound + config.sslCert.value, UsageSsl));
      }
      config.sslCertChunks := Chunks(files.certText.value);
      if files.subject.None? {
        return Fail(Crash(CryptoError));
      }
      if files.keyText.None? {
        return Fail(Usage(KeyNotFound + config.sslKey.value, UsageSsl));
      }
      config.sslKeyChunk := files.keyText;
      if !files.keyLoads {
        return Fail(Crash(CryptoError));
      }
      return Pass;
    }

    /** `_validate_ssl`: a certificate needs a key; both files must exist
        and load; the certificate text is kept in chunks and the key text
        whole; the first common name is recorded and checked against the
        hosted zone. */
    method ValidateSsl(files: SslFiles) returns (r: Outcome)
      modifies config`sslCertChunks, config`sslKeyChunk, config`sslCommonName, config`sslFqdn, config`sslWildcard
      ensures config.sslCert.Some? && config.sslKey.None? ==> r == Fail(Usage(KeyRequired, UsageSsl))
      ensures config.sslCert.None? ==> r == Pass
      ensures config.sslCert.Some? && config.sslKey.Some? && files.certText.None?
              ==> r == Fail(Usage(CertificateNotFound + config.sslCert.value, UsageSsl))
      ensures (config.sslCert.Some? && config.sslKey.Some? && files.certText.Some? && files.subject.Some?
               && files.keyText.None?) ==> r == Fail(Usage(KeyNotFound + config.sslKey.value, UsageSsl))
      ensures config.sslCert.Some? && config.sslKey.Some? && files.certText.Some?
              && (files.subject.None? || (files.keyText.Some? && !files.keyLoads))
              ==> r == Fail(Crash(CryptoError))
      ensures config.sslCert.Some? && config.sslKey.Some? && files.certText.Some?
              ==> config.sslCertChunks == Chunks(files.certText.value)
      ensures (config.sslCert.Some? && config.sslKey.Some? && files.certText.Some? && files.subject.Some?
               && files.keyText.Some?) ==> config.sslKeyChunk == files.keyText
      ensures !(config.sslCert.Some? && config.sslKey.Some? && files.certText.Some?)
              ==> config.sslCertChunks == old(config.sslCertChunks)
      ensures !(config.sslCert.Some? && config.sslKey.Some? && files.certText.Some? && files.subject.Some?
                && files.keyText.Some?)
              ==> config.sslKeyChunk == old(config.sslKeyChunk)
      ensures r == Pass && config.sslCert.Some? ==> config.sslKey.Some? && SslLoaded(files)
      ensures config.sslCert.Some? && config.sslKey.Some? && SslLoaded(files)
              && FirstValue(files.subject.value, "CN").Some? ==>
                config.sslCommonName == FirstValue(files.subject.value, "CN")
                && config.sslFqdn == Some(SslFqdn(config.sslCommonName.value))
                && config.sslWildcard == Some(IsWildcard(config.sslCommonName.value))
      ensures config.sslCert.Some? && config.sslKey.Some? && SslLoaded(files) ==>
                r == ZoneCheck(config.hostedZoneFqdn, config.sslCommonName, config.sslFqdn, config.sslWildcard)
      ensures !(config.sslCert.Some? && config.sslKey.Some? && SslLoaded(files)
                && FirstValue(files.subject.value, "CN").Some?) ==>
                config.sslCommonName == old(config.sslCommonName) && config.sslFqdn == old(config.sslFqdn)
                && config.sslWildcard == old(config.sslWildcard)
    {
      if config.sslCert.Some? && config.sslKey.None? {
        return Fail(Usage(KeyRequired, UsageSsl));
      }
      if config.sslCert.None? {
        return Pass;
      }
      r := LoadKeyPair(files);
      if r != Pass {
        return;
      }
      RecordCommonName(files.subject.value);
      r := ZoneCheck(config.hostedZoneFqdn, config.sslCommonName, config.sslFqdn, config.sslWildcard);
    }

    /** `_validate_dns`: choose the DNS name of the cluster. */
    method ValidateDns()
      requires config.stackName.Some?
      modifies config`clusterFqdn
      ensures config.clusterFqdn == ClusterFqdn(old(config.clusterFqdn), config.sslWildcard,
                                                config.hostedZoneFqdn, config.sslFqdn, config.stackName.value)
    {
      if config.sslWildcard == Some(false) {
        config.clusterFqdn := config.sslFqdn;
      } else if config.hostedZoneFqdn.Some? {
        config.clusterFqdn := Some(config.stackName.value + "." + config.hostedZoneFqdn.value);
      } else if config.sslFqdn.Some? {
        config.clusterFqdn := Some(config.stackName.value + "." + config.sslFqdn.value);
      }
    }

    /** `_build_cloudformation_template`: parse the template, pick the newest
        image, and point the template's `Mappings` at it for the region. */
    method BuildCloudFormationTemplate(parsed: Option<Json>, images: seq<Image>) returns (r: Outcome)
      requires config.region.Some?
      modifies this`template
      ensures parsed.None? ==> r == Fail(Fatal(MalformedTemplate))
      ensures parsed.Some? && (forall j :: 0 <= j < |images| ==> images[j].creationTs <= 0)
              ==> r == Fail(Fatal(UnsupportedRegion + config.region.value))
      ensures r == Pass <==> TemplateBuilds(parsed, images)
      ensures r == Pass ==>
                exists k: nat :: IsLatest(images, k)
                  && template == JObject(WithMappings(parsed.value.members, RegionMap(config.region.value,
                                                                                       images[k].imageId)))
    {
      if parsed.None? {
        return Fail(Fatal(MalformedTemplate));
      }
      template := parsed.value;
      var imageId := LatestImage(images);
      if imageId.None? {
        return Fail(Fatal(UnsupportedRegion + config.region.value));
      }
      if !template.JObject? {
        // item assignment on a JSON value that is not an object
        return Fail(Crash(TypeError));
      }
      template := JObject(WithMappings(template.members, RegionMap(config.region.value, imageId.value)));
      return Pass;
    }

    /** `_add_param`: append one parameter when the value is set. */
    method AddParam(key: string, value: Option<string>)
      modifies this`params
      ensures params == old(params) + Present(key, value)
    {
      if value.Some? {
        params := params + [Parameter(key, value.value)];
      }
    }

    /** The configuration values the create command turns into parameters. */
    function Settings(): CreateSettings
      requires config.stackName.Some?
      reads config
    {
      CreateSettings(
        config.awsKeyName, config.stackName.value, config.desiredCapacity,
        config.awsInstanceTenancy, config.awsInstanceType, config.kurentoApiKey,
        config.kurentoApiOrigin, config.controlOrigin, config.turnUsername,
        config.turnPassword, config.hostedZoneId, config.clusterFqdn,
        config.awsS3BucketName, config.logStorage, config.sslCertChunks,
        config.sslKeyChunk, config.healthCheckGracePeriod, config.kmsControllerUrl,
        config.testMode)
    }

    /** The fourteen `_add_param` calls before the certificate. */
    method AddLeadingParameters()
      requires config.stackName.Some?
      modifies this`params
      ensures params == old(params) + LeadingParameters(Settings())
    {
      ghost var st := Settings();
      AddParam("KeyName", config.awsKeyName);
      ghost var built := Present("KeyName", st.keyName);  // the parameters appended so far
      AddParam("KurentoLoadBalancerName", Some(LoadBalancerName(config.stackName.value)));
      AppendAssociates(old(params), built, Present("KurentoLoadBalancerName", Some(LoadBalancerName(st.stackName))));
      built := built + Present("KurentoLoadBalancerName", Some(LoadBalancerName(st.stackName)));
      AddParam("DesiredCapacity", config.desiredCapacity);
      AppendAssociates(old(params), built, Present("DesiredCapacity", st.desiredCapacity));
      built := built + Present("DesiredCapacity", st.desiredCapacity);
      AddParam("InstanceTenancy", config.awsInstanceTenancy);
      AppendAssociates(old(params), built, Present("InstanceTenancy", st.instanceTenancy));
      built := built + Present("InstanceTenancy", st.instanceTenancy);
      AddParam("InstanceType", config.awsInstanceType);
      AppendAssociates(old(params), built, Present("InstanceType", st.instanceType));
      built := built + Present("InstanceType", st.instanceType);
      AddParam("ApiKey", config.kurentoApiKey);
      AppendAssociates(old(params), built, Present("ApiKey", st.apiKey));
      built := built + Present("ApiKey", st.apiKey);
      AddParam("ApiOrigin", config.kurentoApiOrigin);
      AppendAssociates(old(params), built, Present("ApiOrigin", st.apiOrigin));
      built := built + Present("ApiOrigin", st.apiOrigin);
      AddParam("ControlOrigin", config.controlOrigin);
      AppendAssociates(old(params), built, Present("ControlOrigin", st.controlOrigin));
      built := built + Present("ControlOrigin", st.controlOrigin);
      AddParam("TurnUsername", config.turnUsername);
      AppendAssociates(old(params), built, Present("TurnUsername", st.turnUsername));
      built := built + Present("TurnUsername", st.turnUsername);
      AddParam("TurnPassword", config.turnPassword);
      AppendAssociates(old(params), built, Present("TurnPassword", st.turnPassword));
      built := built + Present("TurnPassword", st.turnPassword);
      AddParam("HostedZoneId", config.hostedZoneId);
      AppendAssociates(old(params), built, Present("HostedZoneId", st.hostedZoneId));
      built := built + Present("HostedZoneId", st.hostedZoneId);
      AddParam("DnsName", config.clusterFqdn);
      AppendAssociates(old(params), built, Present("DnsName", st.dnsName));
      built := built + Present("DnsName", st.dnsName);
      AddParam("UserS3Bucket", config.awsS3BucketName);
      AppendAssociates(old(params), built, Present("UserS3Bucket", st.userS3Bucket));
      built := built + Present("UserS3Bucket", st.userS3Bucket);
      AddParam("LogStorage", config.logStorage);
      AppendAssociates(old(params), built, Present("LogStorage", st.logStorage));
      built := built + Present("LogStorage", st.logStorage);
      assert built == LeadingParameters(st);
    }

    /** The certificate loop: each chunk under `SslCertificate<i+1>`,
        followed each time by the key. */
    method AddCertificateParameters()
      requires config.stackName.Some?
      modifies this`params
      ensures params == old(params) + CertificateParameters(config.sslCertChunks, config.sslKeyChunk)
    {
      var chunks := config.sslCertChunks;
      for i := 0 to |chunks|
        invariant params == old(params) + CertificateParameters(chunks[..i], config.sslKeyChunk)
      {
        assert chunks[..i + 1][..i] == chunks[..i];
        AddParam(CertificateKey(i + 1), Some(chunks[i]));
        AddParam("SslKey", config.sslKeyChunk);
      }
      assert chunks[..|chunks|] == chunks;
    }

    /** The three test parameters after the certificate. */
    method AddTrailingParameters()
      requires config.stackName.Some?
      modifies this`params
      ensures params == old(params) + TrailingParameters(Settings())
    {
      ghost var st := Settings();
      AddParam("HealthCheckGracePeriod", config.healthCheckGracePeriod);
      AddParam("KmsControllerUrl", config.kmsControllerUrl);
      AppendAssociates(old(params), Present("HealthCheckGracePeriod", st.healthCheckGracePeriod),
                       Present("KmsControllerUrl", st.kmsControllerUrl));
      AddParam("TestMode", config.testMode);
      AppendAssociates(old(params),
                       Present("HealthCheckGracePeriod", st.healthCheckGracePeriod)
                       + Present("KmsControllerUrl", st.kmsControllerUrl),
                       Present("TestMode", st.testMode));
    }

    /** The parameter block of `__init__` for the create command. The key
        text is there whenever certificate chunks are, since `_validate_ssl`
        sets both. */
    method SetCreateParameters()
      requires config.stackName.Some?
      requires config.sslCertChunks != [] ==> config.sslKeyChunk.Some?
      modifies this`params
      ensures params == old(params) + CreateParameters(Settings())
    {
      ghost var st := Settings();
      AddLeadingParameters();
      AddCertificateParameters();
      AddTrailingParameters();
      AppendAssociates(old(params), LeadingParameters(st), CertificateParameters(st.certChunks, st.sslKey));
      AppendAssociates(old(params), LeadingParameters(st) + CertificateParameters(st.certChunks, st.sslKey),
                       TrailingParameters(st));
    }

    /** The certificate fields a passing `_validate_ssl` leaves where they
        were unset: with a certificate, its chunks, the key text and the
        first common name; without one, nothing. */
    ghost predicate CertificateRecorded(files: SslFiles)
      reads config`sslCert, config`sslCertChunks, config`sslKeyChunk
      reads config`sslCommonName, config`sslFqdn, config`sslWildcard
    {
      if config.sslCert.Some? then
        SslLoaded(files)
        && config.sslCertChunks == Chunks(files.certText.value) && config.sslKeyChunk == files.keyText
        && (config.sslCommonName, config.sslFqdn, config.sslWildcard) == CommonNameFields(files.subject.value)
      else
        config.sslCertChunks == [] && config.sslKeyChunk.None?
        && config.sslCommonName.None? && config.sslFqdn.None? && config.sslWildcard.None?
    }

    /** The configuration the create validators leave when they all pass
        where none had run before; `bucket` is the S3 bucket configured
        before them. */
    ghost predicate ValidatedForCreate(env: Environment, bucket: Option<string>)
      reads config
    {
      config.region.Some? && config.stackName.Some? && env.templateFile.Contents?
      && config.templateBody == Some(env.templateFile.text)
      && config.awsS3BucketName == AdoptedBucket(bucket, config.region.value, config.stackName.value, env.buckets)
      && config.hostedZoneFqdn == ZoneAfter(config.hostedZoneId, env.hostedZoneName)
      && CertificateRecorded(env.ssl)
      && config.clusterFqdn == ClusterFqdn(None, config.sslWildcard, config.hostedZoneFqdn, config.sslFqdn,
                                           config.stackName.value)
    }

    /** The template a passing `_build_cloudformation_template` leaves: the
        parsed one with its `Mappings` pointing the region at the newest
        image, which is then the image CloudFormation finds for the region. */
    ghost predicate TemplateFor(env: Environment)
      reads this`template, config`region
    {
      config.region.Some? && env.parsedTemplate.Some? && env.parsedTemplate.value.JObject?
      && exists k: nat :: IsLatest(env.images, k)
           && template == JObject(WithMappings(env.parsedTemplate.value.members,
                                               RegionMap(config.region.value, env.images[k].imageId)))
           && FindInMap(template.members, "RegionMap", config.region.value, "KmsImageId")
              == Some(JString(env.images[k].imageId))
    }

    /** The first validators of the create command: names, template file,
        S3 bucket and hosted zone. */
    method ValidateCreateSettings(env: Environment) returns (r: Outcome)
      requires config.region.Some? && config.hostedZoneFqdn.None?
      modifies config`templateBody, config`awsS3BucketName, config`hostedZoneFqdn
      ensures r == Pass <==> SettingsPass(config, env)
      ensures r == Pass ==>
                config.templateBody == Some(env.templateFile.text)
                && config.awsS3BucketName == AdoptedBucket(old(config.awsS3BucketName), config.region.value,
                                                           config.stackName.value, env.buckets)
                && config.hostedZoneFqdn == ZoneAfter(config.hostedZoneId, env.hostedZoneName)
    {
      r := ValidateMandatoryParametersStack();
      if r != Pass {
        return;
      }
      r := ValidateMandatoryParametersCreate(env.templateFile);
      if r != Pass {
        return;
      }
      ValidateS3(env.buckets);
      r := ValidateRoute53(env.hostedZoneName);
    }

    /** `_validate_ssl` where no certificate was recorded yet. */
    method ValidateCertificate(files: SslFiles) returns (r: Outcome)
      requires config.sslCommonName.None? && config.sslFqdn.None? && config.sslWildcard.None?
      requires config.sslCertChunks == [] && config.sslKeyChunk.None?
      modifies config`sslCertChunks, config`sslKeyChunk, config`sslCommonName, config`sslFqdn, config`sslWildcard
      ensures r == Pass <==> SslPasses(config.sslCert, config.sslKey, files, config.hostedZoneFqdn)
      ensures r == Pass ==> CertificateRecorded(files)
    {
      r := ValidateSsl(files);
      if config.sslCert.Some? && config.sslKey.Some? && SslLoaded(files) {
        assert (config.sslCommonName, config.sslFqdn, config.sslWildcard) == CommonNameFields(files.subject.value);
      }
    }

    /** The certificate validation and the choice of the cluster's DNS name. */
    method ValidateCertificateAndDns(files: SslFiles) returns (r: Outcome)
      requires config.stackName.Some? && IsAlnum(config.stackName.value)
      requires config.sslCommonName.None? && config.sslFqdn.None? && config.sslWildcard.None?
      requires config.sslCertChunks == [] && config.sslKeyChunk.None?
      modifies config`clusterFqdn
      modifies config`sslCertChunks, config`sslKeyChunk, config`sslCommonName, config`sslFqdn, config`sslWildcard
      ensures r == Pass <==> SslPasses(config.sslCert, config.sslKey, files, config.hostedZoneFqdn)
      ensures r == Pass ==> CertificateRecorded(files)
      ensures r == Pass ==>
                config.clusterFqdn == ClusterFqdn(old(config.clusterFqdn), config.sslWildcard, config.hostedZoneFqdn,
                                                  config.sslFqdn, config.stackName.value)
      ensures r == Pass ==> (config.sslCertChunks != [] ==> config.sslKeyChunk.Some?)
      ensures r == Pass && config.hostedZoneFqdn.Some? ==>
                config.clusterFqdn.Some? && SubFirstLabel(config.clusterFqdn.value) == config.hostedZoneFqdn.value
    {
      r := ValidateCertificate(files);
      if r != Pass {
        return;
      }
      ValidateDns();
      if config.hostedZoneFqdn.Some? {
        ClusterUnderHostedZone(old(config.clusterFqdn), config.sslWildcard, config.hostedZoneFqdn.value,
                               config.sslFqdn, config.stackName.value);
      }
    }

    /** The validators the create command runs, in order, up to the choice
        of the cluster's DNS name. */
    method ValidateCreate(env: Environment) returns (r: Outcome)
      requires config.region.Some? && config.Unvalidated()
      modifies config`templateBody, config`awsS3BucketName, config`hostedZoneFqdn, config`clusterFqdn
      modifies config`sslCertChunks, config`sslKeyChunk, config`sslCommonName, config`sslFqdn, config`sslWildcard
      ensures r == Pass <==>
                SettingsPass(config, env)
                && SslPasses(config.sslCert, config.sslKey, env.ssl, ZoneAfter(config.hostedZoneId, env.hostedZoneName))
      ensures r == Pass ==> ValidatedForCreate(env, old(config.awsS3BucketName))
      ensures r == Pass ==> (config.sslCertChunks != [] ==> config.sslKeyChunk.Some?)
      ensures r == Pass && config.hostedZoneFqdn.Some? ==>
                config.clusterFqdn.Some? && SubFirstLabel(config.clusterFqdn.value) == config.hostedZoneFqdn.value
    {
      r := ValidateCreateSettings(env);
      if r != Pass {
        return;
      }
      r := ValidateCertificateAndDns(env.ssl);
    }

    /** The end of the create branch of `__init__`, once the validators
        passed: the template, then the parameter block. */
    method PrepareStack(env: Environment) returns (r: Outcome)
      requires config.region.Some? && config.stackName.Some?
      requires config.sslCertChunks != [] ==> config.sslKeyChunk.Some?
      modifies this`template, this`params
      ensures r == Pass <==> TemplateBuilds(env.parsedTemplate, env.images)
      ensures r == Pass ==> TemplateFor(env) && params == old(params) + CreateParameters(Settings())
    {
      r := BuildCloudFormationTemplate(env.parsedTemplate, env.images);
      if r != Pass {
        return;
      }
      ghost var k: nat :| IsLatest(env.images, k)
        && template == JObject(WithMappings(env.parsedTemplate.value.members,
                                            RegionMap(config.region.value, env.images[k].imageId)));
      RegionMapFindsImage(env.parsedTemplate.value.members, config.region.value, env.images[k].imageId);
      SetCreateParameters();
    }

    /** The create branch of `__init__`: the validators, the template, then
        the parameter block. */
    method InitializeCreate(env: Environment) returns (r: Outcome)
      requires config.region.Some? && config.Unvalidated()
      modifies this`template, this`params
      modifies config`templateBody, config`awsS3BucketName, config`hostedZoneFqdn, config`clusterFqdn
      modifies config`sslCertChunks, config`sslKeyChunk, config`sslCommonName, config`sslFqdn, config`sslWildcard
      ensures r == Pass <==> CreateSetupPasses(config, env)
      ensures r == Pass ==>
                ValidatedForCreate(env, old(config.awsS3BucketName)) && TemplateFor(env)
                && config.stackName.Some? && params == old(params) + CreateParameters(Settings())
      ensures r == Pass && config.hostedZoneFqdn.Some? ==>
                config.clusterFqdn.Some? && SubFirstLabel(config.clusterFqdn.value) == config.hostedZoneFqdn.value
    {
      r := ValidateCreate(env);
      if r != Pass {
        return;
      }
      r := PrepareStack(env);
    }

    /** The validation part of `__init__`: every command needs a region; the
        create command runs every validator, builds the template and the
        parameters; the delete command checks the stack name; the other
        commands change nothing. No validator has run before. */
    method Initialize(env: Environment) returns (r: Outcome)
      requires config.Unvalidated()
      modifies this`template, this`params
      modifies config`templateBody, config`awsS3BucketName, config`hostedZoneFqdn, config`clusterFqdn
      modifies config`sslCertChunks, config`sslKeyChunk, config`sslCommonName, config`sslFqdn, config`sslWildcard
      ensures InitializeOutcome(config, env, r)
      ensures r == Pass && config.command == Some(CmdCreate) ==>
                ValidatedForCreate(env, old(config.awsS3BucketName)) && TemplateFor(env)
                && config.stackName.Some? && params == old(params) + CreateParameters(Settings())
      ensures r == Pass && config.command == Some(CmdCreate) && config.hostedZoneFqdn.Some? ==>
                config.clusterFqdn.Some? && SubFirstLabel(config.clusterFqdn.value) == config.hostedZoneFqdn.value
      ensures config.command != Some(CmdCreate) ==>
                params == old(params) && template == old(template)
                && config.Validated() == old(config.Validated())
                && config.awsS3BucketName == old(config.awsS3BucketName)
    {
      r := ValidateMandatoryParameters();
      if r != Pass {
        return;
      }
      if config.command == Some(CmdCreate) {
        r := InitializeCreate(env);
      } else if config.command == Some(CmdDelete) {
        r := ValidateMandatoryParametersStack();
      }
    }
  }
}
