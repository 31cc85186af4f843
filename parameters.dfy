/** The CloudFormation stack parameters the create command sends, as the
    list `KurentoCluster.__init__` builds with `_add_param`. */
module Parameters {
  import opened Common
  import opened Text

  /** `{"ParameterKey": key, "ParameterValue": value}`. */
  datatype Parameter = Parameter(key: string, value: string)

  /** What one `_add_param(key, value)` call appends: one parameter when the
      value is set, nothing when it is None. */
  function Present(key: string, value: Option<string>): (r: seq<Parameter>)
    ensures |r| <= 1 && forall p :: p in r ==> p.key == key
  {
    if value.Some? then [Parameter(key, value.value)] else []
  }

  /** The values the create command reads from the configuration. */
  datatype CreateSettings = CreateSettings(
    keyName: Option<string>,
    stackName: string,
    desiredCapacity: Option<string>,
    instanceTenancy: Option<string>,
    instanceType: Option<string>,
    apiKey: Option<string>,
    apiOrigin: Option<string>,
    controlOrigin: Option<string>,
    turnUsername: Option<string>,
    turnPassword: Option<string>,
    hostedZoneId: Option<string>,
    dnsName: Option<string>,
    userS3Bucket: Option<string>,
    logStorage: Option<string>,
    certChunks: seq<string>,
    sslKey: Option<string>,
    healthCheckGracePeriod: Option<string>,
    kmsControllerUrl: Option<string>,
    testMode: Option<string>)

  /** `(stack_name + "KurentoLoadBalancer")[:32]`: AWS caps load balancer
      names at 32 characters. */
  function LoadBalancerName(stackName: string): (r: string)
    ensures |r| <= 32
    ensures StartsWith(stackName + "KurentoLoadBalancer", r)
    ensures |r| == 32 || r == stackName + "KurentoLoadBalancer"
  {
    var full := stackName + "KurentoLoadBalancer";
    if |full| <= 32 then full else full[..32]
  }

  /** The key of the `n`-th certificate chunk, counting from 1. */
  function CertificateKey(n: nat): string
  {
    "SslCertificate" + DecimalString(n)
  }

  /** The parameters of the certificate loop: for each chunk, its
      `SslCertificateN` entry followed by an `SslKey` entry. */
  function CertificateParameters(chunks: seq<string>, key: Option<string>): seq<Parameter>
  {
    if chunks == [] then []
    else CertificateParameters(chunks[..|chunks| - 1], key)
         + [Parameter(CertificateKey(|chunks|), chunks[|chunks| - 1])]
         + Present("SslKey", key)
  }

  /** The fourteen parameters set before the certificate, in call order. */
  function LeadingParameters(s: CreateSettings): seq<Parameter>
  {
    Present("KeyName", s.keyName)
    + Present("KurentoLoadBalancerName", Some(LoadBalancerName(s.stackName)))
    + Present("DesiredCapacity", s.desiredCapacity)
    + Present("InstanceTenancy", s.instanceTenancy)
    + Present("InstanceType", s.instanceType)
    + Present("ApiKey", s.apiKey)
    + Present("ApiOrigin", s.apiOrigin)
    + Present("ControlOrigin", s.controlOrigin)
    + Present("TurnUsername", s.turnUsername)
    + Present("TurnPassword", s.turnPassword)
    + Present("HostedZoneId", s.hostedZoneId)
    + Present("DnsName", s.dnsName)
    + Present("UserS3Bucket", s.userS3Bucket)
    + Present("LogStorage", s.logStorage)
  }

  /** The three test parameters set after the certificate, in call order. */
  function TrailingParameters(s: CreateSettings): seq<Parameter>
  {
    Present("HealthCheckGracePeriod", s.healthCheckGracePeriod)
    + Present("KmsControllerUrl", s.kmsControllerUrl)
    + Present("TestMode", s.testMode)
  }

  /** Everything the create command appends to the parameter list. */
  function CreateParameters(s: CreateSettings): seq<Parameter>
  {
    LeadingParameters(s) + CertificateParameters(s.certChunks, s.sslKey) + TrailingParameters(s)
  }

  /** How many parameters carry `key`. */
  function CountKey(ps: seq<Parameter>, key: string): nat
  {
    if ps == [] then 0
    else CountKey(ps[..|ps| - 1], key) + (if ps[|ps| - 1].key == key then 1 else 0)
  }

  lemma {:induction false} CountKeyAppend(a: seq<Parameter>, b: seq<Parameter>, key: string)
    ensures CountKey(a + b, key) == CountKey(a, key) + CountKey(b, key)
    decreases |b|
  {
    if b == [] {
      assert a + b == a;
    } else {
      var last := if b[|b| - 1].key == key then 1 else 0;
      assert (a + b)[..|a + b| - 1] == a + b[..|b| - 1];
      assert (a + b)[|a + b| - 1] == b[|b| - 1];
      assert CountKey(a + b, key) == CountKey(a + b[..|b| - 1], key) + last;
      CountKeyAppend(a, b[..|b| - 1], key);
    }
  }

  lemma {:induction false} CountKeyAbsent(ps: seq<Parameter>, key: string)
    requires forall p :: p in ps ==> p.key != key
    ensures CountKey(ps, key) == 0
  {
    if ps != [] {
      CountKeyAbsent(ps[..|ps| - 1], key);
    }
  }

  /** The certificate loop's entries alternate: chunk `i` sits at `2i` under
      `SslCertificate<i+1>` and the key follows it at `2i+1`. */
  lemma {:induction false} CertificateParametersShape(chunks: seq<string>, key: string)
    ensures |CertificateParameters(chunks, Some(key))| == 2 * |chunks|
    ensures forall i :: 0 <= i < |chunks| ==>
              CertificateParameters(chunks, Some(key))[2 * i] == Parameter(CertificateKey(i + 1), chunks[i])
    ensures forall i :: 0 <= i < |chunks| ==>
              CertificateParameters(chunks, Some(key))[2 * i + 1] == Parameter("SslKey", key)
  {
    if chunks != [] {
      var n := |chunks|;
      CertificateParametersShape(chunks[..n - 1], key);
      var init := CertificateParameters(chunks[..n - 1], Some(key));
      var ps := CertificateParameters(chunks, Some(key));
      assert ps == init + [Parameter(CertificateKey(n), chunks[n - 1]), Parameter("SslKey", key)];
      assert |init| == 2 * (n - 1);
      assert ps[2 * (n - 1)] == Parameter(CertificateKey(n), chunks[n - 1]);
      assert ps[2 * (n - 1) + 1] == Parameter("SslKey", key);
      forall i | 0 <= i < n - 1
        ensures ps[2 * i] == Parameter(CertificateKey(i + 1), chunks[i])
        ensures ps[2 * i + 1] == Parameter("SslKey", key)
      {
        assert ps[2 * i] == init[2 * i] && ps[2 * i + 1] == init[2 * i + 1];
        assert chunks[..n - 1][i] == chunks[i];
      }
    }
  }

  lemma LeadingParametersHaveNoKey(s: CreateSettings)
    ensures forall p :: p in LeadingParameters(s) ==> p.key != "SslKey"
  {
  }

  /** The certificate loop appends the key once per chunk. */
  lemma {:induction false} CertificateKeyCount(chunks: seq<string>, key: string)
    ensures CountKey(CertificateParameters(chunks, Some(key)), "SslKey") == |chunks|
  {
    if chunks != [] {
      var n := |chunks|;
      CertificateKeyCount(chunks[..n - 1], key);
      CountKeyAppend(CertificateParameters(chunks[..n - 1], Some(key)),
                     [Parameter(CertificateKey(n), chunks[n - 1]), Parameter("SslKey", key)], "SslKey");
      assert CertificateKey(n)[..6] == "SslCer";
    }
  }

  /** With a key and `n` certificate chunks, the stack gets `n` `SslKey`
      parameters; none of the other calls uses that key. */
  lemma CreateParametersKeyCount(s: CreateSettings)
    requires s.sslKey.Some?
    ensures CountKey(CreateParameters(s), "SslKey") == |s.certChunks|
  {
    var lead, cert, trail := LeadingParameters(s), CertificateParameters(s.certChunks, s.sslKey), TrailingParameters(s);
    CountKeyAppend(lead + cert, trail, "SslKey");
    CountKeyAppend(lead, cert, "SslKey");
    LeadingParametersHaveNoKey(s);
    CountKeyAbsent(lead, "SslKey");
    CountKeyAbsent(trail, "SslKey");
    CertificateKeyCount(s.certChunks, s.sslKey.value);
  }

  /** Each chunk gets its own key. */
  lemma CertificateKeysDistinct(m: nat, n: nat)
    requires m != n
    ensures CertificateKey(m) != CertificateKey(n)
  {
    if CertificateKey(m) == CertificateKey(n) {
      assert CertificateKey(m)[14..] == DecimalString(m);
      assert CertificateKey(n)[14..] == DecimalString(n);
      DecimalStringInjective(m, n);
    }
  }
}
