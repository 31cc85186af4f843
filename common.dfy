/** Values shared by every part of the model: optional values, the ways the
    tool ends early, and the fixed messages it prints when it does. */
module Common {

  datatype Option<+T> = None | Some(value: T)

  /** The usage text a `usage` call prints after its message. The texts
      themselves are presentation and are not modelled. */
  datatype UsageText =
    | UsageAll | UsageCreate | UsageDelete | UsageList | UsageShow
    | UsageRegion | UsageStackName | UsageAwsKeyName | UsageKurentoApiKey
    | UsageSsl | UsageRoute53

  /** Every early end of the tool; all of them exit with status 1. */
  datatype Failure =
    | Usage(message: string, info: UsageText)  // `usage(message, info)`
    | Fatal(message: string)                   // `log_error(message)`
    | Crash(exception: string)                 // an exception nothing catches

  datatype Result<+T> = Ok(value: T) | Err(failure: Failure)

  datatype Outcome = Pass | Fail(failure: Failure)

  // Messages of the tool. Where the tool appends the text of a library
  // exception, the message keeps the tool's own text up to it, separator
  // included, and drops the exception text.
  const ExceptionBreak := "\n\n   "
  const DueTo := " due to:" + ExceptionBreak
  const TemplateFile := "aws/kurento-cluster-template.json"
  const MissingRegion := "Missing mandatory parameter --region"
  const MissingStackName := "Missing mandatory parameter --stack-name"
  const MissingAwsKeyName := "Missing mandatory parameter --aws-key-name"
  const AlphanumericStackName := "Stack name must be an alphanumeric string"
  const AlphanumericKurentoApiKey := "kurento-api-key name must be an alphanumeric string"
  const MissingTemplate := "CloudFormation template file not found: " + TemplateFile
  const OpenTemplate := "Unable to open CloudFormation template file: " + TemplateFile
  const UnknownCommand := "Unknown command: "
  const UnparsableOptions := "Unable to parse command line options" + ExceptionBreak
  /** What `str(e)` reads for the TypeError raised by calling `usage` with one argument. */
  const UsageArityError := "usage() takes exactly 2 arguments (1 given)"
  const KeyRequired := "Private Key must be provided with SSL certificate"
  const CertificateNotFound := "SSL certificate not found or unable to open: "
  const KeyNotFound := "SSL private key not found or unable to open: "
  const HostedZoneUnavailable := "Unable to get AWS hosted zone info" + ExceptionBreak
  const MalformedTemplate := "Malformed CloudFormation template" + ExceptionBreak
  const UnsupportedRegion := "Kurento Cluster not supported in region: "
  const UnsupportedStatus := "Unsupported AWS status: "
  const UnknownStack := "AWS reports unknown stack: "
  const NotKurentoCluster := "Not a Kurento Cluster: "
  const DeletionFailed := "CloudFormation did not complete deletion of stack: "
  const ListFailed := "Unable to retrieve list of clusters" + DueTo

  /** The message `_validate_ssl` prints when the certificate does not fit the hosted zone. */
  function ZoneMismatch(commonName: string, zone: string): string
  {
    "SSL certificate name does not match hosted zone FQDN\n"
    + "\n  SSL common name   : " + commonName
    + "\n  Hosted zone domain: " + zone
  }

  /** Appending to an empty sequence gives the appended one. */
  lemma EmptyPrefix<T>(s: seq<T>)
    ensures [] + s == s
  {
  }

  /** Appending is associative. */
  lemma AppendAssociates<T>(a: seq<T>, b: seq<T>, c: seq<T>)
    ensures (a + b) + c == a + (b + c)
  {
  }
}
