# Kurento Cluster tool, modelled in Dafny

`tools/kurento-cluster.py` is the command-line tool that creates, deletes,
lists and shows Kurento Media Server clusters on AWS, each cluster being a
CloudFormation stack. This project models the rules the tool applies
between the command line and the AWS calls, and proves what those rules
guarantee. The rules are:

- reading the command and its options;
- finding the AWS credentials profile;
- validating the configuration for the create and delete commands;
- splitting the SSL certificate into chunks;
- deriving the certificate's name and checking it against the Route 53
  hosted zone;
- choosing the cluster's DNS name;
- picking the newest Kurento Media Server image and writing it into the
  template;
- assembling the stack parameters;
- one step of the wait for a stack to settle;
- reading a stack's outputs, listing the clusters of a region, and the
  guard before a deletion.

The answers of AWS, the filesystem, OpenSSL and the terminal are inputs
to the model.

Modules, one per file:

- `Common` (`common.dfy`): `Option`, `Result`, and the three ways the tool
  ends early. These are `Usage` (the `usage` helper), `Fatal` (the
  `log_error` helper) and `Crash` (an exception nothing catches, by its
  Python name). The module also holds the tool's fixed messages.
- `Text` (`text.dfy`): the Python 2 string operations the tool depends on,
  each with its exact meaning: `isalnum`, the substring test `in`, `lstrip`,
  `rstrip`, `str(n)`, and `re.sub('^.+?\.', '', s)`.
- `Pairs` (`pairs.dfy`): loops over key/value pairs that stop at the first
  match, or let a later match overwrite an earlier one.
- `Options` (`options.dfy`): the class `KurentoClusterConfig`, the option
  loop and `_get_usage`.
- `Credentials` (`credentials.dfy`): the class `AwsSession`, which reads the
  credential profiles and lets the user pick one.
- `Certificate` (`certificate.dfy`): certificate chunks, the common name,
  the hosted-zone test and the cluster's DNS name.
- `Template` (`template.dfy`): the template as JSON, the newest-image
  selection, and the `Mappings` injection.
- `Parameters` (`parameters.dfy`): the stack parameter list as a function of
  the configuration.
- `Cluster` (`cluster.dfy`): the class `KurentoCluster`, with its
  validators, `_add_param`, and the create and delete parts of `__init__`.
- `Stacks` (`stacks.dfy`): the poll step of `_wait_cf_cmd`, `_describe_stack`,
  the filter of `_list`, and the guard of `_delete`.
- `Tool` (`tool.dfy`): the main program up to `execute`, which chains the
  three constructors.

The model keeps the tool's quirks as written:

- With a single credentials profile, `_select_aws_credentials` returns that
  profile's keys, and `_create_aws_session` ignores them.
- `SslKey` is appended once per certificate chunk.
- The last branch of the option loop (tools/kurento-cluster.py:442-443),
  for an option no other branch names, calls `usage` with one argument. That
  call would raise a `TypeError`, which the `except` reports as an
  unparsable command line. The branch is unreachable from the command line:
  `getopt` rejects unknown options and expands abbreviated ones before the
  loop runs, and its error takes the unparsable-command-line path with
  `None` for the options. The model keeps the branch because it takes the
  option list as given.
- More than one stack in the poll answer reaches the undefined name
  `resquest` and raises a `NameError`.
- A wildcard certificate whose domain contains a dot, and whose common name
  has no newline, never passes the hosted-zone test.
  `Certificate.WildcardWithDotRejected` proves this. (A newline stops the
  `re.sub` pattern, which does not match across lines.)

Follows the code where the description of the tool differs:

- A status is checked with Python's substring `in` against the waiting
  state and the final state, not with equality.
- A missing certificate name reaches `re.sub` and raises a `TypeError`,
  unless the wildcard test already failed.

## Model

| member | source | states |
|---|---|---|
| Options.GetUsage | tools/kurento-cluster.py:451-460 | the four commands `create`, `delete`, `list`, `show` have a usage text and exactly those succeed; any other command fails with "Unknown command: " followed by the command and the general usage |
| Options.GetUsageDistinguishes | tools/kurento-cluster.py:451-460 | two commands with the same usage text are the same command |
| Options.ShortOptionsAssignNothing | tools/kurento-cluster.py:389-392 | `-h` and `-j` assign no configuration field |
| Options.OptionsStop | tools/kurento-cluster.py:389-443 | the option loop processes options up to the first `-h` or unrecognised option, and none before it stops the loop |
| Options.CommandOutcome | tools/kurento-cluster.py:355-360 | the argument vector gets past the command checks exactly when it is non-empty, does not start with `help`, and starts with a known command |
| Options.ArgumentsOutcome | tools/kurento-cluster.py:354-360 | the constructor gets past its checks only with a non-empty argument vector whose first word is a known command and whose options `getopt` accepted |
| Options.HelpNeverPasses | tools/kurento-cluster.py:357-360 | `help`, with or without a command, always ends the tool |
| Options.LastOptionWins | tools/kurento-cluster.py:389-441 | when an option appears more than once, its field holds the argument of the last occurrence |
| Options.UnassignedFieldKept | tools/kurento-cluster.py:389-441 | a field that no option assigns keeps its value |
| Options.KurentoClusterConfig.constructor | tools/kurento-cluster.py:313-352 | every option field starts unset except `test_mode`, which is "false"; the derived fields start unset and the certificate chunks empty |
| Options.KurentoClusterConfig.Set | tools/kurento-cluster.py:393-441 | one branch assigns its own field and leaves every other field unchanged |
| Options.KurentoClusterConfig.SetAwsField | tools/kurento-cluster.py:395-406 | the account and instance branches: each assigns its own field and leaves every other field unchanged |
| Options.KurentoClusterConfig.SetServiceField | tools/kurento-cluster.py:407-418 | the capacity and service branches: each assigns its own field and leaves every other field unchanged |
| Options.KurentoClusterConfig.SetStackField | tools/kurento-cluster.py:419-430 | the zone, region, certificate and stack branches: each assigns its own field and leaves every other field unchanged |
| Options.KurentoClusterConfig.SetTestField | tools/kurento-cluster.py:431-441 | the TURN and test branches: each assigns its own field and leaves every other field unchanged |
| Options.KurentoClusterConfig.ApplyOption | tools/kurento-cluster.py:389-441 | `-j` turns on JSON output; a long option assigns its argument to exactly its field |
| Options.KurentoClusterConfig.ApplyOptions | tools/kurento-cluster.py:389-445 | the loop's outcome is `OptionsOutcome`; each field holds the last assignment among the processed options, or its old value; JSON output is on exactly when `-j` was processed |
| Options.KurentoClusterConfig.ReadCommand | tools/kurento-cluster.py:355-360 | the outcome is `CommandOutcome`; the command is recorded exactly when it passes |
| Options.KurentoClusterConfig.ParseArguments | tools/kurento-cluster.py:354-449 | the constructor's outcome is `ArgumentsOutcome`; on success the command is recorded and every field holds its last option's argument; the fields the validators fill in are left as they were |
| Credentials.AwsSession.constructor | tools/kurento-cluster.py:462-469 | the session records the configuration and starts with no profile |
| Credentials.AwsSession.GetAwsCredentials | tools/kurento-cluster.py:506-521 | appends, in order, every section and then `DEFAULT` that has both keys, with those keys; the earlier profiles are kept |
| Credentials.ProfilesWithKeysMembers | tools/kurento-cluster.py:506-521 | a profile is collected exactly when it is visited and has both keys, with exactly those key values |
| Credentials.ProfilesWithKeysBound | tools/kurento-cluster.py:506-521 | no more profiles are collected than are visited |
| Credentials.AwsSession.GetAwsConfiguration | tools/kurento-cluster.py:495-504 | the profiles of every existing file are appended, file by file; the typed-in keys are added only when there is still no profile |
| Credentials.FilesProfilesMembers | tools/kurento-cluster.py:496-500 | a profile is collected from the files exactly when one of the files yields it |
| Credentials.FirstValidChoice | tools/kurento-cluster.py:482-493 | the answer found is in the range from 1 to the profile count and no earlier answer is; when none is found, no answer is in range |
| Credentials.Selected | tools/kurento-cluster.py:479-493 | one profile needs no menu; otherwise the first in-range answer names a profile between 1 and the profile count, or none does |
| Credentials.FirstValidIs | tools/kurento-cluster.py:482-493 | the first in-range answer is the one chosen, whatever follows it |
| Credentials.AwsSession.SelectAwsCredentials | tools/kurento-cluster.py:479-493 | with one profile, nothing is assigned; otherwise the first in-range answer (1-based) copies that profile's keys into the configuration; the keys change only when a profile is chosen |
| Credentials.AwsSession.CreateAwsSession | tools/kurento-cluster.py:471-477 | with both keys on the command line nothing is searched or changed; with a key missing, the profiles become `Gathered` from the files (or the typed keys) and the menu's outcome is `Selected` for them; a chosen profile's two keys are copied into the configuration, and otherwise the keys stay as they were |
| Cluster.KurentoCluster.constructor | tools/kurento-cluster.py:565-574 | the cluster starts with the configuration, no template and no parameters |
| Cluster.KurentoCluster.ValidateMandatoryParameters | tools/kurento-cluster.py:619-621 | passes exactly when a region is given, otherwise fails with the missing-region usage |
| Cluster.KurentoCluster.ValidateMandatoryParametersStack | tools/kurento-cluster.py:623-627 | passes exactly when a stack name is given and is alphanumeric; a missing name and a non-alphanumeric name each get their own usage message |
| Cluster.KurentoCluster.ValidateMandatoryParametersCreate | tools/kurento-cluster.py:629-642 | passes exactly when a key name is given, the template file is read, and a given API key is alphanumeric; each failure has its message; the template body is recorded once the file is read |
| Cluster.KurentoCluster.ValidateS3 | tools/kurento-cluster.py:644-651 | a configured bucket is kept; otherwise the bucket becomes `<region>-<stack>` exactly when the account has a bucket of that name |
| Cluster.KurentoCluster.ValidateRoute53 | tools/kurento-cluster.py:653-659 | without a hosted zone id nothing changes; with one, the zone name without its trailing dots is recorded, or the tool fails when the zone cannot be fetched |
| Cluster.KurentoCluster.RecordCommonName | tools/kurento-cluster.py:690-702 | the first `CN` component gives the common name, its name without leading `*` and `.`, and whether it starts with `*.`; with no `CN` the three fields are unchanged |
| Cluster.KurentoCluster.LoadKeyPair | tools/kurento-cluster.py:672-687 | passes exactly when both files exist and load; a missing certificate or key file gets its usage message and an OpenSSL load error ends the tool; the chunks are stored once the certificate is read and the key text once the key is read |
| Cluster.ZoneCheck | tools/kurento-cluster.py:704-710 | with no zone the check passes; with a zone and a certificate name it passes exactly when `MatchesHostedZone` holds, otherwise it fails with the mismatch message naming the common name and the zone; with no certificate name and no failed wildcard test, `re.sub` raises a TypeError |
| Cluster.KurentoCluster.ValidateSsl | tools/kurento-cluster.py:661-710 | a certificate needs a key; a missing certificate or key file, and an OpenSSL load error, each end the tool; the certificate is stored as `Chunks` of its text and the key text whole; the first common name is recorded; once both files load, the outcome is `ZoneCheck` of the zone and the recorded name; fields it does not reach are unchanged |
| Cluster.KurentoCluster.ValidateCertificate | tools/kurento-cluster.py:661-710 | where no certificate was recorded: passes exactly when `SslPasses` (no certificate, or a certificate and key that load and whose first common name fits the zone); on success the certificate fields are exactly those of the files |
| Cluster.KurentoCluster.ValidateDns | tools/kurento-cluster.py:712-718 | the cluster's DNS name becomes `ClusterFqdn` of the certificate and zone fields |
| Cluster.KurentoCluster.BuildCloudFormationTemplate | tools/kurento-cluster.py:720-764 | passes exactly when the template parses to an object and some image has a timestamp above 0; a malformed template and a region with no image each end the tool; success is the parsed template with `Mappings` set to the `RegionMap` of the latest image for the region |
| Cluster.KurentoCluster.AddParam | tools/kurento-cluster.py:766-771 | appends exactly one parameter at the end when the value is set; otherwise the list is unchanged |
| Cluster.KurentoCluster.AddLeadingParameters | tools/kurento-cluster.py:594-607 | the fourteen calls append `LeadingParameters` of the configuration |
| Cluster.KurentoCluster.AddCertificateParameters | tools/kurento-cluster.py:608-611 | the certificate loop appends `CertificateParameters` of the chunks and key |
| Cluster.KurentoCluster.AddTrailingParameters | tools/kurento-cluster.py:612-615 | the three test calls append `TrailingParameters` |
| Cluster.KurentoCluster.SetCreateParameters | tools/kurento-cluster.py:593-615 | the parameter block appends exactly `CreateParameters` of the configuration after the earlier parameters |
| Cluster.KurentoCluster.ValidateCreateSettings | tools/kurento-cluster.py:585-588 | passes exactly when `SettingsPass`: an alphanumeric stack name, a key name, a readable template file, an alphanumeric API key if one is given, and a zone Route 53 answers for if a zone id is given; on success the template body, the adopted bucket and the zone name are recorded |
| Cluster.KurentoCluster.ValidateCertificateAndDns | tools/kurento-cluster.py:589-590 | passes exactly when the certificate check passes; on success the certificate fields are those of the files, the cluster name is `ClusterFqdn` of them, the key is there whenever chunks are, and with a hosted zone the cluster name is one label under the zone |
| Cluster.KurentoCluster.ValidateCreate | tools/kurento-cluster.py:585-590 | the create validators in order pass exactly when the settings pass and the certificate fits the zone they found; on success the configuration is `ValidatedForCreate`: every field they fill in has its value from the inputs |
| Cluster.KurentoCluster.PrepareStack | tools/kurento-cluster.py:591-615 | once the validators passed: passes exactly when the template builds; on success the template points the region at the newest image, which CloudFormation then finds, and exactly `CreateParameters` are appended |
| Cluster.KurentoCluster.InitializeCreate | tools/kurento-cluster.py:584-615 | the create setup passes exactly when `CreateSetupPasses`; on success the configuration is `ValidatedForCreate`, the template points the region at the newest image, which CloudFormation then finds, and exactly `CreateParameters` are appended |
| Cluster.KurentoCluster.Initialize | tools/kurento-cluster.py:582-617 | the outcome is `InitializeOutcome`: a missing region always fails first (among the checks the model covers; see "Left out" for the AWS clients); create passes exactly when the region is given and `CreateSetupPasses`, with the state of `InitializeCreate`; delete passes exactly with a region and an alphanumeric stack name; list, show and unknown commands pass exactly with a region; only create changes anything |
| Certificate.Chunks | tools/kurento-cluster.py:676 | ceil(length/4096) chunks, each non-empty and at most 4096 characters, all but the last exactly 4096; no chunks exactly for empty text |
| Certificate.ChunksRoundTrip | tools/kurento-cluster.py:676 | joining the chunks gives back the certificate text exactly |
| Certificate.SslFqdn | tools/kurento-cluster.py:694 | the certificate's name is a suffix of the common name and never starts with `.` |
| Certificate.WildcardFqdn | tools/kurento-cluster.py:694-697 | `*.domain` is a wildcard whose name is the domain |
| Certificate.PlainFqdn | tools/kurento-cluster.py:694-700 | a name without leading `*` or `.` is not a wildcard and is its own name |
| Certificate.NonWildcardMatch | tools/kurento-cluster.py:705-707 | a non-wildcard certificate `host.domain` fits a zone exactly when the zone is the domain |
| Certificate.WildcardWithDotRejected | tools/kurento-cluster.py:705-707 | a wildcard certificate whose name contains a dot fits no hosted zone |
| Certificate.ClusterUnderHostedZone | tools/kurento-cluster.py:705-718 | with a zone whose check passed and an alphanumeric stack name, the cluster name exists and loses exactly its first label to become the zone |
| Certificate.ClusterUnderWildcard | tools/kurento-cluster.py:712-718 | without a zone, a wildcard certificate names the cluster `stack.domain`, one label under the wildcard's domain |
| Template.LatestIsUnique | tools/kurento-cluster.py:741-748 | at most one image is the one the selection keeps |
| Template.LatestImage | tools/kurento-cluster.py:741-748 | no image is chosen exactly when no timestamp is above 0; otherwise the chosen image has the maximal timestamp and is the first with it |
| Template.WithMappings | tools/kurento-cluster.py:759 | the template gains `Mappings` with the new value and every other key is unchanged |
| Template.RegionMapFindsImage | tools/kurento-cluster.py:752-759 | after the injection the template finds the chosen image for the region |
| Template.RegionMapOtherRegion | tools/kurento-cluster.py:752-759 | after the injection the template has no image for any other region |
| Parameters.Present | tools/kurento-cluster.py:766-771 | one call contributes at most one parameter, under its own key |
| Parameters.LoadBalancerName | tools/kurento-cluster.py:595 | the name is a prefix of `stack + "KurentoLoadBalancer"` of at most 32 characters, cut only when longer |
| Parameters.LeadingParametersHaveNoKey | tools/kurento-cluster.py:594-607 | no parameter before the certificate is `SslKey` |
| Parameters.CertificateParametersShape | tools/kurento-cluster.py:609-611 | with a key, chunk i sits at 2i under `SslCertificate<i+1>` and the key follows it at 2i+1 |
| Parameters.CertificateKeyCount | tools/kurento-cluster.py:609-611 | the certificate loop appends the key once per chunk |
| Parameters.CreateParametersKeyCount | tools/kurento-cluster.py:593-615 | with a key, the whole list has as many `SslKey` parameters as certificate chunks |
| Parameters.CertificateKeysDistinct | tools/kurento-cluster.py:610 | different chunk numbers get different parameter keys |
| Text.ContainsAt | tools/kurento-cluster.py:789 | the substring test holds exactly when the needle starts at some position |
| Text.LStrip | tools/kurento-cluster.py:694 | the result is a suffix that does not start with the character, and only that character was dropped |
| Text.RStrip | tools/kurento-cluster.py:659 | the result is a prefix that does not end with the character, and only that character was dropped |
| Text.SubFirstLabel | tools/kurento-cluster.py:707 | the result is the input or a strictly shorter suffix of it |
| Text.SubFirstLabelDropsLabel | tools/kurento-cluster.py:707 | on `head.tail` with a dot-free, newline-free head, the substitution gives `tail` |
| Text.SubFirstLabelKeepsUndotted | tools/kurento-cluster.py:707 | a name with no dot after its first character is unchanged |
| Text.DecimalString | tools/kurento-cluster.py:610 | `str(n)` is non-empty and all decimal digits |
| Text.DecimalStringInjective | tools/kurento-cluster.py:610 | different numbers print differently |
| Stacks.FailReasonEmpty | tools/kurento-cluster.py:799-802 | the failure reason is empty exactly when no event status contains `FAILED` |
| Stacks.ClassifyReport | tools/kurento-cluster.py:787-807 | the loop body computes `Classification`: one stack keeps waiting when its status is in the waiting state, finishes when it is in the final state, otherwise fails with the reasons of the failed events; no stack: unknown stack; several: NameError |
| Stacks.PollStep | tools/kurento-cluster.py:778-807 | when both calls answer, the decision is `Classification` of the fresh stacks and events; an exception not mentioning "exist" ends the tool; one mentioning it sets the first stack bound after the `try` (fresh when only the events call failed, else the previous pass's) to the final state and classifies that, with UnboundLocalError when nothing was bound and IndexError with no stack |
| Stacks.DeletedStackFinishes | tools/kurento-cluster.py:783-796 | after the deleted-stack substitution a single stack finishes whenever the final state is not part of the waiting state |
| Stacks.ReadOutputs | tools/kurento-cluster.py:915-921 | each of `URL`, `AWSCname` and `ClusterCname` holds the value of its last output, or nothing when no output has that key |
| Stacks.DescribeStack | tools/kurento-cluster.py:908-930 | the outputs come from the first stack with the name, a later output overriding an earlier one; `dns-auto` holds exactly when `KurentoResourceSet` is among the resources |
| Stacks.ClustersMembers | tools/kurento-cluster.py:856-864 | a cluster is listed exactly when a stack of the region that is not deleted has a template declaring `KurentoCluster` |
| Stacks.ClustersFailure | tools/kurento-cluster.py:855-867 | the listing fails exactly when a candidate's template cannot be fetched |
| Stacks.ListClusters | tools/kurento-cluster.py:852-867 | the loop's result is `Clusters` of the summaries |
| Stacks.CheckDeletable | tools/kurento-cluster.py:838-848 | a stack is deleted exactly when its template declares `KurentoCluster` and the delete call succeeds; otherwise the matching message |
| Stacks.ListedClusterIsDeletable | tools/kurento-cluster.py:843-859 | a listed cluster has a template that passes the delete guard |
| Tool.Configure | tools/kurento-cluster.py:986 | the outcome is `ArgumentsOutcome`; on success the fresh configuration records the command, holds the last value the command line gave each option, or its default, and has no validated field set |
| Tool.FindKeys | tools/kurento-cluster.py:987 | the menu is exhausted exactly when a key was missing and `Selected` of the profiles `Gathered` from the files (or the typed keys) finds no valid answer |
| Tool.Setup | tools/kurento-cluster.py:989 | the outcome is `InitializeOutcome` of the configuration; the cluster object is kept exactly when it passes, and a created one has the template for the newest image and exactly `CreateParameters` |
| Tool.Proceed | tools/kurento-cluster.py:987-989 | the options the outcome depends on are unchanged; an exhausted menu ends with `EOFError`, otherwise the outcome is `InitializeOutcome`; the cluster object is kept exactly when it passes |
| Tool.Start | tools/kurento-cluster.py:985-989 | a command line the constructor rejects ends the tool with that failure; otherwise the configuration records the command and holds the values the command line gave (`ParsedOption`: the last occurrence, or the default); when a key was missing and the profile menu gets no valid answer the tool ends with `EOFError`; otherwise the outcome is exactly `InitializeOutcome` of those values: the missing-region usage without a region, create passing exactly when `CreateSetupPasses`, delete exactly with an alphanumeric stack name, other commands exactly with a region; the cluster object exists exactly on success, and a created one has the template for the newest image and exactly `CreateParameters` |

## Left out

- The boto3 calls to CloudFormation, EC2, Route 53, S3 and autoscaling are
  not modelled. Their answers are parameters: buckets, zone name, images,
  stack reports, summaries, templates, and whether a delete succeeded.
- The polling loops with `time.sleep` and the dnspython CNAME wait are left
  out. They wait on outside state without bound; only one classification
  step is modelled.
- Terminal prompts (`raw_input`) and reading and writing `~/.aws` through
  ConfigParser are left out. A credentials file becomes a `ConfigView`, and
  the menu answers are a sequence of integers. `int()` of a non-number and
  ConfigParser's inheritance of `DEFAULT` keys into other sections are not
  modelled.
- OpenSSL certificate and key loading is left out. Its results are inputs:
  the subject components, and whether the key loads.
- The `strptime`/`strftime("%s")` timestamp conversion is left out, because
  it depends on the platform and the local time zone. Images carry integer
  timestamps.
- JSON parsing and serialisation, and file existence and reads, are inputs.
- The usage texts, `print`, `log` and the reporting of `_list` and `_show`
  are presentation and are not modelled. Where a message ends with the text
  of a library exception (`str(e)`), the model keeps the tool's own text up
  to it, separator included, and drops the exception text.
- `execute`, `_create`, `_show`, `_describe_auto_scaling_group` and
  `_describe_instance` are left out. They only chain AWS calls and printing.
- The `EMPTY_TEMPLATE` check at tools/kurento-cluster.py:639-640 is not
  modelled. It cannot fire: the body is set whenever the file was read, and
  every other path has already ended the tool.
- `getopt` is not modelled: its prefix matching, its own errors and the
  split of `argv`. Its output is an input, and `None` stands for a `getopt`
  error.
- The class attributes `params` and `aws_credentials` are shared between
  instances in Python. Here they are fields of one object.
- Stack outputs and templates missing the expected keys (`Outputs`,
  `Parameters`) are not modelled. Such a template is treated like a failed
  `get_template`.
- Cluster.KurentoCluster.InitializeCreate: states exactly when the create
  setup passes and the state it leaves then. It does not state which
  failure each failing input leads to; the validators it calls state that.
  Nor does it state the fields left after a failure, since every failure
  ends the tool.
- Cluster.KurentoCluster.Initialize: the same, for the create command.
- Cluster.KurentoCluster.Initialize: the `session.client` calls at
  tools/kurento-cluster.py:576-580 come before the region check. Without
  `--region`, boto3 takes the region from the AWS configuration, and raises
  `NoRegionError` there when none is configured. The model takes the
  clients as created, so its missing-region usage is what the tool prints
  only when a default region exists.
- `list_buckets` raising at tools/kurento-cluster.py:647 is not modelled.
  Nothing catches it, so it would end the tool; `ValidateS3` takes the
  bucket names as given.
- `describe_images` raising at tools/kurento-cluster.py:731 is not modelled.
  The `except` at 762-763 re-raises it and the tool ends;
  `BuildCloudFormationTemplate` takes the images as given.
- Failures of `describe_stacks` (tools/kurento-cluster.py:912) and
  `describe_stack_resources` (925) in `_describe_stack` are not modelled.
  They end the tool through `log_error` at 931-932; `DescribeStack` takes
  their answers as given.
- An SSL certificate or key file that exists but cannot be read is not
  modelled: `open(...).read()` at tools/kurento-cluster.py:675 and 684
  raises an `IOError` that nothing catches. `SslFiles` gives the text of
  every file that exists.
- `list_stacks` raising at tools/kurento-cluster.py:856 is not modelled.
  The `except` at 866-867 would end the tool with the list failure message;
  `ListClusters` takes the summaries as given.
- Certificate.Chunks: counts characters, where Python 2 slices the byte
  string. The two agree for PEM text, which is ASCII.
- When the profile menu gets no in-range answer, the model stops with the
  `EOFError` that `raw_input` raises once input runs out.
