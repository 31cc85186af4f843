/** `AwsSession`: where the AWS access keys come from when the command line
    does not give both, and which profile the user picks. */
module Credentials {
  import opened Common
  import opened Options

  const AccessKeyId := "aws_access_key_id"
  const SecretAccessKey := "aws_secret_access_key"
  const DefaultSection := "DEFAULT"

  /** What a parsed credentials or config file answers: its sections in
      file order, and for a (profile, option) pair the value `get` returns
      when `has_option` holds. */
  datatype ConfigView = ConfigView(sections: seq<string>, options: map<(string, string), string>)

  /** A profile that has both keys. */
  datatype Profile = Profile(name: string, accessKeyId: string, secretAccessKey: string)

  /** The profiles `_get_aws_credentials` visits: the sections, then `DEFAULT`. */
  function ProfileNames(view: ConfigView): seq<string>
  {
    view.sections + [DefaultSection]
  }

  /** The profiles among `names` that have both keys, in order. */
  function ProfilesWithKeys(names: seq<string>, options: map<(string, string), string>): seq<Profile>
  {
    if names == [] then []
    else
      var p := names[|names| - 1];
      ProfilesWithKeys(names[..|names| - 1], options)
      + (if (p, AccessKeyId) in options && (p, SecretAccessKey) in options
         then [Profile(p, options[(p, AccessKeyId)], options[(p, SecretAccessKey)])]
         else [])
  }

  /** A profile is kept exactly when it is visited and both of its keys are
      there, and then with those keys. */
  lemma {:induction false} ProfilesWithKeysMembers(names: seq<string>, options: map<(string, string), string>,
                                                   p: Profile)
    ensures p in ProfilesWithKeys(names, options) <==>
            p.name in names && (p.name, AccessKeyId) in options && (p.name, SecretAccessKey) in options
            && options[(p.name, AccessKeyId)] == p.accessKeyId
            && options[(p.name, SecretAccessKey)] == p.secretAccessKey
  {
    if names != [] {
      var n := |names|;
      ProfilesWithKeysMembers(names[..n - 1], options, p);
      assert names == names[..n - 1] + [names[n - 1]];
    }
  }

  /** No more profiles are kept than visited. */
  lemma {:induction false} ProfilesWithKeysBound(names: seq<string>, options: map<(string, string), string>)
    ensures |ProfilesWithKeys(names, options)| <= |names|
  {
    if names != [] {
      ProfilesWithKeysBound(names[..|names| - 1], options);
    }
  }

  /** The profiles of several files, file by file. */
  function FilesProfiles(files: seq<ConfigView>): seq<Profile>
  {
    if files == [] then []
    else FilesProfiles(files[..|files| - 1])
         + ProfilesWithKeys(ProfileNames(files[|files| - 1]), files[|files| - 1].options)
  }

  /** A profile comes from some file, and every file's profiles are kept. */
  lemma {:induction false} FilesProfilesMembers(files: seq<ConfigView>, p: Profile)
    ensures p in FilesProfiles(files) <==>
            exists k :: 0 <= k < |files| && p in ProfilesWithKeys(ProfileNames(files[k]), files[k].options)
  {
    if files != [] {
      var n := |files|;
      var init := files[..n - 1];
      FilesProfilesMembers(init, p);
      if p in FilesProfiles(files) {
        if p !in FilesProfiles(init) {
          assert p in ProfilesWithKeys(ProfileNames(files[n - 1]), files[n - 1].options);
        } else {
          var k :| 0 <= k < n - 1 && p in ProfilesWithKeys(ProfileNames(init[k]), init[k].options);
          assert init[k] == files[k];
        }
      } else {
        forall k | 0 <= k < n ensures p !in ProfilesWithKeys(ProfileNames(files[k]), files[k].options) {
          if k < n - 1 {
            assert init[k] == files[k];
          }
        }
      }
    }
  }

  /** The first answer of the profile menu that names a profile (answers
      count from 1), with its position among the answers. */
  function FirstValidChoice(answers: seq<int>, count: nat): (r: Option<nat>)
    ensures r.Some? ==> r.value < |answers| && 1 <= answers[r.value] <= count
    ensures r.Some? ==> forall j :: 0 <= j < r.value ==> !(1 <= answers[j] <= count)
    ensures r.None? ==> forall j :: 0 <= j < |answers| ==> !(1 <= answers[j] <= count)
  {
    if answers == [] then None
    else if 1 <= answers[0] <= count then Some(0)
    else match FirstValidChoice(answers[1..], count)
      case None => None
      case Some(k) => Some(k + 1)
  }

  /** What `_select_aws_credentials` did. */
  datatype Selection =
    | SingleProfile           // one profile: its keys are returned, and the caller drops them
    | Chosen(profile: nat)    // the 1-based profile the user picked
    | NoValidChoice           // the answers ran out before one named a profile

  /** The profiles `_get_aws_configuration` leaves, after `before`: those of
      the credentials files, or, when there are none at all, those typed in. */
  function Gathered(before: seq<Profile>, files: seq<ConfigView>, typed: ConfigView): seq<Profile>
  {
    var found := before + FilesProfiles(files);
    found + (if found == [] then ProfilesWithKeys(ProfileNames(typed), typed.options) else [])
  }

  /** What the profile menu makes of `answers` when there are `count` profiles. */
  function Selected(answers: seq<int>, count: nat): (r: Selection)
    ensures r.Chosen? ==> 1 <= r.profile <= count
  {
    if count == 1 then SingleProfile
    else match FirstValidChoice(answers, count)
      case None => NoValidChoice
      case Some(k) => Chosen(answers[k])
  }

  class AwsSession {
    const config: KurentoClusterConfig
    var awsCredentials: seq<Profile>

    constructor (config: KurentoClusterConfig)
      ensures this.config == config && awsCredentials == []
    {
      this.config := config;
      awsCredentials := [];
    }

    /** `_get_aws_credentials`: append every visited profile that has both keys. */
    method GetAwsCredentials(view: ConfigView)
      modifies this`awsCredentials
      ensures awsCredentials == old(awsCredentials) + ProfilesWithKeys(ProfileNames(view), view.options)
    {
      var names := ProfileNames(view);
      for i := 0 to |names|
        invariant awsCredentials == old(awsCredentials) + ProfilesWithKeys(names[..i], view.options)
      {
        assert names[..i + 1][..i] == names[..i];
        var profile := names[i];
        var access: Option<string> := None;
        var secret: Option<string> := None;
        if (profile, AccessKeyId) in view.options {
          access := Some(view.options[(profile, AccessKeyId)]);
        }
        if (profile, SecretAccessKey) in view.options {
          secret := Some(view.options[(profile, SecretAccessKey)]);
        }
        if access.Some? && secret.Some? {
          awsCredentials := awsCredentials + [Profile(profile, access.value, secret.value)];
        }
      }
      assert names[..|names|] == names;
    }

    /** `_get_aws_configuration`: read every credentials file that exists,
        and ask for keys only when there is still no profile. */
    method GetAwsConfiguration(files: seq<ConfigView>, typed: ConfigView)
      modifies this`awsCredentials
      ensures awsCredentials == Gathered(old(awsCredentials), files, typed)
    {
      for k := 0 to |files|
        invariant awsCredentials == old(awsCredentials) + FilesProfiles(files[..k])
      {
        assert files[..k + 1][..k] == files[..k];
        GetAwsCredentials(files[k]);
        AppendAssociates(old(awsCredentials), FilesProfiles(files[..k]),
                         ProfilesWithKeys(ProfileNames(files[k]), files[k].options));
      }
      assert files[..|files|] == files;
      if |awsCredentials| == 0 {
        GetAwsCredentials(typed);
      }
    }

    /** `_select_aws_credentials`: with one profile, return its keys (which
        the caller ignores); otherwise show the menu until an answer names a
        profile, and copy that profile's keys into the configuration. */
    method SelectAwsCredentials(answers: seq<int>) returns (r: Selection)
      modifies config`awsAccessKeyId, config`awsSecretAccessKey
      ensures r == Selected(answers, |awsCredentials|)
      ensures |awsCredentials| == 1 ==> r == SingleProfile
      ensures |awsCredentials| != 1 && FirstValidChoice(answers, |awsCredentials|).None? ==> r == NoValidChoice
      ensures |awsCredentials| != 1 && FirstValidChoice(answers, |awsCredentials|).Some?
              ==> r == Chosen(answers[FirstValidChoice(answers, |awsCredentials|).value])
      ensures r.Chosen? ==> 1 <= r.profile <= |awsCredentials|
                            && config.awsAccessKeyId == Some(awsCredentials[r.profile - 1].accessKeyId)
                            && config.awsSecretAccessKey == Some(awsCredentials[r.profile - 1].secretAccessKey)
      ensures !r.Chosen? ==> config.awsAccessKeyId == old(config.awsAccessKeyId)
                             && config.awsSecretAccessKey == old(config.awsSecretAccessKey)
    {
      if |awsCredentials| == 1 {
        return SingleProfile;
      }
      var i := 0;
      while i < |answers|
        invariant i <= |answers|
        invariant forall j :: 0 <= j < i ==> !(1 <= answers[j] <= |awsCredentials|)
      {
        var profile := answers[i];
        if 1 <= profile <= |awsCredentials| {
          config.awsAccessKeyId := Some(awsCredentials[profile - 1].accessKeyId);
          config.awsSecretAccessKey := Some(awsCredentials[profile - 1].secretAccessKey);
          FirstValidIs(answers, |awsCredentials|, i);
          return Chosen(profile);
        }
        i := i + 1;
      }
      return NoValidChoice;
    }

    /** `_create_aws_session` up to the session itself: look for keys only
        when the command line did not give both. */
    method CreateAwsSession(files: seq<ConfigView>, typed: ConfigView, answers: seq<int>)
      returns (r: Option<Selection>)
      modifies this`awsCredentials, config`awsAccessKeyId, config`awsSecretAccessKey
      ensures old(config.awsAccessKeyId).Some? && old(config.awsSecretAccessKey).Some? ==>
                r.None? && awsCredentials == old(awsCredentials)
                && config.awsAccessKeyId == old(config.awsAccessKeyId)
                && config.awsSecretAccessKey == old(config.awsSecretAccessKey)
      ensures old(config.awsAccessKeyId).None? || old(config.awsSecretAccessKey).None? ==>
                r == Some(Selected(answers, |awsCredentials|))
                && awsCredentials == Gathered(old(awsCredentials), files, typed)
      ensures r.Some? && r.value.Chosen? ==>
                config.awsAccessKeyId == Some(awsCredentials[r.value.profile - 1].accessKeyId)
                && config.awsSecretAccessKey == Some(awsCredentials[r.value.profile - 1].secretAccessKey)
      ensures r.Some? && !r.value.Chosen? ==>
                config.awsAccessKeyId == old(config.awsAccessKeyId)
                && config.awsSecretAccessKey == old(config.awsSecretAccessKey)
    {
      if config.awsAccessKeyId.None? || config.awsSecretAccessKey.None? {
        GetAwsConfiguration(files, typed);
        var selection := SelectAwsCredentials(answers);
        return Some(selection);
      }
      return None;
    }
  }

  /** The menu loop takes the first answer in range, whatever follows it. */
  lemma {:induction false} FirstValidIs(answers: seq<int>, count: nat, i: nat)
    requires i < |answers| && 1 <= answers[i] <= count
    requires forall j :: 0 <= j < i ==> !(1 <= answers[j] <= count)
    ensures FirstValidChoice(answers, count) == Some(i)
  {
    if i > 0 {
      FirstValidIs(answers[1..], count, i - 1);
    }
  }
}
