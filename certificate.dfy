/** What the tool derives from an SSL certificate: the chunks it is uploaded
    in, the name it is issued for, whether that name fits the Route 53 hosted
    zone, and the DNS name the cluster gets. */
module Certificate {
  import opened Common
  import opened Text

  /** CloudFormation limits a parameter value to 4096 characters. */
  const ChunkSize: nat := 4096

  function Min(a: int, b: int): int
  {
    if a < b then a else b
  }

  /** `[s[i:i+4096] for i in range(0, len(s), 4096)]`: the slice at the end is
      clipped to the text. */
  function Chunks(s: string): (r: seq<string>)
    ensures |r| == (|s| + ChunkSize - 1) / ChunkSize
    ensures forall i :: 0 <= i < |r| ==> 0 < |r[i]| <= ChunkSize
    ensures forall i :: 0 <= i < |r| - 1 ==> |r[i]| == ChunkSize
    ensures r == [] <==> s == []
  {
    seq((|s| + ChunkSize - 1) / ChunkSize,
        i requires 0 <= i < (|s| + ChunkSize - 1) / ChunkSize =>
          s[i * ChunkSize .. Min(i * ChunkSize + ChunkSize, |s|)])
  }

  /** The chunks joined back together. */
  function Concat(chunks: seq<string>): string
  {
    if chunks == [] then "" else chunks[0] + Concat(chunks[1..])
  }

  /** A text longer than one chunk starts with a full chunk. */
  lemma ChunksStep(s: string)
    requires |s| > ChunkSize
    ensures Chunks(s) == [s[..ChunkSize]] + Chunks(s[ChunkSize..])
  {
    var a, b := Chunks(s), Chunks(s[ChunkSize..]);
    assert |a| == 1 + |b|;
    forall i | 1 <= i < |a| ensures a[i] == b[i - 1] {
      assert s[ChunkSize..][(i - 1) * ChunkSize .. Min((i - 1) * ChunkSize + ChunkSize, |s| - ChunkSize)]
          == s[i * ChunkSize .. Min(i * ChunkSize + ChunkSize, |s|)];
    }
  }

  /** Joining the chunks gives back the certificate text exactly. */
  lemma {:induction false} ChunksRoundTrip(s: string)
    ensures Concat(Chunks(s)) == s
    decreases |s|
  {
    if |s| == 0 {
    } else if |s| <= ChunkSize {
      assert (|s| + ChunkSize - 1) / ChunkSize == 1;
      assert Chunks(s)[0] == s[0..|s|] == s;
      assert Chunks(s) == [s];
      assert Concat([s]) == s + Concat([]);
    } else {
      ChunksStep(s);
      ChunksRoundTrip(s[ChunkSize..]);
      assert ([s[..ChunkSize]] + Chunks(s[ChunkSize..]))[1..] == Chunks(s[ChunkSize..]);
      assert s[..ChunkSize] + s[ChunkSize..] == s;
    }
  }

  /** `val.lstrip('*').lstrip('.')`: the name a certificate common name stands for. */
  function SslFqdn(commonName: string): (r: string)
    ensures |r| <= |commonName| && r == commonName[|commonName| - |r|..]
    ensures r == [] || r[0] != '.'
  {
    var stars := LStrip(commonName, '*');
    var r := LStrip(stars, '.');
    SuffixOfSuffix(commonName, stars, r);
    r
  }

  /** `val.startswith('*.')`. */
  predicate IsWildcard(commonName: string)
  {
    StartsWith(commonName, "*.")
  }

  /** The name of a wildcard certificate `*.domain` is the domain. */
  lemma WildcardFqdn(domain: string)
    requires domain == [] || domain[0] != '.'
    ensures IsWildcard("*." + domain)
    ensures SslFqdn("*." + domain) == domain
  {
    var cn := "*." + domain;
    assert cn[1..] == "." + domain;
    assert LStrip(cn, '*') == LStrip(cn[1..], '*');
    assert ("." + domain)[1..] == domain;
    assert LStrip("." + domain, '.') == LStrip(domain, '.');
  }

  /** A plain host name is its own name. */
  lemma PlainFqdn(name: string)
    requires name == [] || (name[0] != '*' && name[0] != '.')
    ensures !IsWildcard(name)
    ensures SslFqdn(name) == name
  {
  }

  /** The test of `_validate_ssl` that a known hosted zone passes: a wildcard
      certificate must be issued for the zone itself, and every certificate's
      name with its first label removed must be the zone. */
  predicate MatchesHostedZone(zone: string, wildcard: Option<bool>, fqdn: string)
  {
    !((wildcard == Some(true) && zone != fqdn) || zone != SubFirstLabel(fqdn))
  }

  /** A certificate that is not a wildcard fits a zone exactly when its name
      is one label followed by the zone. */
  lemma {:induction false} NonWildcardMatch(zone: string, wildcard: Option<bool>, host: string, domain: string)
    requires wildcard != Some(true)
    requires host != [] && '.' !in host && '\n' !in host
    ensures MatchesHostedZone(zone, wildcard, host + "." + domain) <==> zone == domain
  {
    SubFirstLabelDropsLabel(host, domain);
  }

  /** A wildcard certificate whose name has a dot never fits any hosted
      zone: the zone would have to equal both the name and the name without
      its first label. */
  lemma {:induction false} WildcardWithDotRejected(zone: string, commonName: string)
    requires '\n' !in commonName
    requires '.' in SslFqdn(commonName)
    ensures !MatchesHostedZone(zone, Some(true), SslFqdn(commonName))
  {
    var fqdn := SslFqdn(commonName);
    forall i | 0 <= i < |fqdn| ensures fqdn[i] != '\n' {
      assert fqdn[i] == commonName[|commonName| - |fqdn| + i];
    }
    assert fqdn != [] && fqdn[0] != '.';
    SubFirstLabelShortens(fqdn);
    assert SubFirstLabel(fqdn) != fqdn;
  }

  /** The DNS name `_validate_dns` gives the cluster: the certificate's own
      name when it is not a wildcard, else the stack name under the hosted
      zone, else the stack name under the wildcard's domain, else unchanged. */
  function ClusterFqdn(current: Option<string>, wildcard: Option<bool>, zone: Option<string>,
                       fqdn: Option<string>, stackName: string): Option<string>
  {
    if wildcard == Some(false) then fqdn
    else if zone.Some? then Some(stackName + "." + zone.value)
    else if fqdn.Some? then Some(stackName + "." + fqdn.value)
    else current
  }

  /** Once the zone check passed, the cluster's name sits directly under the
      hosted zone: removing its first label gives the zone. */
  lemma {:induction false} ClusterUnderHostedZone(current: Option<string>, wildcard: Option<bool>, zone: string,
                                                  fqdn: Option<string>, stackName: string)
    requires IsAlnum(stackName)
    requires wildcard == Some(false) ==> fqdn.Some? && MatchesHostedZone(zone, wildcard, fqdn.value)
    ensures ClusterFqdn(current, wildcard, Some(zone), fqdn, stackName).Some?
    ensures SubFirstLabel(ClusterFqdn(current, wildcard, Some(zone), fqdn, stackName).value) == zone
  {
    if wildcard != Some(false) {
      assert forall i :: 0 <= i < |stackName| ==> IsAsciiAlnum(stackName[i]);
      SubFirstLabelDropsLabel(stackName, zone);
    }
  }

  /** Without a hosted zone, a wildcard certificate names the cluster one
      label below the certificate's domain, which the wildcard covers. */
  lemma {:induction false} ClusterUnderWildcard(current: Option<string>, fqdn: string, stackName: string)
    requires IsAlnum(stackName)
    ensures ClusterFqdn(current, Some(true), None, Some(fqdn), stackName) == Some(stackName + "." + fqdn)
    ensures SubFirstLabel(stackName + "." + fqdn) == fqdn
  {
    assert forall i :: 0 <= i < |stackName| ==> IsAsciiAlnum(stackName[i]);
    SubFirstLabelDropsLabel(stackName, fqdn);
  }
}
