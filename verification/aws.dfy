/**
 * Which AWS region the CloudWatch client talks to. The two environment
 * variables and the outcome of the availability-zone lookup are inputs: the
 * lookup's body as a string when both the request and the read succeed, `None`
 * when either fails.
 */
module Aws {
  import opened Wrappers
  import Text

  const DefaultRegion: string := "us-east-1"

  /**
   * The region an availability zone belongs to: the zone name with white space
   * trimmed and its last character (the zone letter) dropped.
   */
  function ZoneRegion(body: string): (r: string)
    ensures var t := Text.TrimSpace(body);
      && |r| == (if t == [] then 0 else |t| - 1)
      && r <= t
  {
    var t := Text.TrimSpace(body);
    if |t| > 0 then t[..|t| - 1] else t
  }

  /**
   * `findAWSRegion`: `AWS_REGION` if set, else `AWS_DEFAULT_REGION` if set,
   * else the region of the instance's availability zone, else `us-east-1`.
   */
  function FindAWSRegion(awsRegion: string, awsDefaultRegion: string, body: Option<string>): (r: string)
    ensures r != []
    ensures awsRegion != [] ==> r == awsRegion
    ensures awsRegion == [] && awsDefaultRegion != [] ==> r == awsDefaultRegion
    ensures awsRegion == [] && awsDefaultRegion == [] && body.Some? && |Text.TrimSpace(body.value)| > 1
            ==> r == Text.TrimSpace(body.value)[..|Text.TrimSpace(body.value)| - 1]
    ensures awsRegion == [] && awsDefaultRegion == [] && (body.None? || |Text.TrimSpace(body.value)| <= 1)
            ==> r == DefaultRegion
  {
    var region := awsRegion;
    var region := if region == [] then awsDefaultRegion else region;
    var region := if region == [] && body.Some? then ZoneRegion(body.value) else region;
    if region == [] then DefaultRegion else region
  }

  /**
   * The lookup answers with a zone name, possibly padded with white space:
   * the region is that name without its zone letter.
   */
  lemma ZoneRegionOf(pre: string, region: string, letter: char, post: string)
    requires Text.AllSpace(pre) && Text.AllSpace(post)
    requires !Text.IsSpace(letter)
    requires region == [] || !Text.IsSpace(region[0])
    ensures ZoneRegion(pre + region + [letter] + post) == region
  {
    var w := region + [letter];
    assert pre + region + [letter] + post == pre + w + post;
    Text.TrimSpaceAround(pre, w, post);
    assert w[..|w| - 1] == region;
  }

  /** The environment wins over the lookup, `AWS_REGION` over `AWS_DEFAULT_REGION`. */
  lemma EnvironmentExamples()
    ensures FindAWSRegion("", "us-west-1", None) == "us-west-1"
    ensures FindAWSRegion("us-west-2", "", None) == "us-west-2"
    ensures FindAWSRegion("us-west-2", "us-west-1", Some("eu-west-1b")) == "us-west-2"
  {
  }

  /** With neither variable set, a zone name read from the lookup gives its region. */
  lemma ZoneLookup(region: string, letter: char, post: string)
    requires Text.AllSpace(post) && !Text.IsSpace(letter)
    requires region != [] && !Text.IsSpace(region[0])
    ensures FindAWSRegion("", "", Some(region + [letter] + post)) == region
  {
    assert Text.AllSpace([]);
    ZoneRegionOf([], region, letter, post);
    assert [] + region + [letter] + post == region + [letter] + post;
  }

  /** The zone names the region tests read. */
  lemma ZoneExamples()
    ensures FindAWSRegion("", "", Some("eu-west-1b")) == "eu-west-1"
    ensures FindAWSRegion("", "", Some("us-east-1a")) == "us-east-1"
  {
    ZoneLookup("eu-west-1", 'b', "");
    assert "eu-west-1" + ['b'] + "" == "eu-west-1b";
    ZoneLookup("us-east-1", 'a', "");
    assert "us-east-1" + ['a'] + "" == "us-east-1a";
  }

  /** A zone name read with a trailing newline gives the same region. */
  lemma PaddedZoneExample()
    ensures FindAWSRegion("", "", Some("eu-west-1b\n")) == "eu-west-1"
  {
    assert Text.AllSpace("\n");
    ZoneLookup("eu-west-1", 'b', "\n");
    assert "eu-west-1" + ['b'] + "\n" == "eu-west-1b\n";
  }

  /** A failed lookup, or a body of one letter, falls back to the default region. */
  lemma DefaultExamples()
    ensures FindAWSRegion("", "", Some(" b ")) == DefaultRegion
    ensures FindAWSRegion("", "", None) == DefaultRegion
  {
    assert Text.AllSpace(" ");
    ZoneRegionOf(" ", "", 'b', " ");
    assert " " + "" + ['b'] + " " == " b ";
  }
}
