/** How both publishers name the data points of a Histogram or Timer. */
module Naming {
  import Text

  /** `fmt.Sprintf("%s.count", name)` */
  function CountName(name: string): string
  {
    name + ".count"
  }

  /** `fmt.Sprintf("%s.p%v", name, int(p*100))` */
  function PercentileName(name: string, p: real): string
  {
    name + ".p" + Text.FormatInt(Text.Trunc(p * 100.0))
  }

  /** The count name never collides with a percentile name of the same metric. */
  lemma CountNameIsNotPercentileName(name: string, p: real)
    ensures CountName(name) != PercentileName(name, p)
  {
    assert CountName(name)[|name| + 1] == 'c';
    assert PercentileName(name, p)[|name| + 1] == 'p';
  }

  /** Two fractions give the same name exactly when their truncated hundredfolds agree. */
  lemma PercentileNameCollision(name: string, p: real, q: real)
    ensures PercentileName(name, p) == PercentileName(name, q)
            <==> Text.Trunc(p * 100.0) == Text.Trunc(q * 100.0)
  {
    var a := Text.Trunc(p * 100.0);
    var b := Text.Trunc(q * 100.0);
    if a != b {
      Text.FormatIntInjective(a, b);
      var prefix := name + ".p";
      assert PercentileName(name, p)[|prefix|..] == Text.FormatInt(a);
      assert PercentileName(name, q)[|prefix|..] == Text.FormatInt(b);
    }
  }

  /** The suffixes the tests expect: truncation, not rounding, and in whole hundredths. */
  lemma PercentileNameExamples()
    ensures PercentileName("blah", 0.5) == "blah.p50"
    ensures PercentileName("blah", 0.44) == "blah.p44"
    ensures PercentileName("blah", 0.999) == "blah.p99"
    ensures PercentileName("blah", 0.504) == PercentileName("blah", 0.509)
  {
    assert Text.Digits(50) == "50";
    assert Text.Digits(44) == "44";
    assert Text.Digits(99) == "99";
  }
}
