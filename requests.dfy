/** Sequences of `getInstance` requests answered one after the other. */
module Requests {
  import opened Configurations
  import opened FactoryModel

  /** The factory's state after answering `cs` in order, and the
      Fingerprinter returned to each request. */
  function Run(s: Cache, cs: seq<Configuration>): (r: (Cache, seq<Build>))
    ensures |r.1| == |cs|
    ensures s.builds <= r.0.builds <= s.builds + |cs|
    ensures Valid(s) ==> Valid(r.0)
    ensures cs != [] ==> r.0.configuration == cs[|cs| - 1] && r.0.instance == Some(r.1[|cs| - 1])
    decreases |cs|
  {
    if cs == [] then (s, [])
    else
      var first := GetInstance(s, cs[0]);
      var rest := Run(first.cache, cs[1..]);
      (rest.0, [first.returned] + rest.1)
  }

  /** From a valid state, every request is answered with a Fingerprinter
      built for exactly the configuration it asked for. */
  lemma {:induction false} AnswersMatchRequests(s: Cache, cs: seq<Configuration>)
    requires Valid(s)
    ensures forall i :: 0 <= i < |cs| ==> BuiltFor(Run(s, cs).1[i], cs[i])
    decreases |cs|
  {
    if cs != [] {
      var first := GetInstance(s, cs[0]);
      AnswersMatchRequests(first.cache, cs[1..]);
      forall i | 0 < i < |cs|
        ensures BuiltFor(Run(s, cs).1[i], cs[i])
      {
        assert Run(s, cs).1[i] == Run(first.cache, cs[1..]).1[i - 1];
      }
    }
  }

  /** Once `c` is stored and an instance is cached, any number of further
      requests for `c` leave the factory unchanged and all get that instance. */
  lemma {:induction false} HitsKeepTheCache(s: Cache, c: Configuration, n: nat)
    requires s.configuration == c && s.instance.Some?
    ensures Run(s, seq(n, _ => c)) == (s, seq(n, _ => s.instance.value))
  {
    if n == 0 {
      assert seq(n, _ => c) == [];
      assert seq(n, _ => s.instance.value) == [];
    } else {
      var cs := seq(n, _ => c);
      assert cs[1..] == seq(n - 1, _ => c);
      HitsKeepTheCache(s, c, n - 1);
      assert GetInstance(s, cs[0]).cache == s;
      assert seq(n, _ => s.instance.value) == [s.instance.value] + seq(n - 1, _ => s.instance.value);
    }
  }

  /** `n` requests in a row for one configuration all receive the same
      Fingerprinter, and at most one is built: exactly one when the factory
      did not already hold `c` with a cached instance, none otherwise. */
  lemma RepeatedRequestsShareOneInstance(s: Cache, c: Configuration, n: nat)
    requires n > 0
    ensures var r := Run(s, seq(n, _ => c));
            && (forall i :: 0 <= i < n ==> r.1[i] == r.1[0])
            && r.0.builds == s.builds + (if s.configuration == c && s.instance.Some? then 0 else 1)
  {
    var first := GetInstance(s, c);
    assert seq(n, _ => c)[1..] == seq(n - 1, _ => c);
    HitsKeepTheCache(first.cache, c, n - 1);
  }
}
