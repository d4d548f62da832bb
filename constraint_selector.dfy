/**
 * `createSelector`: placement constraints of the form `key=value` become the
 * pod's node selector. A constraint counts when `strings.Split` on `=` gives
 * exactly two pieces, that is when it holds exactly one `=`; either piece may
 * be empty. Anything else is dropped, and a later constraint overwrites an
 * earlier one with the same key.
 */
module ConstraintSelector {
  import opened Wrappers
  import opened GoStrings

  /** What one constraint contributes to the selector, if anything. */
  function ParseConstraint(c: string): (r: Option<(string, string)>)
    ensures r.Some? ==> c == r.value.0 + "=" + r.value.1
    ensures r.Some? ==> '=' !in r.value.0 && '=' !in r.value.1
  {
    var parts := Split(c, '=');
    JoinSplit(c, '=');
    SplitPiecesFree(c, '=');
    if |parts| == 2 then
      assert parts[1..] == [parts[1]];
      Some((parts[0], parts[1]))
    else None
  }

  /** A constraint contributes iff it holds exactly one `=`; its key and value are the text around it. */
  lemma ParseConstraintMeaning(c: string)
    ensures ParseConstraint(c).Some? <==> Count(c, '=') == 1
    ensures forall i :: 0 <= i < |c| && c[i] == '=' && Count(c, '=') == 1 ==>
      ParseConstraint(c) == Some((c[..i], c[i + 1..]))
  {
    SplitLength(c, '=');
    forall i | 0 <= i < |c| && c[i] == '=' && Count(c, '=') == 1
      ensures ParseConstraint(c) == Some((c[..i], c[i + 1..]))
    {
      SplitAtOnlySeparator(c, '=', i);
    }
  }

  /** Writing `key=value` with no `=` in either part and parsing it back gives the pair. */
  lemma ParseFormatted(key: string, value: string)
    requires '=' !in key && '=' !in value
    ensures ParseConstraint(key + "=" + value) == Some((key, value))
  {
    var c := key + "=" + value;
    CountAbsent(key, '=');
    CountAbsent(value, '=');
    CountConcat(key, "=", '=');
    CountConcat(key + "=", value, '=');
    ParseConstraintMeaning(c);
    assert c[|key|] == '=';
    assert c[..|key|] == key && c[|key| + 1..] == value;
  }

  /** Constraint `c` sets key `k`. */
  predicate Sets(c: string, k: string)
  {
    ParseConstraint(c).Some? && ParseConstraint(c).value.0 == k
  }

  /** The selector the constraints describe, applying them left to right. */
  function SelectorOf(constraints: seq<string>): map<string, string>
  {
    if constraints == [] then map[]
    else
      var earlier := SelectorOf(constraints[..|constraints| - 1]);
      match ParseConstraint(constraints[|constraints| - 1])
      case Some((k, v)) => earlier[k := v]
      case None => earlier
  }

  /** A key is in the selector iff some constraint sets it. */
  lemma {:induction false} SelectorOfDomain(constraints: seq<string>, k: string)
    ensures k in SelectorOf(constraints) <==> exists i :: 0 <= i < |constraints| && Sets(constraints[i], k)
    decreases |constraints|
  {
    if constraints != [] {
      var n := |constraints| - 1;
      var earlier := constraints[..n];
      SelectorOfDomain(earlier, k);
      if !Sets(constraints[n], k) && exists i :: 0 <= i < |constraints| && Sets(constraints[i], k) {
        var i :| 0 <= i < |constraints| && Sets(constraints[i], k);
        assert Sets(earlier[i], k);
      }
      if exists i :: 0 <= i < n && Sets(earlier[i], k) {
        var i :| 0 <= i < n && Sets(earlier[i], k);
        assert Sets(constraints[i], k);
      }
    }
  }

  /** The value of a key is the one given by the last constraint that sets it. */
  lemma {:induction false} SelectorOfLastWins(constraints: seq<string>, k: string, i: nat)
    requires i < |constraints| && Sets(constraints[i], k)
    requires forall j :: i < j < |constraints| ==> !Sets(constraints[j], k)
    ensures k in SelectorOf(constraints)
    ensures SelectorOf(constraints)[k] == ParseConstraint(constraints[i]).value.1
    decreases |constraints|
  {
    var n := |constraints| - 1;
    if i < n {
      var earlier := constraints[..n];
      assert earlier[i] == constraints[i];
      assert forall j :: i < j < n ==> earlier[j] == constraints[j];
      SelectorOfLastWins(earlier, k, i);
    }
  }

  /** Two constraints that set different keys may be given in either order. */
  lemma SelectorOfSwap(constraints: seq<string>, a: string, b: string)
    requires ParseConstraint(a).Some? && ParseConstraint(b).Some?
    requires ParseConstraint(a).value.0 != ParseConstraint(b).value.0
    ensures SelectorOf(constraints + [a, b]) == SelectorOf(constraints + [b, a])
  {
    assert (constraints + [a, b])[..|constraints| + 1] == constraints + [a];
    assert (constraints + [a])[..|constraints|] == constraints;
    assert (constraints + [b, a])[..|constraints| + 1] == constraints + [b];
    assert (constraints + [b])[..|constraints|] == constraints;
  }

  /** `createSelector`, with its loop over the constraints. */
  method CreateSelector(constraints: seq<string>) returns (selector: map<string, string>)
    ensures selector == SelectorOf(constraints)
  {
    selector := map[];
    if |constraints| > 0 {
      for i := 0 to |constraints|
        invariant selector == SelectorOf(constraints[..i])
      {
        var parts := Split(constraints[i], '=');
        if |parts| == 2 {
          selector := selector[parts[0] := parts[1]];
        }
        assert constraints[..i + 1][..i] == constraints[..i];
      }
      assert constraints[..|constraints|] == constraints;
    }
  }

  /** Two constraints on different keys both reach the selector. */
  lemma SelectorExampleTwoKeys()
    ensures SelectorOf(["disk=ssd", "zone=eu"]) == map["disk" := "ssd", "zone" := "eu"]
  {
    var c1, c2 := "disk" + "=" + "ssd", "zone" + "=" + "eu";
    ParseFormatted("disk", "ssd");
    ParseFormatted("zone", "eu");
    assert SelectorOf([c1]) == map["disk" := "ssd"] by {
      assert [c1][..0] == [];
    }
    assert [c1, c2][..1] == [c1];
    assert SelectorOf([c1, c2]) == map["disk" := "ssd", "zone" := "eu"];
    assert c1 == "disk=ssd";
    assert c2 == "zone=eu";
  }

  /** A constraint without `=` is dropped. */
  lemma SelectorExampleMalformed()
    ensures SelectorOf(["bad"]) == map[]
  {
  }

  /** Of two constraints on the same key, the later one wins. */
  lemma SelectorExampleLastWins()
    ensures SelectorOf(["a=1", "a=2"]) == map["a" := "2"]
  {
    ParseFormatted("a", "1");
    ParseFormatted("a", "2");
    assert "a" + "=" + "1" == "a=1";
    assert "a" + "=" + "2" == "a=2";
    var cs := ["a=1", "a=2"];
    assert cs[..1] == ["a=1"] && ["a=1"][..0] == [];
    assert SelectorOf(["a=1"]) == map["a" := "1"];
  }
}
