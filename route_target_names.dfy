/** Route-target names: a route target "asn:number" is addressed on the
    control plane by the fq-name ['target'] + rt.split(':'), and the object
    created for it is named by joining that fq-name with ':'. */
module RouteTargetNames {

  const Colon: char := ':'

  /** Python's `s.split(sep)`: the pieces between separators, at least one. */
  function Split(s: string, sep: char): (parts: seq<string>)
    ensures |parts| >= 1
    ensures forall i :: 0 <= i < |parts| ==> sep !in parts[i]
    decreases |s|
  {
    if s == [] then [""]
    else
      var rest := Split(s[1..], sep);
      if s[0] == sep then [""] + rest
      else [[s[0]] + rest[0]] + rest[1..]
  }

  /** Python's `sep.join(parts)`. */
  function Join(parts: seq<string>, sep: char): string
    decreases |parts|
  {
    if |parts| == 0 then ""
    else if |parts| == 1 then parts[0]
    else parts[0] + [sep] + Join(parts[1..], sep)
  }

  /** Joining the pieces of a split gives back the string. */
  lemma {:induction false} JoinSplit(s: string, sep: char)
    ensures Join(Split(s, sep), sep) == s
    decreases |s|
  {
    if s != [] {
      var rest := Split(s[1..], sep);
      JoinSplit(s[1..], sep);
      assert s == [s[0]] + s[1..];
      if s[0] == sep {
        assert ([""] + rest)[1..] == rest;
      } else if |rest| > 1 {
        var parts := [[s[0]] + rest[0]] + rest[1..];
        assert parts[1..] == rest[1..];
        assert Join(rest, sep) == rest[0] + [sep] + Join(rest[1..], sep);
      }
    }
  }

  /** Splitting a join of separator-free pieces gives back the pieces. */
  lemma {:induction false} SplitJoin(parts: seq<string>, sep: char)
    requires |parts| >= 1
    requires forall i :: 0 <= i < |parts| ==> sep !in parts[i]
    ensures Split(Join(parts, sep), sep) == parts
    decreases |parts|, |parts[0]|
  {
    var p := parts[0];
    if p == [] {
      if |parts| > 1 {
        SplitJoin(parts[1..], sep);
        var joined := Join(parts, sep);
        assert joined == [sep] + Join(parts[1..], sep);
        assert joined[1..] == Join(parts[1..], sep);
        assert [""] + parts[1..] == parts;
      }
    } else {
      var shorter := [p[1..]] + parts[1..];
      assert shorter[1..] == parts[1..];
      assert forall i :: 0 <= i < |shorter| ==> sep !in shorter[i] by {
        forall i | 0 <= i < |shorter| ensures sep !in shorter[i] {
          if i == 0 {
            assert forall c :: c in p[1..] ==> c in p;
          } else {
            assert shorter[i] == parts[i];
          }
        }
      }
      SplitJoin(shorter, sep);
      var joined := Join(parts, sep);
      assert joined == [p[0]] + Join(shorter, sep) by {
        assert p == [p[0]] + p[1..];
        if |parts| > 1 {
          assert joined == p + [sep] + Join(parts[1..], sep);
          assert Join(shorter, sep) == p[1..] + [sep] + Join(parts[1..], sep);
        }
      }
      assert joined[0] == p[0] && joined[1..] == Join(shorter, sep);
      assert p[0] != sep by { assert p[0] in p; }
      assert p == [p[0]] + p[1..];
      assert [[p[0]] + p[1..]] + parts[1..] == parts;
    }
  }

  /** `['target'] + rt.split(':')`. */
  function TargetFqName(rt: string): seq<string> {
    ["target"] + Split(rt, Colon)
  }

  /** The name of the route-target object for an fq-name, `':'.join(fq)`. */
  function ObjectName(fq: seq<string>): string {
    Join(fq, Colon)
  }

  /** The object created for route target rt is named "target:" + rt. */
  lemma TargetObjectName(rt: string)
    ensures ObjectName(TargetFqName(rt)) == "target:" + rt
  {
    var parts := Split(rt, Colon);
    assert TargetFqName(rt)[1..] == parts;
    JoinSplit(rt, Colon);
  }

  /** Distinct route targets are kept as distinct route-target objects. */
  lemma DistinctTargetsDistinctObjects(rt1: string, rt2: string)
    requires rt1 != rt2
    ensures ObjectName(TargetFqName(rt1)) != ObjectName(TargetFqName(rt2))
  {
    TargetObjectName(rt1);
    TargetObjectName(rt2);
    assert ("target:" + rt1)[7..] == rt1;
    assert ("target:" + rt2)[7..] == rt2;
  }
}
