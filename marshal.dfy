/** The text log codec's marshaling side: the bodies of every log record,
    resource by resource and scope by scope, joined with the marshaling
    separator, which goes between two records and nowhere else. */
module TextMarshal {
  import opened Bytes

  /** A batch of logs: resource logs, each a list of scope logs, each a list
      of log records. */
  type Logs = seq<seq<seq<Record>>>

  /** The records joined with `sep` between each two of them. */
  function Join(rs: seq<Record>, sep: seq<byte>): seq<byte>
  {
    if |rs| == 0 then []
    else if |rs| == 1 then rs[0]
    else Join(rs[..|rs| - 1], sep) + sep + rs[|rs| - 1]
  }

  /** Every record of a batch, in order. */
  function AllRecords(ld: Logs): seq<Record>
  {
    if ld == [] then [] else AllRecords(ld[..|ld| - 1]) + Flatten(ld[|ld| - 1])
  }

  /** Joining one more record: it comes after a separator, unless it is the
      first. */
  lemma JoinSnoc(rs: seq<Record>, r: Record, sep: seq<byte>)
    ensures Join(rs + [r], sep) == if rs == [] then r else Join(rs, sep) + sep + r
  {
    assert (rs + [r])[..|rs|] == rs;
  }

  /** K records give K - 1 separators, and no record gives nothing. */
  lemma {:induction false} JoinLength(rs: seq<Record>, sep: seq<byte>)
    ensures |Join(rs, sep)| == |Flatten(rs)| + (if rs == [] then 0 else (|rs| - 1) * |sep|)
  {
    if rs != [] {
      var init, last := rs[..|rs| - 1], rs[|rs| - 1];
      assert rs == init + [last];
      FlattenAppend(init, [last]);
      assert Flatten([last]) == last;
      if init != [] {
        JoinLength(init, sep);
      }
    }
  }

  /** With an empty separator the records are simply concatenated. */
  lemma {:induction false} JoinWithoutSeparator(rs: seq<Record>)
    ensures Join(rs, []) == Flatten(rs)
  {
    if rs != [] {
      var init, last := rs[..|rs| - 1], rs[|rs| - 1];
      assert rs == init + [last];
      FlattenAppend(init, [last]);
      assert Flatten([last]) == last;
      JoinWithoutSeparator(init);
    }
  }

  /** Joining two non-empty runs of records puts one separator between them:
      the output of two batches is the two outputs joined. */
  lemma {:induction false} JoinAppend(a: seq<Record>, b: seq<Record>, sep: seq<byte>)
    requires a != [] && b != []
    ensures Join(a + b, sep) == Join(a, sep) + sep + Join(b, sep)
    decreases |b|
  {
    var init, last := b[..|b| - 1], b[|b| - 1];
    var ja := Join(a, sep);
    assert a + b == (a + init) + [last];
    assert Join(a + b, sep) == Join(a + init, sep) + sep + last by {
      JoinSnoc(a + init, last, sep);
    }
    if init != [] {
      var ji := Join(init, sep);
      assert Join(b, sep) == ji + sep + last by {
        assert b == init + [last];
        JoinSnoc(init, last, sep);
      }
      assert Join(a + init, sep) == ja + sep + ji by {
        JoinAppend(a, init, sep);
      }
      assert (ja + sep + ji) + sep + last == ja + sep + (ji + sep + last);
    } else {
      assert a + init == a;
      assert Join(b, sep) == last by {
        assert b == [last];
      }
    }
  }

  /** The first record opens the output, the last one closes it. */
  lemma {:induction false} JoinEnds(rs: seq<Record>, sep: seq<byte>)
    requires rs != []
    ensures var out := Join(rs, sep);
            |rs[0]| <= |out| && out[..|rs[0]|] == rs[0] &&
            |rs[|rs| - 1]| <= |out| && out[|out| - |rs[|rs| - 1]|..] == rs[|rs| - 1]
  {
    if |rs| > 1 {
      var init := rs[..|rs| - 1];
      JoinEnds(init, sep);
      assert init[0] == rs[0];
    }
  }

  /** AllRecords over the resources seen so far, extended by one scope. */
  lemma ScopesSnoc(scopes: seq<seq<Record>>, j: nat)
    requires j < |scopes|
    ensures Flatten(scopes[..j + 1]) == Flatten(scopes[..j]) + scopes[j]
  {
    assert scopes[..j + 1] == scopes[..j] + [scopes[j]];
    FlattenAppend(scopes[..j], [scopes[j]]);
    assert Flatten([scopes[j]]) == scopes[j];
  }

  /** MarshalLogs: walks resources, scopes and records in order, appending the
      separator before every record but the first, then the record's body. */
  method MarshalLogs(sep: seq<byte>, ld: Logs) returns (b: seq<byte>)
    ensures b == Join(AllRecords(ld), sep)
  {
    b := [];
    var appended := false;
    var i := 0;
    while i < |ld|
      invariant 0 <= i <= |ld|
      invariant b == Join(AllRecords(ld[..i]), sep)
      invariant appended <==> AllRecords(ld[..i]) != []
    {
      var scopes := ld[i];
      ghost var before := AllRecords(ld[..i]);
      assert before + Flatten(scopes[..0]) == before by {
        assert scopes[..0] == [];
      }
      var j := 0;
      while j < |scopes|
        invariant 0 <= j <= |scopes|
        invariant b == Join(before + Flatten(scopes[..j]), sep)
        invariant appended <==> before + Flatten(scopes[..j]) != []
      {
        var records := scopes[j];
        ghost var seen := before + Flatten(scopes[..j]);
        assert seen + records[..0] == seen;
        var k := 0;
        while k < |records|
          invariant 0 <= k <= |records|
          invariant b == Join(seen + records[..k], sep)
          invariant appended <==> seen + records[..k] != []
        {
          RecordStep(seen, records, k, sep);
          if appended {
            b := b + sep;
          }
          b := b + records[k];
          appended := true;
          k := k + 1;
        }
        ScopeStep(before, scopes, j);
        j := j + 1;
      }
      ResourceStep(ld, i);
      i := i + 1;
    }
    assert ld[..i] == ld;
  }

  /** The inner loop's step: one more record joined. */
  lemma RecordStep(seen: seq<Record>, records: seq<Record>, k: nat, sep: seq<byte>)
    requires k < |records|
    ensures seen + records[..k + 1] == (seen + records[..k]) + [records[k]]
    ensures Join(seen + records[..k + 1], sep) ==
            if seen + records[..k] == [] then records[k] else Join(seen + records[..k], sep) + sep + records[k]
  {
    assert records[..k + 1] == records[..k] + [records[k]];
    JoinSnoc(seen + records[..k], records[k], sep);
  }

  /** The middle loop's step: one more scope's records. */
  lemma ScopeStep(before: seq<Record>, scopes: seq<seq<Record>>, j: nat)
    requires j < |scopes|
    ensures before + Flatten(scopes[..j]) + scopes[j][..|scopes[j]|] == before + Flatten(scopes[..j + 1])
  {
    ScopesSnoc(scopes, j);
    assert scopes[j][..|scopes[j]|] == scopes[j];
  }

  /** The outer loop's step: one more resource's records. */
  lemma ResourceStep(ld: Logs, i: nat)
    requires i < |ld|
    ensures AllRecords(ld[..i]) + Flatten(ld[i][..|ld[i]|]) == AllRecords(ld[..i + 1])
  {
    assert ld[i][..|ld[i]|] == ld[i];
    assert ld[..i + 1][..i] == ld[..i];
  }

  /** A batch of three records in two resources, marshaled with a newline
      separator: "a", "b" and "c" become "a\nb\nc". */
  lemma MarshalScenario()
    ensures var a, b, c := AsBytes("a"), AsBytes("b"), AsBytes("c");
            Join(AllRecords([[[a], []], [[b, c]]]), [NEWLINE]) == a + [NEWLINE] + b + [NEWLINE] + c
  {
    var a, b, c := AsBytes("a"), AsBytes("b"), AsBytes("c");
    var r1: seq<seq<Record>> := [[a], []];
    var r2: seq<seq<Record>> := [[b, c]];
    var ld: Logs := [r1, r2];
    var noScope: seq<seq<Record>> := [[]];
    assert Flatten(noScope) == [] by {
      assert noScope[1..] == [];
    }
    assert Flatten(r1) == [a] by {
      assert r1[1..] == noScope;
    }
    assert Flatten(r2) == [b, c] by {
      assert r2[1..] == [];
    }
    assert AllRecords([r1]) == [a] by {
      assert [r1][..0] == [];
    }
    assert AllRecords(ld) == [a, b, c] by {
      assert ld[..1] == [r1];
    }
    assert Join([a, b], [NEWLINE]) == a + [NEWLINE] + b by {
      assert [a, b][..1] == [a];
    }
    assert Join([a, b, c], [NEWLINE]) == Join([a, b], [NEWLINE]) + [NEWLINE] + c by {
      assert [a, b, c][..2] == [a, b];
    }
  }
}
