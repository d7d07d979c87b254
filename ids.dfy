/**
 * Identifier strings of the large-graph component: the hierarchical ids whose
 * levels are separated by '-', the collapse id derived from an expanded id by
 * dropping its last segment, the edge-id normalisation of the view builder and
 * the fresh ids handed out by `uniqueId`.
 */
module Ids {
  import opened Wrappers

  const Dash: char := '-'

  /** The index of the last '-' of `s`. */
  function LastDash(s: string): (j: nat)
    requires Dash in s
    ensures j < |s| && s[j] == Dash
    ensures Dash !in s[j + 1..]
  {
    if s[|s| - 1] == Dash then |s| - 1
    else
      assert Dash in s[..|s| - 1] by {
        var i :| 0 <= i < |s| && s[i] == Dash;
        assert s[..|s| - 1][i] == Dash;
      }
      var j := LastDash(s[..|s| - 1]);
      assert s[j + 1..] == s[..|s| - 1][j + 1..] + [s[|s| - 1]];
      j
  }

  /** The segments of `s` between its '-' characters, as `s.split('-')` yields them. */
  function Split(s: string): (segs: seq<string>)
    ensures |segs| >= 1
    ensures forall k :: 0 <= k < |segs| ==> Dash !in segs[k]
    decreases |s|
  {
    if Dash !in s then [s]
    else
      var j := LastDash(s);
      Split(s[..j]) + [s[j + 1..]]
  }

  /** The segments joined by '-'. */
  function Join(segs: seq<string>): string
    requires |segs| >= 1
  {
    if |segs| == 1 then segs[0] else Join(segs[..|segs| - 1]) + "-" + segs[|segs| - 1]
  }

  /** Splitting at '-' and joining with '-' gives the id back. */
  lemma {:induction false} JoinSplit(s: string)
    ensures Join(Split(s)) == s
    decreases |s|
  {
    if Dash in s {
      var j := LastDash(s);
      var segs := Split(s);
      assert segs[..|segs| - 1] == Split(s[..j]);
      JoinSplit(s[..j]);
      assert s == s[..j] + "-" + s[j + 1..];
    }
  }

  /** The last segment of an id. */
  function LastSegment(id: string): string
  {
    var segs := Split(id);
    segs[|segs| - 1]
  }

  /**
   * The id one level up in the hierarchy: every segment of `id` but the last,
   * joined by '-'; None (the source's `undefined`) when `id` has no '-'.
   */
  function CollapseId(id: string): Option<string>
  {
    var segs := Split(id);
    if |segs| == 1 then None else Some(Join(segs[..|segs| - 1]))
  }

  /**
   * The collapse id and the last segment rebuild the id; it is absent exactly
   * when there is nothing to drop.
   */
  lemma CollapseIdRoundTrip(id: string)
    ensures CollapseId(id).None? <==> Dash !in id
    ensures CollapseId(id).Some? ==> CollapseId(id).value + "-" + LastSegment(id) == id
    ensures Dash !in LastSegment(id)
  {
    if Dash in id {
      var j := LastDash(id);
      var segs := Split(id);
      assert segs[..|segs| - 1] == Split(id[..j]);
      JoinSplit(id[..j]);
      assert id == id[..j] + "-" + id[j + 1..];
    }
  }

  /**
   * The accumulation written in the source: the next segment is appended after
   * a '-' only when the string built so far is non-empty (truthy); otherwise it
   * replaces it.
   */
  function TruthyJoin(segs: seq<string>): (r: Option<string>)
    ensures r.None? <==> segs == []
  {
    if segs == [] then None
    else
      var last := segs[|segs| - 1];
      match TruthyJoin(segs[..|segs| - 1])
      case Some(acc) => if acc != "" then Some(acc + "-" + last) else Some(last)
      case None => Some(last)
  }

  /** The collapse id as the source computes it. */
  function CollapseIdAsWritten(id: string): Option<string>
  {
    var segs := Split(id);
    TruthyJoin(segs[..|segs| - 1])
  }

  /** The first segment of `s`: its characters before the first '-'. */
  function FirstSegment(s: string): (r: string)
    ensures |r| <= |s| && r == s[..|r|]
    ensures Dash !in r
  {
    if s == [] || s[0] == Dash then [] else [s[0]] + FirstSegment(s[1..])
  }

  lemma {:induction false} FirstSegmentNoDash(s: string)
    requires Dash !in s
    ensures FirstSegment(s) == s
  {
    if s != [] {
      assert Dash !in s[1..] by {
        forall i | 0 <= i < |s| - 1 ensures s[1..][i] != Dash {
          assert s[1..][i] == s[i + 1];
        }
      }
      FirstSegmentNoDash(s[1..]);
    }
  }

  lemma {:induction false} FirstSegmentBeforeDash(s: string, j: nat)
    requires j < |s| && s[j] == Dash
    ensures FirstSegment(s[..j]) == FirstSegment(s)
  {
    if s[0] != Dash {
      assert s[..j][0] == s[0];
      assert s[..j][1..] == s[1..][..j - 1];
      FirstSegmentBeforeDash(s[1..], j - 1);
    }
  }

  /** `FirstSegment` is the first element of `Split`, i.e. `s.split('-')[0]`. */
  lemma {:induction false} FirstSegmentIsFirstSplit(s: string)
    ensures Split(s)[0] == FirstSegment(s)
    decreases |s|
  {
    if Dash !in s {
      FirstSegmentNoDash(s);
    } else {
      var j := LastDash(s);
      FirstSegmentIsFirstSplit(s[..j]);
      FirstSegmentBeforeDash(s, j);
    }
  }

  lemma {:induction false} TruthyJoinAgrees(segs: seq<string>)
    requires |segs| >= 1 && segs[0] != ""
    ensures TruthyJoin(segs) == Some(Join(segs)) && Join(segs) != ""
  {
    if |segs| > 1 {
      TruthyJoinAgrees(segs[..|segs| - 1]);
    }
  }

  /**
   * The source's collapse id agrees with the intended one for every id that
   * does not start with '-'.
   */
  lemma CollapseIdAsWrittenAgrees(id: string)
    requires id == [] || id[0] != Dash
    ensures CollapseIdAsWritten(id) == CollapseId(id)
  {
    var segs := Split(id);
    if |segs| > 1 {
      FirstSegmentIsFirstSplit(id);
      assert segs[0] != "";
      assert segs[..|segs| - 1][0] == segs[0];
      TruthyJoinAgrees(segs[..|segs| - 1]);
    }
  }

  /**
   * The discrepancy: for "-a-b" the source yields "a", so the collapse id and
   * the last segment no longer rebuild the expanded id; the intended result is "-a".
   */
  lemma CollapseIdAsWrittenLosesLeadingSegment()
    ensures CollapseIdAsWritten("-a-b") == Some("a")
    ensures CollapseId("-a-b") == Some("-a")
    ensures "a" + "-" + LastSegment("-a-b") != "-a-b"
  {
    var s := "-a-b";
    assert LastDash(s) == 2;
    assert s[..2] == "-a";
    assert LastDash("-a") == 0;
    assert "-a"[..0] == "";
    assert Split("") == [""];
    assert Split("-a") == ["", "a"];
    assert Split(s) == ["", "a", "b"];
    assert Split(s)[..2] == ["", "a"];
    assert ["", "a"][..1] == [""];
    assert TruthyJoin([""]) == Some("");
    assert Join([""]) == "";
    assert Join(["", "a"]) == Join([""]) + "-" + "a" == "-a";
    assert CollapseId(s) == Some(Join(["", "a"]));
  }

  /** A decimal digit. */
  function Digit(d: nat): char
    requires d < 10
  {
    ('0' as int + d) as char
  }

  /** `n` written in decimal. */
  function Decimal(n: nat): (r: string)
    ensures |r| >= 1
    ensures n >= 10 ==> |r| >= 2
    ensures forall k :: 0 <= k < |r| ==> '0' <= r[k] <= '9'
  {
    if n < 10 then [Digit(n)] else Decimal(n / 10) + [Digit(n % 10)]
  }

  /** Distinct numbers have distinct decimal forms. */
  lemma {:induction false} DecimalInjective(n: nat, m: nat)
    requires Decimal(n) == Decimal(m)
    ensures n == m
  {
    var a, b := Decimal(n), Decimal(m);
    if n < 10 || m < 10 {
      assert |a| == |b| == 1;
      assert Digit(n % 10) == a[0] == b[0] == Digit(m % 10);
    } else {
      assert a[..|a| - 1] == Decimal(n / 10);
      assert b[..|b| - 1] == Decimal(m / 10);
      DecimalInjective(n / 10, m / 10);
      assert Digit(n % 10) == a[|a| - 1] == b[|b| - 1] == Digit(m % 10);
    }
  }

  /**
   * The fresh-id oracle behind `uniqueId`: the n-th id handed out. Its real
   * implementation is not part of this model; only freshness is relied on.
   */
  function UniqueId(n: nat): (r: string)
    ensures Dash !in r
  {
    Decimal(n)
  }

  lemma UniqueIdInjective(n: nat, m: nat)
    requires n != m
    ensures UniqueId(n) != UniqueId(m)
  {
    if UniqueId(n) == UniqueId(m) {
      DecimalInjective(n, m);
    }
  }

  /** The prefix the view builder gives edge ids. */
  const EdgePrefix: string := "edge"

  /** The id `edge-<uid>` made for an edge from the `uid`-th fresh number. */
  function FreshEdgeId(uid: nat): string
  {
    EdgePrefix + "-" + UniqueId(uid)
  }

  /** A fresh edge id begins with the "edge" segment. */
  lemma FreshEdgeIdPrefix(uid: nat)
    ensures Split(FreshEdgeId(uid))[0] == EdgePrefix
  {
    var r := FreshEdgeId(uid);
    FirstSegmentIsFirstSplit(r);
    assert r[4] == Dash && r[..4] == EdgePrefix;
    FirstSegmentBeforeDash(r, 4);
    FirstSegmentNoDash(EdgePrefix);
  }

  /** Different fresh numbers give different edge ids. */
  lemma FreshEdgeIdInjective(n: nat, m: nat)
    requires n != m
    ensures FreshEdgeId(n) != FreshEdgeId(m)
  {
    UniqueIdInjective(n, m);
    var p := EdgePrefix + "-";
    assert FreshEdgeId(n)[|p|..] == UniqueId(n);
    assert FreshEdgeId(m)[|p|..] == UniqueId(m);
  }

  /** An id is missing when it is `undefined` or empty (falsy). */
  predicate MissingId(id: Option<string>)
  {
    id.None? || id.value == ""
  }

  /**
   * Edge-id normalisation of the view builder: a missing id becomes
   * "edge-<uid>", an id whose first '-'-segment is not "edge" gets "edge-"
   * in front, any other id is kept.
   */
  function NormalizeEdgeId(id: Option<string>, uid: nat): string
  {
    if MissingId(id) then FreshEdgeId(uid)
    else if Split(id.value)[0] != EdgePrefix then EdgePrefix + "-" + id.value
    else id.value
  }

  /**
   * After normalisation every edge id starts with the "edge" segment, a
   * normalised id is left alone by a second pass, and only a missing id
   * draws a fresh number.
   */
  lemma {:induction false} NormalizeEdgeIdProperties(id: Option<string>, uid: nat, uid': nat)
    ensures Split(NormalizeEdgeId(id, uid))[0] == EdgePrefix
    ensures NormalizeEdgeId(Some(NormalizeEdgeId(id, uid)), uid') == NormalizeEdgeId(id, uid)
    ensures !MissingId(id) ==> NormalizeEdgeId(id, uid) == NormalizeEdgeId(id, uid')
    ensures !MissingId(id) && Split(id.value)[0] == EdgePrefix ==> NormalizeEdgeId(id, uid) == id.value
  {
    var r := NormalizeEdgeId(id, uid);
    FirstSegmentIsFirstSplit(r);
    if MissingId(id) || Split(id.value)[0] != EdgePrefix {
      assert r[4] == Dash && r[..4] == EdgePrefix;
      FirstSegmentBeforeDash(r, 4);
      FirstSegmentNoDash(EdgePrefix);
    }
  }
}
