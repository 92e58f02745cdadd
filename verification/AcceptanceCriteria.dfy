/** Acceptance criteria: from a phase's checks and the explicit lists to statuses, gaps and readiness. */
module AcceptanceCriteria {
  import opened Sequences
  import opened Text

  datatype AcStatus = Met | Unmet | Waived

  /** A criterion with the outcome of its direct field check. */
  datatype Check = Check(id: string, fieldMet: bool)

  datatype AcCriterion = AcCriterion(id: string, status: AcStatus)

  datatype AcResult = AcResult(criteria: seq<AcCriterion>, gaps: seq<string>, transitionReady: bool)

  /** Optional criteria carry "-U" in their id. */
  predicate Optional(id: string)
  {
    Contains(id, "-U")
  }

  function StatusOf(check: Check, acMet: seq<string>, acWaived: seq<string>): AcStatus
  {
    if check.id in acMet || check.fieldMet then Met
    else if check.id in acWaived then Waived
    else Unmet
  }

  function Criteria(checks: seq<Check>, acMet: seq<string>, acWaived: seq<string>): (r: seq<AcCriterion>)
    ensures |r| == |checks|
  {
    seq(|checks|, i requires 0 <= i < |checks| => AcCriterion(checks[i].id, StatusOf(checks[i], acMet, acWaived)))
  }

  function Gaps(criteria: seq<AcCriterion>): (r: seq<string>)
  {
    if criteria == [] then []
    else (if criteria[0].status.Unmet? then [criteria[0].id] else []) + Gaps(criteria[1..])
  }

  predicate Blocks(c: AcCriterion)
  {
    !Optional(c.id) && c.status.Unmet?
  }

  function FromChecks(checks: seq<Check>, acMet: seq<string>, acWaived: seq<string>): AcResult
  {
    var criteria := Criteria(checks, acMet, acWaived);
    AcResult(criteria, Gaps(criteria), forall i :: 0 <= i < |criteria| ==> !Blocks(criteria[i]))
  }

  lemma GapsAppend(criteria: seq<AcCriterion>, c: AcCriterion)
    ensures Gaps(criteria + [c]) == Gaps(criteria) + if c.status.Unmet? then [c.id] else []
  {
    if criteria == [] {
      assert [c][1..] == [];
      assert criteria + [c] == [c];
    } else {
      assert (criteria + [c])[1..] == criteria[1..] + [c];
      GapsAppend(criteria[1..], c);
    }
  }

  /** `from_checks`: one pass that fills both lists, then the readiness test. */
  method EvaluateChecks(checks: seq<Check>, acMet: seq<string>, acWaived: seq<string>) returns (result: AcResult)
    ensures result == FromChecks(checks, acMet, acWaived)
  {
    var criteria: seq<AcCriterion> := [];
    var gaps: seq<string> := [];
    for i := 0 to |checks|
      invariant criteria == Criteria(checks[..i], acMet, acWaived) && gaps == Gaps(criteria)
    {
      var explicitlyMet := checks[i].id in acMet;
      var waived := checks[i].id in acWaived;
      var status := if explicitlyMet || checks[i].fieldMet then Met else if waived then Waived else Unmet;
      GapsAppend(criteria, AcCriterion(checks[i].id, status));
      if status == Unmet {
        gaps := gaps + [checks[i].id];
      }
      criteria := criteria + [AcCriterion(checks[i].id, status)];
    }
    assert checks[..|checks|] == checks;
    var ready := true;
    for i := 0 to |criteria|
      invariant ready <==> forall k :: 0 <= k < i ==> !Blocks(criteria[k])
    {
      ready := ready && (Optional(criteria[i].id) || criteria[i].status == Met || criteria[i].status == Waived);
    }
    result := AcResult(criteria, gaps, ready);
  }

  predicate IsUnmet(c: AcCriterion)
  {
    c.status.Unmet?
  }

  function UnmetCount(r: AcResult): nat
  {
    |Retain(r.criteria, IsUnmet)|
  }

  /** The criteria that bar the way. */
  function BlockingCount(r: AcResult): nat
  {
    |Retain(r.criteria, Blocks)|
  }

  // ------------------------------------------------------------------------
  // What a result means
  // ------------------------------------------------------------------------

  /** A criterion is covered when its field check holds or its id is listed, met or waived. */
  predicate Covered(check: Check, acMet: seq<string>, acWaived: seq<string>)
  {
    check.fieldMet || check.id in acMet || check.id in acWaived
  }

  /** Criteria keep the checks' order; being met, by field or by listing, comes before being waived. */
  lemma {:induction false} StatusIff(checks: seq<Check>, acMet: seq<string>, acWaived: seq<string>, i: nat)
    requires i < |checks|
    ensures var r := FromChecks(checks, acMet, acWaived);
            && |r.criteria| == |checks| && r.criteria[i].id == checks[i].id
            && (r.criteria[i].status == Met <==> checks[i].fieldMet || checks[i].id in acMet)
            && (r.criteria[i].status == Waived <==> !checks[i].fieldMet && checks[i].id !in acMet && checks[i].id in acWaived)
  {
  }

  /** Ready means that every criterion that is not optional is covered. */
  lemma {:induction false} ReadyIff(checks: seq<Check>, acMet: seq<string>, acWaived: seq<string>)
    ensures FromChecks(checks, acMet, acWaived).transitionReady
            <==> forall i :: 0 <= i < |checks| ==> Optional(checks[i].id) || Covered(checks[i], acMet, acWaived)
  {
    var criteria := Criteria(checks, acMet, acWaived);
    forall i | 0 <= i < |checks| ensures Blocks(criteria[i]) <==> !(Optional(checks[i].id) || Covered(checks[i], acMet, acWaived)) {
    }
    if FromChecks(checks, acMet, acWaived).transitionReady {
      forall i | 0 <= i < |checks| ensures Optional(checks[i].id) || Covered(checks[i], acMet, acWaived) {
        assert !Blocks(criteria[i]);
      }
    }
  }

  /** The gaps are the unmet criteria, as many as `unmet_count`; ready means no unmet criterion blocks. */
  lemma {:induction false} GapsAreTheUnmet(criteria: seq<AcCriterion>)
    ensures |Gaps(criteria)| == |Retain(criteria, IsUnmet)|
    ensures forall k :: 0 <= k < |Gaps(criteria)| ==> Gaps(criteria)[k] == Retain(criteria, IsUnmet)[k].id
    ensures |Retain(criteria, Blocks)| <= |Retain(criteria, IsUnmet)|
  {
    if criteria != [] {
      GapsAreTheUnmet(criteria[1..]);
    }
  }

  /** Checks that hold at least as often, and lists that cover at least as much, keep a ready result ready. */
  lemma {:induction false} ReadyMonotone(
    checks: seq<Check>, acMet: seq<string>, acWaived: seq<string>,
    checks': seq<Check>, acMet': seq<string>, acWaived': seq<string>)
    requires |checks| == |checks'|
    requires forall i :: 0 <= i < |checks| ==> checks[i].id == checks'[i].id
    requires forall i :: 0 <= i < |checks| && Covered(checks[i], acMet, acWaived) ==> Covered(checks'[i], acMet', acWaived')
    requires FromChecks(checks, acMet, acWaived).transitionReady
    ensures FromChecks(checks', acMet', acWaived').transitionReady
  {
    ReadyIff(checks, acMet, acWaived);
    ReadyIff(checks', acMet', acWaived');
  }
}
