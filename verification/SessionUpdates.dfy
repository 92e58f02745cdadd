/** What a batch of criterion updates, and a batch of entities, amounts to. */
module SessionUpdates {
  import opened Wrappers
  import opened Sequences
  import opened Sessions

  // ------------------------------------------------------------------------
  // Criterion updates: the last writer wins
  // ------------------------------------------------------------------------

  /** What the last update naming `id` said. */
  function LastWrite(us: seq<AcUpdate>, id: string): Option<bool>
    decreases |us|
  {
    if us == [] then None
    else if us[|us| - 1].criterionId == id then Some(us[|us| - 1].met)
    else LastWrite(us[..|us| - 1], id)
  }

  predicate EverMet(us: seq<AcUpdate>, id: string)
  {
    AcUpdate(id, true) in us
  }

  ghost predicate Consistent(ac: AcLists)
  {
    NoDuplicates(ac.met) && NoDuplicates(ac.waived) && forall id :: id in ac.met ==> id !in ac.waived
  }

  lemma {:induction false} UpdateKeepsConsistent(ac: AcLists, u: AcUpdate)
    requires Consistent(ac)
    ensures Consistent(ApplyUpdate(ac, u))
  {
    RetainNoDuplicates(ac.waived, (id: string) => id != u.criterionId);
    RetainNoDuplicates(ac.met, (id: string) => id != u.criterionId);
  }

  lemma {:induction false} UpdatesKeepConsistent(ac: AcLists, us: seq<AcUpdate>)
    requires Consistent(ac)
    ensures Consistent(ApplyUpdates(ac, us))
    decreases |us|
  {
    if us != [] {
      var init := us[..|us| - 1];
      UpdatesKeepConsistent(ac, init);
      UpdateKeepsConsistent(ApplyUpdates(ac, init), us[|us| - 1]);
    }
  }

  lemma {:induction false} MetAfterUpdates(ac: AcLists, us: seq<AcUpdate>, id: string)
    ensures id in ApplyUpdates(ac, us).met
            <==> match LastWrite(us, id) { case Some(met) => met case None => id in ac.met }
    decreases |us|
  {
    if us != [] {
      MetAfterUpdates(ac, us[..|us| - 1], id);
    }
  }

  lemma {:induction false} WaivedAfterUpdates(ac: AcLists, us: seq<AcUpdate>)
    ensures ApplyUpdates(ac, us).waived == Retain(ac.waived, (id: string) => !EverMet(us, id))
    decreases |us|
  {
    if us == [] {
      RetainAll(ac.waived, (id: string) => !EverMet(us, id));
    } else {
      var init, u := us[..|us| - 1], us[|us| - 1];
      assert us == init + [u];
      WaivedAfterUpdates(ac, init);
      var before, after := (id: string) => !EverMet(init, id), (id: string) => !EverMet(us, id);
      if u.met {
        var notThis := (id: string) => id != u.criterionId;
        assert u == AcUpdate(u.criterionId, true);
        RetainTwice(ac.waived, before, notThis, after);
      } else {
        RetainSame(ac.waived, before, after);
      }
    }
  }

  /**
   After any batch: an id is met exactly when its last update says so, or when it was met and
   no update names it; the waived ids are the old ones without those some update met; and
   lists that were duplicate-free and disjoint still are.
   */
  lemma {:induction false} LastWriterWins(ac: AcLists, us: seq<AcUpdate>, id: string)
    ensures id in ApplyUpdates(ac, us).met
            <==> match LastWrite(us, id) { case Some(met) => met case None => id in ac.met }
    ensures ApplyUpdates(ac, us).waived == Retain(ac.waived, (x: string) => !EverMet(us, x))
    ensures Consistent(ac) ==> Consistent(ApplyUpdates(ac, us))
  {
    MetAfterUpdates(ac, us, id);
    WaivedAfterUpdates(ac, us);
    if Consistent(ac) {
      UpdatesKeepConsistent(ac, us);
    }
  }

  lemma {:induction false} LastWriteOfAllMet(us: seq<AcUpdate>, id: string)
    requires forall u :: u in us ==> u.met
    ensures LastWrite(us, id) == if EverMet(us, id) then Some(true) else None
    decreases |us|
  {
    if us != [] {
      var init, u := us[..|us| - 1], us[|us| - 1];
      assert us == init + [u];
      assert u in us && u.met;
      LastWriteOfAllMet(init, id);
    }
  }

  /** Updates that are all met never uncover an id: it is listed after exactly when it was, or when some update names it. */
  lemma {:induction false} MetUpdatesOnlyAdd(ac: AcLists, us: seq<AcUpdate>, id: string)
    requires forall u :: u in us ==> u.met
    ensures id in ApplyUpdates(ac, us).met || id in ApplyUpdates(ac, us).waived
            <==> id in ac.met || id in ac.waived || EverMet(us, id)
  {
    LastWriterWins(ac, us, id);
    LastWriteOfAllMet(us, id);
  }

  // ------------------------------------------------------------------------
  // Entities: each type has a list of its own
  // ------------------------------------------------------------------------

  /** The values of one type's entities, in order. */
  function ValuesOf(es: seq<ExtractedEntity>, entityType: string): (r: seq<string>)
    decreases |es|
  {
    if es == [] then []
    else ValuesOf(es[..|es| - 1], entityType)
         + if es[|es| - 1].entityType == entityType then [es[|es| - 1].value] else []
  }

  function AddAllOnce(list: seq<string>, values: seq<string>): (r: seq<string>)
    decreases |values|
  {
    if values == [] then list else AddOnce(AddAllOnce(list, values[..|values| - 1]), values[|values| - 1])
  }

  /** Adding once keeps the list in front, adds exactly the missing values, and no duplicate. */
  lemma {:induction false} AddAllOnceMeaning(list: seq<string>, values: seq<string>)
    ensures list <= AddAllOnce(list, values)
    ensures forall x :: x in AddAllOnce(list, values) <==> x in list || x in values
    ensures NoDuplicates(list) ==> NoDuplicates(AddAllOnce(list, values))
    decreases |values|
  {
    if values != [] {
      assert values == values[..|values| - 1] + [values[|values| - 1]];
      AddAllOnceMeaning(list, values[..|values| - 1]);
    }
  }

  /** The batch, one list at a time. */
  function Factored(c: Captured, es: seq<ExtractedEntity>): Captured
  {
    Captured(
      c.actors + Mapped(ValuesOf(es, "actor"), ActorFromValue),
      c.requirements + Mapped(ValuesOf(es, "requirement"), RequirementFromValue),
      c.constraints + Mapped(ValuesOf(es, "constraint"), ConstraintFromValue),
      AddAllOnce(c.assumptions, ValuesOf(es, "assumption")),
      AddAllOnce(c.openQuestions, ValuesOf(es, "gap")))
  }

  lemma MappedAppend<S, T>(list: seq<T>, s: seq<S>, x: S, f: S -> T)
    ensures list + Mapped(s + [x], f) == (list + Mapped(s, f)) + [f(x)]
  {
    assert Mapped(s + [x], f) == Mapped(s, f) + [f(x)];
  }

  lemma AddAllOnceAppend(list: seq<string>, s: seq<string>, x: string)
    ensures AddAllOnce(list, s + [x]) == AddOnce(AddAllOnce(list, s), x)
  {
    assert (s + [x])[..|s + [x]| - 1] == s;
  }

  lemma ValuesOfAppend(es: seq<ExtractedEntity>, e: ExtractedEntity, t: string)
    ensures ValuesOf(es + [e], t) == if e.entityType == t then ValuesOf(es, t) + [e.value] else ValuesOf(es, t)
  {
    var all := es + [e];
    assert all[..|all| - 1] == es && all[|all| - 1] == e;
    assert ValuesOf(es, t) + [] == ValuesOf(es, t);
  }

  lemma FactoredStep(c: Captured, es: seq<ExtractedEntity>, e: ExtractedEntity)
    ensures Factored(c, es + [e]) == Capture(Factored(c, es), e)
  {
    hide AddAllOnce, Mapped, ActorFromValue, RequirementFromValue, ConstraintFromValue, AddOnce, ValuesOf;
    ValuesOfAppend(es, e, "actor");
    ValuesOfAppend(es, e, "requirement");
    ValuesOfAppend(es, e, "constraint");
    ValuesOfAppend(es, e, "assumption");
    ValuesOfAppend(es, e, "gap");
    MappedAppend(c.actors, ValuesOf(es, "actor"), e.value, ActorFromValue);
    MappedAppend(c.requirements, ValuesOf(es, "requirement"), e.value, RequirementFromValue);
    MappedAppend(c.constraints, ValuesOf(es, "constraint"), e.value, ConstraintFromValue);
    AddAllOnceAppend(c.assumptions, ValuesOf(es, "assumption"), e.value);
    AddAllOnceAppend(c.openQuestions, ValuesOf(es, "gap"), e.value);
  }

  lemma FactoredNone(c: Captured)
    ensures Factored(c, []) == c
  {
    hide ActorFromValue, RequirementFromValue, ConstraintFromValue;
    assert c.actors + Mapped([], ActorFromValue) == c.actors;
    assert c.requirements + Mapped([], RequirementFromValue) == c.requirements;
    assert c.constraints + Mapped([], ConstraintFromValue) == c.constraints;
  }

  /** A batch factors by type: each list grows by the image of its own type's values, and other types change nothing. */
  lemma {:induction false} CaptureFactors(c: Captured, es: seq<ExtractedEntity>)
    ensures CaptureAll(c, es) == Factored(c, es)
    decreases |es|
  {
    hide Factored, Capture;
    if es == [] {
      FactoredNone(c);
    } else {
      var init, e := es[..|es| - 1], es[|es| - 1];
      assert es == init + [e];
      CaptureFactors(c, init);
      FactoredStep(c, init, e);
    }
  }

  /** Any reordering that keeps each known type's own order gives the same lists. */
  lemma {:induction false} OnlyOrderWithinTypesMatters(c: Captured, es: seq<ExtractedEntity>, fs: seq<ExtractedEntity>)
    requires forall t :: KnownType(t) ==> ValuesOf(es, t) == ValuesOf(fs, t)
    ensures CaptureAll(c, es) == CaptureAll(c, fs)
  {
    hide ActorFromValue, RequirementFromValue, ConstraintFromValue, AddAllOnce, ValuesOf, CaptureAll, Mapped;
    CaptureFactors(c, es);
    CaptureFactors(c, fs);
    assert KnownType("actor") && KnownType("requirement") && KnownType("constraint") && KnownType("assumption") && KnownType("gap");
  }

  /** A batch split over several turns gives the same lists. */
  lemma {:induction false} SplitOverTurns(c: Captured, es: seq<ExtractedEntity>, fs: seq<ExtractedEntity>)
    ensures CaptureAll(CaptureAll(c, es), fs) == CaptureAll(c, es + fs)
    decreases |fs|
  {
    if fs == [] {
      assert es + fs == es;
    } else {
      var init := fs[..|fs| - 1];
      assert (es + fs)[..|es + fs| - 1] == es + init;
      SplitOverTurns(c, es, init);
    }
  }

  predicate HasKnownType(e: ExtractedEntity)
  {
    KnownType(e.entityType)
  }

  lemma {:induction false} ValuesOfKnown(es: seq<ExtractedEntity>, t: string)
    requires KnownType(t)
    ensures ValuesOf(Retain(es, HasKnownType), t) == ValuesOf(es, t)
    decreases |es|
  {
    if es != [] {
      var init, e := es[..|es| - 1], es[|es| - 1];
      assert es == init + [e];
      RetainConcat(init, [e], HasKnownType);
      assert [e][1..] == [];
      ValuesOfKnown(init, t);
      var kept := Retain(init, HasKnownType);
      assert HasKnownType(e) ==> (kept + [e])[..|kept + [e]| - 1] == kept;
      assert kept + [] == kept;
    }
  }

  /** Entities of unknown type change nothing and do not stop the batch. */
  lemma {:induction false} UnknownTypesAreIgnored(c: Captured, es: seq<ExtractedEntity>)
    ensures CaptureAll(c, Retain(es, HasKnownType)) == CaptureAll(c, es)
  {
    forall t | KnownType(t) ensures ValuesOf(Retain(es, HasKnownType), t) == ValuesOf(es, t) {
      ValuesOfKnown(es, t);
    }
    OnlyOrderWithinTypesMatters(c, Retain(es, HasKnownType), es);
  }

  /** Assumptions and open questions stay free of duplicates. */
  lemma {:induction false} CaptureKeepsDistinct(c: Captured, es: seq<ExtractedEntity>)
    requires NoDuplicates(c.assumptions) && NoDuplicates(c.openQuestions)
    ensures NoDuplicates(CaptureAll(c, es).assumptions) && NoDuplicates(CaptureAll(c, es).openQuestions)
  {
    CaptureFactors(c, es);
    AddAllOnceMeaning(c.assumptions, ValuesOf(es, "assumption"));
    AddAllOnceMeaning(c.openQuestions, ValuesOf(es, "gap"));
  }
}
