/** The upload gates that block every forward transition. */
module Gates {
  import opened Wrappers
  import opened Sequences
  import opened Sessions

  datatype GateType = Hard | RequiredPrompt | Triggered | Recommended

  datatype UploadGate = UploadGate(id: string, gateType: GateType, isOpen: bool)

  predicate Regulated(inputs: Inputs)
  {
    inputs.regulatoryContext.Some? && inputs.regulatoryContext.value != ""
  }

  /** `all_gates_for_session`. */
  function AllGates(inputs: Inputs): seq<UploadGate>
  {
    [UploadGate("GATE-BRD-EXISTS", Hard, inputs.brdArtifactId.None?),
     UploadGate("GATE-HLD-EXISTS", Hard, inputs.hldArtifactId.None?),
     UploadGate("GATE-CLIENT-SIGNATURE", Hard, !inputs.clientSignatureConfirmed),
     UploadGate("GATE-REGULATED-SOURCE-DOC", Hard, Regulated(inputs) && inputs.documentsIndexed == [])]
  }

  predicate IsOpenHard(g: UploadGate)
  {
    g.gateType == Hard && g.isOpen
  }

  function OpenHardGates(inputs: Inputs): seq<UploadGate>
  {
    Retain(AllGates(inputs), IsOpenHard)
  }

  function Count(b: bool): nat
  {
    if b then 1 else 0
  }

  lemma {:induction false} CountOpen(g: seq<UploadGate>)
    ensures |Retain(g, IsOpenHard)| == if g == [] then 0 else Count(IsOpenHard(g[0])) + |Retain(g[1..], IsOpenHard)|
  {
  }

  lemma {:induction false} CountOpenOfFour(a: UploadGate, b: UploadGate, c: UploadGate, d: UploadGate)
    ensures |Retain([a, b, c, d], IsOpenHard)|
            == Count(IsOpenHard(a)) + Count(IsOpenHard(b)) + Count(IsOpenHard(c)) + Count(IsOpenHard(d))
  {
    hide Retain, IsOpenHard;
    CountOpen([a, b, c, d]);
    assert [a, b, c, d][1..] == [b, c, d];
    CountOpen([b, c, d]);
    assert [b, c, d][1..] == [c, d];
    CountOpen([c, d]);
    assert [c, d][1..] == [d];
    CountOpen([d]);
    assert [d][1..] == [];
    CountOpen([]);
  }

  /**
   No hard gate is open exactly when BRD, HLD and signature are there and a regulatory context
   that is not empty comes with a document; the count is the number of missing pieces.
   */
  lemma {:induction false} GatesClosedIff(inputs: Inputs)
    ensures OpenHardGates(inputs) == [] <==>
      && inputs.brdArtifactId != None && inputs.hldArtifactId != None && inputs.clientSignatureConfirmed
      && (inputs.regulatoryContext == None || inputs.regulatoryContext == Some("") || inputs.documentsIndexed != [])
    ensures |OpenHardGates(inputs)| ==
      Count(inputs.brdArtifactId == None) + Count(inputs.hldArtifactId == None) + Count(!inputs.clientSignatureConfirmed)
      + Count(inputs.regulatoryContext != None && inputs.regulatoryContext != Some("") && inputs.documentsIndexed == [])
  {
    hide Retain;
    CountOpenOfFour(AllGates(inputs)[0], AllGates(inputs)[1], AllGates(inputs)[2], AllGates(inputs)[3]);
  }

  /** Without a regulatory context, or with an empty one, documents open and close no gate. */
  lemma {:induction false} DocumentsMatterOnlyIfRegulated(inputs: Inputs, documents: seq<Uuid>)
    requires inputs.regulatoryContext == None || inputs.regulatoryContext == Some("")
    ensures |OpenHardGates(inputs.(documentsIndexed := documents))| == |OpenHardGates(inputs)|
  {
    hide OpenHardGates;
    GatesClosedIff(inputs);
    GatesClosedIff(inputs.(documentsIndexed := documents));
  }
}
