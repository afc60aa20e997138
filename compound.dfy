/** `getCompoundProposals`: the Compound governance API's proposals, walked
    until the first one whose most recent state update has no `end_time`.
    The block number is not consulted. */
module Compound {
  import opened Text
  import opened Records

  /** One entry of a proposal's `states` history: `{state, end_time}`. */
  datatype StateUpdate = StateUpdate(state: string, endTime: Option<string>)

  datatype RawProposal = RawProposal(id: string, title: string, states: seq<StateUpdate>)

  const PLATFORM := "Compound"
  const LINK_PREFIX := "https://compound.finance/governance/proposals/"

  /** `proposal.states[proposal.states.length - 1]`. */
  function MostRecent(p: RawProposal): StateUpdate
    requires p.states != []
  {
    p.states[|p.states| - 1]
  }

  /** The walk ends at this proposal: either reading its most recent state
      throws (no history) or that state has a null `end_time`. */
  predicate Halts(p: RawProposal) {
    p.states == [] || MostRecent(p).endTime.None?
  }

  /** The first halting position at or after `i`, or the length of the list. */
  function KeptFrom(raw: seq<RawProposal>, i: nat): (k: nat)
    requires i <= |raw|
    ensures i <= k <= |raw|
    ensures forall j :: i <= j < k ==> !Halts(raw[j])
    ensures k < |raw| ==> Halts(raw[k])
    decreases |raw| - i
  {
    if i == |raw| || Halts(raw[i]) then i else KeptFrom(raw, i + 1)
  }

  function Kept(raw: seq<RawProposal>): nat {
    KeptFrom(raw, 0)
  }

  function Normalize(p: RawProposal): Proposal
    requires p.states != []
  {
    Proposal(p.title, p.id, PLATFORM, Lower(MostRecent(p).state), LINK_PREFIX + p.id, None)
  }

  /** What `getCompoundProposals` returns: the proposals before the first one
      that halts the walk, unless that one has no state history at all. */
  function Output(raw: seq<RawProposal>): Outcome {
    var k := Kept(raw);
    if k < |raw| && raw[k].states == [] then Faulted(StatesEmpty(k))
    else Done(seq(k, j requires 0 <= j < k => Normalize(raw[j])))
  }

  /** `blockNumber` is accepted, as the handler passes it to every adapter, and
      not used. */
  method GetProposals(allProposals: seq<RawProposal>, blockNumber: int) returns (r: Outcome)
    ensures r == Output(allProposals)
  {
    var compoundProposals: seq<Proposal> := [];
    var i := 0;
    while i < |allProposals|
      invariant i <= |allProposals|
      invariant forall j :: 0 <= j < i ==> !Halts(allProposals[j])
      invariant |compoundProposals| == i
      invariant forall j :: 0 <= j < i ==> compoundProposals[j] == Normalize(allProposals[j])
    {
      var proposal := allProposals[i];
      if proposal.states == [] {
        OutputFaultsAt(allProposals, i);
        return Faulted(StatesEmpty(i));
      }
      var mostRecentState := proposal.states[|proposal.states| - 1];
      var endTime := mostRecentState.endTime;
      if endTime.None? {
        break;
      }
      var link := LINK_PREFIX + proposal.id;
      var proposalJson := Proposal(proposal.title, proposal.id, PLATFORM, Lower(mostRecentState.state), link, None);
      compoundProposals := compoundProposals + [proposalJson];
      i := i + 1;
    }
    OutputDoneAt(allProposals, compoundProposals);
    return Done(compoundProposals);
  }

  lemma OutputDoneAt(raw: seq<RawProposal>, ps: seq<Proposal>)
    requires |ps| <= |raw|
    requires forall j :: 0 <= j < |ps| ==> !Halts(raw[j])
    requires |ps| == |raw| || (raw[|ps|].states != [] && MostRecent(raw[|ps|]).endTime.None?)
    requires forall j :: 0 <= j < |ps| ==> raw[j].states != [] && ps[j] == Normalize(raw[j])
    ensures Output(raw) == Done(ps)
  {
    var i := |ps|;
    assert Kept(raw) == i;
    assert ps == seq(i, j requires 0 <= j < i => Normalize(raw[j]));
  }

  lemma OutputFaultsAt(raw: seq<RawProposal>, i: nat)
    requires i < |raw| && raw[i].states == []
    requires forall j :: 0 <= j < i ==> !Halts(raw[j])
    ensures Output(raw) == Faulted(StatesEmpty(i))
  {
    assert Kept(raw) == i;
  }

  /** The output is the prefix up to, and excluding, the first proposal whose
      most recent state has a null `end_time`; each record carries that
      state lowercased, the proposal link and a null endBlock. The run faults
      exactly when the walk reaches a proposal without state history. */
  lemma OutputIsOpenPrefix(raw: seq<RawProposal>)
    ensures Output(raw).Done? ==>
      var ps := Output(raw).proposals;
      && |ps| <= |raw|
      && (forall j :: 0 <= j < |ps| ==> raw[j].states != [] && MostRecent(raw[j]).endTime.Some?)
      && (|ps| < |raw| ==> raw[|ps|].states != [] && MostRecent(raw[|ps|]).endTime.None?)
      && (forall j :: 0 <= j < |ps| ==>
            && ps[j].title == raw[j].title
            && ps[j].id == raw[j].id
            && ps[j].platform == PLATFORM
            && ps[j].state == Lower(MostRecent(raw[j]).state)
            && ps[j].link == "https://compound.finance/governance/proposals/" + raw[j].id
            && ps[j].endBlock.None?)
    ensures Output(raw).Faulted? ==>
      var f := Output(raw).fault;
      && f.StatesEmpty?
      && f.index < |raw|
      && raw[f.index].states == []
      && forall j :: 0 <= j < f.index ==> !Halts(raw[j])
  {
  }

  /** Every emitted record is a Compound one with a lowercase state and a null
      endBlock, so it meets any cutoff. */
  lemma OutputConforms(raw: seq<RawProposal>, cutoff: int)
    ensures Output(raw).Done? ==> AllConform(Output(raw).proposals, PLATFORM, cutoff)
  {
    OutputIsOpenPrefix(raw);
  }
}
