/** `getUniswapProposals`: the Uniswap governance subgraph's proposals,
    ordered by `endBlock` descending, walked until the first one that ended
    before the cutoff block; each kept proposal takes its title and link from
    the uni.vote record at the same position. */
module Uniswap {
  import opened Text
  import opened Records

  /** A subgraph record: `{id, status, endBlock}`. */
  datatype RawProposal = RawProposal(id: string, status: string, endBlock: string)

  /** A uni.vote record: `{title, uniswap_url}`. */
  datatype TitleLink = TitleLink(title: string, uniswapUrl: string)

  const PLATFORM := "Uniswap"

  /** The record built from the subgraph record and the uni.vote record at the
      same position. */
  function Normalize(p: RawProposal, t: TitleLink): Proposal {
    Proposal(t.title, p.id, PLATFORM, Lower(p.status), t.uniswapUrl, ParseInt(p.endBlock))
  }

  function EndBlocks(raw: seq<RawProposal>): (e: seq<string>)
    ensures |e| == |raw| && forall j :: 0 <= j < |raw| ==> e[j] == raw[j].endBlock
  {
    if raw == [] then [] else [raw[0].endBlock] + EndBlocks(raw[1..])
  }

  /** The length of the longest prefix whose proposals do not end before the cutoff. */
  function Kept(raw: seq<RawProposal>, cutoff: int): nat {
    CutoffFrom(EndBlocks(raw), cutoff, 0)
  }

  /** What `getUniswapProposals` returns: the kept prefix paired position by
      position with the uni.vote list; reading `titleLinkInfo[i].title` past
      the end of that list throws. */
  function Output(raw: seq<RawProposal>, info: seq<TitleLink>, cutoff: int): Outcome {
    var k := Kept(raw, cutoff);
    if |info| < k then Faulted(TitleLinkMissing(|info|))
    else Done(seq(k, j requires 0 <= j < k => Normalize(raw[j], info[j])))
  }

  method GetProposals(raw: seq<RawProposal>, titleLinkInfo: seq<TitleLink>, blockNumber: int)
    returns (r: Outcome)
    ensures r == Output(raw, titleLinkInfo, blockNumber)
  {
    var uniswapProposals: seq<Proposal> := [];
    var i := 0;
    while i < |raw|
      invariant i <= |raw| && i <= |titleLinkInfo|
      invariant forall j :: 0 <= j < i ==> !EndsBefore(raw[j].endBlock, blockNumber)
      invariant |uniswapProposals| == i
      invariant forall j :: 0 <= j < i ==> uniswapProposals[j] == Normalize(raw[j], titleLinkInfo[j])
    {
      var proposal := raw[i];
      var endBlock := ParseInt(proposal.endBlock);
      if endBlock.Some? && endBlock.value < blockNumber {
        break;
      }
      if i >= |titleLinkInfo| {
        OutputFaultsAt(raw, titleLinkInfo, blockNumber, i);
        return Faulted(TitleLinkMissing(i));
      }
      var titleLinkProposal := titleLinkInfo[i];
      var proposalJson := Proposal(titleLinkProposal.title, proposal.id, PLATFORM, Lower(proposal.status),
                                   titleLinkProposal.uniswapUrl, endBlock);
      uniswapProposals := uniswapProposals + [proposalJson];
      i := i + 1;
    }
    OutputDoneAt(raw, titleLinkInfo, blockNumber, uniswapProposals);
    return Done(uniswapProposals);
  }

  /** A walk that has paired every record before `|ps|` and stops there has
      produced the whole output. */
  lemma OutputDoneAt(raw: seq<RawProposal>, info: seq<TitleLink>, cutoff: int, ps: seq<Proposal>)
    requires |ps| <= |raw| && |ps| <= |info|
    requires forall j :: 0 <= j < |ps| ==> !EndsBefore(raw[j].endBlock, cutoff)
    requires |ps| == |raw| || EndsBefore(raw[|ps|].endBlock, cutoff)
    requires forall j :: 0 <= j < |ps| ==> ps[j] == Normalize(raw[j], info[j])
    ensures Output(raw, info, cutoff) == Done(ps)
  {
    var i := |ps|;
    assert Kept(raw, cutoff) == i;
    assert ps == seq(i, j requires 0 <= j < i => Normalize(raw[j], info[j]));
  }

  /** A walk that keeps a record beyond the end of the uni.vote list faults there. */
  lemma OutputFaultsAt(raw: seq<RawProposal>, info: seq<TitleLink>, cutoff: int, i: nat)
    requires i < |raw| && i == |info|
    requires forall j :: 0 <= j <= i ==> !EndsBefore(raw[j].endBlock, cutoff)
    ensures Output(raw, info, cutoff) == Faulted(TitleLinkMissing(i))
  {
    assert i < Kept(raw, cutoff);
  }

  /** The output is the longest prefix of the subgraph list whose `endBlock` is
      not below the cutoff; the i-th record takes its id, lowercased status and
      endBlock from the i-th subgraph record and its title and link from the
      i-th uni.vote record. The run faults exactly when the uni.vote list is
      shorter than that prefix. */
  lemma OutputPairsPositionally(raw: seq<RawProposal>, info: seq<TitleLink>, cutoff: int)
    ensures Output(raw, info, cutoff).Done? ==>
      var ps := Output(raw, info, cutoff).proposals;
      && |ps| <= |raw| && |ps| <= |info|
      && (forall j :: 0 <= j < |ps| ==> !EndsBefore(raw[j].endBlock, cutoff))
      && (|ps| < |raw| ==> EndsBefore(raw[|ps|].endBlock, cutoff))
      && (forall j :: 0 <= j < |ps| ==>
            && ps[j].title == info[j].title
            && ps[j].link == info[j].uniswapUrl
            && ps[j].id == raw[j].id
            && ps[j].state == Lower(raw[j].status)
            && ps[j].endBlock == ParseInt(raw[j].endBlock)
            && ps[j].platform == PLATFORM)
    ensures Output(raw, info, cutoff).Faulted? ==>
      && Output(raw, info, cutoff).fault == TitleLinkMissing(|info|)
      && |info| < |raw|
      && forall j :: 0 <= j <= |info| ==> !EndsBefore(raw[j].endBlock, cutoff)
  {
  }

  /** Every emitted record is a Uniswap one with a lowercase state and an
      `endBlock` that is null or at least the cutoff. */
  lemma OutputConforms(raw: seq<RawProposal>, info: seq<TitleLink>, cutoff: int)
    ensures Output(raw, info, cutoff).Done? ==>
      AllConform(Output(raw, info, cutoff).proposals, PLATFORM, cutoff)
  {
    OutputPairsPositionally(raw, info, cutoff);
  }
}
