/** The uniform proposal record every platform adapter emits, and the outcome
    of one adapter run. */
module Records {
  import opened Text

  /** `{title, id, platform, state, link, endBlock}`. An `endBlock` of `None`
      is what the response carries as `null`: Compound and Maker set it
      explicitly, and an Aave or Uniswap `endBlock` that `parseInt` turns into
      `NaN` is serialised as `null` too. */
  datatype Proposal = Proposal(
    title: string,
    id: string,
    platform: string,
    state: string,
    link: string,
    endBlock: Option<int>)

  /** A TypeError that ends an adapter run; the handler's catch-all then
      answers with an empty response. `index` is the raw record at fault. */
  datatype Fault =
    | StateNotAString(index: nat)   // Aave: the synonym lookup found an inherited Object member
    | TitleLinkMissing(index: nat)  // Uniswap: no uni.vote record at this position
    | StatesEmpty(index: nat)       // Compound: a proposal without state history

  datatype Outcome = Done(proposals: seq<Proposal>) | Faulted(fault: Fault)

  /** `acc` followed by whatever `rest` produces; a fault wins. */
  function After(acc: seq<Proposal>, rest: Outcome): (r: Outcome)
    ensures r.Done? <==> rest.Done?
    ensures rest.Faulted? ==> r == rest
    ensures rest.Done? ==> r.proposals == acc + rest.proposals
  {
    if rest.Done? then Done(acc + rest.proposals) else rest
  }

  /** The comparison `endBlock < blockNumber` on the parsed `endBlock`: false
      when `parseInt` gave `NaN`. */
  predicate EndsBefore(endBlock: string, cutoff: int) {
    var e := ParseInt(endBlock);
    e.Some? && e.value < cutoff
  }

  /** The first position at or after `i` whose `endBlock` is below the cutoff,
      or the length of the list when there is none: where the Aave and
      Uniswap walks `break`. */
  function CutoffFrom(endBlocks: seq<string>, cutoff: int, i: nat): (k: nat)
    requires i <= |endBlocks|
    ensures i <= k <= |endBlocks|
    ensures forall j :: i <= j < k ==> !EndsBefore(endBlocks[j], cutoff)
    ensures k < |endBlocks| ==> EndsBefore(endBlocks[k], cutoff)
    decreases |endBlocks| - i
  {
    if i == |endBlocks| || EndsBefore(endBlocks[i], cutoff) then i
    else CutoffFrom(endBlocks, cutoff, i + 1)
  }

  /** A `null` endBlock, or one at or above the cutoff. */
  predicate MeetsCutoff(p: Proposal, cutoff: int) {
    p.endBlock.Some? ==> p.endBlock.value >= cutoff
  }

  /** What every record an adapter for `platform` emits satisfies. */
  predicate Conforms(p: Proposal, platform: string, cutoff: int) {
    p.platform == platform && IsLower(p.state) && MeetsCutoff(p, cutoff)
  }

  predicate AllConform(ps: seq<Proposal>, platform: string, cutoff: int) {
    forall j :: 0 <= j < |ps| ==> Conforms(ps[j], platform, cutoff)
  }
}
