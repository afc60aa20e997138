/** `getMakerProposals`: every active executive proposal, followed by the
    polls up to the first one that fails the carry-on rule. Dates are integer
    timestamps in milliseconds and the current time is a parameter. The block
    number is not consulted. */
module Maker {
  import opened Text
  import opened Records

  /** An executive record: `{title, address, proposalLink}`. */
  datatype Executive = Executive(title: string, address: string, proposalLink: string)

  /** A poll record: `{title, pollId, startDate, endDate, url}`. */
  datatype Poll = Poll(title: string, pollId: string, startDate: int, endDate: int, url: string)

  const PLATFORM := "Maker"

  /** The 14 days added to a poll's start date, in milliseconds. */
  const FOURTEEN_DAYS := 14 * 24 * 60 * 60 * 1000

  /** `(endDate < currDate) ? "active" : "past"`. */
  function PollState(p: Poll, now: int): string {
    if p.endDate < now then "active" else "past"
  }

  /** The negation of the `break` condition
      `state != "active" || startDate + 14 days < currDate`. */
  predicate CarriesOn(p: Poll, now: int) {
    PollState(p, now) == "active" && !(p.startDate + FOURTEEN_DAYS < now)
  }

  /** The first poll at or after `i` that fails the carry-on rule, or the
      length of the list. */
  function KeptFrom(polls: seq<Poll>, now: int, i: nat): (k: nat)
    requires i <= |polls|
    ensures i <= k <= |polls|
    ensures forall j :: i <= j < k ==> CarriesOn(polls[j], now)
    ensures k < |polls| ==> !CarriesOn(polls[k], now)
    decreases |polls| - i
  {
    if i == |polls| || !CarriesOn(polls[i], now) then i else KeptFrom(polls, now, i + 1)
  }

  function KeptPolls(polls: seq<Poll>, now: int): nat {
    KeptFrom(polls, now, 0)
  }

  function ExecutiveEntry(e: Executive): Proposal {
    Proposal(e.title, e.address, PLATFORM, "active", e.proposalLink, None)
  }

  function PollEntry(p: Poll, now: int): Proposal {
    Proposal(p.title, p.pollId, PLATFORM, PollState(p, now), p.url, None)
  }

  /** What `getMakerProposals` returns. */
  function Output(executives: seq<Executive>, polls: seq<Poll>, now: int): seq<Proposal> {
    var k := KeptPolls(polls, now);
    seq(|executives|, j requires 0 <= j < |executives| => ExecutiveEntry(executives[j]))
      + seq(k, j requires 0 <= j < k => PollEntry(polls[j], now))
  }

  /** `blockNumber` is accepted, as the handler passes it to every adapter, and
      not used. */
  method GetProposals(executives: seq<Executive>, polls: seq<Poll>, now: int, blockNumber: int)
    returns (makerProposals: seq<Proposal>)
    ensures makerProposals == Output(executives, polls, now)
  {
    makerProposals := [];
    var i := 0;
    while i < |executives|
      invariant i <= |executives|
      invariant |makerProposals| == i
      invariant forall j :: 0 <= j < i ==> makerProposals[j] == ExecutiveEntry(executives[j])
    {
      var proposal := executives[i];
      var proposalJson := Proposal(proposal.title, proposal.address, PLATFORM, "active", proposal.proposalLink, None);
      makerProposals := makerProposals + [proposalJson];
      i := i + 1;
    }
    ghost var execs := makerProposals;
    i := 0;
    while i < |polls|
      invariant i <= |polls|
      invariant forall j :: 0 <= j < i ==> CarriesOn(polls[j], now)
      invariant |makerProposals| == |executives| + i
      invariant makerProposals[..|executives|] == execs
      invariant forall j :: 0 <= j < i ==> makerProposals[|executives| + j] == PollEntry(polls[j], now)
    {
      var proposal := polls[i];
      var state := if proposal.endDate < now then "active" else "past";
      var startDatePlus := proposal.startDate + FOURTEEN_DAYS;
      if state != "active" || startDatePlus < now {
        break;
      }
      var proposalJson := Proposal(proposal.title, proposal.pollId, PLATFORM, state, proposal.url, None);
      makerProposals := makerProposals + [proposalJson];
      i := i + 1;
    }
    OutputAt(executives, polls, now, execs, makerProposals, i);
  }

  lemma OutputAt(executives: seq<Executive>, polls: seq<Poll>, now: int,
                 execs: seq<Proposal>, ps: seq<Proposal>, i: nat)
    requires i <= |polls|
    requires forall j :: 0 <= j < i ==> CarriesOn(polls[j], now)
    requires i == |polls| || !CarriesOn(polls[i], now)
    requires |execs| == |executives| && forall j :: 0 <= j < |execs| ==> execs[j] == ExecutiveEntry(executives[j])
    requires |ps| == |executives| + i && ps[..|executives|] == execs
    requires forall j :: 0 <= j < i ==> ps[|executives| + j] == PollEntry(polls[j], now)
    ensures ps == Output(executives, polls, now)
  {
    assert KeptPolls(polls, now) == i;
    var o := Output(executives, polls, now);
    assert |o| == |ps|;
    forall j | 0 <= j < |ps| ensures ps[j] == o[j] {
      if j < |executives| {
        assert ps[j] == execs[j];
      } else {
        assert ps[j] == ps[|executives| + (j - |executives|)];
      }
    }
  }

  /** A poll is kept only while it has already ended (the code's comparison
      marks a poll "active" when its end date is in the past) and started at
      most 14 days ago. */
  lemma CarriesOnMeans(p: Poll, now: int)
    ensures CarriesOn(p, now) <==> p.endDate < now && now <= p.startDate + FOURTEEN_DAYS
    ensures PollState(p, now) == "active" <==> p.endDate < now
  {
  }

  /** All executive records come first, each active with the address as id
      and a null endBlock; then the longest prefix of polls that carry on,
      each with state "active". */
  lemma OutputLayout(executives: seq<Executive>, polls: seq<Poll>, now: int)
    ensures var ps := Output(executives, polls, now); var k := KeptPolls(polls, now);
      && |ps| == |executives| + k
      && k <= |polls|
      && (forall j :: 0 <= j < |executives| ==>
            && ps[j].title == executives[j].title
            && ps[j].id == executives[j].address
            && ps[j].link == executives[j].proposalLink
            && ps[j].state == "active"
            && ps[j].endBlock.None?)
      && (forall j :: 0 <= j < k ==>
            && ps[|executives| + j].title == polls[j].title
            && ps[|executives| + j].id == polls[j].pollId
            && ps[|executives| + j].link == polls[j].url
            && ps[|executives| + j].state == "active"
            && ps[|executives| + j].endBlock.None?
            && polls[j].endDate < now <= polls[j].startDate + FOURTEEN_DAYS)
      && (k < |polls| ==> polls[k].endDate >= now || polls[k].startDate + FOURTEEN_DAYS < now)
  {
    var ps := Output(executives, polls, now);
    var k := KeptPolls(polls, now);
    forall j | 0 <= j < k
      ensures ps[|executives| + j] == PollEntry(polls[j], now)
      ensures polls[j].endDate < now <= polls[j].startDate + FOURTEEN_DAYS
    {
      CarriesOnMeans(polls[j], now);
    }
    if k < |polls| {
      CarriesOnMeans(polls[k], now);
    }
  }

  /** A first poll whose end date is not yet past stops the poll walk at once,
      however recently it started. */
  lemma OpenFirstPollKeepsNoPolls(executives: seq<Executive>, polls: seq<Poll>, now: int)
    requires polls != [] && polls[0].endDate >= now
    ensures Output(executives, polls, now) ==
      seq(|executives|, j requires 0 <= j < |executives| => ExecutiveEntry(executives[j]))
  {
    assert KeptPolls(polls, now) == 0;
    var ps := Output(executives, polls, now);
    assert ps == seq(|executives|, j requires 0 <= j < |executives| => ExecutiveEntry(executives[j])) + [];
  }

  /** Every emitted record is a Maker one with a lowercase state and a null
      endBlock. */
  lemma OutputConforms(executives: seq<Executive>, polls: seq<Poll>, now: int, cutoff: int)
    ensures AllConform(Output(executives, polls, now), PLATFORM, cutoff)
  {
    OutputLayout(executives, polls, now);
    var ps := Output(executives, polls, now);
    forall j | 0 <= j < |ps| ensures IsLower(ps[j].state) {
      LowerFixesLowercase("active");
    }
  }
}
