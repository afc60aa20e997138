/** `getAaveProposals`: the Aave governance subgraph's proposals, ordered by
    `endBlock` descending, walked until the first one that ended before the
    cutoff block. */
module Aave {
  import opened Text
  import opened Records

  datatype RawProposal = RawProposal(
    id: string,
    state: string,
    endBlock: string,
    ipfsHash: string,
    title: string)

  const PLATFORM := "Aave"
  const LINK_PREFIX := "https://app.aave.com/#/governance/"

  /** The members every object literal inherits from `Object.prototype`.
      `state in stateDefinition` holds for them as well, and the value found is
      a function or an object, on which `toLowerCase` is not defined. */
  const INHERITED_KEYS: set<string> := {
    "constructor", "hasOwnProperty", "isPrototypeOf", "propertyIsEnumerable",
    "toLocaleString", "toString", "valueOf", "__proto__",
    "__defineGetter__", "__defineSetter__", "__lookupGetter__", "__lookupSetter__"
  }

  /** The `stateDefinition` table `{"failed": "defeated"}`, consulted on the raw
      state before any lowercasing; `None` when the lookup yields no string. */
  function Synonym(state: string): Option<string> {
    if state == "failed" then Some("defeated")
    else if state in INHERITED_KEYS then None
    else Some(state)
  }

  /** The record built for one raw proposal that passed the cutoff. */
  function Normalize(p: RawProposal): Option<Proposal> {
    match Synonym(p.state)
    case None => None
    case Some(s) =>
      Some(Proposal(p.title, p.id, PLATFORM, Lower(s), LINK_PREFIX + p.id + "-" + p.ipfsHash, ParseInt(p.endBlock)))
  }

  /** The length of the longest prefix whose proposals do not end before the cutoff. */
  function Kept(raw: seq<RawProposal>, cutoff: int): nat {
    CutoffFrom(EndBlocks(raw), cutoff, 0)
  }

  function EndBlocks(raw: seq<RawProposal>): (e: seq<string>)
    ensures |e| == |raw| && forall j :: 0 <= j < |raw| ==> e[j] == raw[j].endBlock
  {
    if raw == [] then [] else [raw[0].endBlock] + EndBlocks(raw[1..])
  }

  /** The first position before `k` whose state lookup yields no string, or
      `k` when every state of the prefix is fine. */
  function FirstFault(raw: seq<RawProposal>, k: nat, i: nat): (f: nat)
    requires i <= k <= |raw|
    ensures i <= f <= k
    ensures forall j :: i <= j < f ==> Normalize(raw[j]).Some?
    ensures f < k ==> Normalize(raw[f]).None?
    decreases k - i
  {
    if i == k || Normalize(raw[i]).None? then i
    else FirstFault(raw, k, i + 1)
  }

  /** What `getAaveProposals` returns: the normalised longest prefix whose
      proposals do not end before the cutoff, unless a state in that prefix
      makes `toLowerCase` throw. */
  function Output(raw: seq<RawProposal>, cutoff: int): Outcome {
    var k := Kept(raw, cutoff);
    var f := FirstFault(raw, k, 0);
    if f < k then Faulted(StateNotAString(f))
    else Done(seq(k, j requires 0 <= j < k => Normalize(raw[j]).value))
  }

  method GetProposals(raw: seq<RawProposal>, blockNumber: int) returns (r: Outcome)
    ensures r == Output(raw, blockNumber)
  {
    var aaveProposals: seq<Proposal> := [];
    var i := 0;
    while i < |raw|
      invariant i <= |raw|
      invariant forall j :: 0 <= j < i ==> !EndsBefore(raw[j].endBlock, blockNumber)
      invariant |aaveProposals| == i
      invariant forall j :: 0 <= j < i ==> Normalize(raw[j]) == Some(aaveProposals[j])
    {
      var proposal := raw[i];
      var endBlock := ParseInt(proposal.endBlock);
      if endBlock.Some? && endBlock.value < blockNumber {
        break;
      }
      var state := Synonym(proposal.state);
      if state.None? {
        OutputFaultsAt(raw, blockNumber, i);
        return Faulted(StateNotAString(i));
      }
      var link := LINK_PREFIX + proposal.id + "-" + proposal.ipfsHash;
      var proposalJson := Proposal(proposal.title, proposal.id, PLATFORM, Lower(state.value), link, endBlock);
      NormalizedPrefixGrows(raw, aaveProposals, proposalJson);
      aaveProposals := aaveProposals + [proposalJson];
      i := i + 1;
    }
    OutputDoneAt(raw, blockNumber, aaveProposals);
    return Done(aaveProposals);
  }

  /** Appending the record built for the next raw proposal keeps the
      accumulator the normalised prefix. */
  lemma NormalizedPrefixGrows(raw: seq<RawProposal>, ps: seq<Proposal>, p: Proposal)
    requires |ps| < |raw|
    requires forall j :: 0 <= j < |ps| ==> Normalize(raw[j]) == Some(ps[j])
    requires Synonym(raw[|ps|].state).Some?
    requires p == Proposal(raw[|ps|].title, raw[|ps|].id, PLATFORM, Lower(Synonym(raw[|ps|].state).value),
                           LINK_PREFIX + raw[|ps|].id + "-" + raw[|ps|].ipfsHash, ParseInt(raw[|ps|].endBlock))
    ensures forall j :: 0 <= j < |ps| + 1 ==> Normalize(raw[j]) == Some((ps + [p])[j])
  {
  }

  /** A walk that has normalised every record before `|ps|` and stops there
      has produced the whole output. */
  lemma OutputDoneAt(raw: seq<RawProposal>, cutoff: int, ps: seq<Proposal>)
    requires |ps| <= |raw|
    requires forall j :: 0 <= j < |ps| ==> !EndsBefore(raw[j].endBlock, cutoff)
    requires |ps| == |raw| || EndsBefore(raw[|ps|].endBlock, cutoff)
    requires forall j :: 0 <= j < |ps| ==> Normalize(raw[j]) == Some(ps[j])
    ensures Output(raw, cutoff) == Done(ps)
  {
    var i := |ps|;
    assert Kept(raw, cutoff) == i;
    assert FirstFault(raw, i, 0) == i;
    assert ps == seq(i, j requires 0 <= j < i => Normalize(raw[j]).value);
  }

  /** A walk that reaches a kept record whose state lookup fails faults there. */
  lemma OutputFaultsAt(raw: seq<RawProposal>, cutoff: int, i: nat)
    requires i < |raw|
    requires forall j :: 0 <= j <= i ==> !EndsBefore(raw[j].endBlock, cutoff)
    requires forall j :: 0 <= j < i ==> Normalize(raw[j]).Some?
    requires Normalize(raw[i]).None?
    ensures Output(raw, cutoff) == Faulted(StateNotAString(i))
  {
    var k := Kept(raw, cutoff);
    assert i < k;
    assert FirstFault(raw, k, 0) == i;
  }

  /** The output is exactly the longest prefix of the input whose `endBlock`
      is not below the cutoff, each record normalised, in input order; it
      faults only on an inherited-member state inside that prefix. */
  lemma OutputIsCutoffPrefix(raw: seq<RawProposal>, cutoff: int)
    ensures Output(raw, cutoff).Done? ==>
      var ps := Output(raw, cutoff).proposals;
      && |ps| <= |raw|
      && (forall j :: 0 <= j < |ps| ==> !EndsBefore(raw[j].endBlock, cutoff))
      && (|ps| < |raw| ==> EndsBefore(raw[|ps|].endBlock, cutoff))
      && (forall j :: 0 <= j < |ps| ==> Normalize(raw[j]) == Some(ps[j]))
    ensures Output(raw, cutoff).Faulted? ==>
      var f := Output(raw, cutoff).fault;
      && f.StateNotAString?
      && f.index < |raw|
      && (forall j :: 0 <= j <= f.index ==> !EndsBefore(raw[j].endBlock, cutoff))
      && raw[f.index].state in INHERITED_KEYS
  {
  }

  /** One record: its fields, the synonym table applied before lowercasing,
      the link, and a lowercase state. */
  lemma NormalizeFields(p: RawProposal)
    ensures Normalize(p).None? <==> p.state in INHERITED_KEYS
    ensures Normalize(p).Some? ==> var e := Normalize(p).value;
      && e.title == p.title && e.id == p.id && e.platform == PLATFORM
      && e.state == (if p.state == "failed" then "defeated" else Lower(p.state))
      && IsLower(e.state)
      && e.link == "https://app.aave.com/#/governance/" + p.id + "-" + p.ipfsHash
      && e.endBlock == ParseInt(p.endBlock)
  {
    assert "failed" !in INHERITED_KEYS;
    if p.state == "failed" {
      LowerFixesLowercase("defeated");
    }
  }

  /** Only the exact string "failed" is renamed: a capitalised "Failed" is
      merely lowercased. */
  lemma CapitalisedFailedIsNotRenamed(p: RawProposal)
    requires p.state == "Failed"
    ensures Normalize(p).Some? && Normalize(p).value.state == "failed"
  {
    assert p.state != "failed";
    assert p.state !in INHERITED_KEYS;
    assert Lower("Failed") == "failed";
  }

  /** Every emitted record is an Aave one with a lowercase state and an
      `endBlock` that is null or at least the cutoff. */
  lemma OutputConforms(raw: seq<RawProposal>, cutoff: int)
    ensures Output(raw, cutoff).Done? ==> AllConform(Output(raw, cutoff).proposals, PLATFORM, cutoff)
  {
    OutputIsCutoffPrefix(raw, cutoff);
    var o := Output(raw, cutoff);
    if o.Done? {
      forall j | 0 <= j < |o.proposals|
        ensures Conforms(o.proposals[j], PLATFORM, cutoff)
      {
        NormalizeFields(raw[j]);
      }
    }
  }
}
