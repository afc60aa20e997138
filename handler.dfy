/** The API route `handler`: validates `blockNumber`, normalises the
    `platforms` filter, runs the selected adapters in the fixed order of the
    `proposalMethods` map and concatenates their results. Every upstream
    payload is an input; so is the chain height `getBlockNumber` would fetch. */
module Handler {
  import opened Text
  import opened Records
  import Aave
  import Uniswap
  import Compound
  import Maker

  /** `req.query.platforms`: one string, or an array of strings that the
      handler lowercases in place. */
  datatype Platforms = One(name: string) | Many(names: array<string>)

  /** The two query parameters the handler reads; `None` when the key is absent. */
  datatype Query = Query(blockNumber: Option<string>, platforms: Option<Platforms>)

  /** The contents of a query at one moment. */
  datatype PlatformsValue = OneName(name: string) | ManyNames(names: seq<string>)

  datatype QueryValue = QueryValue(blockNumber: Option<string>, platforms: Option<PlatformsValue>)

  /** What the upstream services answered, and the clock the Maker poll walk reads. */
  datatype Upstream = Upstream(
    height: int,
    aave: seq<Aave.RawProposal>,
    uniswap: seq<Uniswap.RawProposal>,
    uniVote: seq<Uniswap.TitleLink>,
    compound: seq<Compound.RawProposal>,
    executives: seq<Maker.Executive>,
    polls: seq<Maker.Poll>,
    now: int)

  /** An external lookup the handler performs: `getBlockNumber`, or one
      platform's `getPlatformProposals`. */
  datatype Call = ResolveHeight | RunAdapter(platform: string)

  datatype Response =
    | BadRequest(message: string)
    | Listed(proposals: seq<Proposal>, blockNumber: int)
    | NoBody

  /** The HTTP status: 400 for a bad block number; `res.status(200)` for a
      listing, and the untouched default 200 when the catch-all calls `res.end()`. */
  function StatusCode(r: Response): int {
    if r.BadRequest? then 400 else 200
  }

  const INVALID_BLOCK_NUMBER := "Invalid type for block number!"

  /** The keys of `proposalMethods`, in insertion order. */
  const KEYS: seq<string> := ["aave", "compound", "uniswap", "maker"]

  /** The platform name each key's adapter writes into its records. */
  function DisplayName(key: string): string
    requires key in KEYS
  {
    if key == "aave" then Aave.PLATFORM
    else if key == "compound" then Compound.PLATFORM
    else if key == "uniswap" then Uniswap.PLATFORM
    else Maker.PLATFORM
  }

  function Footprint(q: Query): set<object> {
    if q.platforms.Some? && q.platforms.value.Many? then {q.platforms.value.names} else {}
  }

  function ValueOf(q: Query): QueryValue
    reads Footprint(q)
  {
    var p := match q.platforms
      case None => None
      case Some(One(s)) => Some(OneName(s))
      case Some(Many(a)) => Some(ManyNames(a[..]));
    QueryValue(q.blockNumber, p)
  }

  /** `checkPlatforms` and `platformsSet`: `None` when no filter was given,
      otherwise the set of lowercased names. */
  function Filter(p: Option<PlatformsValue>): Option<set<string>> {
    match p
    case None => None
    case Some(OneName(s)) => Some({Lower(s)})
    case Some(ManyNames(xs)) => Some(set x | x in LowerAll(xs))
  }

  /** `checkPlatforms == false || platformsSet.has(platform)`. */
  predicate Runs(filter: Option<set<string>>, key: string) {
    filter.None? || key in filter.value
  }

  /** What the adapter registered under `key` returns. */
  function Adapter(key: string, up: Upstream, blockNumber: int): Outcome
    requires key in KEYS
  {
    if key == "aave" then Aave.Output(up.aave, blockNumber)
    else if key == "compound" then Compound.Output(up.compound)
    else if key == "uniswap" then Uniswap.Output(up.uniswap, up.uniVote, blockNumber)
    else Done(Maker.Output(up.executives, up.polls, up.now))
  }

  /** What each adapter would return, in key order. */
  function Results(up: Upstream, blockNumber: int): seq<Outcome> {
    seq(|KEYS|, j requires 0 <= j < |KEYS| => Adapter(KEYS[j], up, blockNumber))
  }

  /** The loop over `proposalMethods` from position `i` on, where the adapter
      at position j returns `results[j]`: the proposals it collects and the
      adapters it calls. A faulting adapter ends the loop. */
  function GatherFrom(filter: Option<set<string>>, results: seq<Outcome>, i: nat): (Outcome, seq<Call>)
    requires |results| == |KEYS| && i <= |KEYS|
    decreases |KEYS| - i
  {
    if i == |KEYS| then (Done([]), [])
    else if !Runs(filter, KEYS[i]) then GatherFrom(filter, results, i + 1)
    else if results[i].Faulted? then (results[i], [RunAdapter(KEYS[i])])
    else
      var rest := GatherFrom(filter, results, i + 1);
      (After(results[i].proposals, rest.0), [RunAdapter(KEYS[i])] + rest.1)
  }

  /** `allProposals` once the loop has run through every key. */
  function Gather(filter: Option<set<string>>, up: Upstream, blockNumber: int): (Outcome, seq<Call>) {
    GatherFrom(filter, Results(up, blockNumber), 0)
  }

  /** The response to a loop that yields `g`, after `calls` were made before it. */
  function Finish(calls: seq<Call>, blockNumber: int, g: (Outcome, seq<Call>)): (Response, seq<Call>) {
    (if g.0.Done? then Listed(g.0.proposals, blockNumber) else NoBody, calls + g.1)
  }

  /** `'blockNumber' in req.query` and `isNaN(parseInt(req.query.blockNumber))`. */
  predicate Rejected(blockNumber: Option<string>) {
    blockNumber.Some? && ParseInt(blockNumber.value).None?
  }

  /** The response and the external lookups for a query. */
  function Respond(v: QueryValue, up: Upstream): (Response, seq<Call>) {
    match v.blockNumber
    case Some(s) =>
      (match ParseInt(s)
       case None => (BadRequest(INVALID_BLOCK_NUMBER), [])
       case Some(n) => Finish([], n, Gather(Filter(v.platforms), up, n)))
    case None =>
      Finish([ResolveHeight], up.height, Gather(Filter(v.platforms), up, up.height))
  }

  /** The loop that lowercases the `platforms` array in place. */
  method LowercaseInPlace(platforms: array<string>)
    modifies platforms
    ensures platforms[..] == LowerAll(old(platforms[..]))
  {
    var i := 0;
    while i < platforms.Length
      invariant i <= platforms.Length
      invariant forall j :: 0 <= j < i ==> platforms[j] == Lower(old(platforms[j]))
      invariant forall j :: i <= j < platforms.Length ==> platforms[j] == old(platforms[j])
    {
      platforms[i] := Lower(platforms[i]);
      i := i + 1;
    }
  }

  /** `getPlatformProposals(blockNumber)` for the adapter registered under `key`. */
  method RunPlatform(key: string, up: Upstream, blockNumber: int) returns (out: Outcome)
    requires key in KEYS
    ensures out == Adapter(key, up, blockNumber)
  {
    if key == "aave" {
      out := Aave.GetProposals(up.aave, blockNumber);
    } else if key == "compound" {
      out := Compound.GetProposals(up.compound, blockNumber);
    } else if key == "uniswap" {
      out := Uniswap.GetProposals(up.uniswap, up.uniVote, blockNumber);
    } else {
      var ps := Maker.GetProposals(up.executives, up.polls, up.now, blockNumber);
      out := Done(ps);
    }
  }

  /** `checkPlatforms` and `platformsSet`, lowercasing an array filter in place. */
  method SelectPlatforms(platforms: Option<Platforms>) returns (checkPlatforms: bool, platformsSet: set<string>)
    modifies if platforms.Some? && platforms.value.Many? then {platforms.value.names} else {}
    ensures (if checkPlatforms then Some(platformsSet) else None) ==
      Filter(match platforms
        case None => None
        case Some(One(s)) => Some(OneName(s))
        case Some(Many(a)) => Some(ManyNames(old(a[..]))))
    ensures platforms.Some? && platforms.value.Many? ==>
      platforms.value.names[..] == LowerAll(old(platforms.value.names[..]))
  {
    checkPlatforms := false;
    platformsSet := {};
    if platforms.Some? {
      checkPlatforms := true;
      match platforms.value
      case Many(names) =>
        LowercaseInPlace(names);
        platformsSet := set x | x in names[..];
      case One(name) =>
        platformsSet := {Lower(name)};
    }
  }

  /** The loop over `proposalMethods`: the proposals of every selected
      adapter in order, or the first fault, and the adapters called. */
  method RunSelected(checkPlatforms: bool, platformsSet: set<string>, up: Upstream, blockNumber: int)
    returns (out: Outcome, calls: seq<Call>)
    ensures (out, calls) == Gather(if checkPlatforms then Some(platformsSet) else None, up, blockNumber)
  {
    ghost var filter := if checkPlatforms then Some(platformsSet) else None;
    ghost var results := Results(up, blockNumber);
    var allProposals: seq<Proposal> := [];
    calls := [];
    GatherFromStart(filter, results);
    var i := 0;
    while i < |KEYS|
      invariant i <= |KEYS|
      invariant GatherFrom(filter, results, 0) ==
        (After(allProposals, GatherFrom(filter, results, i).0), calls + GatherFrom(filter, results, i).1)
    {
      var platform := KEYS[i];
      if !checkPlatforms || platform in platformsSet {
        var platformProposals := RunPlatform(platform, up, blockNumber);
        assert platformProposals == results[i];
        if platformProposals.Faulted? {
          return platformProposals, calls + [RunAdapter(platform)];
        }
        GatherStep(filter, results, i, allProposals, calls);
        calls := calls + [RunAdapter(platform)];
        if |platformProposals.proposals| > 0 {
          allProposals := allProposals + platformProposals.proposals;
        } else {
          assert allProposals + platformProposals.proposals == allProposals;
        }
      }
      i := i + 1;
    }
    assert calls + [] == calls && allProposals + [] == allProposals;
    out := Done(allProposals);
  }

  lemma GatherFromStart(filter: Option<set<string>>, results: seq<Outcome>)
    requires |results| == |KEYS|
    ensures var g := GatherFrom(filter, results, 0);
      g == (After([], g.0), [] + g.1)
  {
    var g := GatherFrom(filter, results, 0);
    assert g.0.Done? ==> [] + g.0.proposals == g.0.proposals;
    assert [] + g.1 == g.1;
  }

  /** One selected adapter that completes: its proposals join the
      accumulator and its call joins the calls made. */
  lemma GatherStep(filter: Option<set<string>>, results: seq<Outcome>, i: nat, acc: seq<Proposal>, calls: seq<Call>)
    requires |results| == |KEYS| && i < |KEYS| && Runs(filter, KEYS[i]) && results[i].Done?
    ensures var g := GatherFrom(filter, results, i);
      var rest := GatherFrom(filter, results, i + 1);
      (After(acc, g.0), calls + g.1) ==
      (After(acc + results[i].proposals, rest.0), (calls + [RunAdapter(KEYS[i])]) + rest.1)
  {
    var ps := results[i].proposals;
    var rest := GatherFrom(filter, results, i + 1);
    assert calls + ([RunAdapter(KEYS[i])] + rest.1) == (calls + [RunAdapter(KEYS[i])]) + rest.1;
    if rest.0.Done? {
      assert acc + (ps + rest.0.proposals) == (acc + ps) + rest.0.proposals;
    }
  }

  method Handle(q: Query, up: Upstream) returns (resp: Response, calls: seq<Call>)
    modifies Footprint(q)
    ensures (resp, calls) == Respond(old(ValueOf(q)), up)
    ensures q.platforms.Some? && q.platforms.value.Many? ==>
      q.platforms.value.names[..] ==
        if Rejected(q.blockNumber) then old(q.platforms.value.names[..])
        else LowerAll(old(q.platforms.value.names[..]))
  {
    var height: seq<Call> := [];
    var blockNumber: int;
    if q.blockNumber.Some? {
      var parsed := ParseInt(q.blockNumber.value);
      if parsed.None? {
        return BadRequest(INVALID_BLOCK_NUMBER), [];
      }
      blockNumber := parsed.value;
    } else {
      height := [ResolveHeight];
      blockNumber := up.height;
    }
    var checkPlatforms, platformsSet := SelectPlatforms(q.platforms);
    var out, adapterCalls := RunSelected(checkPlatforms, platformsSet, up, blockNumber);
    calls := height + adapterCalls;
    if out.Done? {
      resp := Listed(out.proposals, blockNumber);
    } else {
      resp := NoBody;
    }
  }

  // ---------------------------------------------------------------------
  // Properties of the handler

  /** A `blockNumber` that `parseInt` rejects is answered with status 400 and
      the fixed message before anything is fetched; every other query gets 200. */
  lemma RejectedMeansBadRequest(v: QueryValue, up: Upstream)
    ensures Respond(v, up).0.BadRequest? <==> Rejected(v.blockNumber)
    ensures Rejected(v.blockNumber) ==> Respond(v, up) == (BadRequest(INVALID_BLOCK_NUMBER), [])
    ensures StatusCode(Respond(v, up).0) == (if Rejected(v.blockNumber) then 400 else 200)
  {
  }

  /** The adapters called from position `i` on: each is one of the keys from
      `i` on that the filter selects, never the height lookup. */
  lemma {:induction false} GatherCallsAdapters(filter: Option<set<string>>, results: seq<Outcome>, i: nat)
    requires |results| == |KEYS| && i <= |KEYS|
    ensures ResolveHeight !in GatherFrom(filter, results, i).1
    ensures forall c :: c in GatherFrom(filter, results, i).1 ==>
      c.RunAdapter? && c.platform in KEYS[i..] && Runs(filter, c.platform)
    decreases |KEYS| - i
  {
    if i < |KEYS| {
      GatherCallsAdapters(filter, results, i + 1);
      assert KEYS[i..] == [KEYS[i]] + KEYS[i + 1..];
    }
  }

  /** The chain height is fetched exactly when the query has no `blockNumber`,
      before any adapter and only once; the listing reports the block number
      the adapters were given. */
  lemma HeightResolvedIffOmitted(v: QueryValue, up: Upstream)
    ensures var (resp, calls) := Respond(v, up);
      && (ResolveHeight in calls <==> v.blockNumber.None?)
      && (v.blockNumber.None? ==> calls[0] == ResolveHeight && ResolveHeight !in calls[1..])
      && (resp.Listed? && v.blockNumber.None? ==> resp.blockNumber == up.height)
      && (resp.Listed? && v.blockNumber.Some? ==> Some(resp.blockNumber) == ParseInt(v.blockNumber.value))
  {
    var f := Filter(v.platforms);
    match v.blockNumber
    case None =>
      GatherCallsAdapters(f, Results(up, up.height), 0);
      var g := Gather(f, up, up.height);
      assert ([ResolveHeight] + g.1)[1..] == g.1;
    case Some(s) =>
      if ParseInt(s).Some? {
        var n := ParseInt(s).value;
        GatherCallsAdapters(f, Results(up, n), 0);
        assert [] + Gather(f, up, n).1 == Gather(f, up, n).1;
      }
  }

  /** An explicit decimal `blockNumber`, whatever follows its digits, is the
      block number the adapters and the response use; the height is not fetched. */
  lemma ExplicitBlockNumberIsUsed(n: int, rest: string, platforms: Option<PlatformsValue>, up: Upstream)
    requires !StartsWithDigit(rest)
    ensures var (resp, calls) := Respond(QueryValue(Some(Show(n) + rest), platforms), up);
      && ResolveHeight !in calls
      && (resp.Listed? || resp.NoBody?)
      && (resp.Listed? ==> resp.blockNumber == n)
      && resp == Finish([], n, Gather(Filter(platforms), up, n)).0
  {
    ParseIntShow(n, rest);
    HeightResolvedIffOmitted(QueryValue(Some(Show(n) + rest), platforms), up);
  }

  /** What the adapter at position `i` contributes to the listing. */
  function Part(filter: Option<set<string>>, results: seq<Outcome>, i: nat): seq<Proposal>
    requires |results| == |KEYS| && i < |KEYS|
  {
    if Runs(filter, KEYS[i]) && results[i].Done? then results[i].proposals else []
  }

  function PartsFrom(filter: Option<set<string>>, results: seq<Outcome>, i: nat): seq<Proposal>
    requires |results| == |KEYS| && i <= |KEYS|
    decreases |KEYS| - i
  {
    if i == |KEYS| then [] else Part(filter, results, i) + PartsFrom(filter, results, i + 1)
  }

  /** The loop from position `i` completes exactly when no selected adapter
      from there faults, and then concatenates their outputs in key order. */
  lemma {:induction false} GatherConcatenates(filter: Option<set<string>>, results: seq<Outcome>, i: nat)
    requires |results| == |KEYS| && i <= |KEYS|
    ensures var o := GatherFrom(filter, results, i).0;
      && (o.Done? <==> forall j :: i <= j < |KEYS| && Runs(filter, KEYS[j]) ==> results[j].Done?)
      && (o.Done? ==> o.proposals == PartsFrom(filter, results, i))
    decreases |KEYS| - i
  {
    if i < |KEYS| {
      GatherConcatenates(filter, results, i + 1);
      var rest := GatherFrom(filter, results, i + 1);
      if !Runs(filter, KEYS[i]) {
        assert GatherFrom(filter, results, i) == rest;
        assert PartsFrom(filter, results, i) == [] + PartsFrom(filter, results, i + 1);
      } else if results[i].Done? {
        assert GatherFrom(filter, results, i).0 == After(results[i].proposals, rest.0);
      }
    }
  }

  /** The loop's listing is the Aave records, then Compound's, then
      Uniswap's, then Maker's, each only when its platform is selected; it
      completes exactly when no selected adapter faults. */
  lemma GatherOrder(filter: Option<set<string>>, results: seq<Outcome>)
    requires |results| == |KEYS|
    ensures var o := GatherFrom(filter, results, 0).0;
      && (o.Done? <==> forall j :: 0 <= j < |KEYS| && Runs(filter, KEYS[j]) ==> results[j].Done?)
      && (o.Done? ==> o.proposals == Part(filter, results, 0) + Part(filter, results, 1)
                                     + Part(filter, results, 2) + Part(filter, results, 3))
  {
    GatherConcatenates(filter, results, 0);
    if GatherFrom(filter, results, 0).0.Done? {
      assert PartsFrom(filter, results, 4) == [];
      assert PartsFrom(filter, results, 0) ==
        Part(filter, results, 0) + (Part(filter, results, 1) + (Part(filter, results, 2) + (Part(filter, results, 3) + [])));
    }
  }

  /** A query with an acceptable block number is answered by the loop: a
      listing of what it collects under that block number, or an empty response
      when an adapter faults. */
  lemma ResponseIsGather(v: QueryValue, up: Upstream)
    requires !Rejected(v.blockNumber)
    ensures var n := if v.blockNumber.Some? then ParseInt(v.blockNumber.value).value else up.height;
      var g := Gather(Filter(v.platforms), up, n);
      Respond(v, up).0 == if g.0.Done? then Listed(g.0.proposals, n) else NoBody
  {
  }

  /** The calls the loop makes from `i` on when no adapter faults: one per
      selected key, in key order. */
  function SelectedFrom(filter: Option<set<string>>, i: nat): seq<Call>
    requires i <= |KEYS|
    decreases |KEYS| - i
  {
    if i == |KEYS| then []
    else if Runs(filter, KEYS[i]) then [RunAdapter(KEYS[i])] + SelectedFrom(filter, i + 1)
    else SelectedFrom(filter, i + 1)
  }

  /** The adapters are called in key order, each selected one once, up to the
      first that faults: the calls made are a prefix of the selected keys, all
      of them when no adapter faults. */
  lemma {:induction false} GatherCallsSelected(filter: Option<set<string>>, results: seq<Outcome>, i: nat)
    requires |results| == |KEYS| && i <= |KEYS|
    ensures var g := GatherFrom(filter, results, i);
      && g.1 <= SelectedFrom(filter, i)
      && (g.0.Done? ==> g.1 == SelectedFrom(filter, i))
    decreases |KEYS| - i
  {
    if i < |KEYS| {
      GatherCallsSelected(filter, results, i + 1);
    }
  }

  /** A faulted loop's last call is the adapter whose fault it reports. */
  lemma {:induction false} GatherFaultIsLastCall(filter: Option<set<string>>, results: seq<Outcome>, i: nat)
    requires |results| == |KEYS| && i <= |KEYS|
    ensures var g := GatherFrom(filter, results, i);
      g.0.Faulted? ==> exists j :: i <= j < |KEYS| && g.1 != [] && g.1[|g.1| - 1] == RunAdapter(KEYS[j])
                                   && results[j] == g.0
    decreases |KEYS| - i
  {
    if i < |KEYS| {
      GatherFaultIsLastCall(filter, results, i + 1);
      var g := GatherFrom(filter, results, i);
      var rest := GatherFrom(filter, results, i + 1);
      if Runs(filter, KEYS[i]) && results[i].Done? && rest.0.Faulted? {
        assert g.1 == [RunAdapter(KEYS[i])] + rest.1;
        assert g.1[|g.1| - 1] == rest.1[|rest.1| - 1];
      }
    }
  }

  /** Without a `platforms` filter every adapter runs, in the order Aave,
      Compound, Uniswap, Maker. */
  lemma NoFilterRunsAll(up: Upstream, blockNumber: int)
    ensures Gather(None, up, blockNumber).0.Done? ==>
      Gather(None, up, blockNumber).1 ==
        [RunAdapter("aave"), RunAdapter("compound"), RunAdapter("uniswap"), RunAdapter("maker")]
  {
    GatherCallsSelected(None, Results(up, blockNumber), 0);
    assert SelectedFrom(None, 4) == [];
  }

  /** An empty `platforms` array selects nothing: the listing is empty and no
      adapter is called. */
  lemma EmptyFilterRunsNothing(blockNumber: Option<string>, up: Upstream)
    requires !Rejected(blockNumber)
    ensures var (resp, calls) := Respond(QueryValue(blockNumber, Some(ManyNames([]))), up);
      resp.Listed? && resp.proposals == [] && calls == (if blockNumber.None? then [ResolveHeight] else [])
  {
    var f := Filter(Some(ManyNames([])));
    forall k | k in KEYS ensures !Runs(f, k) {
      FilterIgnoresCase([], k);
    }
    var n := if blockNumber.Some? then ParseInt(blockNumber.value).value else up.height;
    assert Gather(f, up, n) == (Done([]), []);
  }

  /** Names in the filter that are no platform key change nothing. */
  lemma {:induction false} UnknownNamesIgnored(names: set<string>, results: seq<Outcome>, i: nat)
    requires |results| == |KEYS| && i <= |KEYS|
    ensures GatherFrom(Some(names), results, i) ==
            GatherFrom(Some(names * {"aave", "compound", "uniswap", "maker"}), results, i)
    decreases |KEYS| - i
  {
    if i < |KEYS| {
      UnknownNamesIgnored(names, results, i + 1);
      assert Runs(Some(names), KEYS[i]) == Runs(Some(names * {"aave", "compound", "uniswap", "maker"}), KEYS[i]);
    }
  }

  /** A string filter and a one-element array select the same adapters when
      the two names agree up to case: `"Compound"` and `["compound"]` alike. */
  lemma FilterFormsAgree(blockNumber: Option<string>, name: string, element: string, up: Upstream)
    requires Lower(name) == Lower(element)
    ensures Filter(Some(OneName(name))) == Filter(Some(ManyNames([element]))) == Some({Lower(name)})
    ensures Respond(QueryValue(blockNumber, Some(OneName(name))), up) ==
            Respond(QueryValue(blockNumber, Some(ManyNames([element]))), up)
  {
    var xs := LowerAll([element]);
    assert xs == [Lower(name)];
    assert (set x | x in xs) == {Lower(name)};
  }

  /** A platform is selected by any spelling of its name that lowercases to its key. */
  lemma FilterIgnoresCase(names: seq<string>, key: string)
    ensures key in Filter(Some(ManyNames(names))).value <==> exists j :: 0 <= j < |names| && Lower(names[j]) == key
  {
    var xs := LowerAll(names);
    if key in xs {
      var j :| 0 <= j < |xs| && xs[j] == key;
      assert Lower(names[j]) == key;
    }
  }

  /** The handler's keys are the lowercased platform names, so the names the
      records carry select their own adapter, and nothing else. */
  lemma DisplayNameSelects(key: string, other: string)
    requires key in KEYS && other in KEYS
    ensures Lower(DisplayName(key)) == key
    ensures Runs(Filter(Some(OneName(DisplayName(key)))), other) <==> other == key
  {
    var d := DisplayName(key);
    assert |Lower(d)| == |key|;
    forall j | 0 <= j < |key| ensures Lower(d)[j] == key[j] {
      assert j == 0 || !IsUpper(d[j]);
    }
  }

  /** The platforms the filter lets through. */
  predicate Selected(filter: Option<set<string>>, platform: string) {
    exists k :: k in KEYS && Runs(filter, k) && DisplayName(k) == platform
  }

  /** Every adapter emits conforming records under its own platform name. */
  lemma ResultsConform(up: Upstream, blockNumber: int, j: nat)
    requires j < |KEYS|
    ensures var r := Results(up, blockNumber)[j];
      r.Done? ==> AllConform(r.proposals, DisplayName(KEYS[j]), blockNumber)
  {
    Aave.OutputConforms(up.aave, blockNumber);
    Compound.OutputConforms(up.compound, blockNumber);
    Uniswap.OutputConforms(up.uniswap, up.uniVote, blockNumber);
    Maker.OutputConforms(up.executives, up.polls, up.now, blockNumber);
  }

  /** The records a completed loop collects all pass the filter. */
  lemma {:induction false} GatherConforms(filter: Option<set<string>>, up: Upstream, blockNumber: int, i: nat)
    requires i <= |KEYS|
    ensures var o := GatherFrom(filter, Results(up, blockNumber), i).0;
      o.Done? ==> forall j :: 0 <= j < |o.proposals| ==>
        && IsLower(o.proposals[j].state)
        && MeetsCutoff(o.proposals[j], blockNumber)
        && Selected(filter, o.proposals[j].platform)
    decreases |KEYS| - i
  {
    if i < |KEYS| {
      GatherConforms(filter, up, blockNumber, i + 1);
      var rs := Results(up, blockNumber);
      var rest := GatherFrom(filter, rs, i + 1);
      if Runs(filter, KEYS[i]) && rs[i].Done? && rest.0.Done? {
        ResultsConform(up, blockNumber, i);
        var out := rs[i].proposals;
        var ps := out + rest.0.proposals;
        forall j | 0 <= j < |ps|
          ensures IsLower(ps[j].state) && MeetsCutoff(ps[j], blockNumber) && Selected(filter, ps[j].platform)
        {
          if j < |out| {
            assert Conforms(out[j], DisplayName(KEYS[i]), blockNumber);
          } else {
            assert ps[j] == rest.0.proposals[j - |out|];
          }
        }
      }
    }
  }

  /** Every listed record has a lowercase state, an endBlock that is null or
      at least the block number reported, and comes from a selected platform. */
  lemma ResponseConforms(v: QueryValue, up: Upstream)
    ensures var resp := Respond(v, up).0;
      resp.Listed? ==> forall j :: 0 <= j < |resp.proposals| ==>
        && IsLower(resp.proposals[j].state)
        && MeetsCutoff(resp.proposals[j], resp.blockNumber)
        && Selected(Filter(v.platforms), resp.proposals[j].platform)
  {
    var f := Filter(v.platforms);
    match v.blockNumber
    case None =>
      GatherConforms(f, up, up.height, 0);
    case Some(s) =>
      if ParseInt(s).Some? {
        GatherConforms(f, up, ParseInt(s).value, 0);
      }
  }
}
