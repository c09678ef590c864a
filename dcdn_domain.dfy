/**
 * The DCDN domain driver: Create adds an accelerated domain and waits for
 * it to come online, Read refreshes the record from the domain's detail,
 * Update changes the scheduling scope and/or the resource group and
 * origins, Delete removes the domain. The id is the domain name.
 */
module DcdnDomain {
  import opened Wrappers
  import opened Common
  import opened Schema
  import opened DcdnClient

  /** The status a domain reports once it serves traffic. */
  const Online: string := "online"

  const ProcessingMessage: string := "dcdn creation is processing"
  const CreateFailurePrefix: string := "error creating dcdn: "

  // ------------------------------------------------------------------
  // Origins: record elements, request payload, response entries
  // ------------------------------------------------------------------

  /** The keys of a "sources" element and the keys convertSourcesToString sends them under. */
  const SourceKeys: seq<(string, string)> :=
    [("content", "Content"), ("port", "Port"), ("priority", "Priority"), ("type", "Type"), ("weight", "Weight")]

  /** One element of the Sources payload convertSourcesToString builds from one "sources" element. */
  function SourcePayload(item: map<string, Scalar>): Payload
  {
    map["Content" := Lookup(item, "content"), "Port" := Lookup(item, "port"),
        "Priority" := Lookup(item, "priority"), "Type" := Lookup(item, "type"),
        "Weight" := Lookup(item, "weight")]
  }

  /** The payload of a whole "sources" list, element by element. */
  function SourcesPayload(items: seq<map<string, Scalar>>): seq<Payload>
  {
    seq(|items|, i requires 0 <= i < |items| => SourcePayload(items[i]))
  }

  /** The payload has exactly the five capitalised keys, each carrying the value of its lower-case key. */
  lemma SourcePayloadRenames(item: map<string, Scalar>)
    ensures SourcePayload(item).Keys == set i | 0 <= i < |SourceKeys| :: SourceKeys[i].1
    ensures forall i | 0 <= i < |SourceKeys| :: SourcePayload(item)[SourceKeys[i].1] == Lookup(item, SourceKeys[i].0)
  {
    var keys := set i | 0 <= i < |SourceKeys| :: SourceKeys[i].1;
    assert SourceKeys[0].1 in keys && SourceKeys[1].1 in keys && SourceKeys[2].1 in keys;
    assert SourceKeys[3].1 in keys && SourceKeys[4].1 in keys;
  }

  /**
   * convertSourcesToString: one payload element per "sources" element, in
   * the same order. The JSON text itself is not modelled, and json.Marshal
   * cannot fail on these values, so no error is returned.
   */
  method ConvertSources(v: seq<map<string, Scalar>>) returns (payload: seq<Payload>)
    ensures |payload| == |v|
    ensures forall i :: 0 <= i < |v| ==> payload[i] == SourcePayload(v[i])
  {
    var arrayMaps := new Payload[|v|](_ => map[]);
    for i := 0 to |v|
      invariant forall j :: 0 <= j < i ==> arrayMaps[j] == SourcePayload(v[j])
    {
      arrayMaps[i] := SourcePayload(v[i]);
    }
    payload := arrayMaps[..];
  }

  /** The "sources" element Read builds from one origin of the response. */
  function SourceRow(s: Source): map<string, Scalar>
  {
    map["content" := SStr(s.content), "port" := SInt(s.port), "priority" := SStr(s.priority),
        "type" := SStr(s.sourceType), "weight" := SStr(s.weight)]
  }

  function SourceRows(sources: seq<Source>): seq<map<string, Scalar>>
  {
    seq(|sources|, i requires 0 <= i < |sources| => SourceRow(sources[i]))
  }

  /** Read's loop over the response's origins: one element per origin, in response order. */
  method CollectSources(sources: seq<Source>) returns (rows: seq<map<string, Scalar>>)
    ensures |rows| == |sources|
    ensures forall i :: 0 <= i < |sources| ==> rows[i] == SourceRow(sources[i])
  {
    rows := [];
    for i := 0 to |sources|
      invariant |rows| == i
      invariant forall j :: 0 <= j < i ==> rows[j] == SourceRow(sources[j])
    {
      rows := rows + [SourceRow(sources[i])];
    }
  }

  /** Reads a payload element back into an origin, when every field is there with the right kind. */
  function PayloadSource(p: Payload): Option<Source>
  {
    if && "Content" in p && p["Content"].Some? && p["Content"].value.SStr?
       && "Port" in p && p["Port"].Some? && p["Port"].value.SInt?
       && "Priority" in p && p["Priority"].Some? && p["Priority"].value.SStr?
       && "Type" in p && p["Type"].Some? && p["Type"].value.SStr?
       && "Weight" in p && p["Weight"].Some? && p["Weight"].value.SStr?
    then Some(Source(p["Content"].value.s, p["Port"].value.i, p["Priority"].value.s,
                     p["Type"].value.s, p["Weight"].value.s))
    else None
  }

  /** What Read stores for an origin converts into a payload that carries that same origin. */
  lemma SourceRoundTrip(s: Source)
    ensures PayloadSource(SourcePayload(SourceRow(s))) == Some(s)
  {
  }

  /**
   * An element missing a key is not refused: the driver copies the nil
   * lookup under the key's capitalised name and json.Marshal sends it as
   * JSON null. Such a payload converts back (through PayloadSource) into
   * no origin at all. The plugin SDK fills every key of a "sources"
   * element, so a record never holds such an element.
   */
  lemma MissingKeySendsNil(item: map<string, Scalar>, i: nat)
    requires i < |SourceKeys| && SourceKeys[i].0 !in item
    ensures SourcePayload(item)[SourceKeys[i].1] == None
    ensures PayloadSource(SourcePayload(item)) == None
  {
  }

  // ------------------------------------------------------------------
  // The activation probe and its retry loop
  // ------------------------------------------------------------------

  /** What one status read tells the retry loop. */
  datatype Probe = Ready | Pending(reason: Error) | Fatal(err: Error)

  /** The retry closure of Create: a failed read is fatal, any status but "online" is retried. */
  function ProbeOutcome(reply: Result<DomainDetail, Error>): (p: Probe)
    ensures p.Fatal? <==> reply.Err?
    ensures p.Ready? <==> reply.Ok? && reply.value.domainStatus == Online
    ensures p.Pending? <==> reply.Ok? && reply.value.domainStatus != Online
    ensures reply.Err? ==> p.err == Plain(CreateFailurePrefix + ErrorText(reply.error))
    ensures p.Pending? ==> p.reason == Plain(ProcessingMessage)
  {
    match reply
    case Err(e) => Fatal(Plain(CreateFailurePrefix + ErrorText(e)))
    case Ok(detail) =>
      if detail.domainStatus != Online then Pending(Plain(ProcessingMessage))
      else if detail.domainStatus == Online then Ready
      else assert false; Fatal(Plain(CreateFailurePrefix + "unkown state"))
  }

  /** How a run of the retry loop ended: how many status reads it made, and the last outcome. */
  datatype Run = Run(polls: nat, last: Probe)

  /**
   * resource.RetryContext over the probe, with `fuel` standing for the
   * re-polls that fit before the timeout: the first read is made at once,
   * and a pending read is followed by another while fuel remains.
   */
  function ProbeRun(queue: seq<Result<DomainDetail, Error>>, fuel: nat): (run: Run)
    requires |queue| > 0
    ensures 1 <= run.polls <= fuel + 1
    ensures run.last.Pending? ==> run.polls == fuel + 1
    decreases fuel
  {
    var p := ProbeOutcome(queue[0]);
    if p.Pending? && fuel > 0 then
      var rest := ProbeRun(Advance(queue), fuel - 1);
      Run(rest.polls + 1, rest.last)
    else Run(1, p)
  }

  /** RetryContext's result: nil on success, else the last error; after a timeout, the last retryable one. */
  function RetryResult(p: Probe): (err: Option<Error>)
    ensures err.None? <==> p.Ready?
  {
    match p
    case Ready => None
    case Pending(reason) => Some(reason)
    case Fatal(e) => Some(e)
  }

  /** The reply of the n-th status read (counting from 0). */
  function ReplyAt(queue: seq<Result<DomainDetail, Error>>, n: nat): Result<DomainDetail, Error>
    requires |queue| > 0
  {
    queue[if n < |queue| then n else |queue| - 1]
  }

  lemma ReplyAtAdvance(queue: seq<Result<DomainDetail, Error>>, n: nat)
    requires |queue| > 0
    ensures ReplyAt(Advance(queue), n) == ReplyAt(queue, n + 1)
  {
  }

  /**
   * The loop succeeds exactly when, among the first fuel + 1 reads, some
   * read reports "online" and every read before it reports another status.
   */
  lemma {:induction false} ProbeRunSucceeds(queue: seq<Result<DomainDetail, Error>>, fuel: nat)
    requires |queue| > 0
    ensures ProbeRun(queue, fuel).last.Ready? <==>
      exists j :: 0 <= j <= fuel && ProbeOutcome(ReplyAt(queue, j)).Ready?
                  && forall i :: 0 <= i < j ==> ProbeOutcome(ReplyAt(queue, i)).Pending?
  {
    var p := ProbeOutcome(queue[0]);
    assert ReplyAt(queue, 0) == queue[0];
    if p.Pending? && fuel > 0 {
      ProbeRunSucceeds(Advance(queue), fuel - 1);
      forall n: nat {
        ReplyAtAdvance(queue, n);
      }
      if ProbeRun(queue, fuel).last.Ready? {
        var j :| 0 <= j <= fuel - 1 && ProbeOutcome(ReplyAt(Advance(queue), j)).Ready?
                 && forall i :: 0 <= i < j ==> ProbeOutcome(ReplyAt(Advance(queue), i)).Pending?;
        assert forall i :: 0 <= i < j + 1 ==> ProbeOutcome(ReplyAt(queue, i)).Pending? by {
          forall i | 0 <= i < j + 1 ensures ProbeOutcome(ReplyAt(queue, i)).Pending? {
            if i > 0 {
              assert ReplyAt(queue, i) == ReplyAt(Advance(queue), i - 1);
            }
          }
        }
        assert ProbeOutcome(ReplyAt(queue, j + 1)).Ready?;
      } else {
        forall j | 0 <= j <= fuel && ProbeOutcome(ReplyAt(queue, j)).Ready?
          ensures exists i :: 0 <= i < j && !ProbeOutcome(ReplyAt(queue, i)).Pending?
        {
          assert j > 0;
          assert ReplyAt(queue, j) == ReplyAt(Advance(queue), j - 1);
          var i :| 0 <= i < j - 1 && !ProbeOutcome(ReplyAt(Advance(queue), i)).Pending?;
          assert ReplyAt(queue, i + 1) == ReplyAt(Advance(queue), i);
        }
      }
    }
  }

  /** The loop times out exactly when all of the first fuel + 1 reads report a status other than "online". */
  lemma {:induction false} ProbeRunTimesOut(queue: seq<Result<DomainDetail, Error>>, fuel: nat)
    requires |queue| > 0
    ensures ProbeRun(queue, fuel).last.Pending? <==>
      forall i :: 0 <= i <= fuel ==> ProbeOutcome(ReplyAt(queue, i)).Pending?
  {
    assert ReplyAt(queue, 0) == queue[0];
    if ProbeOutcome(queue[0]).Pending? && fuel > 0 {
      ProbeRunTimesOut(Advance(queue), fuel - 1);
      forall n: nat {
        ReplyAtAdvance(queue, n);
      }
      if forall i :: 0 <= i <= fuel - 1 ==> ProbeOutcome(ReplyAt(Advance(queue), i)).Pending? {
        forall i | 0 <= i <= fuel ensures ProbeOutcome(ReplyAt(queue, i)).Pending? {
          if i > 0 {
            assert ReplyAt(queue, i) == ReplyAt(Advance(queue), i - 1);
          }
        }
      } else {
        var i :| 0 <= i <= fuel - 1 && !ProbeOutcome(ReplyAt(Advance(queue), i)).Pending?;
        assert ReplyAt(queue, i + 1) == ReplyAt(Advance(queue), i);
      }
    }
  }

  /** Two pending reads and then "online": with two re-polls to spare, the loop succeeds on the third read. */
  lemma ProbeRunExample(pending: DomainDetail, online: DomainDetail, fuel: nat)
    requires pending.domainStatus != Online && online.domainStatus == Online
    requires fuel >= 2
    ensures ProbeRun([Ok(pending), Ok(pending), Ok(online)], fuel) == Run(3, Ready)
  {
    var queue: seq<Result<DomainDetail, Error>> := [Ok(pending), Ok(pending), Ok(online)];
    var second := Advance(queue);
    var third := Advance(second);
    assert second == [Ok(pending), Ok(online)];
    assert third == [Ok(online)];
    assert ProbeRun(third, fuel - 2) == Run(1, Ready);
    assert ProbeRun(second, fuel - 1) == Run(2, Ready);
  }

  /** `n` status reads of one domain. */
  function Polls(domain: string, n: nat): seq<Call>
  {
    seq(n, _ => DescribeDcdnDomainDetail(domain))
  }

  /** Create's wait for the domain to come online, as ProbeRun describes it. */
  method WaitForOnline(conn: Conn, domain: string, fuel: nat) returns (err: Option<Error>)
    requires conn.Valid()
    modifies conn`log, conn`details
    ensures conn.Valid()
    ensures var run := ProbeRun(old(conn.details), fuel);
      && err == RetryResult(run.last)
      && conn.log == old(conn.log) + Polls(domain, run.polls)
      && conn.details == AdvanceBy(old(conn.details), run.polls)
  {
    ghost var queue := conn.details;
    var reply := conn.DescribeDcdnDomainDetail(domain);
    var probe := ProbeOutcome(reply);
    var remaining: nat := fuel;
    assert conn.log == old(conn.log) + Polls(domain, 1);
    while probe.Pending? && remaining > 0
      invariant conn.Valid() && |queue| > 0 && remaining <= fuel
      invariant queue == AdvanceBy(old(conn.details), fuel - remaining)
      invariant probe == ProbeOutcome(queue[0]) && conn.details == Advance(queue)
      invariant conn.log == old(conn.log) + Polls(domain, fuel - remaining + 1)
      invariant ProbeRun(old(conn.details), fuel)
             == Run(fuel - remaining + ProbeRun(queue, remaining).polls, ProbeRun(queue, remaining).last)
    {
      AdvanceByOneMore(old(conn.details), fuel - remaining);
      queue := conn.details;
      reply := conn.DescribeDcdnDomainDetail(domain);
      probe := ProbeOutcome(reply);
      remaining := remaining - 1;
      assert Polls(domain, fuel - remaining + 1) == Polls(domain, fuel - remaining) + [DescribeDcdnDomainDetail(domain)];
    }
    AdvanceByOneMore(old(conn.details), fuel - remaining);
    err := RetryResult(probe);
  }

  // ------------------------------------------------------------------
  // Record and requests
  // ------------------------------------------------------------------

  /** The record after a successful Read of the domain `id`. */
  function ReadFields(fields: map<string, Value>, id: string, detail: DomainDetail): map<string, Value>
  {
    fields["domain_name" := Str(id)]["resource_group_id" := Str(detail.resourceGroupId)]
      ["scope" := Str(detail.scope)]["sources" := Rows(SourceRows(detail.sources))]
      ["cname" := Str(detail.cname)]
  }

  /** Read rebuilds "sources" with one element per returned origin, in response order, and names the domain by the id. */
  lemma ReadFieldsSources(fields: map<string, Value>, id: string, detail: DomainDetail)
    ensures var r := ReadFields(fields, id, detail);
      && r["domain_name"] == Str(id)
      && r["sources"].Rows? && |r["sources"].rows| == |detail.sources|
      && forall i :: 0 <= i < |detail.sources| ==> PayloadSource(SourcePayload(r["sources"].rows[i])) == Some(detail.sources[i])
  {
    var r := ReadFields(fields, id, detail);
    forall i | 0 <= i < |detail.sources|
      ensures PayloadSource(SourcePayload(r["sources"].rows[i])) == Some(detail.sources[i])
    {
      SourceRoundTrip(detail.sources[i]);
    }
  }

  /** The AddDcdnDomainRequest Create sends for the record. */
  ghost function AddRequest(d: ResourceData): AddDomainRequest
    reads d
  {
    AddDomainRequest(
      d.GetString("domain_name"),
      if d.GetOk("resource_group_id") then d.GetString("resource_group_id") else "",
      if d.GetOk("scope") then d.GetString("scope") else "",
      SourcesPayload(d.GetRows("sources")))
  }

  /** The scheduling property an Update of the scope sends. */
  function ScopeProperty(scope: string): string
  {
    "{\"coverage\":\"" + scope + "\"}"
  }

  /** The property names the scope, and different scopes give different properties. */
  lemma ScopePropertyCarriesScope(scope: string, other: string)
    ensures Contains(ScopeProperty(scope), scope)
    ensures ScopeProperty(scope) == ScopeProperty(other) ==> scope == other
  {
    ContainsInfix("{\"coverage\":\"", scope, "\"}");
    var head := "{\"coverage\":\"";
    if ScopeProperty(scope) == ScopeProperty(other) {
      assert |scope| == |other|;
      assert scope == ScopeProperty(scope)[|head|..|head| + |scope|];
      assert other == ScopeProperty(other)[|head|..|head| + |other|];
    }
  }

  /** Whether Update calls UpdateDcdnDomain: only when the resource group or the origins changed. */
  predicate UpdatesDomain(d: ResourceData)
  {
    d.HasChange("resource_group_id") || d.HasChange("sources")
  }

  /** The UpdateDcdnDomainRequest Update sends: only the changed fields are filled in. */
  ghost function UpdateRequest(d: ResourceData): UpdateDomainRequest
    reads d
  {
    UpdateDomainRequest(
      d.id,
      if d.HasChange("resource_group_id") then d.GetString("resource_group_id") else "",
      if d.HasChange("sources") then Some(SourcesPayload(d.GetRows("sources"))) else None)
  }

  /** The calls Update makes before its closing Read, when none of them fails. */
  ghost function UpdatePlan(d: ResourceData): seq<Call>
    reads d
  {
    (if d.HasChange("scope") then [ModifyDCdnDomainSchdmByProperty(d.id, ScopeProperty(d.GetString("scope")))] else [])
    + (if UpdatesDomain(d) then [UpdateDcdnDomain(UpdateRequest(d))] else [])
  }

  /** How many UpdateDcdnDomain calls a plan holds. */
  function DomainUpdates(calls: seq<Call>): nat
  {
    if |calls| == 0 then 0 else (if calls[0].UpdateDcdnDomain? then 1 else 0) + DomainUpdates(calls[1..])
  }

  /**
   * The plan has one scope call exactly when the scope changed, and one
   * UpdateDcdnDomain exactly when the resource group or the origins
   * changed, which carries the new resource group only when it changed and
   * the origins only when they changed; with nothing changed it is empty.
   */
  lemma UpdatePlanShape(d: ResourceData)
    ensures |UpdatePlan(d)| == (if d.HasChange("scope") then 1 else 0) + (if UpdatesDomain(d) then 1 else 0)
    ensures DomainUpdates(UpdatePlan(d)) == if UpdatesDomain(d) then 1 else 0
    ensures (d.HasChange("scope") <==> exists c :: c in UpdatePlan(d) && c.ModifyDCdnDomainSchdmByProperty?)
    ensures forall c :: c in UpdatePlan(d) && c.UpdateDcdnDomain? ==>
      && c.update.domainName == d.id
      && (c.update.sources.Some? <==> d.HasChange("sources"))
      && (!d.HasChange("resource_group_id") ==> c.update.resourceGroupId == "")
  {
    var plan := UpdatePlan(d);
    var scopeCall := ModifyDCdnDomainSchdmByProperty(d.id, ScopeProperty(d.GetString("scope")));
    var updateCall := UpdateDcdnDomain(UpdateRequest(d));
    assert DomainUpdates([]) == 0;
    assert DomainUpdates([updateCall]) == 1 by {
      assert [updateCall][1..] == [];
    }
    assert DomainUpdates([scopeCall]) == 0 by {
      assert [scopeCall][1..] == [];
    }
    if d.HasChange("scope") && UpdatesDomain(d) {
      assert plan == [scopeCall, updateCall];
      assert plan[1..] == [updateCall];
    } else if d.HasChange("scope") {
      assert plan == [scopeCall];
    } else if UpdatesDomain(d) {
      assert plan == [updateCall];
    } else {
      assert plan == [];
    }
  }

  // ------------------------------------------------------------------
  // The lifecycle operations
  // ------------------------------------------------------------------

  method Read(d: ResourceData, conn: Conn) returns (diags: Diagnostics)
    requires conn.Valid()
    modifies d`fields, conn`log, conn`details
    ensures conn.Valid() && d.id == old(d.id)
    ensures conn.log == old(conn.log) + [DescribeDcdnDomainDetail(old(d.id))]
    ensures conn.details == Advance(old(conn.details))
    ensures match old(conn.details[0])
      case Err(e) => diags == [e] && d.fields == old(d.fields)
      case Ok(detail) => diags == [] && d.fields == ReadFields(old(d.fields), old(d.id), detail)
  {
    var res := conn.DescribeDcdnDomainDetail(d.id);
    if res.Err? {
      return [res.error];
    }
    var detail := res.value;

    d.Set("domain_name", Str(d.id));
    d.Set("resource_group_id", Str(detail.resourceGroupId));
    d.Set("scope", Str(detail.scope));
    var sources := CollectSources(detail.sources);
    assert sources == SourceRows(detail.sources);
    d.Set("sources", Rows(sources));
    d.Set("sources", Rows(sources));  // the driver stores the list twice
    d.Set("cname", Str(detail.cname));
    diags := [];
  }

  /** Create's request building: the optional fields are set only when the record has them. */
  method NewAddRequest(d: ResourceData) returns (request: AddDomainRequest)
    ensures request == AddRequest(d)
  {
    request := AddDomainRequest(d.GetString("domain_name"), "", "", []);
    if d.GetOk("resource_group_id") {
      request := request.(resourceGroupId := d.GetString("resource_group_id"));
    }
    if d.GetOk("scope") {
      request := request.(scope := d.GetString("scope"));
    }
    var sources := ConvertSources(d.GetRows("sources"));
    request := request.(sources := sources);
  }

  /** Update's request building: a field is filled in only when it changed; `updateDomain` says whether any did. */
  method NewUpdateRequest(d: ResourceData) returns (updateDomain: bool, request: UpdateDomainRequest)
    ensures updateDomain == UpdatesDomain(d)
    ensures request == UpdateRequest(d)
  {
    updateDomain := false;
    request := UpdateDomainRequest(d.id, "", None);
    if d.HasChange("resource_group_id") {
      updateDomain := true;
      request := request.(resourceGroupId := d.GetString("resource_group_id"));
    }
    if d.HasChange("sources") {
      updateDomain := true;
      var sources := ConvertSources(d.GetRows("sources"));
      assert sources == SourcesPayload(d.GetRows("sources"));
      request := request.(sources := Some(sources));
    }
  }

  method Create(d: ResourceData, conn: Conn, fuel: nat) returns (diags: Diagnostics)
    requires conn.Valid()
    modifies d, conn`log, conn`details
    ensures conn.Valid()
    ensures var add := AddDcdnDomain(old(AddRequest(d)));
      var domain := old(d.GetString("domain_name"));
      var run := ProbeRun(old(conn.details), fuel);
      if conn.addDomain.Some? then
        && diags == [conn.addDomain.value] && d.id == old(d.id) && d.fields == old(d.fields)
        && conn.log == old(conn.log) + [add] && conn.details == old(conn.details)
      else if !run.last.Ready? then
        && diags == [RetryResult(run.last).value] && d.id == old(d.id) && d.fields == old(d.fields)
        && conn.log == old(conn.log) + [add] + Polls(domain, run.polls)
        && conn.details == AdvanceBy(old(conn.details), run.polls)
      else
        && d.id == domain
        && conn.log == old(conn.log) + [add] + Polls(domain, run.polls) + [DescribeDcdnDomainDetail(domain)]
        && conn.details == Advance(AdvanceBy(old(conn.details), run.polls))
        && match AdvanceBy(old(conn.details), run.polls)[0]
           case Err(e) => diags == [e] && d.fields == old(d.fields)
           case Ok(detail) => diags == [] && d.fields == ReadFields(old(d.fields), domain, detail)
  {
    var domain := d.GetString("domain_name");
    ghost var add := AddDcdnDomain(AddRequest(d));
    var request := NewAddRequest(d);
    var err := conn.AddDcdnDomain(request);
    if err.Some? {
      return [err.value];
    }
    assert conn.log == old(conn.log) + [add];

    err := WaitForOnline(conn, domain, fuel);
    if err.Some? {
      return [err.value];
    }

    d.SetId(domain);
    diags := Read(d, conn);
  }

  method Update(d: ResourceData, conn: Conn) returns (diags: Diagnostics)
    requires conn.Valid()
    modifies d`fields, conn`log, conn`details
    ensures conn.Valid() && d.id == old(d.id)
    ensures var scopeCall := ModifyDCdnDomainSchdmByProperty(old(d.id), ScopeProperty(old(d.GetString("scope"))));
      if d.HasChange("scope") && conn.modifyScope.Some? then
        && diags == [conn.modifyScope.value] && d.fields == old(d.fields)
        && conn.log == old(conn.log) + [scopeCall] && conn.details == old(conn.details)
      else if UpdatesDomain(d) && conn.updateDomain.Some? then
        && diags == [conn.updateDomain.value] && d.fields == old(d.fields)
        && conn.log == old(conn.log) + old(UpdatePlan(d)) && conn.details == old(conn.details)
      else
        && conn.log == old(conn.log) + old(UpdatePlan(d)) + [DescribeDcdnDomainDetail(old(d.id))]
        && conn.details == Advance(old(conn.details))
        && match old(conn.details[0])
           case Err(e) => diags == [e] && d.fields == old(d.fields)
           case Ok(detail) => diags == [] && d.fields == ReadFields(old(d.fields), old(d.id), detail)
  {
    if d.HasChange("scope") {
      var err := conn.ModifyDCdnDomainSchdmByProperty(d.id, ScopeProperty(d.GetString("scope")));
      if err.Some? {
        return [err.value];
      }
    }

    assert conn.log == old(conn.log)
      + (if d.HasChange("scope") then [ModifyDCdnDomainSchdmByProperty(d.id, ScopeProperty(d.GetString("scope")))] else []);

    var updateDomain, request := NewUpdateRequest(d);
    if updateDomain {
      var err := conn.UpdateDcdnDomain(request);
      if err.Some? {
        return [err.value];
      }
    }
    assert conn.log == old(conn.log) + UpdatePlan(d);

    diags := Read(d, conn);
  }

  /** Delete: the id is the domain name; every error is returned and keeps the id. */
  method Delete(d: ResourceData, conn: Conn) returns (diags: Diagnostics)
    modifies d`id, conn`log
    ensures conn.log == old(conn.log) + [DeleteDcdnDomain(old(d.id))]
    ensures conn.deleteDomain.None? ==> diags == [] && d.id == ""
    ensures conn.deleteDomain.Some? ==> diags == [conn.deleteDomain.value] && d.id == old(d.id)
  {
    var err := conn.DeleteDcdnDomain(d.id);
    if err.Some? {
      return [err.value];
    }
    d.SetId("");
    diags := [];
  }
}
