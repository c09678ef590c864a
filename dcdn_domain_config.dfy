/**
 * The DCDN domain config driver: Create sets one function (a named group
 * of arguments) on a domain with BatchSetDcdnDomainConfigs and stores
 * "<domain>:<function>" as the id; Read and Delete look the function up
 * again with DescribeDcdnDomainConfigs and use the first config returned.
 * There is no Update: every field forces a new resource.
 */
module DcdnDomainConfig {
  import opened Wrappers
  import opened Common
  import opened Schema
  import opened DcdnClient

  /** Argument names Read leaves out of function_args: certificate material and the HTTPS switch. */
  const HiddenArgs: set<string> := {"cert", "cert_id", "cert_name", "cert_type", "dkey", "pkey", "https"}

  predicate Hidden(name: string)
  {
    name in HiddenArgs
  }

  // ------------------------------------------------------------------
  // Arguments: record elements, request payload, response entries
  // ------------------------------------------------------------------

  /** One element of the functionArgs payload Create builds from one "function_args" element. */
  function ArgPayload(arg: map<string, Scalar>): Payload
  {
    map["argName" := Lookup(arg, "arg_name"), "argValue" := Lookup(arg, "arg_value")]
  }

  function ArgsPayload(args: seq<map<string, Scalar>>): seq<Payload>
  {
    seq(|args|, i requires 0 <= i < |args| => ArgPayload(args[i]))
  }

  /** Create's loop: one payload element per "function_args" element, at the same position. */
  method BuildFunctionArgs(functionArgs: seq<map<string, Scalar>>) returns (args: seq<Payload>)
    ensures |args| == |functionArgs|
    ensures forall i :: 0 <= i < |functionArgs| ==> args[i] == ArgPayload(functionArgs[i])
  {
    var slots := new Payload[|functionArgs|](_ => map[]);
    for key := 0 to |functionArgs|
      invariant forall j :: 0 <= j < key ==> slots[j] == ArgPayload(functionArgs[j])
    {
      slots[key] := ArgPayload(functionArgs[key]);
    }
    args := slots[..];
  }

  /** The "function_args" element Read builds from one argument of the response. */
  function ArgRow(a: FunctionArg): map<string, Scalar>
  {
    map["arg_name" := SStr(a.argName), "arg_value" := SStr(a.argValue)]
  }

  function ArgRows(args: seq<FunctionArg>): seq<map<string, Scalar>>
  {
    seq(|args|, i requires 0 <= i < |args| => ArgRow(args[i]))
  }

  /** Reads a payload element back into an argument, when both keys carry strings. */
  function PayloadArg(p: Payload): Option<FunctionArg>
  {
    if && "argName" in p && p["argName"].Some? && p["argName"].value.SStr?
       && "argValue" in p && p["argValue"].Some? && p["argValue"].value.SStr?
    then Some(FunctionArg(p["argName"].value.s, p["argValue"].value.s))
    else None
  }

  /** An argument Read stores converts back into a payload element naming that same argument. */
  lemma ArgRoundTrip(a: FunctionArg)
    ensures PayloadArg(ArgPayload(ArgRow(a))) == Some(a)
  {
  }

  /**
   * An element without arg_name is not refused: Create copies the nil
   * lookup and json.Marshal sends argName as JSON null. Such a payload
   * converts back (through PayloadArg) into no argument. The plugin SDK
   * fills every key of a "function_args" element, so a record never holds
   * such an element.
   */
  lemma MissingArgNameSendsNil(arg: map<string, Scalar>)
    requires "arg_name" !in arg
    ensures ArgPayload(arg)["argName"] == None && PayloadArg(ArgPayload(arg)) == None
  {
  }

  /** The arguments Read keeps, in response order: every one whose name is not hidden. */
  function Kept(args: seq<FunctionArg>): (r: seq<FunctionArg>)
    ensures |r| <= |args|
    ensures forall i :: 0 <= i < |r| ==> r[i] in args && !Hidden(r[i].argName)
  {
    if |args| == 0 then []
    else (if Hidden(args[0].argName) then [] else [args[0]]) + Kept(args[1..])
  }

  /** Read keeps exactly the arguments whose names are not hidden. */
  lemma {:induction false} KeptMembers(args: seq<FunctionArg>)
    ensures forall a :: a in Kept(args) <==> a in args && !Hidden(a.argName)
    ensures |Kept(args)| <= |args|
  {
    if |args| > 0 {
      KeptMembers(args[1..]);
      assert args == [args[0]] + args[1..];
    }
  }

  /** Filtering works element by element: it distributes over concatenation, so the kept arguments keep their order. */
  lemma {:induction false} KeptAppend(a: seq<FunctionArg>, b: seq<FunctionArg>)
    ensures Kept(a + b) == Kept(a) + Kept(b)
  {
    if |a| > 0 {
      KeptAppend(a[1..], b);
      assert (a + b)[1..] == a[1..] + b;
    } else {
      assert a + b == b;
    }
  }

  /** A list with no hidden argument is kept whole, and filtering twice is filtering once. */
  lemma {:induction false} KeptIdentity(args: seq<FunctionArg>)
    ensures (forall i :: 0 <= i < |args| ==> !Hidden(args[i].argName)) ==> Kept(args) == args
    ensures Kept(Kept(args)) == Kept(args)
  {
    if |args| > 0 {
      KeptIdentity(args[1..]);
      var head := if Hidden(args[0].argName) then [] else [args[0]];
      KeptAppend(head, Kept(args[1..]));
      if !Hidden(args[0].argName) {
        assert Kept(head) == head by {
          assert head[1..] == [];
        }
      }
    }
  }

  /** Read's loop over the config's arguments: the hidden ones are skipped, the rest become elements. */
  method CollectArgs(args: seq<FunctionArg>) returns (funArgs: seq<map<string, Scalar>>)
    ensures funArgs == ArgRows(Kept(args))
  {
    funArgs := [];
    for i := 0 to |args|
      invariant funArgs == ArgRows(Kept(args[..i]))
    {
      assert args[..i + 1] == args[..i] + [args[i]];
      KeptAppend(args[..i], [args[i]]);
      assert Kept([args[i]]) == (if Hidden(args[i].argName) then [] else [args[i]]) by {
        assert [args[i]][1..] == [];
      }
      if !Hidden(args[i].argName) {
        funArgs := funArgs + [ArgRow(args[i])];
      }
    }
    assert args[..|args|] == args;
  }

  // ------------------------------------------------------------------
  // The id
  // ------------------------------------------------------------------

  /** The id Create stores: the domain name and the function name, colon separated. */
  function ConfigId(domain: string, functionName: string): string
  {
    domain + ":" + functionName
  }

  /** The id parses back into its two parts when neither holds a colon. */
  lemma ConfigIdParses(domain: string, functionName: string)
    requires ':' !in domain && ':' !in functionName
    ensures ParseResourceId(ConfigId(domain, functionName), 2) == Parsed([domain, functionName], None)
  {
    var parts := [domain, functionName];
    assert Join(parts[1..], ':') == functionName;
    assert Join(parts, ':') == ConfigId(domain, functionName);
    ParseJoinedId(parts);
  }

  /** A colon in either part makes the id split into more than two parts. */
  lemma ConfigIdWithColonFails(domain: string, functionName: string)
    requires ':' in domain || ':' in functionName
    ensures ParseResourceId(ConfigId(domain, functionName), 2).err.Some?
  {
    var id := ConfigId(domain, functionName);
    ParsePieces(id, 2);
    assert multiset(id)[':'] == multiset(domain)[':'] + 1 + multiset(functionName)[':'];
  }

  // ------------------------------------------------------------------
  // Record and requests
  // ------------------------------------------------------------------

  /** The record after a successful Read: names from the id, arguments from the first config, hidden ones dropped. */
  function ReadFields(fields: map<string, Value>, parts: seq<string>, config: DomainConfig): map<string, Value>
    requires |parts| == 2
  {
    fields["domain_name" := Str(parts[0])]["function_name" := Str(parts[1])]
      ["function_args" := Rows(ArgRows(Kept(config.functionArgs)))]
  }

  /**
   * Create then Read: when the first config returned carries the arguments
   * Create sent, none of them hidden, Read stores those same arguments in
   * the same order, and the names from the id.
   */
  lemma ReadRestoresArgs(fields: map<string, Value>, domain: string, functionName: string, config: DomainConfig)
    requires forall i :: 0 <= i < |config.functionArgs| ==> !Hidden(config.functionArgs[i].argName)
    ensures var r := ReadFields(fields, [domain, functionName], config);
      && r["domain_name"] == Str(domain) && r["function_name"] == Str(functionName)
      && r["function_args"] == Rows(ArgRows(config.functionArgs))
      && forall i :: 0 <= i < |config.functionArgs| ==>
           PayloadArg(ArgPayload(r["function_args"].rows[i])) == Some(config.functionArgs[i])
  {
    KeptIdentity(config.functionArgs);
    forall i | 0 <= i < |config.functionArgs|
      ensures PayloadArg(ArgPayload(ArgRows(config.functionArgs)[i])) == Some(config.functionArgs[i])
    {
      ArgRoundTrip(config.functionArgs[i]);
    }
  }

  /** A hidden argument the server reports never shows up in the record. */
  lemma ReadHidesArgs(fields: map<string, Value>, parts: seq<string>, config: DomainConfig, a: FunctionArg)
    requires |parts| == 2 && Hidden(a.argName)
    ensures ArgRow(a) !in ReadFields(fields, parts, config)["function_args"].rows
  {
    var kept := Kept(config.functionArgs);
    KeptMembers(config.functionArgs);
    forall i | 0 <= i < |kept|
      ensures ArgRows(kept)[i] != ArgRow(a)
    {
      assert kept[i] in kept;
      assert ArgRow(kept[i])["arg_name"] != SStr(a.argName);
    }
  }

  /** The Functions Create sends: a one-element list for the record's function and its arguments. */
  ghost function FunctionsSent(d: ResourceData): seq<FunctionConfig>
    reads d
  {
    [FunctionConfig(d.GetString("function_name"), ArgsPayload(d.GetRows("function_args")))]
  }

  // ------------------------------------------------------------------
  // The lifecycle operations
  // ------------------------------------------------------------------

  /**
   * Read. `panicked` is Go's index-out-of-range panic when the lookup
   * returns no config at all; the record is then left as it was.
   */
  method Read(d: ResourceData, conn: Conn) returns (diags: Diagnostics, panicked: bool)
    modifies d`fields, conn`log
    ensures d.id == old(d.id)
    ensures old(conn.log) <= conn.log && |conn.log| <= |old(conn.log)| + 1
    ensures var p := ParseResourceId(old(d.id), 2);
      if p.err.Some? then
        && diags == [p.err.value] && !panicked && d.fields == old(d.fields) && conn.log == old(conn.log)
      else
        && conn.log == old(conn.log) + [DescribeDcdnDomainConfigs(p.parts[0], p.parts[1])]
        && match conn.describeConfigs
           case Err(e) => diags == [e] && !panicked && d.fields == old(d.fields)
           case Ok(configs) =>
             if |configs| == 0 then panicked && diags == [] && d.fields == old(d.fields)
             else !panicked && diags == [] && d.fields == ReadFields(old(d.fields), p.parts, configs[0])
  {
    panicked := false;
    var p := ParseResourceId(d.id, 2);
    if p.err.Some? {
      return [p.err.value], false;
    }
    var res := conn.DescribeDcdnDomainConfigs(p.parts[0], p.parts[1]);
    if res.Err? {
      return [res.error], false;
    }
    if |res.value| == 0 {
      return [], true;
    }
    var config := res.value[0];

    var funArgs := CollectArgs(config.functionArgs);

    d.Set("domain_name", Str(p.parts[0]));
    d.Set("function_name", Str(p.parts[1]));
    d.Set("function_args", Rows(funArgs));
    diags := [];
  }

  /** Create: the batch call, then the id, then Read. */
  method Create(d: ResourceData, conn: Conn) returns (diags: Diagnostics, panicked: bool)
    modifies d, conn`log
    ensures var domain, fn := old(d.GetString("domain_name")), old(d.GetString("function_name"));
      var batch := BatchSetDcdnDomainConfigs(domain, old(FunctionsSent(d)));
      if conn.batchSetConfigs.Some? then
        && diags == [conn.batchSetConfigs.value] && !panicked && d.id == old(d.id) && d.fields == old(d.fields)
        && conn.log == old(conn.log) + [batch]
      else
        && d.id == ConfigId(domain, fn)
        && (':' in domain || ':' in fn ==>
              && conn.log == old(conn.log) + [batch] && !panicked && d.fields == old(d.fields)
              && ParseResourceId(d.id, 2).err.Some? && diags == [ParseResourceId(d.id, 2).err.value])
        && (':' !in domain && ':' !in fn ==>
              && conn.log == old(conn.log) + [batch, DescribeDcdnDomainConfigs(domain, fn)]
              && match conn.describeConfigs
                 case Err(e) => diags == [e] && !panicked && d.fields == old(d.fields)
                 case Ok(configs) =>
                   if |configs| == 0 then panicked && diags == [] && d.fields == old(d.fields)
                   else !panicked && diags == [] && d.fields == ReadFields(old(d.fields), [domain, fn], configs[0]))
  {
    var functionName := d.GetString("function_name");
    var args := BuildFunctionArgs(d.GetRows("function_args"));
    assert args == ArgsPayload(d.GetRows("function_args"));
    var config := [FunctionConfig(functionName, args)];

    var domainNames := d.GetString("domain_name");
    var err := conn.BatchSetDcdnDomainConfigs(domainNames, config);
    if err.Some? {
      return [err.value], false;
    }

    d.SetId(ConfigId(domainNames, functionName));
    if ':' !in domainNames && ':' !in functionName {
      ConfigIdParses(domainNames, functionName);
    } else {
      ConfigIdWithColonFails(domainNames, functionName);
    }
    diags, panicked := Read(d, conn);
  }

  /** Delete: the first config the lookup returns is the one deleted; every error is returned and keeps the id. */
  method Delete(d: ResourceData, conn: Conn) returns (diags: Diagnostics, panicked: bool)
    modifies d`id, conn`log
    ensures var p := ParseResourceId(old(d.id), 2);
      if p.err.Some? then
        && diags == [p.err.value] && !panicked && d.id == old(d.id) && conn.log == old(conn.log)
      else
        var describe := DescribeDcdnDomainConfigs(p.parts[0], p.parts[1]);
        match conn.describeConfigs
        case Err(e) => diags == [e] && !panicked && d.id == old(d.id) && conn.log == old(conn.log) + [describe]
        case Ok(configs) =>
          if |configs| == 0 then
            panicked && diags == [] && d.id == old(d.id) && conn.log == old(conn.log) + [describe]
          else
            && !panicked
            && conn.log == old(conn.log) + [describe, DeleteDcdnSpecificConfig(configs[0].configId, p.parts[0])]
            && (conn.deleteSpecificConfig.None? ==> diags == [] && d.id == "")
            && (conn.deleteSpecificConfig.Some? ==> diags == [conn.deleteSpecificConfig.value] && d.id == old(d.id))
  {
    var p := ParseResourceId(d.id, 2);
    if p.err.Some? {
      return [p.err.value], false;
    }
    var res := conn.DescribeDcdnDomainConfigs(p.parts[0], p.parts[1]);
    if res.Err? {
      return [res.error], false;
    }
    if |res.value| == 0 {
      return [], true;
    }
    var config := res.value[0];

    var err := conn.DeleteDcdnSpecificConfig(config.configId, p.parts[0]);
    if err.Some? {
      return [err.value], false;
    }

    d.SetId("");
    diags, panicked := [], false;
  }
}
