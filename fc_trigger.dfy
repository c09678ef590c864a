/**
 * The FC trigger driver: Create, Read, Update and Delete of a Function
 * Compute trigger, whose id is service:function:trigger.
 */
module FcTrigger {
  import opened Wrappers
  import opened Common
  import opened Schema
  import opened FcClient

  /** fc.TRIGGER_TYPE_MNS_TOPIC */
  const MnsTopic: string := "mns_topic"

  /** resource.UniqueId() is resource.PrefixedUniqueId with this prefix. */
  const UniqueIdPrefix: string := "terraform-"

  /** The codes under which Delete takes the trigger to be gone already. */
  const NotFoundCodes: seq<string> := ["ServiceNotFound", "FunctionNotFound", "TriggerNotFound"]

  /** The record field that holds the trigger config: config_mns for MNS topic triggers, config otherwise. */
  function ConfigField(triggerType: string): string
  {
    if triggerType == MnsTopic then "config_mns" else "config"
  }

  /** The id Create stores: service, function and trigger name joined with COLON_SEPARATED. */
  function TriggerId(serviceName: string, functionName: string, triggerName: string): string
  {
    serviceName + ColonSeparated + functionName + ColonSeparated + triggerName
  }

  /** A stored trigger id parses back into its three parts when none of them holds a colon. */
  lemma TriggerIdParses(serviceName: string, functionName: string, triggerName: string)
    requires ':' !in serviceName && ':' !in functionName && ':' !in triggerName
    ensures ParseResourceId(TriggerId(serviceName, functionName, triggerName), 3)
         == Parsed([serviceName, functionName, triggerName], None)
  {
    var parts := [serviceName, functionName, triggerName];
    assert parts[1..][1..] == [triggerName];
    assert Join(parts[1..], ':') == functionName + [':'] + triggerName;
    assert Join(parts, ':') == TriggerId(serviceName, functionName, triggerName);
    ParseJoinedId(parts);
  }

  /** A part holding a colon makes the stored id split into more than three parts. */
  lemma TriggerIdWithColonFails(serviceName: string, functionName: string, triggerName: string)
    requires ':' in serviceName || ':' in functionName || ':' in triggerName
    ensures ParseResourceId(TriggerId(serviceName, functionName, triggerName), 3).err.Some?
  {
    var id := TriggerId(serviceName, functionName, triggerName);
    ParsePieces(id, 3);
    assert multiset(id)[':'] == multiset(serviceName)[':'] + 1 + multiset(functionName)[':'] + 1 + multiset(triggerName)[':'];
  }

  /**
   * The CreateTrigger call Create issues for the record in `d`: the name
   * is `name` verbatim, else PrefixedUniqueId(name_prefix), else
   * UniqueId(), where `uniqueSuffix` is what the id generator appends; the
   * config comes from the field ConfigField(type) and the source ARN is
   * sent only when set.
   */
  ghost function CreateCall(d: ResourceData, uniqueSuffix: string): Call
    reads d
  {
    var triggerType := d.GetString("type");
    var configField := ConfigField(triggerType);
    CreateTrigger(
      d.GetString("service"),
      d.GetString("function"),
      TriggerCreateObject(
        if d.GetOk("name") then d.GetString("name")
        else if d.GetOk("name_prefix") then d.GetString("name_prefix") + uniqueSuffix
        else UniqueIdPrefix + uniqueSuffix,
        triggerType,
        d.GetString("role"),
        if d.GetOk(configField) then Some(d.GetString(configField)) else None,
        d.GetString("qualifier"),
        if d.GetOk("source_arn") && d.GetString("source_arn") != "" then Some(d.GetString("source_arn")) else None))
  }

  /** The UpdateTriggerInput Update sends: only role, config and qualifier that changed are filled in. */
  ghost function UpdateInput(d: ResourceData, parts: seq<string>): UpdateTriggerInput
    requires |parts| == 3
    reads d
  {
    UpdateTriggerInput(
      parts[0], parts[1], parts[2],
      if d.HasChange("role") then Some(d.GetString("role")) else None,
      if d.HasChange("config") then Some(d.GetString("config")) else None,
      if d.HasChange("qualifier") then Some(d.GetString("qualifier")) else None)
  }

  /**
   * The record after a successful Read: service and function come from
   * the id, the rest from the trigger, and the config is written to the
   * field chosen by the type held BEFORE the type itself is overwritten.
   */
  ghost function ReadFields(fields: map<string, Value>, parts: seq<string>, t: Trigger): map<string, Value>
    requires |parts| == 3
  {
    var triggerType := if "type" in fields && fields["type"].Str? then fields["type"].s else "";
    fields["service" := Str(parts[0])]["function" := Str(parts[1])]
      ["name" := Str(t.triggerName)]["trigger_id" := Str(t.triggerId)]
      ["role" := Str(t.invocationRole)]["source_arn" := Str(t.sourceArn)]
      ["qualifier" := Str(t.qualifier)][ConfigField(triggerType) := Str(t.rawTriggerConfig)]
      ["type" := Str(t.triggerType)]["last_modified" := Str(t.lastModifiedTime)]
  }

  /**
   * The name Create asks for: a set name verbatim; otherwise the
   * generator's suffix behind name_prefix when one is set, else behind
   * UniqueId's "terraform-".
   */
  lemma TriggerNameChoice(d: ResourceData, uniqueSuffix: string)
    ensures var name := CreateCall(d, uniqueSuffix).triggerObject.triggerName;
      && (d.GetOk("name") ==> name == d.GetString("name"))
      && (!d.GetOk("name") ==>
            var prefix := if d.GetOk("name_prefix") then d.GetString("name_prefix") else UniqueIdPrefix;
            && |name| == |prefix| + |uniqueSuffix|
            && name[..|prefix|] == prefix && name[|prefix|..] == uniqueSuffix)
  {
  }

  /** The source ARN is sent exactly when the record holds a non-empty one. */
  lemma SourceArnSentWhenNonEmpty(d: ResourceData, uniqueSuffix: string)
    ensures var arn := CreateCall(d, uniqueSuffix).triggerObject.sourceArn;
      && (arn.Some? <==> d.GetString("source_arn") != "")
      && (arn.Some? ==> arn.value == d.GetString("source_arn"))
  {
    if d.GetString("source_arn") != "" {
      assert d.GetOk("source_arn");
    }
  }

  /**
   * Read's config routing: the returned config lands in the field Create
   * took the config from (chosen by the type the record held), the other
   * config field is left alone, and service and function come from the id.
   */
  lemma ReadFieldsRouting(fields: map<string, Value>, parts: seq<string>, t: Trigger)
    requires |parts| == 3
    ensures var triggerType := if "type" in fields && fields["type"].Str? then fields["type"].s else "";
      var r := ReadFields(fields, parts, t);
      var other := if ConfigField(triggerType) == "config" then "config_mns" else "config";
      && r[ConfigField(triggerType)] == Str(t.rawTriggerConfig)
      && (other in r <==> other in fields)
      && (other in fields ==> r[other] == fields[other])
      && r["service"] == Str(parts[0]) && r["function"] == Str(parts[1])
      && r["type"] == Str(t.triggerType)
  {
  }

  /**
   * Update sends role, config and qualifier each exactly when it changed,
   * with the record's new value, and names the trigger by the id's parts.
   */
  lemma UpdateInputCopiesChanges(d: ResourceData, parts: seq<string>)
    requires |parts| == 3
    ensures var u := UpdateInput(d, parts);
      && [u.serviceName, u.functionName, u.triggerName] == parts
      && (u.invocationRole.Some? <==> d.HasChange("role"))
      && (u.triggerConfig.Some? <==> d.HasChange("config"))
      && (u.qualifier.Some? <==> d.HasChange("qualifier"))
      && (u.invocationRole.Some? ==> u.invocationRole.value == d.GetString("role"))
      && (u.triggerConfig.Some? ==> u.triggerConfig.value == d.GetString("config"))
      && (u.qualifier.Some? ==> u.qualifier.value == d.GetString("qualifier"))
  {
  }

  method Read(d: ResourceData, conn: Conn) returns (diags: Diagnostics)
    modifies d`fields, conn`log
    ensures d.id == old(d.id)
    ensures old(conn.log) <= conn.log && |conn.log| <= |old(conn.log)| + 1
    ensures var p := ParseResourceId(old(d.id), 3);
      if p.err.Some? then diags == [p.err.value] && d.fields == old(d.fields) && conn.log == old(conn.log)
      else
        && conn.log == old(conn.log) + [GetTrigger(p.parts[0], p.parts[1], p.parts[2])]
        && match conn.getTrigger
           case Err(e) => diags == [e] && d.fields == old(d.fields)
           case Ok(t) => diags == [] && d.fields == ReadFields(old(d.fields), p.parts, t)
  {
    var p := ParseResourceId(d.id, 3);
    if p.err.Some? {
      return [p.err.value];
    }
    var service, fn, name := p.parts[0], p.parts[1], p.parts[2];
    var reply := conn.GetTrigger(service, fn, name);
    if reply.Err? {
      return [reply.error];
    }
    var trigger := reply.value;
    var configField := ConfigField(d.GetString("type"));
    d.Set("service", Str(p.parts[0]));
    d.Set("function", Str(p.parts[1]));
    d.Set("name", Str(trigger.triggerName));
    d.Set("trigger_id", Str(trigger.triggerId));
    d.Set("role", Str(trigger.invocationRole));
    d.Set("source_arn", Str(trigger.sourceArn));
    d.Set("qualifier", Str(trigger.qualifier));
    d.Set(configField, Str(trigger.rawTriggerConfig));
    d.Set("type", Str(trigger.triggerType));
    d.Set("last_modified", Str(trigger.lastModifiedTime));
    diags := [];
  }

  /** The TriggerCreateObject Create builds from the record before calling CreateTrigger. */
  method NewTriggerObject(d: ResourceData, uniqueSuffix: string) returns (triggerObject: TriggerCreateObject)
    ensures triggerObject == CreateCall(d, uniqueSuffix).triggerObject
  {
    var name: string;
    if d.GetOk("name") {
      name := d.GetString("name");
    } else if d.GetOk("name_prefix") {
      name := d.GetString("name_prefix") + uniqueSuffix;
    } else {
      name := UniqueIdPrefix + uniqueSuffix;
    }

    var config: Option<string> := None;
    if d.GetString("type") == MnsTopic {
      if d.GetOk("config_mns") {
        config := Some(d.GetString("config_mns"));
      }
    } else {
      if d.GetOk("config") {
        config := Some(d.GetString("config"));
      }
    }

    triggerObject := TriggerCreateObject(name, d.GetString("type"), d.GetString("role"), config,
                                      d.GetString("qualifier"), None);
    if d.GetOk("source_arn") && d.GetString("source_arn") != "" {
      triggerObject := triggerObject.(sourceArn := Some(d.GetString("source_arn")));
    }
  }

  method Create(d: ResourceData, conn: Conn, uniqueSuffix: string) returns (diags: Diagnostics)
    modifies d, conn`log
    ensures old(conn.log) + [old(CreateCall(d, uniqueSuffix))] <= conn.log
    ensures conn.createTrigger.Err? ==>
      && diags == [conn.createTrigger.error]
      && d.id == old(d.id) && d.fields == old(d.fields)
      && conn.log == old(conn.log) + [old(CreateCall(d, uniqueSuffix))]
    ensures conn.createTrigger.Ok? ==>
      var service, fn, name := old(d.GetString("service")), old(d.GetString("function")), conn.createTrigger.value;
      && d.id == TriggerId(service, fn, name)
      && (':' in service || ':' in fn || ':' in name ==>
           && conn.log == old(conn.log) + [old(CreateCall(d, uniqueSuffix))]
           && ParseResourceId(d.id, 3).err.Some? && diags == [ParseResourceId(d.id, 3).err.value]
           && d.fields == old(d.fields))
      && (':' !in service && ':' !in fn && ':' !in name ==>
           && conn.log == old(conn.log) + [old(CreateCall(d, uniqueSuffix)), GetTrigger(service, fn, name)]
           && match conn.getTrigger
              case Err(e) => diags == [e] && d.fields == old(d.fields)
              case Ok(t) => diags == [] && d.fields == ReadFields(old(d.fields), [service, fn, name], t))
  {
    var serviceName := d.GetString("service");
    var fcName := d.GetString("function");
    ghost var call := CreateCall(d, uniqueSuffix);
    var triggerObject := NewTriggerObject(d, uniqueSuffix);
    var response := conn.CreateTrigger(serviceName, fcName, triggerObject);
    if response.Err? {
      return [response.error];
    }

    ghost var created := conn.log;
    assert created == old(conn.log) + [call];
    d.SetId(TriggerId(serviceName, fcName, response.value));
    if ':' !in serviceName && ':' !in fcName && ':' !in response.value {
      TriggerIdParses(serviceName, fcName, response.value);
      diags := Read(d, conn);
    } else {
      TriggerIdWithColonFails(serviceName, fcName, response.value);
      diags := Read(d, conn);
    }
  }

  method Update(d: ResourceData, conn: Conn) returns (diags: Diagnostics)
    modifies d`fields, conn`log
    ensures d.id == old(d.id)
    ensures var p := ParseResourceId(old(d.id), 3);
      if p.err.Some? then diags == [p.err.value] && d.fields == old(d.fields) && conn.log == old(conn.log)
      else
        var update := UpdateTrigger(old(UpdateInput(d, p.parts)));
        if conn.updateTrigger.Some? then
          diags == [conn.updateTrigger.value] && d.fields == old(d.fields) && conn.log == old(conn.log) + [update]
        else
          && conn.log == old(conn.log) + [update, GetTrigger(p.parts[0], p.parts[1], p.parts[2])]
          && match conn.getTrigger
             case Err(e) => diags == [e] && d.fields == old(d.fields)
             case Ok(t) => diags == [] && d.fields == ReadFields(old(d.fields), p.parts, t)
  {
    var updateInput := UpdateTriggerInput("", "", "", None, None, None);
    if d.HasChange("role") {
      updateInput := updateInput.(invocationRole := Some(d.GetString("role")));
    }
    if d.HasChange("config") {
      updateInput := updateInput.(triggerConfig := Some(d.GetString("config")));
    }
    if d.HasChange("qualifier") {
      updateInput := updateInput.(qualifier := Some(d.GetString("qualifier")));
    }

    // The source guards the call with `updateInput != nil`, which always holds.
    var p := ParseResourceId(d.id, 3);
    if p.err.Some? {
      return [p.err.value];
    }
    updateInput := updateInput.(serviceName := p.parts[0], functionName := p.parts[1], triggerName := p.parts[2]);

    var err := conn.UpdateTrigger(updateInput);
    if err.Some? {
      return [err.value];
    }

    diags := Read(d, conn);
  }

  method Delete(d: ResourceData, conn: Conn) returns (diags: Diagnostics)
    modifies d`id, conn`log
    ensures var p := ParseResourceId(old(d.id), 3);
      if p.err.Some? then diags == [p.err.value] && d.id == old(d.id) && conn.log == old(conn.log)
      else
        && conn.log == old(conn.log) + [DeleteTrigger(p.parts[0], p.parts[1], p.parts[2])]
        && (conn.deleteTrigger.None? || IsExpectedErrors(conn.deleteTrigger, NotFoundCodes) ==>
              diags == [] && d.id == "")
        && (conn.deleteTrigger.Some? && !IsExpectedErrors(conn.deleteTrigger, NotFoundCodes) ==>
              diags == [conn.deleteTrigger.value] && d.id == old(d.id) && d.id != "")
  {
    var p := ParseResourceId(d.id, 3);
    if p.err.Some? {
      return [p.err.value];
    }

    var err := conn.DeleteTrigger(p.parts[0], p.parts[1], p.parts[2]);
    if err.Some? {
      if IsExpectedErrors(err, NotFoundCodes) {
        d.SetId("");
        return [];
      }
      return [err.value];
    }

    d.SetId("");
    diags := [];
  }
}
