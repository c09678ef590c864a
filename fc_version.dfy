/**
 * The FC version driver: Create publishes a new version of a Function
 * Compute service and stores its VersionID as the id, Read refreshes the
 * description, Delete removes the version. There is no Update: both
 * fields force a new version.
 */
module FcVersion {
  import opened Wrappers
  import opened Common
  import opened Schema
  import opened FcClient

  /** The text by which Delete recognises a version that is already gone. */
  const NotFoundMarker: string := "\"HttpStatus\": 404,"

  /** Read asks for at most one version, starting at the stored id. */
  const ListLimit: int := 1

  /** Delete takes an error to mean "already deleted" when its Error() text carries the 404 marker. */
  predicate AlreadyGone(e: Error)
    ensures AlreadyGone(e) ==> |ErrorText(e)| >= |NotFoundMarker|
  {
    Contains(ErrorText(e), NotFoundMarker)
  }

  /** Any error whose text embeds the marker is taken as "already gone", whatever surrounds it. */
  lemma MarkedErrorIsGone(e: Error, before: string, after: string)
    requires ErrorText(e) == before + NotFoundMarker + after
    ensures AlreadyGone(e)
  {
    ContainsInfix(before, NotFoundMarker, after);
  }

  /**
   * A 404 wrapped in a ComplexError (by WrapError or WrapComplexError) is
   * still taken as "already gone": the wrapper's text ends with its cause's.
   */
  lemma WrappedGoneErrorIsGone(cause: Error, err: Option<Error>, path: string, line: int)
    requires AlreadyGone(cause)
    ensures AlreadyGone(WrapComplexError(Some(cause), err, path, line))
  {
    var lineText := IntToString(line);
    var head := if err.None? then ErrorTag + path + ":" + lineText + ":\n"
                else ErrorTag + path + ":" + lineText + ": " + ErrorText(err.value) + ":\n";
    assert ErrorText(Complex(Some(cause), err, path, line)) == head + ErrorText(cause);
    ContainsAfterPrefix(head, ErrorText(cause), NotFoundMarker);
  }

  /**
   * The PublishServiceVersionInput Create prepares in `input`: the
   * service name and, when set, the description.
   */
  ghost function PreparedInput(d: ResourceData): PublishServiceVersionInput
    reads d
  {
    PublishServiceVersionInput(
      d.GetString("service_name"),
      if d.GetOk("description") then Some(d.GetString("description")) else None)
  }

  /** The input Create actually publishes: a fresh one holding only the service name. */
  function SentInput(serviceName: string): (input: PublishServiceVersionInput)
    ensures input.serviceName == serviceName && input.description.None?
  {
    PublishServiceVersionInput(serviceName, None)
  }

  /**
   * The description a user sets never reaches PublishServiceVersion: the
   * prepared input carries it, the published one does not.
   */
  lemma DescriptionNeverSent(d: ResourceData)
    requires d.GetOk("description")
    ensures PreparedInput(d).description == Some(d.GetString("description"))
    ensures SentInput(d.GetString("service_name")) != PreparedInput(d)
  {
  }

  /** The record after a successful Read: the description is taken only from a single listed version. */
  function ReadFields(fields: map<string, Value>, versions: seq<Version>): map<string, Value>
  {
    if |versions| == 1 then fields["description" := Str(versions[0].description)] else fields
  }

  /** Reading the same listing twice changes nothing the first Read did not. */
  lemma ReadFieldsIdempotent(fields: map<string, Value>, versions: seq<Version>)
    ensures ReadFields(ReadFields(fields, versions), versions) == ReadFields(fields, versions)
  {
    if |versions| == 1 {
      var once := ReadFields(fields, versions);
      assert ReadFields(once, versions) == once["description" := Str(versions[0].description)];
    }
  }

  /** Read touches no field but description. */
  lemma ReadFieldsKeepsOthers(fields: map<string, Value>, versions: seq<Version>, key: string)
    requires key != "description"
    ensures key in ReadFields(fields, versions) <==> key in fields
    ensures key in fields ==> ReadFields(fields, versions)[key] == fields[key]
  {
  }

  /** Anything but exactly one listed version leaves the record unchanged, without an error. */
  lemma ReadFieldsNeedsOneVersion(fields: map<string, Value>, versions: seq<Version>)
    requires |versions| != 1
    ensures ReadFields(fields, versions) == fields
  {
  }

  /**
   * The listed version's id is never compared with the stored one: the
   * version listing from StartKey = id gives the record its description
   * whatever its VersionID is.
   */
  lemma ReadFieldsIgnoresVersionId(fields: map<string, Value>, listed: Version, other: Version)
    requires listed.description == other.description
    ensures ReadFields(fields, [listed]) == ReadFields(fields, [other])
    ensures ReadFields(fields, [listed])["description"] == Str(listed.description)
  {
  }

  method Read(d: ResourceData, conn: Conn) returns (diags: Diagnostics)
    modifies d`fields, conn`log
    ensures d.id == old(d.id)
    ensures conn.log == old(conn.log) + [ListServiceVersions(old(d.GetString("service_name")), old(d.id), ListLimit)]
    ensures match conn.listServiceVersions
      case Err(e) => diags == [e] && d.fields == old(d.fields)
      case Ok(versions) => diags == [] && d.fields == ReadFields(old(d.fields), versions)
  {
    var serviceName := d.GetString("service_name");
    var reply := conn.ListServiceVersions(serviceName, d.id, ListLimit);
    if reply.Err? {
      return [reply.error];
    }
    var versions := reply.value;
    if |versions| == 1 {
      d.Set("description", Str(versions[0].description));
    }
    diags := [];
  }

  /**
   * Create as the driver is written: `input` gets the description, but
   * the call is made with a fresh input holding only the service name.
   */
  method Create(d: ResourceData, conn: Conn) returns (diags: Diagnostics)
    modifies d, conn`log
    ensures var publish := PublishServiceVersion(SentInput(old(d.GetString("service_name"))));
      match conn.publishServiceVersion
      case Err(e) =>
        && diags == [e] && d.id == old(d.id) && d.fields == old(d.fields)
        && conn.log == old(conn.log) + [publish]
      case Ok(versionId) =>
        && d.id == versionId
        && conn.log == old(conn.log) + [publish, ListServiceVersions(old(d.GetString("service_name")), versionId, ListLimit)]
        && match conn.listServiceVersions
           case Err(e) => diags == [e] && d.fields == old(d.fields)
           case Ok(versions) => diags == [] && d.fields == ReadFields(old(d.fields), versions)
  {
    var serviceName := d.GetString("service_name");
    var input := PublishServiceVersionInput(serviceName, None);
    if d.GetOk("description") {
      input := input.(description := Some(d.GetString("description")));
    }

    var v := conn.PublishServiceVersion(PublishServiceVersionInput(serviceName, None));
    if v.Err? {
      return [v.error];
    }

    d.SetId(v.value);
    diags := Read(d, conn);
  }

  /** Create as evidently intended: the prepared input, description included, is the one published. */
  method CreateWithDescription(d: ResourceData, conn: Conn) returns (diags: Diagnostics)
    modifies d, conn`log
    ensures var publish := PublishServiceVersion(old(PreparedInput(d)));
      match conn.publishServiceVersion
      case Err(e) =>
        && diags == [e] && d.id == old(d.id) && d.fields == old(d.fields)
        && conn.log == old(conn.log) + [publish]
      case Ok(versionId) =>
        && d.id == versionId
        && conn.log == old(conn.log) + [publish, ListServiceVersions(old(d.GetString("service_name")), versionId, ListLimit)]
        && match conn.listServiceVersions
           case Err(e) => diags == [e] && d.fields == old(d.fields)
           case Ok(versions) => diags == [] && d.fields == ReadFields(old(d.fields), versions)
  {
    var serviceName := d.GetString("service_name");
    var input := PublishServiceVersionInput(serviceName, None);
    if d.GetOk("description") {
      input := input.(description := Some(d.GetString("description")));
    }

    var v := conn.PublishServiceVersion(input);
    if v.Err? {
      return [v.error];
    }

    d.SetId(v.value);
    diags := Read(d, conn);
  }

  method Delete(d: ResourceData, conn: Conn) returns (diags: Diagnostics)
    modifies d`id, conn`log
    ensures conn.log == old(conn.log) + [DeleteServiceVersion(old(d.GetString("service_name")), old(d.id))]
    ensures conn.deleteServiceVersion.None? || AlreadyGone(conn.deleteServiceVersion.value) ==>
      diags == [] && d.id == ""
    ensures conn.deleteServiceVersion.Some? && !AlreadyGone(conn.deleteServiceVersion.value) ==>
      diags == [conn.deleteServiceVersion.value] && d.id == old(d.id)
  {
    var id := d.id;
    var serviceName := d.GetString("service_name");

    var err := conn.DeleteServiceVersion(serviceName, id);
    if err.Some? {
      if !AlreadyGone(err.value) {
        return [err.value];
      }
    }

    d.SetId("");
    diags := [];
  }
}
